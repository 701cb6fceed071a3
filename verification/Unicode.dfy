/** UTF-8 from its definition: the encoding of each code point, and from it what counts as valid
    UTF-8 and how text splits into words at white space. */
module Unicode {
  import opened Settings
  import opened Words
  import opened Messages

  /** A Unicode scalar value: a code point that is no surrogate. */
  type Scalar = c: int | 0 <= c < 0xD800 || 0xE000 <= c <= 0x10FFFF

  function Byte(b: int): char
    requires 0 <= b < 256
  {
    b as char
  }

  /** Six bits of a code point, the low ones when n is 0. */
  function Tail(bits: int): char
    requires bits >= 0
  {
    Byte(0x80 + bits % 64)
  }

  /** The one encoding of a code point, the shortest. */
  function EncodePoint(c: Scalar): (s: string)
    ensures 1 <= |s| <= 4
  {
    if c < 0x80 then [Byte(c)]
    else if c < 0x800 then [Byte(0xC0 + c / 64), Tail(c)]
    else if c < 0x1_0000 then [Byte(0xE0 + c / 4096), Tail(c / 64), Tail(c)]
    else [Byte(0xF0 + c / 262144), Tail(c / 4096), Tail(c / 64), Tail(c)]
  }

  function Encoded(text: seq<Scalar>): string {
    if text == [] then "" else EncodePoint(text[0]) + Encoded(text[1..])
  }

  predicate IsByteString(s: string) {
    forall k | 0 <= k < |s| :: (s[k] as int) < 256
  }

  // -------------------------------------------------------------------- validity

  lemma PointIsValid(c: Scalar, rest: string)
    ensures Utf8Valid(EncodePoint(c) + rest) <==> Utf8Valid(rest)
  {
    var s := EncodePoint(c) + rest;
    assert s[|EncodePoint(c)|..] == rest;
    if c < 0x80 {
      assert s[0] == Byte(c);
    } else if c < 0x800 {
      assert s[0] == Byte(0xC0 + c / 64) && s[1] == Tail(c);
    } else if c < 0x1_0000 {
      assert s[0] == Byte(0xE0 + c / 4096) && s[1] == Tail(c / 64) && s[2] == Tail(c);
    } else {
      assert s[0] == Byte(0xF0 + c / 262144) && s[1] == Tail(c / 4096) && s[2] == Tail(c / 64) && s[3] == Tail(c);
    }
  }

  lemma {:induction false} EncodedIsValid(text: seq<Scalar>)
    ensures Utf8Valid(Encoded(text))
  {
    if text != [] {
      EncodedIsValid(text[1..]);
      PointIsValid(text[0], Encoded(text[1..]));
    }
  }

  lemma TwoBytes(s: string) returns (c: Scalar)
    requires |s| >= 2 && 0xC2 <= s[0] as int <= 0xDF && IsContinuation(s[1], 0x80, 0xBF)
    ensures EncodePoint(c) == s[..2]
  {
    c := (s[0] as int - 0xC0) * 64 + (s[1] as int - 0x80);
    assert c / 64 == s[0] as int - 0xC0 && c % 64 == s[1] as int - 0x80;
  }

  lemma ThreeBytes(s: string) returns (c: Scalar)
    requires |s| >= 3 && 0xE0 <= s[0] as int <= 0xEF
    requires IsContinuation(s[1], if s[0] as int == 0xE0 then 0xA0 else 0x80, if s[0] as int == 0xED then 0x9F else 0xBF)
    requires IsContinuation(s[2], 0x80, 0xBF)
    ensures EncodePoint(c) == s[..3]
  {
    var high, low := (s[0] as int - 0xE0) * 64 + (s[1] as int - 0x80), s[2] as int - 0x80;
    c := high * 64 + low;
    assert c / 64 == high && c % 64 == low;
    assert high / 64 == s[0] as int - 0xE0 && high % 64 == s[1] as int - 0x80;
    assert c / 4096 == high / 64;
  }

  lemma FourBytes(s: string) returns (c: Scalar)
    requires |s| >= 4 && 0xF0 <= s[0] as int <= 0xF4
    requires IsContinuation(s[1], if s[0] as int == 0xF0 then 0x90 else 0x80, if s[0] as int == 0xF4 then 0x8F else 0xBF)
    requires IsContinuation(s[2], 0x80, 0xBF) && IsContinuation(s[3], 0x80, 0xBF)
    ensures EncodePoint(c) == s[..4]
  {
    var top := (s[0] as int - 0xF0) * 64 + (s[1] as int - 0x80);
    var high, low := top * 64 + (s[2] as int - 0x80), s[3] as int - 0x80;
    c := high * 64 + low;
    assert c / 64 == high && c % 64 == low;
    assert high / 64 == top && high % 64 == s[2] as int - 0x80;
    assert top / 64 == s[0] as int - 0xF0 && top % 64 == s[1] as int - 0x80;
    assert c / 4096 == top && c / 262144 == top / 64;
  }

  /** A valid string begins with a code point. */
  lemma FirstPoint(s: string) returns (c: Scalar)
    requires s != "" && Utf8Valid(s)
    ensures EncodePoint(c) <= s && Utf8Valid(s[|EncodePoint(c)|..])
  {
    var a := s[0] as int;
    if a < 0x80 {
      c := a;
      assert EncodePoint(c) == s[..1];
    } else if a <= 0xDF {
      c := TwoBytes(s);
    } else if a <= 0xEF {
      c := ThreeBytes(s);
    } else {
      c := FourBytes(s);
    }
  }

  lemma {:induction false} ValidIsEncoded(s: string) returns (text: seq<Scalar>)
    requires Utf8Valid(s)
    ensures s == Encoded(text)
    decreases |s|
  {
    if s == "" {
      text := [];
    } else {
      var c := FirstPoint(s);
      var rest := ValidIsEncoded(s[|EncodePoint(c)|..]);
      text := [c] + rest;
      assert text[1..] == rest && text[0] == c;
    }
  }

  ghost predicate IsEncoding(s: string) {
    exists text: seq<Scalar> :: s == Encoded(text)
  }

  /** A string is valid exactly if it encodes some text. */
  lemma ValidExactly(s: string)
    ensures Utf8Valid(s) <==> IsEncoding(s)
  {
    if Utf8Valid(s) {
      var text := ValidIsEncoded(s);
      assert s == Encoded(text);
    }
    if text: seq<Scalar> :| s == Encoded(text) {
      EncodedIsValid(text);
    }
  }

  // ------------------------------------------------------------------- white space

  /** What begins with a white-space point begins with its bytes, and nothing else does. */
  lemma SpaceExactly(c: Scalar, rest: string)
    ensures SpaceWidth(EncodePoint(c) + rest) == if IsSpace(c) then |EncodePoint(c)| else 0
  {
    var s := EncodePoint(c) + rest;
    if c < 0x80 {
      assert s[0] == Byte(c);
    } else if c < 0x800 {
      assert s[0] == Byte(0xC0 + c / 64) && s[1] == Tail(c);
    } else if c < 0x1_0000 {
      assert s[0] == Byte(0xE0 + c / 4096) && s[1] == Tail(c / 64) && s[2] == Tail(c);
      assert c == c / 4096 * 4096 + c / 64 % 64 * 64 + c % 64;
    } else {
      assert s[0] == Byte(0xF0 + c / 262144);
    }
  }

  predicate AllSpaces(text: seq<Scalar>) {
    forall k | 0 <= k < |text| :: IsSpace(text[k])
  }

  predicate IsWord(text: seq<Scalar>) {
    text != [] && forall k | 0 <= k < |text| :: !IsSpace(text[k])
  }

  /** Words with white space around them: a gap before each word, and one more at the end. */
  predicate IsLine(gaps: seq<seq<Scalar>>, words: seq<seq<Scalar>>) {
    && |gaps| == |words| + 1
    && (forall k | 0 <= k < |gaps| :: AllSpaces(gaps[k]) && (0 < k < |words| ==> gaps[k] != []))
    && forall k | 0 <= k < |words| :: IsWord(words[k])
  }

  function Woven(gaps: seq<seq<Scalar>>, words: seq<seq<Scalar>>): seq<Scalar>
    requires |gaps| == |words| + 1
  {
    if words == [] then gaps[0] else gaps[0] + words[0] + Woven(gaps[1..], words[1..])
  }

  function EncodedAll(words: seq<seq<Scalar>>): seq<string> {
    seq(|words|, k requires 0 <= k < |words| => Encoded(words[k]))
  }

  lemma {:induction false} EncodedConcat(a: seq<Scalar>, b: seq<Scalar>)
    ensures Encoded(a + b) == Encoded(a) + Encoded(b)
  {
    if a == [] {
      assert a + b == b;
    } else {
      EncodedConcat(a[1..], b);
      assert (a + b)[1..] == a[1..] + b;
      assert EncodePoint(a[0]) + (Encoded(a[1..]) + Encoded(b)) == EncodePoint(a[0]) + Encoded(a[1..]) + Encoded(b);
    }
  }

  lemma {:induction false} EncodedNonempty(text: seq<Scalar>)
    requires text != []
    ensures Encoded(text) != ""
  {
  }

  /** White space between words ends the word before it and is dropped. */
  lemma SpaceSplits(word: string, c: Scalar, rest: string)
    requires IsSpace(c)
    ensures Split(word, EncodePoint(c) + rest) == Flush(word) + Split("", rest)
  {
    SpaceExactly(c, rest);
    assert (EncodePoint(c) + rest)[|EncodePoint(c)|..] == rest;
  }

  lemma {:induction false} GapIsDropped(gap: seq<Scalar>, rest: string)
    requires AllSpaces(gap)
    ensures Split("", Encoded(gap) + rest) == Split("", rest)
  {
    if gap == [] {
      assert Encoded(gap) + rest == rest;
    } else {
      var more := Encoded(gap[1..]) + rest;
      assert Encoded(gap) + rest == EncodePoint(gap[0]) + more;
      SpaceSplits("", gap[0], more);
      GapIsDropped(gap[1..], rest);
    }
  }

  predicate IsTail(b: char) {
    0x80 <= b as int <= 0xBF
  }

  /** The later bytes of a code point are taken as they are. */
  lemma {:induction false} TailsAreTaken(word: string, tails: string, rest: string)
    requires forall k | 0 <= k < |tails| :: IsTail(tails[k])
    ensures Split(word, tails + rest) == Split(word + tails, rest)
    decreases |tails|
  {
    if tails == "" {
      assert tails + rest == rest && word + tails == word;
    } else {
      var s := tails + rest;
      assert s[0] == tails[0] && s[1..] == tails[1..] + rest;
      TailsAreTaken(word + [tails[0]], tails[1..], rest);
      assert word + [tails[0]] + tails[1..] == word + tails;
    }
  }

  /** All bytes of a code point but the first are continuation bytes. */
  lemma TailsOfPoint(c: Scalar)
    ensures forall k | 1 <= k < |EncodePoint(c)| :: IsTail(EncodePoint(c)[k])
  {
  }

  lemma PointIsTaken(word: string, c: Scalar, rest: string)
    requires !IsSpace(c)
    ensures Split(word, EncodePoint(c) + rest) == Split(word + EncodePoint(c), rest)
  {
    var point := EncodePoint(c);
    var first, tails := point[0], point[1..];
    SpaceExactly(c, rest);
    assert (point + rest)[0] == first && (point + rest)[1..] == tails + rest;
    TailsOfPoint(c);
    TailsAreTaken(word + [first], tails, rest);
    assert word + [first] + tails == word + point;
  }

  lemma {:induction false} WordIsTaken(done: string, word: seq<Scalar>, rest: string)
    requires forall k | 0 <= k < |word| :: !IsSpace(word[k])
    ensures Split(done, Encoded(word) + rest) == Split(done + Encoded(word), rest)
    decreases |word|
  {
    if word == [] {
      assert Encoded(word) + rest == rest && done + Encoded(word) == done;
    } else {
      var more := Encoded(word[1..]) + rest;
      assert Encoded(word) + rest == EncodePoint(word[0]) + more;
      PointIsTaken(done, word[0], more);
      WordIsTaken(done + EncodePoint(word[0]), word[1..], rest);
      assert done + EncodePoint(word[0]) + Encoded(word[1..]) == done + Encoded(word);
    }
  }

  /** A whole word is flushed where the next gap begins, or at the end. */
  lemma WordIsFlushed(word: string, gap: seq<Scalar>, rest: string)
    requires word != "" && AllSpaces(gap) && (gap != [] || rest == "")
    ensures Split(word, Encoded(gap) + rest) == [word] + Split("", Encoded(gap) + rest)
  {
    if gap == [] {
      assert Encoded(gap) + rest == "";
    } else {
      var more := Encoded(gap[1..]) + rest;
      assert Encoded(gap) + rest == EncodePoint(gap[0]) + more;
      SpaceSplits(word, gap[0], more);
      SpaceSplits("", gap[0], more);
      assert [] + Split("", more) == Split("", more);
    }
  }

  lemma EncodedThree(a: seq<Scalar>, b: seq<Scalar>, c: seq<Scalar>)
    ensures Encoded(a + b + c) == Encoded(a) + (Encoded(b) + Encoded(c))
  {
    EncodedConcat(a, b);
    EncodedConcat(a + b, c);
  }

  /** Splitting comes to the first word and takes it. */
  lemma FirstWord(gap: seq<Scalar>, word: seq<Scalar>, rest: string)
    requires AllSpaces(gap) && IsWord(word)
    ensures Split("", Encoded(gap) + (Encoded(word) + rest)) == Split(Encoded(word), rest)
  {
    GapIsDropped(gap, Encoded(word) + rest);
    WordIsTaken("", word, rest);
    assert "" + Encoded(word) == Encoded(word);
  }

  lemma RestOfLine(gaps: seq<seq<Scalar>>, words: seq<seq<Scalar>>)
    requires IsLine(gaps, words) && words != []
    ensures IsLine(gaps[1..], words[1..]) && (|words| > 1 ==> gaps[1] != [])
  {
    var g, w := gaps[1..], words[1..];
    forall k | 0 <= k < |g| ensures AllSpaces(g[k]) && (0 < k < |w| ==> g[k] != []) {
      assert g[k] == gaps[k + 1];
    }
    forall k | 0 <= k < |w| ensures IsWord(w[k]) {
      assert w[k] == words[k + 1];
    }
  }

  lemma NextGap(gaps: seq<seq<Scalar>>, words: seq<seq<Scalar>>, word: string)
    requires IsLine(gaps, words) && words != [] && word != ""
    ensures var rest := Encoded(Woven(gaps[1..], words[1..])); Split(word, rest) == [word] + Split("", rest)
  {
    RestOfLine(gaps, words);
    var gap, g, w := gaps[1], gaps[1..], words[1..];
    if w == [] {
      assert Encoded(gap) + "" == Encoded(gap);
      WordIsFlushed(word, gap, "");
    } else {
      var more := w[0] + Woven(g[1..], w[1..]);
      assert Woven(g, w) == gap + more;
      EncodedConcat(gap, more);
      WordIsFlushed(word, gap, Encoded(more));
    }
  }

  lemma FirstField(gaps: seq<seq<Scalar>>, words: seq<seq<Scalar>>)
    requires IsLine(gaps, words) && words != []
    ensures Fields(Encoded(Woven(gaps, words))) == [Encoded(words[0])] + Fields(Encoded(Woven(gaps[1..], words[1..])))
  {
    var rest := Woven(gaps[1..], words[1..]);
    EncodedThree(gaps[0], words[0], rest);
    assert AllSpaces(gaps[0]) && IsWord(words[0]);
    FirstWord(gaps[0], words[0], Encoded(rest));
    EncodedNonempty(words[0]);
    NextGap(gaps, words, Encoded(words[0]));
  }

  /** However words are spread over a line with white space, splitting the line gives the words. */
  lemma {:induction false} FieldsExactly(gaps: seq<seq<Scalar>>, words: seq<seq<Scalar>>)
    requires IsLine(gaps, words)
    ensures Fields(Encoded(Woven(gaps, words))) == EncodedAll(words)
    decreases |words|
  {
    if words == [] {
      GapIsDropped(gaps[0], "");
      assert Encoded(gaps[0]) + "" == Encoded(gaps[0]);
    } else {
      FirstField(gaps, words);
      RestOfLine(gaps, words);
      FieldsExactly(gaps[1..], words[1..]);
      assert EncodedAll(words) == [Encoded(words[0])] + EncodedAll(words[1..]);
    }
  }

  /** Every text is such a line. */
  lemma {:induction false} EveryTextIsALine(text: seq<Scalar>) returns (gaps: seq<seq<Scalar>>, words: seq<seq<Scalar>>)
    ensures IsLine(gaps, words) && Woven(gaps, words) == text
    decreases |text|
  {
    if text == [] {
      gaps, words := [[]], [];
    } else {
      var c := text[0];
      var g, w := EveryTextIsALine(text[1..]);
      if IsSpace(c) {
        gaps, words := [[c] + g[0]] + g[1..], w;
      } else if w != [] && g[0] == [] {
        gaps, words := g, [[c] + w[0]] + w[1..];
        assert words[1..] == w[1..];
      } else {
        gaps, words := [[]] + g, [[c]] + w;
        assert gaps[1..] == g && words[1..] == w;
      }
      assert text == [c] + text[1..];
    }
  }
}
