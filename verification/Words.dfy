/** Splitting text at white space, as the standard strings.Fields does on UTF-8 bytes. */
module Words {

  /** The number of bytes in the white-space character that starts s; 0 when none does. */
  function SpaceWidth(s: string): (w: nat)
    ensures w <= |s|
  {
    if s == "" then 0
    else if s[0] == ' ' || '\t' <= s[0] <= '\r' then 1
    else if |s| >= 2 && s[0] as int == 0xC2 && s[1] as int in {0x85, 0xA0} then 2
    else if |s| < 3 then 0
    else
      var (a, b, c) := (s[0] as int, s[1] as int, s[2] as int);
      if a == 0xE1 && b == 0x9A && c == 0x80 then 3
      else if a == 0xE2 && b == 0x80 && (0x80 <= c <= 0x8A || c in {0xA8, 0xA9, 0xAF}) then 3
      else if a == 0xE2 && b == 0x81 && c == 0x9F then 3
      else if a == 0xE3 && b == 0x80 && c == 0x80 then 3
      else 0
  }

  function Flush(word: string): seq<string> {
    if word == "" then [] else [word]
  }

  function Split(word: string, s: string): seq<string>
    decreases |s|
  {
    if s == "" then Flush(word)
    else
      var w := SpaceWidth(s);
      if w > 0 then Flush(word) + Split("", s[w..]) else Split(word + [s[0]], s[1..])
  }

  function Fields(s: string): seq<string> {
    Split("", s)
  }

  /** Printable ASCII without blanks or brackets. */
  predicate IsPlain(s: string) {
    s != "" && forall k | 0 <= k < |s| :: '!' <= s[k] <= '~' && s[k] != '<' && s[k] != '>'
  }

  function Join(words: seq<string>): string {
    if words == [] then "" else if |words| == 1 then words[0] else words[0] + " " + Join(words[1..])
  }

  lemma PlainIsNoSpace(s: string)
    requires s != "" && '!' <= s[0] <= '~'
    ensures SpaceWidth(s) == 0
  {
  }

  lemma Shift(done: string, word: string, rest: string)
    requires word != ""
    ensures (word + rest)[0] == word[0] && (word + rest)[1..] == word[1..] + rest
    ensures done + [word[0]] + word[1..] == done + word
  {
  }

  lemma {:induction false} SplitWord(done: string, word: string, rest: string)
    requires word == "" || IsPlain(word)
    requires done + word != ""
    requires rest == "" || rest[0] == ' '
    ensures Split(done, word + rest) == [done + word] + if rest == "" then [] else Split("", rest[1..])
    decreases |word|
  {
    if word == "" {
      assert word + rest == rest && done + word == done;
    } else {
      Shift(done, word, rest);
      PlainIsNoSpace(word + rest);
      SplitWord(done + [word[0]], word[1..], rest);
    }
  }

  /** Splitting undoes joining. */
  lemma {:induction false} FieldsOfJoin(words: seq<string>)
    requires forall k | 0 <= k < |words| :: IsPlain(words[k])
    ensures Fields(Join(words)) == words
  {
    if |words| == 1 {
      assert words[0] + "" == words[0] == "" + words[0];
      SplitWord("", words[0], "");
    } else if words != [] {
      var rest := " " + Join(words[1..]);
      assert words[0] + rest == Join(words) && rest[1..] == Join(words[1..]);
      assert "" + words[0] == words[0];
      SplitWord("", words[0], rest);
      FieldsOfJoin(words[1..]);
    }
  }
}
