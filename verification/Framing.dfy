/** The resynchronizing framer of dccex/protocol/frame.go.
    A byte is the char with its value, so a byte string is a `string`. */
module Framing {
  import opened Results

  const MAX_FRAME_SIZE: nat := 4096

  datatype Item = Framed(text: string) | Rejected(error: WireError)

  predicate IsBracket(b: char) {
    b == '<' || b == '>'
  }

  /** The unfinished frame after one more byte. */
  function After(open: string, b: char): string {
    if b == '<' then "<"
    else if open == "" || |open| == MAX_FRAME_SIZE || b == '>' then ""
    else open + [b]
  }

  /** The unfinished frame at the end of the stream s, empty when there is none. */
  function Unfinished(s: string): string {
    if s == "" then "" else After(Unfinished(s[..|s| - 1]), s[|s| - 1])
  }

  /** What the byte b yields when it finds the frame `open` unfinished. */
  function ItemsOf(open: string, b: char): seq<Item> {
    if open == "" then []
    else if b == '<' then [Rejected(Malformed)]
    else if |open| == MAX_FRAME_SIZE then [Rejected(FrameTooLarge)]
    else if b == '>' then [Framed(open + [b])]
    else []
  }

  /** Everything a whole stream yields, in order. It mentions no chunks and no buffer. */
  function Items(s: string): seq<Item> {
    if s == "" then [] else Items(s[..|s| - 1]) + ItemsOf(Unfinished(s[..|s| - 1]), s[|s| - 1])
  }

  lemma Snoc(s: string, b: char)
    ensures Unfinished(s + [b]) == After(Unfinished(s), b)
    ensures Items(s + [b]) == Items(s) + ItemsOf(Unfinished(s), b)
  {
    var t := s + [b];
    assert t[..|t| - 1] == s && t[|t| - 1] == b;
  }

  lemma {:induction false} UnfinishedIsBounded(s: string)
    ensures |Unfinished(s)| <= MAX_FRAME_SIZE
  {
    if s != "" {
      UnfinishedIsBounded(s[..|s| - 1]);
    }
  }

  lemma Assoc<T>(a: seq<T>, b: seq<T>, c: seq<T>)
    ensures (a + b) + c == a + (b + c)
  {
  }

  lemma PrefixSnoc(data: string, idx: nat)
    requires idx < |data|
    ensures data[..idx + 1] == data[..idx] + [data[idx]]
  {
  }

  class Framer {
    var buf: string
    /** Every byte fed since the buffer was last emptied by Reset or End. */
    ghost var stream: string

    ghost predicate Valid()
      reads this
    {
      buf == Unfinished(stream)
    }

    constructor ()
      ensures Valid() && stream == ""
    {
      buf, stream := "", "";
    }

    method Feed(data: string) returns (out: seq<Item>)
      requires Valid()
      modifies this
      ensures Valid()
      ensures stream == old(stream) + data
      ensures Items(stream) == Items(old(stream)) + out
      ensures |buf| <= MAX_FRAME_SIZE
    {
      out := [];
      ghost var before := stream;
      assert data[..0] == "" && before + "" == before && Items(before) + out == Items(before);
      for idx := 0 to |data|
        invariant buf == Unfinished(stream)
        invariant stream == before + data[..idx]
        invariant Items(stream) == Items(before) + out
      {
        var b := data[idx];
        ghost var s, earlier := stream, out;
        if b == '<' {
          if |buf| > 0 {
            out := out + [Rejected(Malformed)];
          }
          buf := [b];
        } else if |buf| == 0 {
        } else if |buf| == MAX_FRAME_SIZE {
          out := out + [Rejected(FrameTooLarge)];
          buf := "";
        } else {
          buf := buf + [b];
          if b == '>' {
            out := out + [Framed(buf)];
            buf := "";
          }
        }
        stream := s + [b];
        assert out == earlier + ItemsOf(Unfinished(s), b);
        Snoc(s, b);
        Assoc(Items(before), earlier, ItemsOf(Unfinished(s), b));
        Assoc(before, data[..idx], [b]);
        PrefixSnoc(data, idx);
      }
      assert data[..|data|] == data;
      UnfinishedIsBounded(stream);
    }

    method Pending() returns (text: string)
      requires Valid()
      ensures text == Unfinished(stream)
    {
      text := buf;
    }

    method Reset()
      modifies this
      ensures Valid() && stream == ""
    {
      buf, stream := "", "";
    }

    method End() returns (truncated: bool)
      requires Valid()
      modifies this
      ensures truncated <==> Unfinished(old(stream)) != ""
      ensures Valid() && stream == ""
    {
      truncated := |buf| > 0;
      Reset();
    }
  }

  // ---------------------------------------------------------------- exactness

  /** s[i..e] is a frame: brackets at its ends, none inside, within the bound. */
  ghost predicate IsFrame(s: string, i: nat, e: nat) {
    && i + 1 < e <= |s| && e - i <= 4096
    && s[i] == '<' && s[e - 1] == '>'
    && forall k | i < k < e - 1 :: !IsBracket(s[k])
  }

  lemma OneFramePerEnd(s: string, i: nat, j: nat, e: nat)
    requires IsFrame(s, i, e) && IsFrame(s, j, e)
    ensures i == j
  {
    if i < j {
      assert IsBracket(s[j]);
    } else if j < i {
      assert IsBracket(s[i]);
    }
  }

  /** All frames among the first n bytes, ordered by where they end. */
  ghost function Slices(s: string, n: nat): seq<string>
    requires n <= |s|
  {
    if n == 0 then []
    else if exists i: nat :: IsFrame(s, i, n) then
      var i: nat :| IsFrame(s, i, n); Slices(s, n - 1) + [s[i..n]]
    else Slices(s, n - 1)
  }

  function Frames(items: seq<Item>): seq<string> {
    if items == [] then []
    else
      var last := items[|items| - 1];
      Frames(items[..|items| - 1]) + if last.Framed? then [last.text] else []
  }

  function Rejections(items: seq<Item>, e: WireError): nat {
    if items == [] then 0
    else Rejections(items[..|items| - 1], e) + if items[|items| - 1] == Rejected(e) then 1 else 0
  }

  function Opening(s: string): nat {
    if s == "" then 0 else Opening(s[..|s| - 1]) + if s[|s| - 1] == '<' then 1 else 0
  }

  /** s[i] opens a frame that has neither ended nor outgrown the bound when s ends. */
  ghost predicate Opens(s: string, i: nat) {
    && i < |s| <= i + 4096
    && s[i] == '<'
    && forall k | i < k < |s| :: !IsBracket(s[k])
  }

  lemma OpensSnoc(s: string, b: char, i: nat)
    ensures Opens(s + [b], i) <==> if b == '<' then i == |s| else b != '>' && Opens(s, i) && |s| < i + MAX_FRAME_SIZE
  {
    var t := s + [b];
    assert forall k | 0 <= k < |s| :: t[k] == s[k];
    if Opens(t, i) && i < |s| {
      assert !IsBracket(t[|s|]);
    }
  }

  /** The buffer is the tail of the stream that starts at the one open bracket. */
  lemma {:induction false} UnfinishedIsOpenTail(s: string)
    ensures Unfinished(s) != "" <==> exists i: nat :: Opens(s, i)
    ensures forall i: nat | Opens(s, i) :: Unfinished(s) == s[i..]
  {
    if s == "" {
      assert forall i: nat :: !Opens(s, i);
    } else {
      var p, b := s[..|s| - 1], s[|s| - 1];
      assert s == p + [b];
      UnfinishedIsOpenTail(p);
      UnfinishedIsBounded(p);
      forall i: nat ensures Opens(s, i) <==> if b == '<' then i == |p| else b != '>' && Opens(p, i) && |p| < i + MAX_FRAME_SIZE {
        OpensSnoc(p, b, i);
      }
      if b == '<' {
        assert Opens(s, |p|);
      } else if i: nat :| Opens(p, i) {
        assert p[i..] + [b] == s[i..];
      }
    }
  }

  lemma {:induction false} SlicesOfPrefix(s: string, b: char, n: nat)
    requires n <= |s|
    ensures Slices(s + [b], n) == Slices(s, n)
  {
    if n > 0 {
      var t := s + [b];
      SlicesOfPrefix(s, b, n - 1);
      forall i: nat ensures IsFrame(s, i, n) <==> IsFrame(t, i, n) {
        assert i < n ==> forall k | i <= k < n :: t[k] == s[k];
      }
      if i: nat :| IsFrame(s, i, n) {
        forall j: nat | IsFrame(t, j, n) ensures j == i {
          OneFramePerEnd(t, i, j, n);
        }
        assert s[i..n] == t[i..n];
      }
    }
  }

  lemma FrameEndsOpening(s: string, b: char, i: nat)
    ensures IsFrame(s + [b], i, |s| + 1) <==> b == '>' && Opens(s, i) && |s| < i + MAX_FRAME_SIZE
  {
    var t := s + [b];
    assert forall k | 0 <= k < |s| :: t[k] == s[k];
  }

  /** The last byte completes a frame exactly when it closes the unfinished one in time. */
  lemma LastFrame(s: string, b: char)
    ensures var open := Unfinished(s);
            Slices(s + [b], |s| + 1) ==
              Slices(s, |s|) + if b == '>' && 0 < |open| < MAX_FRAME_SIZE then [open + [b]] else []
  {
    var t, e := s + [b], |s| + 1;
    SlicesOfPrefix(s, b, |s|);
    UnfinishedIsOpenTail(s);
    forall i: nat ensures IsFrame(t, i, e) <==> b == '>' && Opens(s, i) && |s| < i + MAX_FRAME_SIZE {
      FrameEndsOpening(s, b, i);
    }
    if i: nat :| IsFrame(t, i, e) {
      forall j: nat | IsFrame(t, j, e) ensures j == i {
        OneFramePerEnd(t, i, j, e);
      }
      assert t[i..e] == s[i..] + [b];
    }
  }

  lemma FramesSnoc(items: seq<Item>, last: seq<Item>)
    requires |last| <= 1
    ensures Frames(items + last) == Frames(items) + Frames(last)
  {
    if last == [] {
      assert items + last == items;
    } else {
      assert (items + last)[..|items|] == items;
      assert last[..0] == [];
    }
  }

  /** The frames of a stream are exactly its frame-shaped slices, in order. */
  lemma {:induction false} FramesAreSlices(s: string)
    ensures Frames(Items(s)) == Slices(s, |s|)
  {
    if s != "" {
      var p, b := s[..|s| - 1], s[|s| - 1];
      assert s == p + [b];
      FramesAreSlices(p);
      UnfinishedIsBounded(p);
      LastFrame(p, b);
      FramesSnoc(Items(p), ItemsOf(Unfinished(p), b));
    }
  }

  /** What each byte yields, told by the bytes before it: an opening inside a frame spoils that
      frame, a byte too many refuses it, its end completes it, and outside a frame nothing counts. */
  lemma EachByteYields(s: string, b: char)
    ensures (forall i: nat :: !Opens(s, i)) ==> Items(s + [b]) == Items(s)
    ensures forall i: nat | Opens(s, i) ::
              Items(s + [b]) == Items(s) +
                if b == '<' then [Rejected(Malformed)]
                else if |s| - i == 4096 then [Rejected(FrameTooLarge)]
                else if b == '>' then [Framed(s[i..] + [b])]
                else []
  {
    Snoc(s, b);
    UnfinishedIsOpenTail(s);
    if forall i: nat :: !Opens(s, i) {
      assert Items(s) + [] == Items(s);
    }
    forall i: nat | Opens(s, i) ensures Unfinished(s) == s[i..] && |s[i..]| == |s| - i > 0 {
    }
  }

  /** How many openings the items account for: one for each frame and each of the two errors. */
  function Accounted(items: seq<Item>): nat {
    |Frames(items)| + Rejections(items, Malformed) + Rejections(items, FrameTooLarge)
  }

  lemma AccountedSnoc(items: seq<Item>, last: Item)
    requires last.Framed? || last.error == Malformed || last.error == FrameTooLarge
    ensures Accounted(items + [last]) == Accounted(items) + 1
  {
    assert (items + [last])[..|items|] == items;
  }

  /** Every '<' is accounted for once: by a frame, by one of the two errors, or by the unfinished frame. */
  lemma {:induction false} OpeningsAreAccountedFor(s: string)
    ensures Opening(s) == Accounted(Items(s)) + (if Unfinished(s) == "" then 0 else 1)
  {
    if s != "" {
      var p, b := s[..|s| - 1], s[|s| - 1];
      OpeningsAreAccountedFor(p);
      var items, last := Items(p), ItemsOf(Unfinished(p), b);
      assert Items(s) == items + last;
      if last == [] {
        assert items + last == items;
      } else {
        assert last == [last[0]];
        AccountedSnoc(items, last[0]);
      }
    }
  }

  lemma {:induction false} UnfinishedShape(s: string, k: nat)
    requires k < |Unfinished(s)|
    ensures Unfinished(s)[k] == '<' <==> k == 0
    ensures Unfinished(s)[k] != '>'
  {
    var p := s[..|s| - 1];
    if k < |Unfinished(p)| {
      UnfinishedShape(p, k);
    }
  }

  /** An item is a complete frame within the bound, or one of the two framing errors. */
  lemma {:induction false} ItemsAreKnown(s: string, k: nat)
    requires k < |Items(s)|
    ensures var x := Items(s)[k]; match x
      case Framed(text) => IsFrame(text, 0, |text|)
      case Rejected(e) => e == Malformed || e == FrameTooLarge
  {
    var p := s[..|s| - 1];
    if k < |Items(p)| {
      ItemsAreKnown(p, k);
    } else {
      var open := Unfinished(p);
      UnfinishedIsBounded(p);
      forall j | 0 <= j < |open| ensures (open[j] == '<' <==> j == 0) && open[j] != '>' {
        UnfinishedShape(p, j);
      }
    }
  }
}
