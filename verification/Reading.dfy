/** The read loop of dccex/client/client.go over any sequence of reads. */
module Reading {
  import opened Results
  import opened Words
  import opened Framing
  import opened Messages

  /** What one call of Read gives: some bytes, possibly none, and possibly the terminal error. */
  datatype Chunk = Chunk(data: string, failed: bool)

  /** What the client passes on: the outcome of one frame, or the terminal read error. */
  datatype Received = Outcome(result: Result<Event>) | ReadFailed

  function Joined(chunks: seq<Chunk>): string {
    if chunks == [] then "" else Joined(chunks[..|chunks| - 1]) + chunks[|chunks| - 1].data
  }

  /** How many reads the loop makes when nobody closes the client: up to the first error. */
  function Reads(chunks: seq<Chunk>): (n: nat)
    ensures n <= |chunks|
    ensures forall i | 0 <= i < |chunks| && chunks[i].failed :: n <= i + 1
    ensures n < |chunks| ==> n > 0 && chunks[n - 1].failed
    ensures forall i | 0 <= i < n - 1 :: !chunks[i].failed
  {
    if chunks == [] then 0 else if chunks[0].failed then 1 else 1 + Reads(chunks[1..])
  }

  /** The first n reads did not fail. */
  predicate NoneFailed(chunks: seq<Chunk>, n: nat)
    requires n <= |chunks|
  {
    forall j | 0 <= j < n :: !chunks[j].failed
  }

  predicate EndsInFailure(chunks: seq<Chunk>) {
    var n := Reads(chunks);
    n > 0 && chunks[n - 1].failed
  }

  function Outcomes(results: seq<Result<Event>>): seq<Received> {
    seq(|results|, k requires 0 <= k < |results| => Outcome(results[k]))
  }

  /** One outcome for each item of the bytes. */
  function Said(bytes: string): seq<Received> {
    Outcomes(Decoded(Items(bytes)))
  }

  /** All that a stream of bytes has to say, however it was cut into reads: its outcomes, and at
      the end a truncated frame, if any, and the error. */
  function Story(bytes: string, ended: bool): seq<Received> {
    Said(bytes) + if ended then Ending(Unfinished(bytes) != "") else []
  }

  function Ending(truncated: bool): seq<Received> {
    (if truncated then [Outcome(Err(Truncated))] else []) + [ReadFailed]
  }

  /** The end of a story: the read error comes last and only when a read failed, and just before it
      a truncated frame, exactly if the bytes end inside one. */
  lemma StoryEnds(bytes: string, ended: bool)
    ensures ReadFailed in Story(bytes, ended) <==> ended
    ensures ended ==> Story(bytes, ended)[|Story(bytes, ended)| - 1] == ReadFailed
    ensures Outcome(Err(Truncated)) in Story(bytes, ended) <==> ended && exists i: nat :: Opens(bytes, i)
  {
    UnfinishedIsOpenTail(bytes);
    var said := Said(bytes);
    forall k | 0 <= k < |said| ensures said[k].Outcome? && said[k] != Outcome(Err(Truncated)) {
      ItemsAreKnown(bytes, k);
      if Items(bytes)[k].Framed? {
        NeverTruncated(Items(bytes)[k].text);
      }
    }
  }

  lemma NeverTruncated(frame: string)
    ensures Parse(frame) != Err(Truncated)
  {
    if Objection(frame) == None {
      SplitIsNonempty("", frame[1..|frame| - 1]);
      WordsAreNeverTruncated(frame, Fields(frame[1..|frame| - 1]));
    }
  }

  lemma WordsAreNeverTruncated(raw: string, words: seq<string>)
    requires words != [] && words[0] != ""
    ensures ParseWords(raw, words) != Err(Truncated)
  {
  }

  lemma SaidConcat(a: seq<Item>, b: seq<Item>)
    ensures Outcomes(Decoded(a + b)) == Outcomes(Decoded(a)) + Outcomes(Decoded(b))
  {
    DecodedConcat(a, b);
  }

  lemma JoinedNext(chunks: seq<Chunk>, i: nat)
    requires i < |chunks|
    ensures Joined(chunks[..i + 1]) == Joined(chunks[..i]) + chunks[i].data
  {
    assert chunks[..i + 1][..i] == chunks[..i];
  }

  lemma SplitAt<T>(a: seq<T>, b: seq<T>)
    requires a <= b
    ensures a + b[|a|..] == b
  {
  }

  lemma {:induction false} ItemsOfMore(s: string, more: string)
    ensures Items(s) <= Items(s + more)
  {
    if more == "" {
      assert s + more == s;
    } else {
      var most, b := more[..|more| - 1], more[|more| - 1];
      ItemsOfMore(s, most);
      assert most + [b] == more;
      Assoc(s, most, [b]);
      Snoc(s + most, b);
    }
  }

  lemma {:induction false} JoinedMore(chunks: seq<Chunk>, i: nat)
    requires i <= |chunks|
    ensures Joined(chunks[..i]) <= Joined(chunks)
  {
    if i < |chunks| {
      JoinedMore(chunks[..|chunks| - 1], i);
      assert chunks[..|chunks| - 1][..i] == chunks[..i];
    } else {
      assert chunks[..i] == chunks;
    }
  }

  /** What i reads have to say is a first part of what they all have to say. */
  lemma {:induction false} SaidGrows(chunks: seq<Chunk>, i: nat, ended: bool)
    requires i <= |chunks|
    ensures Said(Joined(chunks[..i])) <= Said(Joined(chunks)) <= Story(Joined(chunks), ended)
  {
    JoinedMore(chunks, i);
    var part := Joined(chunks[..i]);
    var rest := Joined(chunks)[|part|..];
    SplitAt(part, Joined(chunks));
    ItemsOfMore(part, rest);
    OutcomesOfPrefix(Items(part), Items(part + rest));
  }

  lemma OutcomesOfPrefix(a: seq<Item>, b: seq<Item>)
    requires a <= b
    ensures Outcomes(Decoded(a)) <= Outcomes(Decoded(b))
  {
    SplitAt(a, b);
    SaidConcat(a, b[|a|..]);
  }

  /** The bytes of all the reads that the loop makes when nobody closes the client. */
  function AllRead(chunks: seq<Chunk>): string {
    Joined(chunks[..Reads(chunks)])
  }

  function WholeStory(chunks: seq<Chunk>): seq<Received> {
    Story(AllRead(chunks), EndsInFailure(chunks))
  }

  /** A read after reads that did not fail is the last exactly when it fails. */
  lemma ReadsFurther(chunks: seq<Chunk>, i: nat)
    requires i < |chunks| && forall j | 0 <= j < i :: !chunks[j].failed
    ensures if chunks[i].failed then Reads(chunks) == i + 1 && EndsInFailure(chunks) else i + 1 <= Reads(chunks)
  {
  }

  lemma OneMoreRead(chunks: seq<Chunk>, i: nat)
    requires i < Reads(chunks)
    ensures Joined(chunks[..i + 1]) == Joined(chunks[..i]) + chunks[i].data
    ensures Said(Joined(chunks[..i + 1])) <= WholeStory(chunks)
    ensures Reads(chunks) == i + 1 && EndsInFailure(chunks) ==> WholeStory(chunks) == Story(Joined(chunks[..i + 1]), true)
  {
    JoinedNext(chunks, i);
    var all := chunks[..Reads(chunks)];
    assert all[..i + 1] == chunks[..i + 1];
    SaidGrows(all, i + 1, EndsInFailure(chunks));
  }

  lemma NoFailedRead(chunks: seq<Chunk>)
    requires NoneFailed(chunks, |chunks|)
    ensures WholeStory(chunks) == Said(Joined(chunks[..|chunks|]))
  {
    assert Said(AllRead(chunks)) + [] == Said(AllRead(chunks));
  }

  lemma PrefixOfPrefix<T>(a: seq<T>, b: seq<T>, c: seq<T>, whole: seq<T>)
    requires b <= c && a + c <= whole
    ensures a + b <= whole
  {
  }

  /** Passes on the outcomes of one read, looking before each whether the client is closed. */
  method Deliver(items: seq<Item>, stops: nat -> bool, start: nat) returns (out: seq<Received>, looks: nat, stopped: bool)
    ensures out <= Outcomes(Decoded(items))
    ensures !stopped ==> out == Outcomes(Decoded(items))
    ensures stopped ==> exists t :: stops(t)
  {
    out, looks := [], start;
    for k := 0 to |items|
      invariant out == Outcomes(Decoded(items[..k]))
    {
      if stops(looks) {
        return out, looks, true;
      }
      looks := looks + 1;
      match items[k]
      case Rejected(e) => out := out + [Outcome(Err(e))];
      case Framed(text) => out := out + [Outcome(Parse(text))];
    }
    assert items[..|items|] == items;
    stopped := false;
  }

  /** Passes on the end of the stream. */
  method Conclude(truncated: bool, stops: nat -> bool, start: nat) returns (out: seq<Received>, stopped: bool)
    ensures out <= Ending(truncated) && (!stopped ==> out == Ending(truncated))
    ensures stopped ==> exists t :: stops(t)
  {
    out := [];
    var looks := start;
    if stops(looks) {
      return out, true;
    }
    looks := looks + 1;
    if truncated {
      if stops(looks) {
        return out, true;
      }
      looks := looks + 1;
      out := out + [Outcome(Err(Truncated))];
    }
    if stops(looks) {
      return out, true;
    }
    return out + [ReadFailed], false;
  }

  /** The loop. At each point where it looks whether the client is closed it asks `stops`; an
      answer is true only if the client has been closed by then. Whatever the sizes of the
      reads, what is passed on is the story of their bytes, or a first part of it once closed. */
  method Read(chunks: seq<Chunk>, stops: nat -> bool) returns (events: seq<Received>, stopped: bool)
    ensures events <= WholeStory(chunks) && (!stopped ==> events == WholeStory(chunks))
    ensures stopped ==> exists t :: stops(t)
  {
    var framer := new Framer();
    var looks: nat := 0;
    events := [];
    for i := 0 to |chunks|
      invariant fresh(framer) && framer.Valid() && framer.stream == Joined(chunks[..i])
      invariant events == Said(framer.stream)
      invariant NoneFailed(chunks, i)
    {
      events, looks, stopped := ReadOnce(framer, chunks, i, events, stops, looks);
      if stopped || chunks[i].failed {
        return;
      }
    }
    NoFailedRead(chunks);
    stopped := false;
  }

  /** The body of the loop for read number i. */
  method ReadOnce(framer: Framer, chunks: seq<Chunk>, i: nat, events: seq<Received>, stops: nat -> bool, start: nat)
    returns (more: seq<Received>, looks: nat, stopped: bool)
    requires i < |chunks| && NoneFailed(chunks, i)
    requires framer.Valid() && framer.stream == Joined(chunks[..i]) && events == Said(framer.stream)
    modifies framer
    ensures more <= WholeStory(chunks) && (stopped ==> exists t :: stops(t))
    ensures !stopped && chunks[i].failed ==> more == WholeStory(chunks)
    ensures !stopped && !chunks[i].failed ==>
              && framer.Valid() && framer.stream == Joined(chunks[..i + 1]) && more == Said(framer.stream)
              && NoneFailed(chunks, i + 1)
  {
    ReadsFurther(chunks, i);
    OneMoreRead(chunks, i);
    more, looks, stopped := DeliverRead(framer, chunks[i].data, events, stops, start);
    if stopped {
      return;
    }
    if chunks[i].failed {
      more, stopped := ConcludeRead(framer, more, stops, looks);
    } else {
      looks, stopped := Pause(chunks[i].data == "", stops, looks);
    }
  }

  /** An empty read is followed by a pause that a close cuts short. */
  method Pause(empty: bool, stops: nat -> bool, start: nat) returns (looks: nat, stopped: bool)
    ensures stopped ==> exists t :: stops(t)
  {
    stopped := empty && stops(start);
    looks := if empty then start + 1 else start;
  }

  /** One read: its bytes go through the framer and their outcomes are passed on. */
  method DeliverRead(framer: Framer, data: string, events: seq<Received>, stops: nat -> bool, start: nat)
    returns (more: seq<Received>, looks: nat, stopped: bool)
    requires framer.Valid() && events == Said(framer.stream)
    modifies framer
    ensures framer.Valid() && framer.stream == old(framer.stream) + data
    ensures more <= Said(framer.stream) && (!stopped ==> more == Said(framer.stream))
    ensures stopped ==> exists t :: stops(t)
  {
    ghost var before := Items(framer.stream);
    var items := framer.Feed(data);
    SaidConcat(before, items);
    var out;
    out, looks, stopped := Deliver(items, stops, start);
    more := events + out;
    PrefixOfPrefix(events, out, Outcomes(Decoded(items)), Said(framer.stream));
  }

  method ConcludeRead(framer: Framer, events: seq<Received>, stops: nat -> bool, start: nat)
    returns (more: seq<Received>, stopped: bool)
    requires framer.Valid() && events == Said(framer.stream)
    modifies framer
    ensures var story := Story(old(framer.stream), true); more <= story && (!stopped ==> more == story)
    ensures stopped ==> exists t :: stops(t)
  {
    var truncated := framer.End();
    var end;
    end, stopped := Conclude(truncated, stops, start);
    more := events + end;
  }
}
