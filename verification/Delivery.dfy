/** From the controller's log to the station: what the receiving framer and reader make of the
    bytes of one connection is what the log says was sent over it. */
module Delivery {
  import opened Results
  import opened Framing
  import opened Commands
  import opened Panel
  import opened Runs
  import opened Agreement
  import opened Movement
  import opened Speeds
  import opened History
  import Structure
  import Writes

  // ------------------------------------------------------------ one connection's log

  /** What was handed over since the connection was last closed. */
  function SinceClosed(log: seq<Wire>): seq<Wire> {
    if log == [] || log[|log| - 1] == Closed then []
    else SinceClosed(log[..|log| - 1]) + [log[|log| - 1]]
  }

  lemma {:induction false} SinceClosedIsTail(log: seq<Wire>)
    ensures |SinceClosed(log)| <= |log| && SinceClosed(log) == log[|log| - |SinceClosed(log)|..]
    ensures Closed !in SinceClosed(log)
  {
    if log != [] && log[|log| - 1] != Closed {
      SinceClosedIsTail(log[..|log| - 1]);
    }
  }

  predicate AreInRange(wires: seq<Wire>) {
    forall n | 0 <= n < |wires| && wires[n].Sent? :: InRange(wires[n].cmd)
  }

  ghost predicate IsProperLog(run: Run, i: nat)
    requires IsRun(run) && i <= |run.ops|
  {
    AreInRange(At(run, i).log) && FailuresClose(At(run, i).log)
  }

  lemma ProperLogNext(run: Run, i: nat)
    requires IsRun(run) && i < |run.ops| && IsProperLog(run, i)
    ensures IsProperLog(run, i + 1)
  {
    DisplayedAgreesWithSent(run, i);
    Stepped(run, i);
    ProperLogStep(At(run, i), run.ops[i], run.answers);
  }

  lemma ProperLogStep(p: Panel, op: Op, answers: Answers)
    requires Structure.Structured(p) && AllGood(p, false) && AreInRange(p.log) && FailuresClose(p.log)
    ensures var q := Apply(p, op, answers).panel; AreInRange(q.log) && FailuresClose(q.log)
  {
    var q := Apply(p, op, answers).panel;
    LogStep(p, op, answers);
    var more := NewWire(p, q);
    assert q.log == p.log + more;
    forall n | 0 <= n < |more| && more[n].Sent? ensures InRange(more[n].cmd) {
      ThrottleStep(p, op, n, answers);
      assert IsSentProperly(p, op, more[n]);
    }
    FailureStep(p, op, answers);
    FailuresCloseConcat(p.log, more);
  }

  lemma LogIsProper(run: Run, i: nat)
    requires IsRun(run) && i <= |run.ops|
    ensures IsProperLog(run, i)
  {
    var proper := (m: nat) => m <= |run.ops| && IsProperLog(run, m);
    forall m: nat | m < i && proper(m) ensures proper(m + 1) {
      ProperLogNext(run, m);
    }
    assert IsProperLog(run, 0);
    Persists(proper, 0, i);
    assert proper(i);
  }

  /** In every reachable state everything handed over since the last close is a command within its
      encoder's range that was sent successfully. */
  lemma {:induction false} ConnectionLogIsClean(run: Run, i: nat, n: nat)
    requires IsRun(run) && i <= |run.ops| && n < |SinceClosed(At(run, i).log)|
    ensures var w := SinceClosed(At(run, i).log)[n]; w.Sent? && w.ok && InRange(w.cmd)
  {
    LogIsProper(run, i);
    CleanTail(At(run, i).log, n);
  }

  lemma CleanTail(log: seq<Wire>, n: nat)
    requires AreInRange(log) && FailuresClose(log) && n < |SinceClosed(log)|
    ensures var w := SinceClosed(log)[n]; w.Sent? && w.ok && InRange(w.cmd)
  {
    SinceClosedIsTail(log);
    var tail, start := SinceClosed(log), |log| - |SinceClosed(log)|;
    assert tail[n] == log[start + n] && tail[n] != Closed;
    assert n + 1 < |tail| ==> log[start + n + 1] == tail[n + 1] && tail[n + 1] != Closed;
  }

  // ------------------------------------------------------------------- the station

  /** The commands that a station reads from the items of a stream. */
  function CommandsIn(items: seq<Item>): seq<Command> {
    if items == [] then []
    else
      var last := items[|items| - 1];
      CommandsIn(items[..|items| - 1])
      + if last.Framed? && Decode(last.text).Some? then [Decode(last.text).value] else []
  }

  /** The client's sends are for these commands, in order. */
  predicate Carries(entries: seq<Writes.Entry>, cmds: seq<Command>) {
    |entries| == |cmds| && forall i | 0 <= i < |cmds| :: InRange(cmds[i]) && Encode(cmds[i]) == Ok(entries[i].text)
  }

  /** The commands whose sends returned nil. */
  function DeliveredCommands(entries: seq<Writes.Entry>, cmds: seq<Command>): seq<Command>
    requires |entries| == |cmds|
  {
    if cmds == [] then []
    else
      var n := |cmds| - 1;
      DeliveredCommands(entries[..n], cmds[..n]) + if entries[n].fate == Writes.Delivered then [cmds[n]] else []
  }

  lemma CommandsSnoc(items: seq<Item>, last: Item)
    ensures CommandsIn(items + [last]) ==
              CommandsIn(items) + if last.Framed? && Decode(last.text).Some? then [Decode(last.text).value] else []
  {
    assert (items + [last])[..|items|] == items;
  }

  lemma AsItemsSnocText(texts: seq<string>, text: string)
    ensures AsItems(texts + [text]) == AsItems(texts) + [Framed(text)]
  {
  }

  lemma {:induction false} DeliveredAreRead(entries: seq<Writes.Entry>, cmds: seq<Command>)
    requires Carries(entries, cmds)
    ensures CommandsIn(AsItems(Writes.DeliveredTexts(entries))) == DeliveredCommands(entries, cmds)
  {
    if cmds != [] {
      var n := |cmds| - 1;
      DeliveredAreRead(entries[..n], cmds[..n]);
      var texts, done := Writes.DeliveredTexts(entries[..n]), DeliveredCommands(entries[..n], cmds[..n]);
      if entries[n].fate == Writes.Delivered {
        assert Writes.DeliveredTexts(entries) == texts + [entries[n].text];
        OneMoreRead(texts, entries[n].text, cmds[n]);
      } else {
        assert Writes.DeliveredTexts(entries) == texts + [] == texts;
        assert DeliveredCommands(entries, cmds) == done + [] == done;
      }
    }
  }

  lemma OneMoreRead(texts: seq<string>, text: string, cmd: Command)
    requires InRange(cmd) && Encode(cmd) == Ok(text)
    ensures CommandsIn(AsItems(texts + [text])) == CommandsIn(AsItems(texts)) + [cmd]
  {
    DecodeEncode(cmd);
    AsItemsSnocText(texts, text);
    CommandsSnoc(AsItems(texts), Framed(text));
  }

  lemma CarriedAreFrames(entries: seq<Writes.Entry>, cmds: seq<Command>)
    requires Carries(entries, cmds)
    ensures Writes.AreFrames(entries)
  {
    forall i | 0 <= i < |entries| ensures IsFrame(entries[i].text, 0, |entries[i].text|) {
      EncodedIsFrame(cmds[i]);
    }
  }

  /** What a station reads from the bytes of a client is exactly the commands whose sends returned
      nil, in order, and after them at most the one that was written although its send did not. */
  lemma {:induction false} StationReadsDelivered(steps: seq<Writes.Step>, cmds: seq<Command>)
    requires Writes.IsExecution(steps) && Carries(Writes.After(steps).entries, cmds)
    ensures var s := Writes.After(steps);
            CommandsIn(Items(s.wire)) ==
              DeliveredCommands(s.entries, cmds) + if Writes.IsSentAnyway(s) then [cmds[s.writer.entry]] else []
  {
    var s := Writes.After(steps);
    CarriedAreFrames(s.entries, cmds);
    Writes.FailedSendReachesStationExactly(steps);
    Writes.StationSeesWholeCommands(steps);
    Writes.Reachable(steps);
    Writes.TailFramesExactly(s);
    DeliveredAreRead(s.entries, cmds);
    var texts := Writes.DeliveredTexts(s.entries);
    if Writes.IsSentAnyway(s) {
      OneMoreRead(texts, s.entries[s.writer.entry].text, cmds[s.writer.entry]);
    } else {
      assert texts + [] == texts;
    }
  }

  // --------------------------------------------------------------------- end to end

  function CommandsOf(wires: seq<Wire>): seq<Command>
    requires forall n | 0 <= n < |wires| :: wires[n].Sent?
  {
    seq(|wires|, n requires 0 <= n < |wires| => wires[n].cmd)
  }

  /** The client has carried out the log of this connection, and is perhaps at one more send that
      has not come back yet. */
  ghost predicate HasCarried(s: Writes.State, wires: seq<Wire>, cmds: seq<Command>) {
    && (forall n | 0 <= n < |wires| :: wires[n].Sent?)
    && Carries(s.entries, cmds)
    && |wires| <= |cmds| <= |wires| + 1 && cmds[..|wires|] == CommandsOf(wires)
    && (forall n | 0 <= n < |wires| :: s.entries[n].fate == Writes.Delivered <==> wires[n].ok)
    && (|cmds| > |wires| ==> s.entries[|wires|].fate != Writes.Delivered)
  }

  lemma {:induction false} AllDelivered(entries: seq<Writes.Entry>, cmds: seq<Command>, n: nat)
    requires n <= |cmds| == |entries| && forall i | 0 <= i < n :: entries[i].fate == Writes.Delivered
    requires forall i | n <= i < |cmds| :: entries[i].fate != Writes.Delivered
    ensures DeliveredCommands(entries, cmds) == cmds[..n]
  {
    if cmds != [] {
      var m := |cmds| - 1;
      AllDelivered(entries[..m], cmds[..m], if n > m then m else n);
      assert cmds[..m][..if n > m then m else n] == cmds[..if n > m then m else n];
      if n > m {
        assert cmds[..m] + [cmds[m]] == cmds[..n];
      }
    }
  }

  /** From any reachable panel to the station: what the station reads over the current connection
      is exactly the commands in the panel's log since the connection was made, and after them at
      most the one that is being sent. */
  lemma {:induction false} StationReadsTheLog(run: Run, i: nat, steps: seq<Writes.Step>, cmds: seq<Command>)
    requires IsRun(run) && i <= |run.ops| && Writes.IsExecution(steps)
    requires HasCarried(Writes.After(steps), SinceClosed(At(run, i).log), cmds)
    ensures var s, wires := Writes.After(steps), SinceClosed(At(run, i).log);
            CommandsIn(Items(s.wire)) ==
              CommandsOf(wires) + if Writes.IsSentAnyway(s) then [cmds[s.writer.entry]] else []
    ensures Writes.IsSentAnyway(Writes.After(steps)) ==> Writes.After(steps).writer.entry == |SinceClosed(At(run, i).log)|
  {
    var s, wires := Writes.After(steps), SinceClosed(At(run, i).log);
    forall n | 0 <= n < |wires| ensures wires[n].ok {
      ConnectionLogIsClean(run, i, n);
    }
    ReadsCarried(steps, wires, cmds);
  }

  lemma ReadsCarried(steps: seq<Writes.Step>, wires: seq<Wire>, cmds: seq<Command>)
    requires Writes.IsExecution(steps) && HasCarried(Writes.After(steps), wires, cmds)
    requires forall n | 0 <= n < |wires| :: wires[n].Sent? && wires[n].ok
    ensures var s := Writes.After(steps);
            CommandsIn(Items(s.wire)) ==
              CommandsOf(wires) + if Writes.IsSentAnyway(s) then [cmds[s.writer.entry]] else []
    ensures Writes.IsSentAnyway(Writes.After(steps)) ==> Writes.After(steps).writer.entry == |wires|
  {
    var s := Writes.After(steps);
    StationReadsDelivered(steps, cmds);
    WireOfLog(s, wires, cmds);
  }

  lemma WireOfLog(s: Writes.State, wires: seq<Wire>, cmds: seq<Command>)
    requires HasCarried(s, wires, cmds) && forall n | 0 <= n < |wires| :: wires[n].Sent? && wires[n].ok
    ensures DeliveredCommands(s.entries, cmds) == CommandsOf(wires)
    ensures Writes.IsSentAnyway(s) ==> s.writer.entry == |wires|
  {
    forall n | 0 <= n < |wires| ensures s.entries[n].fate == Writes.Delivered {
      assert wires[n].ok;
    }
    AllDelivered(s.entries, cmds, |wires|);
  }
}
