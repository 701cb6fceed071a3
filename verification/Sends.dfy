/** When a send returns nil, when it fails and when the client is closed, read off the steps of an
    execution alone: nothing here says how a step changes the state. */
module Sends {
  import opened Results
  import opened Writes

  // ------------------------------------------------------------- reading off steps

  /** The sends that got the write lock, in lock order. */
  function Calls(steps: seq<Step>): seq<Step>
    ensures forall i | 0 <= i < |Calls(steps)| :: Calls(steps)[i].Enter?
  {
    if steps == [] then []
    else
      var last := steps[|steps| - 1];
      Calls(steps[..|steps| - 1]) + if last.Enter? then [last] else []
  }

  /** The bytes that the connection took since the last send got the lock. */
  function Taken(steps: seq<Step>): nat {
    if steps == [] then 0
    else
      var before, last := Taken(steps[..|steps| - 1]), steps[|steps| - 1];
      if last.Enter? then 0 else if last.Write? then before + last.count else before
  }

  /** One of the writes since then failed. */
  predicate HasFailed(steps: seq<Step>) {
    steps != [] &&
    var last := steps[|steps| - 1];
    !last.Enter? && ((last.Write? && !last.ok) || HasFailed(steps[..|steps| - 1]))
  }

  /** How much was taken when the goroutine reported, if it has since then. */
  function TakenAtReport(steps: seq<Step>): Option<nat> {
    if steps == [] then None
    else
      var most, last := steps[..|steps| - 1], steps[|steps| - 1];
      if last.Enter? then None else if last.Report? then Some(Taken(most)) else TakenAtReport(most)
  }

  /** Some step before number n closes the client. */
  predicate IsClosedBefore(steps: seq<Step>, n: nat)
    requires n <= |steps|
  {
    exists h :: 0 <= h < n && (steps[h].Close? || steps[h].CloseFailed?)
  }

  /** Step h is one that the caller of send number i takes during that send. */
  predicate IsOf(steps: seq<Step>, h: int, i: nat) {
    && 0 <= h < |steps| && |Calls(steps[..h])| == i + 1
    && CallerOf(steps[h]) == Some(Calls(steps[..h])[i].caller)
  }

  /** The caller receives a report that was made after the connection had taken the whole line,
      and no write of it failed. */
  predicate HearsSuccess(steps: seq<Step>, h: int, i: nat) {
    && IsOf(steps, h, i) && steps[h].Hear?
    && TakenAtReport(steps[..h]) == Some(|Calls(steps[..h])[i].text| + 1)
    && !HasFailed(steps[..h])
  }

  /** The caller finds the client closed, at its first look or while it waits, or closes it. */
  predicate GivesUp(steps: seq<Step>, h: int, i: nat) {
    && IsOf(steps, h, i)
    && (steps[h].SeeDone? || steps[h].CloseFailed? || (steps[h].Look? && IsClosedBefore(steps, h)))
  }

  ghost predicate HasHeardSuccess(steps: seq<Step>, i: nat) {
    exists h :: HearsSuccess(steps, h, i)
  }

  ghost predicate HasGivenUp(steps: seq<Step>, i: nat) {
    exists h :: GivesUp(steps, h, i)
  }

  /** What makes a caller close the client: its time is up, or it hears of a write that failed. */
  predicate IsCause(steps: seq<Step>, h: int) {
    && 0 <= h < |steps|
    && (steps[h].Close? || steps[h].TimeOut? || (steps[h].Hear? && HasFailed(steps[..h])))
  }

  // -------------------------------------------------------------------- one more step

  lemma Prefixes(steps: seq<Step>, step: Step, h: int)
    requires 0 <= h <= |steps|
    ensures (steps + [step])[..h] == steps[..h]
  {
  }

  lemma CallsStep(steps: seq<Step>, step: Step)
    ensures Calls(steps + [step]) == Calls(steps) + if step.Enter? then [step] else []
    ensures Taken(steps + [step]) == if step.Enter? then 0 else if step.Write? then Taken(steps) + step.count else Taken(steps)
    ensures HasFailed(steps + [step]) <==> !step.Enter? && ((step.Write? && !step.ok) || HasFailed(steps))
    ensures TakenAtReport(steps + [step]) ==
              if step.Enter? then None else if step.Report? then Some(Taken(steps)) else TakenAtReport(steps)
  {
    assert (steps + [step])[..|steps|] == steps;
  }

  lemma ClosedStep(steps: seq<Step>, step: Step)
    ensures var all := steps + [step];
            IsClosedBefore(all, |all|) <==> IsClosedBefore(steps, |steps|) || step.Close? || step.CloseFailed?
  {
    var all := steps + [step];
    if IsClosedBefore(steps, |steps|) {
      var h :| 0 <= h < |steps| && (steps[h].Close? || steps[h].CloseFailed?);
      assert all[h] == steps[h];
    }
    if step.Close? || step.CloseFailed? {
      assert all[|steps|] == step;
    }
  }

  // --------------------------------------------------------------- state and steps

  /** Entry number i is call number i. */
  predicate AreCalls(s: State, steps: seq<Step>) {
    && |s.entries| == |Calls(steps)|
    && forall i | 0 <= i < |s.entries| :: s.entries[i].text == Calls(steps)[i].text
  }

  predicate IsLastCall(s: State, steps: seq<Step>) {
    s.lock.Some? ==> Calls(steps) != [] && Calls(steps)[|Calls(steps)| - 1].caller == s.lock.value
  }

  /** How far the send that holds the lock has come. */
  predicate IsUnderWay(s: State, steps: seq<Step>) {
    s.lock.Some? ==>
      match Pc(s, s.lock.value)
      case Entered(_) => !s.done ==> Taken(steps) == 0 && !HasFailed(steps) && TakenAtReport(steps) == None
      case Waiting(_) => IsWrittenBy(s.writer, steps)
      case Closing(_) => true
      case _ => true
  }

  predicate IsWrittenBy(w: Writer, steps: seq<Step>) {
    match w
    case Resting => false
    case Writing(_, written) => written == Taken(steps) && !HasFailed(steps) && TakenAtReport(steps) == None
    case Reported(_, written, ok) => ok != HasFailed(steps) && (ok ==> TakenAtReport(steps) == Some(written))
  }

  predicate IsDone(s: State, steps: seq<Step>) {
    s.done <==> IsClosedBefore(steps, |steps|)
  }

  lemma TextsStep(s: State, step: Step)
    requires Enabled(s, step)
    ensures |Do(s, step).entries| == |s.entries| + (if step.Enter? then 1 else 0)
    ensures forall i | 0 <= i < |s.entries| :: Do(s, step).entries[i].text == s.entries[i].text
    ensures step.Enter? ==> Do(s, step).entries[|s.entries|].text == step.text
  {
  }

  lemma CallsKept(s: State, steps: seq<Step>, step: Step)
    requires Enabled(s, step) && AreCalls(s, steps)
    ensures AreCalls(Do(s, step), steps + [step])
  {
    CallsStep(steps, step);
    TextsStep(s, step);
    var t, calls := Do(s, step), Calls(steps + [step]);
    forall i | 0 <= i < |t.entries| ensures t.entries[i].text == calls[i].text {
      assert i < |s.entries| ==> calls[i] == Calls(steps)[i];
    }
  }

  lemma LastCallKept(s: State, steps: seq<Step>, step: Step)
    requires Inv(s) && Enabled(s, step) && IsLastCall(s, steps)
    ensures IsLastCall(Do(s, step), steps + [step])
  {
    CallsStep(steps, step);
    CallerInOrder(s, step);
  }

  lemma UnderWayKept(s: State, steps: seq<Step>, step: Step)
    requires Inv(s) && Enabled(s, step) && IsUnderWay(s, steps)
    ensures IsUnderWay(Do(s, step), steps + [step])
  {
    CallsStep(steps, step);
    CallerInOrder(s, step);
  }

  lemma DoneKept(s: State, steps: seq<Step>, step: Step)
    requires Inv(s) && Enabled(s, step) && IsDone(s, steps)
    ensures IsDone(Do(s, step), steps + [step])
  {
    ClosedStep(steps, step);
  }

  ghost predicate Follows(s: State, steps: seq<Step>) {
    AreCalls(s, steps) && IsLastCall(s, steps) && IsUnderWay(s, steps) && IsDone(s, steps)
  }

  lemma {:induction false} AlwaysFollows(steps: seq<Step>)
    requires IsExecution(steps)
    ensures Inv(After(steps)) && Follows(After(steps), steps)
  {
    Reachable(steps);
    if steps != [] {
      var most, last := steps[..|steps| - 1], steps[|steps| - 1];
      AlwaysFollows(most);
      assert steps == most + [last];
      CallsKept(After(most), most, last);
      LastCallKept(After(most), most, last);
      UnderWayKept(After(most), most, last);
      DoneKept(After(most), most, last);
    }
  }

  // ----------------------------------------------------------------------- fates

  /** Which send the new step is of. */
  lemma OwnStep(steps: seq<Step>, step: Step, i: nat)
    ensures IsOf(steps + [step], |steps|, i) <==>
            i + 1 == |Calls(steps)| && CallerOf(step) == Some(Calls(steps)[i].caller)
  {
    Prefixes(steps, step, |steps|);
    assert (steps + [step])[|steps|] == step;
  }

  /** Who goes on with a send holds the lock, and made the last call. */
  lemma HolderSteps(s: State, steps: seq<Step>, step: Step)
    requires Inv(s) && Enabled(s, step) && Follows(s, steps)
    requires !step.Enter? && !step.Refuse? && CallerOf(step).Some?
    ensures s.lock == CallerOf(step) && |Calls(steps)| == |s.entries| > 0
    ensures CallerOf(step) == Some(Calls(steps)[|s.entries| - 1].caller)
  {
    CallerInOrder(s, step);
    assert Pc(s, CallerOf(step).value) != Outside;
  }

  lemma SuccessIsHeard(s: State, steps: seq<Step>, step: Step, i: nat)
    requires Inv(s) && Enabled(s, step) && Follows(s, steps)
    ensures HearsSuccess(steps + [step], |steps|, i) <==> step.Hear? && s.writer.ok && i + 1 == |s.entries|
  {
    Prefixes(steps, step, |steps|);
    OwnStep(steps, step, i);
    if step.Hear? {
      HolderSteps(s, steps, step);
      CallerInOrder(s, step);
    }
  }

  lemma FailureIsGivingUp(s: State, steps: seq<Step>, step: Step, i: nat)
    requires Inv(s) && Enabled(s, step) && Follows(s, steps)
    ensures GivesUp(steps + [step], |steps|, i) <==>
            i + 1 == |s.entries| && (step.SeeDone? || step.CloseFailed? || (step.Look? && s.done))
  {
    Prefixes(steps, step, |steps|);
    OwnStep(steps, step, i);
    if step.SeeDone? || step.CloseFailed? || step.Look? {
      HolderSteps(s, steps, step);
    }
    assert IsClosedBefore(steps + [step], |steps|) <==> IsClosedBefore(steps, |steps|) by {
      assert forall h | 0 <= h < |steps| :: (steps + [step])[h] == steps[h];
    }
  }

  /** What happened stays happened. */
  lemma EarlierSteps(steps: seq<Step>, step: Step, h: int, i: nat)
    requires 0 <= h < |steps|
    ensures HearsSuccess(steps + [step], h, i) <==> HearsSuccess(steps, h, i)
    ensures GivesUp(steps + [step], h, i) <==> GivesUp(steps, h, i)
    ensures IsCause(steps + [step], h) <==> IsCause(steps, h)
  {
    var all := steps + [step];
    Prefixes(steps, step, h);
    assert all[h] == steps[h];
    assert forall g | 0 <= g < h :: all[g] == steps[g];
    assert IsClosedBefore(all, h) <==> IsClosedBefore(steps, h);
  }

  lemma HistoryStep(steps: seq<Step>, step: Step, i: nat)
    ensures var all := steps + [step];
            && (HasHeardSuccess(all, i) <==> HasHeardSuccess(steps, i) || HearsSuccess(all, |steps|, i))
            && (HasGivenUp(all, i) <==> HasGivenUp(steps, i) || GivesUp(all, |steps|, i))
  {
    var all := steps + [step];
    forall h | 0 <= h < |steps|
      ensures HearsSuccess(all, h, i) <==> HearsSuccess(steps, h, i)
      ensures GivesUp(all, h, i) <==> GivesUp(steps, h, i)
    {
      EarlierSteps(steps, step, h, i);
    }
    assert HearsSuccess(all, |steps|, i) ==> HasHeardSuccess(all, i);
    assert GivesUp(all, |steps|, i) ==> HasGivenUp(all, i);
    if h :| HearsSuccess(steps, h, i) {
      assert HearsSuccess(all, h, i);
    }
    if h :| GivesUp(steps, h, i) {
      assert GivesUp(all, h, i);
    }
  }

  /** A fate is decided once, by the last send's own step. */
  lemma FateStep(s: State, step: Step, i: nat)
    requires Inv(s) && Enabled(s, step) && i < |s.entries|
    ensures var before, fate := s.entries[i].fate, Do(s, step).entries[i].fate;
            && (fate == Delivered <==> before == Delivered || (step.Hear? && s.writer.ok && i + 1 == |s.entries|))
            && (fate == Failed <==>
                (before == Failed
                 || (i + 1 == |s.entries| && (step.SeeDone? || step.CloseFailed? || (step.Look? && s.done)))))
  {
    CallerInOrder(s, step);
  }

  ghost predicate HasFate(s: State, steps: seq<Step>, i: nat)
    requires i < |s.entries|
  {
    && (s.entries[i].fate == Delivered <==> HasHeardSuccess(steps, i))
    && (s.entries[i].fate == Failed <==> HasGivenUp(steps, i))
  }

  lemma FateKept(s: State, steps: seq<Step>, step: Step, i: nat)
    requires Inv(s) && Enabled(s, step) && Follows(s, steps) && i < |s.entries| && HasFate(s, steps, i)
    ensures HasFate(Do(s, step), steps + [step], i)
  {
    HistoryStep(steps, step, i);
    SuccessIsHeard(s, steps, step, i);
    FailureIsGivingUp(s, steps, step, i);
    FateStep(s, step, i);
  }

  /** Nothing has happened yet to a send that just got the lock. */
  lemma {:induction false} NothingYet(steps: seq<Step>, i: nat)
    requires |Calls(steps)| <= i
    ensures !HasHeardSuccess(steps, i) && !HasGivenUp(steps, i)
  {
    forall h | 0 <= h < |steps| ensures |Calls(steps[..h])| <= |Calls(steps)| {
      CallsGrow(steps, h);
    }
    forall h ensures !IsOf(steps, h, i) {
    }
  }

  lemma {:induction false} CallsGrow(steps: seq<Step>, h: nat)
    requires h <= |steps|
    ensures |Calls(steps[..h])| <= |Calls(steps)|
  {
    if h < |steps| {
      assert steps[..|steps| - 1][..h] == steps[..h];
      CallsGrow(steps[..|steps| - 1], h);
    } else {
      assert steps[..h] == steps;
    }
  }

  lemma NewCallIsRunning(s: State, steps: seq<Step>, step: Step)
    requires Enabled(s, step) && step.Enter? && AreCalls(s, steps)
    ensures HasFate(Do(s, step), steps + [step], |s.entries|)
  {
    var i := |s.entries|;
    HistoryStep(steps, step, i);
    NothingYet(steps, i);
    assert (steps + [step])[|steps|] == step;
  }

  /** Exactly when a send returns nil, and when it returns an error: call number i is delivered if
      and only if its own caller received a report made after the connection had taken the whole
      line without a failing write, and it has failed if and only if its caller found the client
      closed or closed it. Any other send is still going on. */
  lemma {:induction false} FatesExactly(steps: seq<Step>, i: nat)
    requires IsExecution(steps) && i < |After(steps).entries|
    ensures |After(steps).entries| == |Calls(steps)| && After(steps).entries[i].text == Calls(steps)[i].text
    ensures After(steps).entries[i].fate == Delivered <==> HasHeardSuccess(steps, i)
    ensures After(steps).entries[i].fate == Failed <==> HasGivenUp(steps, i)
  {
    AlwaysFollows(steps);
    var most, last := steps[..|steps| - 1], steps[|steps| - 1];
    AlwaysFollows(most);
    assert steps == most + [last];
    var s := After(most);
    if i < |s.entries| {
      FatesExactly(most, i);
      FateKept(s, most, last, i);
    } else {
      CallsStep(most, last);
      NewCallIsRunning(s, most, last);
    }
  }

  // -------------------------------------------------------------------- closing

  ghost predicate HasCause(steps: seq<Step>) {
    exists h :: IsCause(steps, h)
  }

  /** Whoever is about to close the client has a cause; and a send that failed leaves it closed. */
  predicate IsJustified(s: State, caused: bool) {
    && (s.done || (s.lock.Some? && Pc(s, s.lock.value).Closing?) ==> caused)
    && forall i | 0 <= i < |s.entries| :: s.entries[i].fate == Failed ==> s.done
  }

  lemma CauseStep(steps: seq<Step>, step: Step)
    ensures HasCause(steps + [step]) <==>
            HasCause(steps) || step.Close? || step.TimeOut? || (step.Hear? && HasFailed(steps))
  {
    var all := steps + [step];
    Prefixes(steps, step, |steps|);
    forall h | 0 <= h < |steps| ensures IsCause(all, h) <==> IsCause(steps, h) {
      EarlierSteps(steps, step, h, 0);
    }
    assert IsCause(all, |steps|) <==> step.Close? || step.TimeOut? || (step.Hear? && HasFailed(steps));
    if h :| IsCause(steps, h) {
      assert IsCause(all, h);
    }
  }

  lemma JustifiedKept(s: State, steps: seq<Step>, step: Step)
    requires Inv(s) && Enabled(s, step) && Follows(s, steps) && IsJustified(s, HasCause(steps))
    ensures IsJustified(Do(s, step), HasCause(steps + [step]))
  {
    CauseStep(steps, step);
    CallerInOrder(s, step);
  }

  lemma {:induction false} AlwaysJustified(steps: seq<Step>)
    requires IsExecution(steps)
    ensures IsJustified(After(steps), HasCause(steps))
  {
    if steps != [] {
      var most, last := steps[..|steps| - 1], steps[|steps| - 1];
      AlwaysJustified(most);
      AlwaysFollows(most);
      assert steps == most + [last];
      JustifiedKept(After(most), most, last);
    }
  }

  /** The client is closed exactly by a close or by the close of a failing send, never without a
      cause: somebody closed it, a send timed out, or a caller heard of a write that failed. And
      a send that failed has left it closed. */
  lemma {:induction false} ClosedExactly(steps: seq<Step>)
    requires IsExecution(steps)
    ensures After(steps).done <==> IsClosedBefore(steps, |steps|)
    ensures After(steps).done ==> HasCause(steps)
    ensures forall i | 0 <= i < |After(steps).entries| :: After(steps).entries[i].fate == Failed ==> After(steps).done
  {
    AlwaysFollows(steps);
    AlwaysJustified(steps);
  }

  // -------------------------------------------------------------------- a witness

  /** A line that the connection takes in two pieces. */
  function DeliveringSteps(): seq<Step> {
    [Enter(1, "<!>"), Look(1), Write(1, true), Write(3, true), Report, Hear(1), Leave(1)]
  }

  lemma TakenInPieces()
    ensures var steps := DeliveringSteps()[..5];
            && IsExecution(steps)
            && After(steps) == State(false, Some(1), map[1 := Waiting(0)], Reported(0, 4, true), [Entry("<!>", Running)], "<!>\n")
  {
    BeingWritten("<!>");
    var s2 := [Enter(1, "<!>"), Look(1)];
    var s3 := s2 + [Write(1, true)];
    var s4 := s3 + [Write(3, true)];
    Extended(s2, Write(1, true));
    Extended(s3, Write(3, true));
    Extended(s4, Report);
    assert s4 + [Report] == DeliveringSteps()[..5];
  }

  /** Sends do succeed: the client stays open, the lock is free and the line is on the wire. */
  lemma SendsDeliver()
    ensures IsExecution(DeliveringSteps())
    ensures var s := After(DeliveringSteps());
            && s.entries == [Entry("<!>", Delivered)] && s.wire == "<!>\n" && !s.done && s.lock == None
  {
    TakenInPieces();
    var s5 := DeliveringSteps()[..5];
    Extended(s5, Hear(1));
    Extended(s5 + [Hear(1)], Leave(1));
    assert s5 + [Hear(1)] + [Leave(1)] == DeliveringSteps();
  }
}
