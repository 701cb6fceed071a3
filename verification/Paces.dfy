/** The speeds of a cab over whole runs: each is what the operations and the connection say, every
    throttle command has its reason, and what is shown agrees with what was sent exactly as long
    as no selection breaks it. */
module Paces {
  import opened Results
  import opened Commands
  import opened Panel
  import opened Runs
  import opened Agreement
  import opened Motion
  import opened Movement
  import opened Speeds
  import opened History

  /** The pace of cab k by the operations since its tab was opened and by what went over the
      connection, never by the bookkeeping of the controller. */
  ghost function PaceHistory(run: Run, i: nat, k: int): Pace
    requires IsRun(run) && i <= |run.ops|
  {
    if i == 0 || k !in At(run, i - 1).cabs then UNMOVED
    else NextPace(PaceHistory(run, i - 1, k), At(run, i - 1), run.ops[i - 1], At(run, i), k)
  }

  ghost predicate PaceAgrees(run: Run, i: nat, k: int)
    requires IsRun(run) && i <= |run.ops|
  {
    k in At(run, i).cabs ==> PaceOf(At(run, i).cabs[k]) == PaceHistory(run, i, k)
  }

  lemma PaceInRun(run: Run, m: nat, k: int)
    requires IsRun(run) && m < |run.ops| && k in At(run, m + 1).cabs
    ensures PaceOf(At(run, m + 1).cabs[k]) ==
              if k in At(run, m).cabs then NextPace(PaceOf(At(run, m).cabs[k]), At(run, m), run.ops[m], At(run, m + 1), k)
              else UNMOVED
  {
    DisplayedAgreesWithSent(run, m);
    Stepped(run, m);
    PaceStep(At(run, m), run.ops[m], k, run.answers);
  }

  lemma PaceAgreesNext(run: Run, m: nat, k: int)
    requires IsRun(run) && m < |run.ops| && PaceAgrees(run, m, k)
    ensures PaceAgrees(run, m + 1, k)
  {
    if k in At(run, m + 1).cabs {
      PaceInRun(run, m, k);
    }
  }

  lemma PaceAgreesAtFirst(run: Run, k: int)
    requires IsRun(run)
    ensures PaceAgrees(run, 0, k)
  {
    if k in run.start.cabs {
      assert Layouts.AtRest(run.start.cabs[k]);
    }
  }

  lemma PacePersists(run: Run, i: nat, k: int, agrees: nat -> bool)
    requires IsRun(run) && i <= |run.ops| && agrees(0)
    requires forall m: nat | m <= |run.ops| :: agrees(m) == PaceAgrees(run, m, k)
    ensures agrees(i)
  {
    forall m: nat | m < i && agrees(m) ensures agrees(m + 1) {
      PaceAgreesNext(run, m, k);
    }
    Persists(agrees, 0, i);
  }

  lemma PaceAlwaysAgrees(run: Run, i: nat, k: int)
    requires IsRun(run) && i <= |run.ops|
    ensures PaceAgrees(run, i, k)
  {
    var agrees := (m: nat) => m <= |run.ops| && PaceAgrees(run, m, k);
    PaceAgreesAtFirst(run, k);
    PacePersists(run, i, k, agrees);
    assert agrees(i);
  }

  /** In every reachable state the speed of an open cab on show is the one last asked for,
      reported or stopped to; the queued one is the one last asked for unless it was revoked, sent
      or already in effect; and the last exchanged one is the last that went over this connection
      for the cab in either direction. */
  lemma {:induction false} PaceIsHistory(run: Run, i: nat, k: int)
    requires IsRun(run) && i <= |run.ops| && k in At(run, i).cabs
    ensures PaceOf(At(run, i).cabs[k]) == PaceHistory(run, i, k)
  {
    PaceAlwaysAgrees(run, i, k);
  }

  // ---------------------------------------------------------- every throttle command

  lemma ProperInRun(run: Run, i: nat, n: nat)
    requires IsRun(run) && i < |run.ops| && n < |NewLog(run, i)|
    ensures IsSentProperly(At(run, i), run.ops[i], NewLog(run, i)[n])
  {
    DisplayedAgreesWithSent(run, i);
    Stepped(run, i);
    ThrottleStep(At(run, i), run.ops[i], n, run.answers);
  }

  /** Every throttle command of a run is within range, is for an open cab, and is one of three: a
      tick's, which carries the latest request; a stop's, which carries 0; or a reversal's, which
      carries the speed on show. */
  lemma {:induction false} EveryThrottleCommand(run: Run, i: nat, n: nat)
    requires IsRun(run) && i < |run.ops| && n < |NewLog(run, i)|
    requires NewLog(run, i)[n].Sent? && NewLog(run, i)[n].cmd.Throttle?
    ensures var p, op, cmd := At(run, i), run.ops[i], NewLog(run, i)[n].cmd;
            var m := PaceHistory(run, i, cmd.cab);
            && InRange(cmd) && cmd.cab in p.cabs
            && if op.Tick? then
                 && m.queued == Some(cmd.speed) && cmd.dir == p.cabs[cmd.cab].state.direction
                 && exists j: nat :: Originates(run, j, i, cmd.cab, cmd.speed)
               else if Stops(p, op, cmd.cab) then cmd.speed == 0 && cmd.dir == p.cabs[cmd.cab].state.direction
               else Reversal(p, op, cmd.cab) == Some(cmd.dir) && cmd.speed == m.shown
  {
    ProperInRun(run, i, n);
    var cmd := NewLog(run, i)[n].cmd;
    PaceIsHistory(run, i, cmd.cab);
    if run.ops[i].Tick? {
      NoStaleMovement(run, i, n);
    }
  }

  // ------------------------------------------------------- shown and sent agreement

  /** With nothing queued, the speed last exchanged, if any, is on show. */
  predicate IsSettled(m: Pace) {
    m.queued == None && m.exchanged.Some? ==> m.exchanged == Some(m.shown)
  }

  lemma SettledPace(r: Runtime)
    ensures IsSettled(PaceOf(r)) <==> Settled(r)
  {
  }

  /** The step leaves cab k by SelectCab while a speed other than the exchanged one is queued. */
  predicate BreaksPace(m: Pace, p: Panel, op: Op, q: Panel, k: int) {
    Leaves(p, op, k) && q.attached && m.queued.Some? && m.exchanged.Some? && m.queued != m.exchanged
  }

  /** The step settles the speed of cab k anew: it ends or makes the connection, or the speed is
      asked for, sent, stopped, or reported. */
  ghost predicate MendsPace(p: Panel, op: Op, q: Panel, k: int) {
    || !q.attached || op.Attach? || Asks(p, op, k) || Stops(p, op, k) || HaltsAll(p, op)
    || Reversal(p, op, k).Some? || Reports(op, k) || (op.Tick? && Transmits(NewWire(p, q), k))
  }

  lemma SettledStep(m: Pace, p: Panel, op: Op, q: Panel, k: int)
    requires m.queued.Some? ==> m.queued == Some(m.shown)
    requires !p.attached ==> m.exchanged == None
    requires Asks(p, op, k) ==> q.attached == p.attached
    ensures var t := NextPace(m, p, op, q, k);
            IsSettled(t) <==> !BreaksPace(m, p, op, q, k) && (MendsPace(p, op, q, k) || IsSettled(m))
  {
  }

  /** Some selection broke the agreement of cab k and nothing has mended it since. */
  ghost predicate Unsettled(run: Run, i: nat, k: int)
    requires IsRun(run) && i <= |run.ops|
  {
    && i > 0 && k in At(run, i - 1).cabs
    && var p, op, q := At(run, i - 1), run.ops[i - 1], At(run, i);
       BreaksPace(PaceHistory(run, i - 1, k), p, op, q, k) || (!MendsPace(p, op, q, k) && Unsettled(run, i - 1, k))
  }

  ghost predicate SettledAgrees(run: Run, i: nat, k: int)
    requires IsRun(run) && i <= |run.ops|
  {
    k in At(run, i).cabs ==> (IsSettled(PaceHistory(run, i, k)) <==> !Unsettled(run, i, k))
  }

  /** What the inductive invariant says about the history. */
  lemma PaceIsSound(run: Run, i: nat, k: int)
    requires IsRun(run) && i <= |run.ops| && k in At(run, i).cabs
    ensures var m := PaceHistory(run, i, k);
            (m.queued.Some? ==> m.queued == Some(m.shown)) && (!At(run, i).attached ==> m.queued == None && m.exchanged == None)
  {
    PaceIsHistory(run, i, k);
    DisplayedAgreesWithSent(run, i);
    assert Good(At(run, i).cabs[k], At(run, i).attached, false);
  }

  lemma SettledAgreesNext(run: Run, i: nat, k: int)
    requires IsRun(run) && i < |run.ops| && SettledAgrees(run, i, k)
    ensures SettledAgrees(run, i + 1, k)
  {
    Stepped(run, i);
    var p, op, q := At(run, i), run.ops[i], At(run, i + 1);
    if k in p.cabs {
      PaceIsSound(run, i, k);
      StaysOffline(p, op, k, run.answers);
      SettledStep(PaceHistory(run, i, k), p, op, q, k);
    }
  }

  lemma SettledAlwaysAgrees(run: Run, i: nat, k: int)
    requires IsRun(run) && i <= |run.ops|
    ensures SettledAgrees(run, i, k)
  {
    var agrees := (m: nat) => m <= |run.ops| && SettledAgrees(run, m, k);
    forall m: nat | m < i && agrees(m) ensures agrees(m + 1) {
      SettledAgreesNext(run, m, k);
    }
    assert SettledAgrees(run, 0, k);
    Persists(agrees, 0, i);
    assert agrees(i);
  }

  /** In every reachable state a cab with nothing queued shows its last exchanged speed, if and
      only if no SelectCab has left it with another speed queued since it was last asked for,
      sent, stopped or reported over this connection. */
  lemma {:induction false} SettledExactly(run: Run, i: nat, k: int)
    requires IsRun(run) && i <= |run.ops| && k in At(run, i).cabs
    ensures Settled(At(run, i).cabs[k]) <==> !Unsettled(run, i, k)
  {
    PaceIsHistory(run, i, k);
    SettledAlwaysAgrees(run, i, k);
    SettledPace(At(run, i).cabs[k]);
  }

  /** A tab that is closed or reassigned shows 0 with nothing queued; its last exchanged speed is
      0 or unknown if and only if no unmended selection has broken its agreement. */
  lemma {:induction false} DroppedCabsAreStoppedExactly(run: Run, i: nat, k: int)
    requires IsRun(run) && i < |run.ops| && k in At(run, i).cabs && k !in At(run, i + 1).cabs
    ensures var m := PaceHistory(run, i, k);
            && m.shown == 0 && m.queued == None
            && (m.exchanged == None || m.exchanged == Some(0) <==> !Unsettled(run, i, k))
  {
    PaceIsHistory(run, i, k);
    SettledAlwaysAgrees(run, i, k);
    if !IsAtRest(At(run, i).cabs[k]) {
      Stepped(run, i);
      MovingCabsStay(At(run, i), run.ops[i], k, run.answers);
      assert false;
    }
  }

  // -------------------------------------------------------------------- reversals

  /** A speed that is on its way or in effect: queued, or last exchanged over this connection. */
  predicate IsCurrent(m: Pace, speed: int) {
    m.queued == Some(speed) || m.exchanged == Some(speed)
  }

  /** In one step: the speed that a reversal would send is current exactly when something is
      queued or the last exchange is known, for a cab whose agreement stands. */
  lemma ReversalIsCurrent(r: Runtime, attached: bool)
    requires Good(r, attached, true)
    ensures IsCurrent(PaceOf(r), r.state.speed) <==> r.pending.Some? || r.lastKnown
  {
  }

  lemma CurrentPace(m: Pace)
    requires m.queued.Some? ==> m.queued == Some(m.shown)
    ensures IsCurrent(m, m.shown) <==> m.queued.Some? || m.exchanged == Some(m.shown)
    ensures IsSettled(m) ==> (IsCurrent(m, m.shown) <==> m.queued.Some? || m.exchanged.Some?)
  {
  }

  /** Over whole runs: the speed that a reversal sends is current if and only if one is queued or
      something was exchanged about the cab since attaching, as long as no unmended selection has
      broken its agreement; in general it is so if and only if one is queued or the exchanged one
      is on show. */
  lemma {:induction false} ReversalSendsCurrentSpeed(run: Run, i: nat, n: nat)
    requires IsRun(run) && i < |run.ops| && n < |NewLog(run, i)|
    requires NewLog(run, i)[n].Sent? && NewLog(run, i)[n].cmd.Throttle?
    requires Reversal(At(run, i), run.ops[i], NewLog(run, i)[n].cmd.cab).Some?
    ensures var cmd := NewLog(run, i)[n].cmd;
            var m := PaceHistory(run, i, cmd.cab);
            && cmd.speed == m.shown
            && (IsCurrent(m, cmd.speed) <==> m.queued.Some? || m.exchanged == Some(m.shown))
            && (!Unsettled(run, i, cmd.cab) ==> (IsCurrent(m, cmd.speed) <==> m.queued.Some? || m.exchanged.Some?))
  {
    EveryThrottleCommand(run, i, n);
    var k := NewLog(run, i)[n].cmd.cab;
    PaceIsSound(run, i, k);
    SettledAlwaysAgrees(run, i, k);
    CurrentPace(PaceHistory(run, i, k));
  }
}
