/** The action queue of throttle/session.go and its shutdown, as an interleaving of any number of
    callers of enqueue and Close with the goroutine that runs the session. Each step is one
    operation that the original performs atomically. */
module Shutdown {

  const CAPACITY: nat := 128

  /** A preference survives the close; any other action operates the layout and does not. */
  datatype Action = Action(id: int, preference: bool)

  /** Where a caller of enqueue or Close is. All but Outside hold the queue lock. */
  datatype Caller = Outside | Entered(action: Action) | Admitted(action: Action) | Cancelling | Leaving

  /** Where the session goroutine is. Handling an action is the same code in the loop and in the
      drain; `draining` tells where it returns to, and `late` whether the check before applying it
      found the session closed. */
  datatype Runner =
    | Top | Selecting | TickDue | Ticking
    | Taken(action: Action, draining: bool) | Applying(action: Action, draining: bool, late: bool)
    | Flushing | FlushLocked | FlushClosed | Draining | Finished

  datatype Holder = Nobody | HeldBy(caller: int) | HeldByRunner

  datatype Outcome = Applied | Dropped

  datatype State = State(
    closed: bool, lock: Holder, callers: map<int, Caller>, runner: Runner,
    queue: seq<Action>, accepted: seq<Action>, taken: seq<Action>, outcomes: seq<Outcome>)

  datatype Step =
    | Enter(caller: int, action: Action)  // enqueue takes the lock
    | Check(caller: int)                  // it looks whether the session is closed
    | Offer(caller: int)                  // it offers the action to the queue
    | CloseEnter(caller: int)             // Close takes the lock
    | Cancel(caller: int)                 // it cancels the context
    | Leave(caller: int)                  // either gives the lock back
    | SelectTake | SelectTick | SelectOther | SelectDone
    | Run                                 // the goroutine's next step when it has no choice

  predicate IsRunnerStep(step: Step) {
    step.SelectTake? || step.SelectTick? || step.SelectOther? || step.SelectDone? || step.Run?
  }

  function START(): State {
    State(false, Nobody, map[], Top, [], [], [], [])
  }

  function Pc(s: State, c: int): Caller {
    if c in s.callers then s.callers[c] else Outside
  }

  function At(s: State, c: int, pc: Caller): State {
    s.(callers := s.callers[c := pc])
  }

  predicate Enabled(s: State, step: Step) {
    match step
    case Enter(_, _) => s.lock == Nobody
    case CloseEnter(_) => s.lock == Nobody
    case Check(c) => Pc(s, c).Entered?
    case Offer(c) => Pc(s, c).Admitted?
    case Cancel(c) => Pc(s, c).Cancelling?
    case Leave(c) => Pc(s, c).Leaving?
    case SelectTake => s.runner.Selecting? && s.queue != []
    case SelectTick => s.runner.Selecting?
    case SelectOther => s.runner.Selecting?
    case SelectDone => s.runner.Selecting? && s.closed
    case Run => !s.runner.Selecting? && !s.runner.Finished? && (s.runner.Flushing? ==> s.lock == Nobody)
  }

  function Take(s: State, draining: bool): State
    requires s.queue != []
  {
    s.(runner := Taken(s.queue[0], draining), queue := s.queue[1..], taken := s.taken + [s.queue[0]])
  }

  function Back(draining: bool): Runner {
    if draining then Draining else Top
  }

  function Ran(s: State): State
    requires Enabled(s, Run)
  {
    match s.runner
    case Top => s.(runner := if s.closed then Flushing else Selecting)
    case TickDue => s.(runner := if s.closed then Top else Ticking)
    case Ticking => s.(runner := Top)
    case Taken(a, draining) =>
      if s.closed && !a.preference then s.(runner := Back(draining), outcomes := s.outcomes + [Dropped])
      else s.(runner := Applying(a, draining, s.closed))
    case Applying(_, draining, _) => s.(runner := Back(draining), outcomes := s.outcomes + [Applied])
    case Flushing => s.(runner := FlushLocked, lock := HeldByRunner)
    case FlushLocked => s.(runner := FlushClosed, closed := true)
    case FlushClosed => s.(runner := Draining, lock := Nobody)
    case Draining => if s.queue != [] then Take(s, true) else s.(runner := Finished)
  }

  function Do(s: State, step: Step): State
    requires Enabled(s, step)
  {
    match step
    case Enter(c, a) => At(s, c, Entered(a)).(lock := HeldBy(c))
    case CloseEnter(c) => At(s, c, Cancelling).(lock := HeldBy(c))
    case Check(c) => At(s, c, if s.closed then Leaving else Admitted(Pc(s, c).action))
    case Offer(c) =>
      var a := Pc(s, c).action;
      var t := At(s, c, Leaving);
      if |s.queue| < CAPACITY then t.(queue := s.queue + [a], accepted := s.accepted + [a]) else t
    case Cancel(c) => At(s, c, Leaving).(closed := true)
    case Leave(c) => At(s, c, Outside).(lock := Nobody)
    case SelectTake => Take(s, false)
    case SelectTick => s.(runner := TickDue)
    case SelectOther => s.(runner := Top)
    case SelectDone => s.(runner := Flushing)
    case Run => Ran(s)
  }

  predicate IsExecution(steps: seq<Step>)
    decreases |steps|, 0
  {
    steps == [] || (IsExecution(steps[..|steps| - 1]) && Enabled(After(steps[..|steps| - 1]), steps[|steps| - 1]))
  }

  /** The state that an execution leads to. */
  function After(steps: seq<Step>): State
    requires IsExecution(steps)
    decreases |steps|, 1
  {
    if steps == [] then START() else Do(After(steps[..|steps| - 1]), steps[|steps| - 1])
  }

  // ----------------------------------------------------------------- invariant

  predicate IsClosing(r: Runner) {
    r.Flushing? || r.FlushLocked? || r.FlushClosed? || r.Draining? || r.Finished?
    || ((r.Taken? || r.Applying?) && r.draining)
  }

  function InHand(r: Runner): seq<Action> {
    if r.Taken? || r.Applying? then [r.action] else []
  }

  /** Who is inside holds the lock, and an admitted caller still finds the session open. */
  ghost predicate IsLocked(s: State) {
    && (forall c :: Pc(s, c) != Outside <==> s.lock == HeldBy(c))
    && (forall c :: Pc(s, c).Admitted? ==> !s.closed)
    && (s.lock == HeldByRunner <==> s.runner.FlushLocked? || s.runner.FlushClosed?)
  }

  /** The queue holds what was accepted and not yet taken, in order. */
  predicate IsQueued(s: State) {
    s.accepted == s.taken + s.queue && |s.queue| <= CAPACITY
  }

  /** Everything taken, except for what is in hand, was applied or dropped, and no preference
      was dropped. */
  predicate IsHandled(s: State) {
    && |s.taken| == |s.outcomes| + |InHand(s.runner)|
    && (InHand(s.runner) != [] ==> s.taken[|s.taken| - 1] == s.runner.action)
    && forall i | 0 <= i < |s.outcomes| :: s.taken[i].preference ==> s.outcomes[i] == Applied
  }

  ghost predicate Inv(s: State) {
    && IsLocked(s) && IsQueued(s) && IsHandled(s)
    && (IsClosing(s.runner) ==> s.closed && (s.runner.Applying? ==> s.runner.late))
    && (s.runner.Finished? ==> s.queue == [])
  }

  lemma LockKept(s: State, step: Step)
    requires IsLocked(s) && Enabled(s, step)
    ensures IsLocked(Do(s, step))
  {
    var t := Do(s, step);
    assert IsRunnerStep(step) ==> t.callers == s.callers;
  }

  lemma QueueKept(s: State, step: Step)
    requires IsQueued(s) && Enabled(s, step)
    ensures IsQueued(Do(s, step))
  {
    if s.queue != [] {
      assert s.queue == [s.queue[0]] + s.queue[1..];
    }
  }

  lemma HandledKept(s: State, step: Step)
    requires IsHandled(s) && Enabled(s, step)
    ensures IsHandled(Do(s, step))
  {
  }

  /** Every step of every thread keeps the invariant. */
  lemma {:induction false} InvKept(s: State, step: Step)
    requires Inv(s) && Enabled(s, step)
    ensures Inv(Do(s, step))
  {
    LockKept(s, step);
    QueueKept(s, step);
    HandledKept(s, step);
  }

  lemma {:induction false} Reachable(steps: seq<Step>)
    requires IsExecution(steps)
    ensures Inv(After(steps))
  {
    if steps != [] {
      Reachable(steps[..|steps| - 1]);
      InvKept(After(steps[..|steps| - 1]), steps[|steps| - 1]);
    }
  }

  /** In every reachable state the actions taken so far, followed by those still queued, are
      those accepted, each once and in the order of acceptance, at most 128 of them queued. */
  lemma {:induction false} QueueIsFifo(steps: seq<Step>)
    requires IsExecution(steps)
    ensures var s := After(steps); s.accepted == s.taken + s.queue && |s.queue| <= 128
  {
    Reachable(steps);
  }

  // ------------------------------------------------------------- close and drain

  /** Closing is for good, and nothing is accepted from then on. */
  lemma {:induction false} NothingAcceptedOnceClosed(s: State, step: Step)
    requires Inv(s) && Enabled(s, step) && s.closed
    ensures Do(s, step).closed && Do(s, step).accepted == s.accepted
  {
  }

  function Preferences(actions: seq<Action>): seq<Action> {
    if actions == [] then []
    else
      var last := actions[|actions| - 1];
      Preferences(actions[..|actions| - 1]) + if last.preference then [last] else []
  }

  /** The actions that were applied, in order. */
  function Performed(taken: seq<Action>, outcomes: seq<Outcome>): seq<Action>
    requires |outcomes| <= |taken|
  {
    if outcomes == [] then []
    else
      var n := |outcomes| - 1;
      Performed(taken, outcomes[..n]) + if outcomes[n] == Applied then [taken[n]] else []
  }

  lemma PreferencesSnoc(actions: seq<Action>, a: Action)
    ensures Preferences(actions + [a]) == Preferences(actions) + if a.preference then [a] else []
  {
    assert (actions + [a])[..|actions|] == actions;
  }

  lemma {:induction false} PreferencesArePerformed(taken: seq<Action>, outcomes: seq<Outcome>)
    requires |outcomes| <= |taken|
    requires forall i | 0 <= i < |outcomes| :: taken[i].preference ==> outcomes[i] == Applied
    ensures Preferences(Performed(taken, outcomes)) == Preferences(taken[..|outcomes|])
  {
    if outcomes == [] {
      assert taken[..0] == [];
    } else {
      var n := |outcomes| - 1;
      PreferencesArePerformed(taken, outcomes[..n]);
      assert taken[..n + 1] == taken[..n] + [taken[n]];
      PreferencesSnoc(taken[..n], taken[n]);
      PreferencesSnoc(Performed(taken, outcomes[..n]), taken[n]);
      assert Performed(taken, outcomes[..n]) + [] == Performed(taken, outcomes[..n]);
    }
  }

  /** When the session is done, every accepted preference has been applied exactly once, in the
      order of acceptance, and nothing is left in the queue. */
  lemma PreferencesAppliedWhenDone(steps: seq<Step>)
    requires IsExecution(steps) && After(steps).runner.Finished?
    ensures var s := After(steps);
            && s.closed && s.queue == [] && |s.outcomes| <= |s.taken|
            && Preferences(Performed(s.taken, s.outcomes)) == Preferences(s.accepted)
  {
    Reachable(steps);
    var s := After(steps);
    PreferencesArePerformed(s.taken, s.outcomes);
    assert s.taken[..|s.outcomes|] == s.accepted;
  }

  /** An upper bound for the steps that the goroutine still takes once the session is closed. */
  function Rank(s: State): nat {
    4 * |s.queue| +
    match s.runner
    case Selecting => 20
    case TickDue => 19
    case Ticking => 18
    case Top => 10
    case Flushing => 9
    case FlushLocked => 8
    case FlushClosed => 7
    case Draining => 6
    case Taken(_, draining) => if draining then 9 else 23
    case Applying(_, draining, _) => if draining then 8 else 22
    case Finished => 0
  }

  /** Once closed, each step of the goroutine brings it nearer to its end, and no caller can put
      that end off. */
  lemma {:induction false} ClosedRunsDown(s: State, step: Step)
    requires Inv(s) && Enabled(s, step) && s.closed
    ensures if IsRunnerStep(step) then Rank(Do(s, step)) < Rank(s) else Rank(Do(s, step)) == Rank(s)
  {
  }

  function RunnerSteps(steps: seq<Step>): nat {
    if steps == [] then 0
    else RunnerSteps(steps[..|steps| - 1]) + if IsRunnerStep(steps[|steps| - 1]) then 1 else 0
  }

  lemma {:induction false} ClosedStays(steps: seq<Step>, n: nat)
    requires IsExecution(steps) && n <= |steps|
    ensures IsExecution(steps[..n])
    ensures After(steps[..n]).closed ==> After(steps).closed && After(steps).accepted == After(steps[..n]).accepted
  {
    if n < |steps| {
      var most := steps[..|steps| - 1];
      assert most[..n] == steps[..n];
      ClosedStays(most, n);
      Reachable(most);
      if After(steps[..n]).closed {
        NothingAcceptedOnceClosed(After(most), steps[|steps| - 1]);
      }
    } else {
      assert steps[..n] == steps;
    }
  }

  /** The shutdown ends: from any moment at which the session is closed the goroutine takes at
      most as many steps as its rank was then. */
  lemma {:induction false} ShutdownEnds(steps: seq<Step>, n: nat)
    requires IsExecution(steps) && n <= |steps| && IsExecution(steps[..n]) && After(steps[..n]).closed
    ensures RunnerSteps(steps) + Rank(After(steps)) <= RunnerSteps(steps[..n]) + Rank(After(steps[..n]))
  {
    if n < |steps| {
      var most := steps[..|steps| - 1];
      assert most[..n] == steps[..n];
      ShutdownEnds(most, n);
      ClosedStays(most, n);
      Reachable(most);
      ClosedRunsDown(After(most), steps[|steps| - 1]);
    } else {
      assert steps[..n] == steps;
    }
  }

  /** The next step of the caller that holds the lock. */
  function Onward(s: State, c: int): Step {
    match Pc(s, c)
    case Entered(_) => Check(c)
    case Admitted(_) => Offer(c)
    case Cancelling => Cancel(c)
    case _ => Leave(c)
  }

  /** Nothing gets stuck: the goroutine can always go on, unless it has finished or waits for
      the lock, and then whoever holds the lock can go on. */
  lemma NeverStuck(steps: seq<Step>)
    requires IsExecution(steps) && !After(steps).runner.Finished?
    ensures var s := After(steps);
            || Enabled(s, Run) || Enabled(s, SelectOther)
            || (s.lock.HeldBy? && Enabled(s, Onward(s, s.lock.caller)))
  {
    Reachable(steps);
    var s := After(steps);
    if s.lock.HeldBy? {
      assert Pc(s, s.lock.caller) != Outside;
    }
  }

  // ----------------------------------------------------------- operating actions

  /** An operating action whose check has passed and that has not been applied yet. */
  predicate InFlight(s: State) {
    s.runner.Applying? && !s.runner.action.preference
  }

  function Operated(s: State): nat
    requires |s.outcomes| <= |s.taken|
  {
    OperatedIn(s.taken, s.outcomes)
  }

  function OperatedIn(taken: seq<Action>, outcomes: seq<Outcome>): nat
    requires |outcomes| <= |taken|
  {
    if outcomes == [] then 0
    else
      var n := |outcomes| - 1;
      OperatedIn(taken, outcomes[..n]) + if outcomes[n] == Applied && !taken[n].preference then 1 else 0
  }

  lemma {:induction false} OperatedGrows(taken: seq<Action>, more: seq<Action>, outcomes: seq<Outcome>)
    requires |outcomes| <= |taken|
    ensures OperatedIn(taken + more, outcomes) == OperatedIn(taken, outcomes)
  {
    if outcomes != [] {
      OperatedGrows(taken, more, outcomes[..|outcomes| - 1]);
    }
  }

  /** The step records the outcome of the action in hand. */
  function Recorded(s: State, step: Step): seq<Outcome> {
    if step.Run? && s.runner.Applying? then [Applied]
    else if step.Run? && s.runner.Taken? && s.closed && !s.runner.action.preference then [Dropped]
    else []
  }

  /** How a step from s to t changes what was taken and what became of it. */
  predicate Accounts(s: State, step: Step, t: State) {
    && t.outcomes == s.outcomes + Recorded(s, step)
    && (t.taken == s.taken || (Recorded(s, step) == [] && s.queue != [] && t.taken == s.taken + [s.queue[0]]))
  }

  lemma AccountStep(s: State, step: Step)
    requires Enabled(s, step)
    ensures Accounts(s, step, Do(s, step))
  {
    assert s.outcomes + [] == s.outcomes;
  }

  lemma OneMoreOperated(taken: seq<Action>, outcomes: seq<Outcome>, outcome: Outcome)
    requires |outcomes| < |taken|
    ensures OperatedIn(taken, outcomes + [outcome]) ==
              OperatedIn(taken, outcomes) + if outcome == Applied && !taken[|outcomes|].preference then 1 else 0
  {
    assert (outcomes + [outcome])[..|outcomes|] == outcomes;
  }

  lemma FlightStep(s: State, step: Step)
    requires Inv(s) && Enabled(s, step) && s.closed
    ensures InFlight(Do(s, step)) <==> InFlight(s) && !IsRunnerStep(step)
  {
  }

  lemma OperatedByAccount(s: State, step: Step, t: State)
    requires IsHandled(s) && Accounts(s, step, t)
    ensures |t.outcomes| <= |t.taken|
    ensures Operated(t) == Operated(s) + (if step.Run? && InFlight(s) then 1 else 0)
  {
    assert s.outcomes + [] == s.outcomes;
    if Recorded(s, step) != [] {
      assert Recorded(s, step) == [Recorded(s, step)[0]];
      OneMoreOperated(s.taken, s.outcomes, Recorded(s, step)[0]);
    } else if t.taken != s.taken {
      OperatedGrows(s.taken, [s.queue[0]], s.outcomes);
    }
  }

  /** Once closed, a step applies an operating action exactly when it is the goroutine's and one
      is in flight, and none gets in flight any more. */
  lemma OperatesOnceClosed(s: State, step: Step)
    requires Inv(s) && Enabled(s, step) && s.closed
    ensures var t := Do(s, step);
            && |t.outcomes| <= |t.taken|
            && Operated(t) == Operated(s) + (if InFlight(s) && IsRunnerStep(step) then 1 else 0)
            && (InFlight(t) <==> InFlight(s) && !IsRunnerStep(step))
  {
    FlightStep(s, step);
    AccountStep(s, step);
    OperatedByAccount(s, step, Do(s, step));
  }

  /** After the close no operating action is applied, except exactly the one, if any, whose check
      had passed when the session was closed. */
  lemma {:induction false} OnlyTheOneInFlight(steps: seq<Step>, n: nat)
    requires IsExecution(steps) && n <= |steps| && IsExecution(steps[..n]) && After(steps[..n]).closed
    ensures var s, t := After(steps[..n]), After(steps);
            && |s.outcomes| <= |s.taken| && |t.outcomes| <= |t.taken|
            && Operated(t) == Operated(s) + (if InFlight(s) && !InFlight(t) then 1 else 0)
            && (InFlight(t) ==> InFlight(s))
  {
    Reachable(steps[..n]);
    if n < |steps| {
      var most := steps[..|steps| - 1];
      assert most[..n] == steps[..n];
      OnlyTheOneInFlight(most, n);
      ClosedStays(most, n);
      Reachable(most);
      OperatesOnceClosed(After(most), steps[|steps| - 1]);
    } else {
      assert steps[..n] == steps;
    }
  }

  /** An operating action is accepted, taken and checked; then the session is closed. */
  function RacingSteps(): seq<Step> {
    [Enter(1, Action(7, false)), Check(1), Offer(1), Leave(1), Run, SelectTake, Run, CloseEnter(2), Cancel(2), Leave(2)]
  }

  lemma {:induction false} Extended(steps: seq<Step>, step: Step)
    requires IsExecution(steps) && Enabled(After(steps), step)
    ensures IsExecution(steps + [step]) && After(steps + [step]) == Do(After(steps), step)
  {
    assert (steps + [step])[..|steps|] == steps;
  }

  lemma CheckedAction()
    ensures var steps := RacingSteps()[..7];
            && IsExecution(steps)
            && After(steps).runner == Applying(Action(7, false), false, false)
            && After(steps).outcomes == [] && After(steps).taken == [Action(7, false)]
            && After(steps).lock == Nobody && !After(steps).closed
  {
    var a := Action(7, false);
    var s1 := [Enter(1, a)];
    Extended([], Enter(1, a));
    assert [] + s1 == s1;
    Extended(s1, Check(1));
    var s2 := s1 + [Check(1)];
    Extended(s2, Offer(1));
    var s3 := s2 + [Offer(1)];
    Extended(s3, Leave(1));
    var s4 := s3 + [Leave(1)];
    Extended(s4, Run);
    var s5 := s4 + [Run];
    Extended(s5, SelectTake);
    var s6 := s5 + [SelectTake];
    Extended(s6, Run);
    assert s6 + [Run] == RacingSteps()[..7];
  }

  /** The close does not wait for the action in flight: it is applied after Close has returned. */
  lemma CloseOvertakesAnAction()
    ensures IsExecution(RacingSteps()) && IsExecution(RacingSteps() + [Run])
    ensures After(RacingSteps()).closed && Pc(After(RacingSteps()), 2) == Outside
    ensures After(RacingSteps()).outcomes == [] && After(RacingSteps() + [Run]).outcomes == [Applied]
    ensures After(RacingSteps() + [Run]).taken == [Action(7, false)]
  {
    CheckedAction();
    var s7 := RacingSteps()[..7];
    Extended(s7, CloseEnter(2));
    var s8 := s7 + [CloseEnter(2)];
    Extended(s8, Cancel(2));
    var s9 := s8 + [Cancel(2)];
    Extended(s9, Leave(2));
    var s10 := s9 + [Leave(2)];
    assert s10 == RacingSteps();
    Extended(s10, Run);
  }
}
