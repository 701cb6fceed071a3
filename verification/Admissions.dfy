/** Which actions the session queue takes, when the session is closed and what is dropped, read off
    the steps of an execution. */
module Admissions {
  import opened Shutdown

  // ------------------------------------------------------------- reading off steps

  /** The action that caller c came in with last. */
  function EnteredWith(steps: seq<Step>, c: int): Action {
    if steps == [] then Action(0, false)
    else
      var last := steps[|steps| - 1];
      if last.Enter? && last.caller == c then last.action else EnteredWith(steps[..|steps| - 1], c)
  }

  /** Somebody has closed the session. */
  predicate IsCancelled(steps: seq<Step>) {
    exists h :: 0 <= h < |steps| && steps[h].Cancel?
  }

  lemma EnteredStep(steps: seq<Step>, step: Step, c: int)
    ensures EnteredWith(steps + [step], c) == if step.Enter? && step.caller == c then step.action else EnteredWith(steps, c)
  {
    assert (steps + [step])[..|steps|] == steps;
  }

  lemma CancelledStep(steps: seq<Step>, step: Step)
    ensures IsCancelled(steps + [step]) <==> IsCancelled(steps) || step.Cancel?
  {
    var all := steps + [step];
    if h :| 0 <= h < |steps| && steps[h].Cancel? {
      assert all[h].Cancel?;
    }
    if step.Cancel? {
      assert all[|steps|].Cancel?;
    }
  }

  // ------------------------------------------------------------------- invariants

  /** A caller carries the action it came in with, and past its check only while the session is
      open. */
  predicate Carries(s: State, steps: seq<Step>, c: int) {
    match Pc(s, c)
    case Entered(a) => a == EnteredWith(steps, c)
    case Admitted(a) => a == EnteredWith(steps, c)
    case _ => true
  }

  lemma CarriesKept(s: State, steps: seq<Step>, step: Step, c: int)
    requires Enabled(s, step) && Carries(s, steps, c)
    ensures Carries(Do(s, step), steps + [step], c)
  {
    EnteredStep(steps, step, c);
  }

  lemma {:induction false} AlwaysCarries(steps: seq<Step>, c: int)
    requires IsExecution(steps)
    ensures Carries(After(steps), steps, c)
  {
    if steps != [] {
      var most, last := steps[..|steps| - 1], steps[|steps| - 1];
      AlwaysCarries(most, c);
      assert steps == most + [last];
      CarriesKept(After(most), most, last, c);
    }
  }

  /** The session is closed exactly from the first Close on. */
  lemma {:induction false} ClosedExactly(steps: seq<Step>)
    requires IsExecution(steps)
    ensures After(steps).closed <==> IsCancelled(steps)
  {
    if steps != [] {
      var most, last := steps[..|steps| - 1], steps[|steps| - 1];
      ClosedExactly(most);
      Reachable(most);
      assert steps == most + [last];
      CancelledStep(most, last);
    }
  }

  // ------------------------------------------------------------------ admission

  /** At its check a caller is turned away if and only if somebody has closed the session by then. */
  lemma {:induction false} CheckedExactly(steps: seq<Step>, c: int)
    requires IsExecution(steps) && Enabled(After(steps), Check(c))
    ensures IsExecution(steps + [Check(c)])
    ensures Pc(After(steps + [Check(c)]), c) == if IsCancelled(steps) then Leaving else Admitted(EnteredWith(steps, c))
    ensures After(steps + [Check(c)]).accepted == After(steps).accepted
  {
    Extended(steps, Check(c));
    AlwaysCarries(steps, c);
    ClosedExactly(steps);
  }

  /** What a caller offers is accepted, behind all that was accepted before, if and only if fewer
      than 128 accepted actions have not been taken yet. */
  lemma {:induction false} OfferedExactly(steps: seq<Step>, c: int)
    requires IsExecution(steps) && Enabled(After(steps), Offer(c))
    ensures IsExecution(steps + [Offer(c)])
    ensures var s, t := After(steps), After(steps + [Offer(c)]);
            && t.taken == s.taken
            && t.accepted == s.accepted + if |s.accepted| - |s.taken| < 128 then [EnteredWith(steps, c)] else []
  {
    Extended(steps, Offer(c));
    AlwaysCarries(steps, c);
    Reachable(steps);
    assert After(steps).accepted + [] == After(steps).accepted;
  }

  /** Only an offer has anything accepted. */
  lemma OnlyOffersAreAccepted(s: State, step: Step)
    requires Enabled(s, step) && !step.Offer?
    ensures Do(s, step).accepted == s.accepted
  {
  }

  // ---------------------------------------------------------------- what is dropped

  /** Everything taken is applied, in the order taken, as long as nobody has closed the session;
      and a dropped action is always an operating one. */
  lemma {:induction false} DroppedOnlyOnceClosed(steps: seq<Step>)
    requires IsExecution(steps)
    ensures var s := After(steps);
            && |s.outcomes| <= |s.taken|
            && forall i | 0 <= i < |s.outcomes| && s.outcomes[i] == Dropped :: IsCancelled(steps) && !s.taken[i].preference
  {
    Reachable(steps);
    ClosedExactly(steps);
    if steps != [] {
      var most, last := steps[..|steps| - 1], steps[|steps| - 1];
      DroppedOnlyOnceClosed(most);
      ClosedExactly(most);
      Reachable(most);
      assert steps == most + [last];
      CancelledStep(most, last);
      AccountStep(After(most), last);
    }
  }

  /** No tick begins once the session is closed. */
  lemma {:induction false} NoTickOnceClosed(steps: seq<Step>, n: nat)
    requires IsExecution(steps) && n <= |steps| && IsExecution(steps[..n]) && IsCancelled(steps[..n])
    ensures After(steps).runner.Ticking? ==> After(steps[..n]).runner.Ticking?
  {
    ClosedExactly(steps[..n]);
    if n < |steps| {
      var most := steps[..|steps| - 1];
      assert most[..n] == steps[..n];
      NoTickOnceClosed(most, n);
      ClosedStays(most, n);
    } else {
      assert steps[..n] == steps;
    }
  }

  // --------------------------------------------------------------------- a witness

  /** A caller brings an action and leaves. */
  function Visit(id: int): seq<Step> {
    [Enter(1, Action(id, false)), Check(1), Offer(1), Leave(1)]
  }

  function Visits(n: nat): seq<Step> {
    if n == 0 then [] else Visits(n - 1) + Visit(n)
  }

  function Visitors(n: nat): (actions: seq<Action>)
    ensures |actions| == n
  {
    if n == 0 then [] else Visitors(n - 1) + [Action(n, false)]
  }

  /** Nobody has taken anything and n callers have been there. */
  predicate IsFilled(s: State, n: nat) {
    && s.accepted == s.queue == Visitors(if n < 128 then n else 128)
    && s.taken == [] && s.lock == Nobody && !s.closed && Pc(s, 1) == Outside
  }

  lemma VisitFills(steps: seq<Step>, n: nat)
    requires IsExecution(steps) && IsFilled(After(steps), n)
    ensures IsExecution(steps + Visit(n + 1)) && IsFilled(After(steps + Visit(n + 1)), n + 1)
  {
    var enter := Enter(1, Action(n + 1, false));
    var s1, s2, s3 := steps + [enter], steps + [enter] + [Check(1)], steps + [enter] + [Check(1)] + [Offer(1)];
    Extended(steps, enter);
    Extended(s1, Check(1));
    Extended(s2, Offer(1));
    Extended(s3, Leave(1));
    assert s3 + [Leave(1)] == steps + Visit(n + 1);
  }

  lemma {:induction false} Filling(n: nat)
    ensures IsExecution(Visits(n)) && IsFilled(After(Visits(n)), n)
  {
    if n > 0 {
      Filling(n - 1);
      VisitFills(Visits(n - 1), n - 1);
    }
  }

  /** While the goroutine takes nothing, 128 actions wait and the next one is refused. */
  lemma OneTooMany()
    ensures IsExecution(Visits(128)) && After(Visits(128)).queue == Visitors(128)
    ensures IsExecution(Visits(129)) && After(Visits(129)).accepted == Visitors(128)
  {
    Filling(128);
    Filling(129);
  }
}
