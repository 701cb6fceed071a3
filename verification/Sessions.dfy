/** The whole session: the threads of its queue and shutdown together with what its goroutine does
    to the tabs and to storage. */
module Sessions {
  import opened Results
  import opened Settings
  import opened Panel
  import opened Structure
  import opened Saving
  import S = Shutdown

  /** What the numbers of queued actions stand for, and what the loop does at each of its steps. */
  datatype Meaning = Meaning(ops: int -> Op, loops: nat -> LoopOp)

  /** Only local edits of one tab are queued as preferences. */
  ghost predicate IsMeaning(meaning: Meaning, actions: seq<S.Action>) {
    forall i | 0 <= i < |actions| && actions[i].preference :: IsPreference(meaning.ops(actions[i].id))
  }

  /** What a step of the goroutine does to the tabs, if anything. */
  function HappeningAt(s: S.State, step: S.Step, n: nat, meaning: Meaning): seq<Happening> {
    if step.SelectOther? then [Looping(meaning.loops(n))]
    else if !step.Run? then []
    else
      match s.runner
      case Ticking => [Looping(meaning.loops(n))]
      case Taken(a, _) => if s.closed && !a.preference then [Action(meaning.ops(a.id), false, true)] else []
      case Applying(a, _, late) => [Action(meaning.ops(a.id), a.preference, late)]
      case FlushClosed => [Looping(Detach)]
      case _ => []
  }

  function Happenings(steps: seq<S.Step>, meaning: Meaning): seq<Happening>
    requires S.IsExecution(steps)
  {
    if steps == [] then []
    else
      var most, last := steps[..|steps| - 1], steps[|steps| - 1];
      Happenings(most, meaning) + HappeningAt(S.After(most), last, |most|, meaning)
  }

  /** The preferences that were applied, in order. */
  function AppliedPreferences(happenings: seq<Happening>): seq<Op> {
    if happenings == [] then []
    else
      var last := happenings[|happenings| - 1];
      AppliedPreferences(happenings[..|happenings| - 1]) + if last.Action? && last.preference then [last.op] else []
  }

  function OpsOf(actions: seq<S.Action>, meaning: Meaning): seq<Op> {
    if actions == [] then []
    else OpsOf(actions[..|actions| - 1], meaning) + [meaning.ops(actions[|actions| - 1].id)]
  }

  lemma AppliedSnoc(happenings: seq<Happening>, more: seq<Happening>)
    requires |more| <= 1
    ensures AppliedPreferences(happenings + more) ==
              AppliedPreferences(happenings) + if more != [] && more[0].Action? && more[0].preference then [more[0].op] else []
  {
    if more == [] {
      assert happenings + more == happenings;
    } else {
      assert (happenings + more)[..|happenings|] == happenings;
    }
  }

  lemma OpsSnoc(actions: seq<S.Action>, a: S.Action, meaning: Meaning)
    ensures OpsOf(actions + [a], meaning) == OpsOf(actions, meaning) + [meaning.ops(a.id)]
  {
    assert (actions + [a])[..|actions|] == actions;
  }

  // --------------------------------------------------- every preference, exactly once

  /** The preferences that the goroutine has applied so far, by the queue's own account. */
  function PerformedPreferences(s: S.State): seq<S.Action>
    requires |s.outcomes| <= |s.taken|
  {
    S.Preferences(S.Performed(s.taken, s.outcomes))
  }

  lemma {:induction false} PerformedGrows(taken: seq<S.Action>, more: seq<S.Action>, outcomes: seq<S.Outcome>)
    requires |outcomes| <= |taken|
    ensures S.Performed(taken + more, outcomes) == S.Performed(taken, outcomes)
  {
    if outcomes != [] {
      PerformedGrows(taken, more, outcomes[..|outcomes| - 1]);
    }
  }

  /** Recording one more outcome adds the preference it is about, if it was applied. */
  lemma OneMorePerformed(taken: seq<S.Action>, outcomes: seq<S.Outcome>, outcome: S.Outcome)
    requires |outcomes| < |taken|
    ensures var a := taken[|outcomes|];
            S.Preferences(S.Performed(taken, outcomes + [outcome])) ==
              S.Preferences(S.Performed(taken, outcomes)) + if outcome == S.Applied && a.preference then [a] else []
  {
    var done := S.Performed(taken, outcomes);
    assert (outcomes + [outcome])[..|outcomes|] == outcomes;
    S.PreferencesSnoc(done, taken[|outcomes|]);
    assert done + [] == done && S.Preferences(done) + [] == S.Preferences(done);
  }

  /** The step applies the action in hand, and that is a preference. */
  predicate AppliesPreference(s: S.State, step: S.Step) {
    step.Run? && s.runner.Applying? && s.runner.action.preference
  }

  lemma NothingRecorded(s: S.State, step: S.Step, t: S.State)
    requires S.IsHandled(s) && S.Accounts(s, step, t) && S.Recorded(s, step) == []
    ensures |t.outcomes| <= |t.taken| && PerformedPreferences(t) == PerformedPreferences(s) && !AppliesPreference(s, step)
  {
    assert t.outcomes == s.outcomes;
    if t.taken != s.taken {
      PerformedGrows(s.taken, [s.queue[0]], s.outcomes);
    }
  }

  lemma OneRecorded(s: S.State, step: S.Step, t: S.State, outcome: S.Outcome)
    requires S.IsHandled(s) && S.Accounts(s, step, t) && S.Recorded(s, step) == [outcome]
    ensures |t.outcomes| <= |t.taken|
    ensures PerformedPreferences(t) == PerformedPreferences(s) + if AppliesPreference(s, step) then [s.runner.action] else []
  {
    assert t.taken == s.taken && |s.taken| == |s.outcomes| + 1;
    OneMorePerformed(s.taken, s.outcomes, outcome);
  }

  lemma PerformedByAccount(s: S.State, step: S.Step, t: S.State)
    requires S.IsHandled(s) && S.Accounts(s, step, t)
    ensures |t.outcomes| <= |t.taken|
    ensures PerformedPreferences(t) == PerformedPreferences(s) + if AppliesPreference(s, step) then [s.runner.action] else []
  {
    var recorded := S.Recorded(s, step);
    if recorded == [] {
      NothingRecorded(s, step, t);
      assert PerformedPreferences(s) + [] == PerformedPreferences(s);
    } else {
      OneRecorded(s, step, t, recorded[0]);
    }
  }

  lemma PerformedStep(s: S.State, step: S.Step)
    requires S.IsHandled(s) && S.Enabled(s, step)
    ensures var t := S.Do(s, step);
            && |t.outcomes| <= |t.taken|
            && PerformedPreferences(t) == PerformedPreferences(s) + if AppliesPreference(s, step) then [s.runner.action] else []
  {
    S.AccountStep(s, step);
    PerformedByAccount(s, step, S.Do(s, step));
  }

  lemma HappeningPreference(s: S.State, step: S.Step, n: nat, meaning: Meaning)
    ensures var more := HappeningAt(s, step, n, meaning);
            && |more| <= 1
            && (more != [] && more[0].Action? && more[0].preference <==> AppliesPreference(s, step))
            && (AppliesPreference(s, step) ==> more[0].op == meaning.ops(s.runner.action.id))
  {
  }

  lemma {:induction false} AppliedIsPerformed(steps: seq<S.Step>, meaning: Meaning)
    requires S.IsExecution(steps)
    ensures |S.After(steps).outcomes| <= |S.After(steps).taken|
    ensures AppliedPreferences(Happenings(steps, meaning)) == OpsOf(PerformedPreferences(S.After(steps)), meaning)
  {
    if steps != [] {
      var most, last := steps[..|steps| - 1], steps[|steps| - 1];
      var s := S.After(most);
      AppliedIsPerformed(most, meaning);
      S.Reachable(most);
      AccountGrows(s, last, Happenings(most, meaning), |most|, meaning);
    }
  }

  /** Both accounts grow alike. */
  lemma AccountGrows(s: S.State, step: S.Step, happenings: seq<Happening>, n: nat, meaning: Meaning)
    requires S.IsHandled(s) && S.Enabled(s, step) && AppliedPreferences(happenings) == OpsOf(PerformedPreferences(s), meaning)
    ensures var t := S.Do(s, step);
            && |t.outcomes| <= |t.taken|
            && AppliedPreferences(happenings + HappeningAt(s, step, n, meaning)) == OpsOf(PerformedPreferences(t), meaning)
  {
    PerformedStep(s, step);
    HappeningPreference(s, step, n, meaning);
    AppliedSnoc(happenings, HappeningAt(s, step, n, meaning));
    if AppliesPreference(s, step) {
      OpsSnoc(PerformedPreferences(s), s.runner.action, meaning);
    } else {
      assert PerformedPreferences(s) + [] == PerformedPreferences(s);
      assert AppliedPreferences(happenings) + [] == AppliedPreferences(happenings);
    }
  }

  // --------------------------------------------------------------------- the end

  /** What the session does to tabs and storage. */
  function UseOf(steps: seq<S.Step>, meaning: Meaning, toggle: Flags, persistence: Option<Persistence>,
                 answers: Answers, disk: Disk): Use
    requires S.IsExecution(steps)
  {
    Use(toggle, persistence, Happenings(steps, meaning), answers, disk)
  }

  /** No layout change was lost by a failed save. */
  ghost predicate LostNothing(u: Use) {
    forall m | 0 <= m < |u.happenings| :: LosesNothing(u, m)
  }

  /** When the session is done, every accepted preference has been applied to the tabs exactly
      once and in order, and, if it saves and no save has failed, launching again from storage
      gives exactly the tabs that it ended with. */
  lemma {:induction false} DoneMeansKept(steps: seq<S.Step>, meaning: Meaning, toggle: Flags, persistence: Option<Persistence>,
                                          answers: Answers, disk: Disk)
    requires S.IsExecution(steps) && S.After(steps).runner.Finished?
    ensures var u := UseOf(steps, meaning, toggle, persistence, answers, disk);
            && AppliedPreferences(u.happenings) == OpsOf(S.Preferences(S.After(steps).accepted), meaning)
            && (Saves(persistence) && LostNothing(u) ==> IsInStep(u, |u.happenings|, toggle))
  {
    var u := UseOf(steps, meaning, toggle, persistence, answers, disk);
    AppliedIsPerformed(steps, meaning);
    S.PreferencesAppliedWhenDone(steps);
    if Saves(persistence) && LostNothing(u) {
      StoredSinceLaunch(u, |u.happenings|);
    }
  }

  /** The goroutine has detached the panel for good. */
  predicate HasDetached(s: S.State) {
    s.runner.Draining? || s.runner.Finished? || ((s.runner.Taken? || s.runner.Applying?) && s.runner.draining)
  }

  lemma LateActionIsOffline(s: Sitting, op: Op, preference: bool, answers: Answers, disk: Disk)
    requires Structured(s.panel) && !s.panel.attached && (preference ==> IsPreference(op))
    ensures var t := Acted(s, op, preference, true, answers, disk); !t.panel.attached && t.panel.log == s.panel.log
  {
    if preference {
      DetachedSameTabs(s.panel);
      PreferenceIsLocal(Detached(s.panel), op, answers);
    }
  }

  /** The panel after a whole sequence of happenings. */
  ghost function Ending(u: Use): Panel {
    SittingAt(u, |u.happenings|).panel
  }

  lemma SameBeginning(u: Use, w: Use, i: nat)
    requires u == w.(happenings := u.happenings) && u.happenings <= w.happenings && i <= |u.happenings|
    ensures SittingAt(u, i) == SittingAt(w, i)
  {
    assert u.happenings[..i] == w.happenings[..i];
    assert u.(happenings := []) == w.(happenings := []);
  }

  lemma OneMoreHappening(u: Use, h: Happening)
    ensures var w := u.(happenings := u.happenings + [h]);
            SittingAt(w, |w.happenings|) == Next(SittingAt(u, |u.happenings|), h, u.answers, u.disk)
  {
    var w := u.(happenings := u.happenings + [h]);
    SameBeginning(u, w, |u.happenings|);
    Happened(w, |u.happenings|);
    assert w.happenings[|w.happenings| - 1] == h;
  }

  /** After the detach the goroutine only handles actions, all of them late. */
  lemma LateHappening(s: S.State, step: S.Step, n: nat, meaning: Meaning)
    requires S.Inv(s) && S.Enabled(s, step) && HasDetached(s) && IsMeaning(meaning, s.taken)
    requires HappeningAt(s, step, n, meaning) != []
    ensures var h := HappeningAt(s, step, n, meaning)[0]; h.Action? && h.closing && (h.preference ==> IsPreference(h.op))
  {
    assert s.taken[|s.taken| - 1] == s.runner.action;
  }

  /** A step after the detach keeps the panel off line and sends nothing. */
  lemma OfflineStep(u: Use, s: S.State, step: S.Step, n: nat, meaning: Meaning)
    requires S.Inv(s) && S.Enabled(s, step) && HasDetached(s) && IsMeaning(meaning, s.taken) && !Ending(u).attached
    ensures var w := u.(happenings := u.happenings + HappeningAt(s, step, n, meaning));
            !Ending(w).attached && Ending(w).log == Ending(u).log
  {
    var more := HappeningAt(s, step, n, meaning);
    if more == [] {
      assert u.happenings + more == u.happenings;
    } else {
      assert more == [more[0]];
      LateHappening(s, step, n, meaning);
      OneMoreHappening(u, more[0]);
      LateActionIsOffline(SittingAt(u, |u.happenings|), more[0].op, more[0].preference, u.answers, u.disk);
    }
  }

  lemma FlushDetaches(s: S.State, step: S.Step, n: nat, meaning: Meaning)
    requires S.Enabled(s, step) && !HasDetached(s) && HasDetached(S.Do(s, step))
    ensures HappeningAt(s, step, n, meaning) == [Looping(Detach)]
  {
  }

  lemma DetachIsOffline(s: Sitting, answers: Answers, disk: Disk)
    requires Structured(s.panel)
    ensures !Next(s, Looping(Detach), answers, disk).panel.attached
  {
  }

  /** The step that begins the drain detaches the panel. */
  lemma DetachingStep(u: Use, s: S.State, step: S.Step, n: nat, meaning: Meaning)
    requires S.Enabled(s, step) && !HasDetached(s) && HasDetached(S.Do(s, step))
    ensures !Ending(u.(happenings := u.happenings + HappeningAt(s, step, n, meaning))).attached
  {
    FlushDetaches(s, step, n, meaning);
    OneMoreHappening(u, Looping(Detach));
    DetachIsOffline(SittingAt(u, |u.happenings|), u.answers, u.disk);
  }

  lemma TakenGrows(s: S.State, step: S.Step)
    requires S.Enabled(s, step)
    ensures s.taken <= S.Do(s, step).taken
  {
  }

  lemma MeaningOfLess(meaning: Meaning, some: seq<S.Action>, all: seq<S.Action>)
    requires some <= all && IsMeaning(meaning, all)
    ensures IsMeaning(meaning, some)
  {
    assert forall i | 0 <= i < |some| :: some[i] == all[i];
  }

  /** Once the drain has begun the panel is off line and stays so. */
  lemma {:induction false} DrainIsOffline(steps: seq<S.Step>, meaning: Meaning, u: Use)
    requires S.IsExecution(steps) && HasDetached(S.After(steps)) && IsMeaning(meaning, S.After(steps).taken)
    ensures !Ending(u.(happenings := Happenings(steps, meaning))).attached
  {
    var most, last := steps[..|steps| - 1], steps[|steps| - 1];
    var s := S.After(most);
    var w := u.(happenings := Happenings(most, meaning));
    if HasDetached(s) {
      TakenGrows(s, last);
      MeaningOfLess(meaning, s.taken, S.After(steps).taken);
      DrainIsOffline(most, meaning, u);
      S.Reachable(most);
      OfflineStep(w, s, last, |most|, meaning);
    } else {
      DetachingStep(w, s, last, |most|, meaning);
    }
  }

  /** A session that is done has left the connection, and nothing that was queued reached the
      station after that. */
  lemma {:induction false} DoneMeansOffline(steps: seq<S.Step>, meaning: Meaning, toggle: Flags, persistence: Option<Persistence>,
                                          answers: Answers, disk: Disk)
    requires S.IsExecution(steps) && S.After(steps).runner.Finished? && IsMeaning(meaning, S.After(steps).accepted)
    ensures !Ending(UseOf(steps, meaning, toggle, persistence, answers, disk)).attached
  {
    S.Reachable(steps);
    assert S.After(steps).taken == S.After(steps).accepted;
    DrainIsOffline(steps, meaning, UseOf(steps, meaning, toggle, persistence, answers, disk));
  }
}
