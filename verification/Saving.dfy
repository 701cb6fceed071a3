/** How the session of throttle/session.go keeps the stored layout in step with the tabs.
    Storage is one cell; a save either replaces it or fails and leaves it alone. */
module Saving {
  import opened Results
  import opened Settings
  import opened Panel
  import opened Structure
  import opened Layouts
  import opened Runs
  import opened Controllers
  import opened History

  /** Whether each attempt to save succeeds, numbered in order. */
  type Disk = nat -> bool

  datatype Sitting = Sitting(panel: Panel, saving: bool, stored: ThrottleSettings, saves: nat)

  /** What the event loop does besides applying actions. */
  type LoopOp = op: Op | op.Tick? || op.Poll? || op.Receive? || op.Detach? witness Poll

  /** What an application provides: the layout it has loaded and, perhaps, a way to save. */
  datatype Persistence = Persistence(initial: ThrottleSettings, canSave: bool)

  /** Whether the session saves at all: a layout that does not validate is never overwritten. */
  predicate Saves(persistence: Option<Persistence>) {
    persistence.Some? && persistence.value.canSave && IsLayout(persistence.value.initial)
  }

  /** The layout in storage at launch; without persistence there is only the default one. */
  function InitialLayout(persistence: Option<Persistence>): ThrottleSettings {
    if persistence.Some? then persistence.value.initial else DEFAULT_THROTTLES
  }

  /** The launch. */
  function Started(toggle: Flags, persistence: Option<Persistence>): Sitting {
    var initial := InitialLayout(persistence);
    Sitting(if persistence.Some? && IsLayout(initial) then Restored(New(toggle), initial) else New(toggle),
            Saves(persistence), initial, 0)
  }

  ghost predicate SameLayout(p: Panel, q: Panel)
    requires Structured(p) && Structured(q)
  {
    StructuredLists(p);
    StructuredLists(q);
    TabSettings(p) == TabSettings(q)
  }

  /** Saves what changed, if it changed. */
  ghost function Kept(s: Sitting, q: Panel, disk: Disk): Sitting
    requires Structured(s.panel) && Structured(q)
  {
    StructuredLists(q);
    if !s.saving || SameLayout(s.panel, q) then s.(panel := q)
    else s.(panel := q, saves := s.saves + 1, stored := if disk(s.saves) then TabSettings(q) else s.stored)
  }

  /** One accepted action. Once the session closes, a preference is applied to a detached panel
      and anything else is dropped. */
  ghost function Acted(s: Sitting, op: Op, preference: bool, closing: bool, answers: Answers, disk: Disk): (t: Sitting)
    requires Structured(s.panel)
    ensures Structured(t.panel)
  {
    if closing && !preference then s
    else
      var p := if closing then Detached(s.panel) else s.panel;
      DetachedSameTabs(s.panel);
      SameTabsStructured(s.panel, Detached(s.panel));
      StructureKept(p, op, answers);
      Kept(s.(panel := p), Apply(p, op, answers).panel, disk)
  }

  /** An action waiting in the queue. Only local edits of one tab are queued as preferences. */
  datatype Queued = Queued(op: Op, preference: bool)

  predicate IsPreference(op: Op) {
    || op.RenameCab? || op.SetFunctionLabel? || op.SetFunctionHidden?
    || (op.WithCab? && (op.intent.SetToggle? || op.intent.FlipToggle?))
  }

  predicate IsQueue(queue: seq<Queued>) {
    forall i | 0 <= i < |queue| && queue[i].preference :: IsPreference(queue[i].op)
  }

  /** Whether an applied operation or the save it entails fails. */
  ghost predicate PerformFails(s: Sitting, op: Op, answers: Answers, disk: Disk)
    requires Structured(s.panel)
  {
    StructureKept(s.panel, op, answers);
    var r := Apply(s.panel, op, answers);
    r.err != None || (s.saving && !SameLayout(s.panel, r.panel) && !disk(s.saves))
  }

  /** What an action reports: an operating action of a closing session is refused, and any other
      reports its own failure or that of the save. */
  ghost predicate ActionFails(s: Sitting, op: Op, preference: bool, closing: bool, answers: Answers, disk: Disk)
    requires Structured(s.panel)
  {
    StructuredDetach(s.panel);
    if closing && !preference then true
    else PerformFails(if closing then s.(panel := Detached(s.panel)) else s, op, answers, disk)
  }

  /** The queue handled in order by a closing session. */
  ghost function Drained(s: Sitting, queue: seq<Queued>, answers: Answers, disk: Disk): (t: Sitting)
    requires Structured(s.panel)
    ensures Structured(t.panel)
    decreases |queue|
  {
    if queue == [] then s
    else Drained(Acted(s, queue[0].op, queue[0].preference, true, answers, disk), queue[1..], answers, disk)
  }

  class Session {
    const controller: Controller
    const disk: Disk
    var saving: bool
    var stored: ThrottleSettings
    var saves: nat

    ghost function View(): Sitting
      requires controller.Valid()
      reads this, controller
    {
      Sitting(controller.Abs(), saving, stored, saves)
    }

    constructor (toggle: Flags, persistence: Option<Persistence>, answers: Answers, disk: Disk)
      ensures fresh(controller) && controller.Valid() && controller.answers == answers && this.disk == disk
      ensures View() == Started(toggle, persistence)
    {
      var c := new Controller(toggle, answers);
      var ok := false;
      if persistence.Some? {
        ok := c.RestoreTabs(persistence.value.initial);
        ok := ok && persistence.value.canSave;
      }
      controller, saving := c, ok;
      this.disk, stored, saves := disk, InitialLayout(persistence), 0;
    }

    method ApplyAction(op: Op, preference: bool, closing: bool) returns (err: bool)
      requires controller.Valid()
      modifies this, controller
      ensures controller.Valid()
      ensures View() == Acted(old(View()), op, preference, closing, controller.answers, disk)
      ensures err <==> ActionFails(old(View()), op, preference, closing, controller.answers, disk)
    {
      if closing {
        if !preference {
          return true;
        }
        StructuredDetach(controller.Abs());
        controller.Detach();
        assert controller.Valid();
      }
      err := Perform(op);
    }

    /** Applies the action and saves the layout if the action changed it, whatever the action
        itself reports. */
    method Perform(op: Op) returns (err: bool)
      requires controller.Valid()
      modifies this, controller
      ensures controller.Valid()
      ensures var s := old(View());
              var q := Apply(s.panel, op, controller.answers).panel;
              Structured(q) && View() == Kept(s, q, disk)
      ensures err <==> PerformFails(old(View()), op, controller.answers, disk)
    {
      var failed, before, after := Try(op);
      var ok := SaveIfChanged(before, after);
      err := failed || !ok;
    }

    /** Applies the operation and tells the layouts before and after it. */
    method Try(op: Op) returns (failed: bool, before: ThrottleSettings, after: ThrottleSettings)
      requires controller.Valid()
      modifies controller
      ensures controller.Valid()
      ensures var p, r := old(controller.Abs()), Apply(old(controller.Abs()), op, controller.answers);
              && controller.Abs() == r.panel && (failed <==> r.err != None)
              && Lists(p, p.order) && before == TabSettings(p)
              && Lists(r.panel, r.panel.order) && after == TabSettings(r.panel)
    {
      before := controller.StoredTabs();
      var failure := controller.Do(op);
      failed := failure != None;
      after := controller.StoredTabs();
    }

    method SaveIfChanged(before: ThrottleSettings, after: ThrottleSettings) returns (ok: bool)
      modifies `stored, `saves
      ensures var attempt := saving && before != after;
              && (ok <==> !attempt || disk(old(saves)))
              && saves == (if attempt then old(saves) + 1 else old(saves))
              && stored == if attempt && ok then after else old(stored)
    {
      ok := true;
      if saving && before != after {
        ok := Save(after);
      }
    }

    method Save(after: ThrottleSettings) returns (ok: bool)
      modifies `stored, `saves
      ensures saves == old(saves) + 1 && ok == disk(old(saves))
      ensures stored == if ok then after else old(stored)
    {
      ok := disk(saves);
      if ok {
        stored := after;
      }
      saves := saves + 1;
    }

    /** The end of the session: the connection goes first, then the queue is drained. */
    method FlushPreferences(queue: seq<Queued>)
      requires controller.Valid()
      modifies this, controller
      ensures controller.Valid()
      ensures var s := old(View());
              var detached := s.(panel := Detached(s.panel));
              Structured(detached.panel) && View() == Drained(detached, queue, controller.answers, disk)
    {
      StructuredDetach(controller.Abs());
      controller.Detach();
      ghost var s := View();
      for i := 0 to |queue|
        invariant controller.Valid()
        invariant Drained(View(), queue[i..], controller.answers, disk) == Drained(s, queue, controller.answers, disk)
      {
        assert queue[i..][1..] == queue[i + 1..];
        var _ := ApplyAction(queue[i].op, queue[i].preference, true);
      }
    }

    method Loop(op: LoopOp)
      requires controller.Valid()
      modifies controller
      ensures controller.Valid()
      ensures View() == old(View()).(panel := Apply(old(controller.Abs()), op, controller.answers).panel)
    {
      var _ := controller.Do(op);
    }
  }

  lemma StructuredDetach(p: Panel)
    requires Structured(p)
    ensures Structured(Detached(p))
  {
    DetachedSameTabs(p);
    SameTabsStructured(p, Detached(p));
  }

  // ---------------------------------------------------------------------- shutdown

  function OnlyPreferences(queue: seq<Queued>): seq<Queued> {
    if queue == [] then []
    else (if queue[0].preference then [queue[0]] else []) + OnlyPreferences(queue[1..])
  }

  /** Draining applies the preferences in order and nothing else. */
  lemma {:induction false} DrainAppliesPreferences(s: Sitting, queue: seq<Queued>, answers: Answers, disk: Disk)
    requires Structured(s.panel)
    ensures Drained(s, queue, answers, disk) == Drained(s, OnlyPreferences(queue), answers, disk)
    decreases |queue|
  {
    if queue != [] {
      var rest := OnlyPreferences(queue[1..]);
      DrainAppliesPreferences(Acted(s, queue[0].op, queue[0].preference, true, answers, disk), queue[1..], answers, disk);
      if queue[0].preference {
        assert OnlyPreferences(queue) == [queue[0]] + rest && ([queue[0]] + rest)[1..] == rest;
      } else {
        assert OnlyPreferences(queue) == rest;
      }
    }
  }

  lemma PreferenceIsLocal(p: Panel, op: Op, answers: Answers)
    requires p.focus in p.cabs && IsPreference(op) && !p.attached
    ensures var q := Apply(p, op, answers).panel; !q.attached && q.log == p.log
  {
  }

  /** Draining the queue of a detached session reaches nobody: no command is sent, whatever was
      queued. */
  lemma {:induction false} DrainSendsNothing(s: Sitting, queue: seq<Queued>, answers: Answers, disk: Disk)
    requires Structured(s.panel) && !s.panel.attached && IsQueue(queue)
    ensures var t := Drained(s, queue, answers, disk); !t.panel.attached && t.panel.log == s.panel.log
    decreases |queue|
  {
    if queue != [] {
      var t := Acted(s, queue[0].op, queue[0].preference, true, answers, disk);
      if queue[0].preference {
        DetachedSameTabs(s.panel);
        PreferenceIsLocal(Detached(s.panel), queue[0].op, answers);
      }
      DrainSendsNothing(t, queue[1..], answers, disk);
    }
  }

  // ------------------------------------------------------------------- in step

  /** Launching from the stored layout gives these tabs: the same locomotives in the same order
      and focus, with the same names, labels, modes and visibility, all of them at rest. */
  ghost predicate IsReproducedBy(p: Panel, stored: ThrottleSettings, toggle: Flags) {
    var q := Restored(New(toggle), stored);
    && IsLayout(stored)
    && q.order == p.order && q.focus == p.focus && q.cabs.Keys == p.cabs.Keys
    && forall k | k in p.cabs :: TabOf(q.cabs[k].state) == TabOf(p.cabs[k].state) && AtRest(q.cabs[k])
  }

  lemma SavedIsReproduced(p: Panel, toggle: Flags)
    requires Structured(p)
    ensures Lists(p, p.order) && IsReproducedBy(p, TabSettings(p), toggle)
  {
    RestoreReproduces(p, New(toggle));
    StructuredIsLayout(p);
  }

  lemma InitialIsReproduced(initial: ThrottleSettings, toggle: Flags)
    requires IsLayout(initial)
    ensures IsReproducedBy(Restored(New(toggle), initial), initial, toggle)
  {
    RestoredStructured(New(toggle), initial);
    RestoredEntries(initial.tabs, toggle);
    var q := Restored(New(toggle), initial);
    forall k | k in q.cabs ensures AtRest(q.cabs[k]) {
      var i :| 0 <= i < |initial.tabs| && initial.tabs[i].address == k;
      assert q.cabs[k] == FromTab(initial.tabs[i], toggle);
    }
  }

  lemma SameLayoutSameTabs(p: Panel, q: Panel)
    requires Structured(p) && Structured(q) && SameLayout(p, q)
    ensures q.order == p.order && q.focus == p.focus && q.cabs.Keys == p.cabs.Keys
    ensures forall k | k in p.cabs :: TabOf(q.cabs[k].state) == TabOf(p.cabs[k].state)
  {
    StructuredLists(p);
    StructuredLists(q);
    var s, t := TabsOf(p, p.order), TabsOf(q, q.order);
    assert s == t;
    forall i | 0 <= i < |p.order| ensures q.order[i] == p.order[i] {
      assert IsEntry(p.order[i], p.cabs[p.order[i]]) && IsEntry(q.order[i], q.cabs[q.order[i]]);
      assert s[i].address == t[i].address;
    }
    assert q.order == p.order;
    assert forall k :: k in q.cabs <==> k in p.cabs;
    assert q.cabs.Keys == p.cabs.Keys;
    forall k | k in p.cabs ensures TabOf(q.cabs[k].state) == TabOf(p.cabs[k].state) {
      assert k in p.order;
      var i :| 0 <= i < |p.order| && p.order[i] == k;
      assert s[i] == t[i];
    }
  }

  lemma StaysReproduced(p: Panel, q: Panel, stored: ThrottleSettings, toggle: Flags)
    requires Structured(p) && Structured(q) && SameLayout(p, q) && IsReproducedBy(p, stored, toggle)
    ensures IsReproducedBy(q, stored, toggle)
  {
    SameLayoutSameTabs(p, q);
    assert forall k | k in q.cabs :: k in p.cabs.Keys;
  }

  /** Ticks, polls, replies and the loss of the connection never touch the layout. */
  lemma LoopKeepsLayout(p: Panel, op: LoopOp, answers: Answers)
    requires Structured(p)
    ensures var q := Apply(p, op, answers).panel; Structured(q) && SameLayout(p, q)
  {
    ApplySameTabs(p, op, answers);
    StructureKept(p, op, answers);
    SameTabsSameLayout(p, Apply(p, op, answers).panel);
  }

  // ----------------------------------------------------------- whole-run theorems

  datatype Happening = Action(op: Op, preference: bool, closing: bool) | Looping(loop: LoopOp)

  datatype Use = Use(
    toggle: Flags, persistence: Option<Persistence>, happenings: seq<Happening>, answers: Answers, disk: Disk)

  ghost function Next(s: Sitting, h: Happening, answers: Answers, disk: Disk): (t: Sitting)
    requires Structured(s.panel)
    ensures Structured(t.panel)
  {
    match h
    case Action(op, preference, closing) => Acted(s, op, preference, closing, answers, disk)
    case Looping(op) =>
      StructureKept(s.panel, op, answers);
      s.(panel := Apply(s.panel, op, answers).panel)
  }

  /** The sitting after these happenings. */
  ghost function SittingAfter(u: Use, happenings: seq<Happening>): (s: Sitting)
    ensures Structured(s.panel)
    decreases |happenings|
  {
    if happenings == [] then
      LaunchesAreLaunched(u.toggle, InitialLayout(u.persistence));
      Started(u.toggle, u.persistence)
    else
      var n := |happenings| - 1;
      Next(SittingAfter(u, happenings[..n]), happenings[n], u.answers, u.disk)
  }

  /** The sitting before happening number i, or after the last one. */
  ghost function SittingAt(u: Use, i: nat): (s: Sitting)
    requires i <= |u.happenings|
    ensures Structured(s.panel) && (i == 0 ==> s == Started(u.toggle, u.persistence))
  {
    SittingAfter(u.(happenings := []), u.happenings[..i])
  }

  lemma Happened(u: Use, i: nat)
    requires i < |u.happenings|
    ensures SittingAt(u, i + 1) == Next(SittingAt(u, i), u.happenings[i], u.answers, u.disk)
  {
    assert u.happenings[..i + 1][..i] == u.happenings[..i];
  }

  ghost predicate ChangesLayout(u: Use, i: nat)
    requires i < |u.happenings|
  {
    !SameLayout(SittingAt(u, i).panel, SittingAt(u, i + 1).panel)
  }

  /** Whether the save that happening number i would attempt succeeds. */
  ghost predicate DiskAccepts(u: Use, i: nat)
    requires i <= |u.happenings|
  {
    u.disk(SittingAt(u, i).saves)
  }

  ghost predicate IsInStep(u: Use, i: nat, toggle: Flags)
    requires i <= |u.happenings|
  {
    IsReproducedBy(SittingAt(u, i).panel, SittingAt(u, i).stored, toggle)
  }

  lemma ActedKeeps(s: Sitting, op: Op, preference: bool, closing: bool, answers: Answers, disk: Disk)
    requires Structured(s.panel)
    ensures var t := Acted(s, op, preference, closing, answers, disk);
            && Structured(t.panel) && t.saving == s.saving
            && t.stored == if s.saving && !SameLayout(s.panel, t.panel) && disk(s.saves) then TabSettings(t.panel) else s.stored
  {
    if !closing || preference {
      var p := if closing then Detached(s.panel) else s.panel;
      StructuredDetach(s.panel);
      DetachedSameTabs(s.panel);
      SameTabsSameLayout(s.panel, Detached(s.panel));
      StructureKept(p, op, answers);
    }
  }

  /** What each happening does to the cell: only an action that changes the layout, in a session
      that saves, whose save succeeds, replaces it, and then by the new layout. */
  lemma StoredStep(u: Use, i: nat)
    requires i < |u.happenings|
    ensures var s, t := SittingAt(u, i), SittingAt(u, i + 1);
            && t.saving == s.saving
            && t.stored == if s.saving && ChangesLayout(u, i) && DiskAccepts(u, i) then TabSettings(t.panel) else s.stored
  {
    Happened(u, i);
    var s, h := SittingAt(u, i), u.happenings[i];
    match h
    case Action(op, preference, closing) => ActedKeeps(s, op, preference, closing, u.answers, u.disk);
    case Looping(op) => LoopKeepsLayout(s.panel, op, u.answers);
  }

  lemma SavingIsSteady(u: Use, i: nat, saving: nat -> bool)
    requires i <= |u.happenings|
    requires forall m: nat | m <= |u.happenings| :: saving(m) == SittingAt(u, m).saving
    ensures saving(i) == saving(0)
  {
    forall m: nat | m < i ensures saving(m + 1) == saving(m) {
      SavingStep(u, m);
    }
    Steady(saving, 0, i);
  }

  lemma SavingIsForLife(u: Use, i: nat)
    requires i <= |u.happenings|
    ensures SittingAt(u, i).saving <==> Saves(u.persistence)
  {
    var saving := (m: nat) => m <= |u.happenings| && SittingAt(u, m).saving;
    SavingIsSteady(u, i, saving);
    assert SittingAt(u, 0).saving == Saves(u.persistence);
    assert saving(i) == saving(0);
  }

  lemma SavingStep(u: Use, m: nat)
    requires m < |u.happenings|
    ensures SittingAt(u, m + 1).saving == SittingAt(u, m).saving
  {
    StoredStep(u, m);
  }

  /** The exact step: a happening that leaves the layout keeps the cell in step or out of step,
      a successful save puts it in step, and a failed one takes it out of step. */
  lemma InStepStep(u: Use, i: nat, toggle: Flags)
    requires i < |u.happenings| && Saves(u.persistence)
    ensures !ChangesLayout(u, i) ==> (IsInStep(u, i + 1, toggle) <==> IsInStep(u, i, toggle))
    ensures ChangesLayout(u, i) && DiskAccepts(u, i) ==> IsInStep(u, i + 1, toggle)
    ensures ChangesLayout(u, i) && !DiskAccepts(u, i) && IsInStep(u, i, toggle) ==> !IsInStep(u, i + 1, toggle)
  {
    var s, t := SittingAt(u, i), SittingAt(u, i + 1);
    StoredStep(u, i);
    SavingIsForLife(u, i);
    if !ChangesLayout(u, i) {
      if IsInStep(u, i, toggle) {
        StaysReproduced(s.panel, t.panel, s.stored, toggle);
      }
      if IsInStep(u, i + 1, toggle) {
        StaysReproduced(t.panel, s.panel, s.stored, toggle);
      }
    } else if DiskAccepts(u, i) {
      SavedIsReproduced(t.panel, toggle);
    } else if IsInStep(u, i, toggle) && IsInStep(u, i + 1, toggle) {
      OneLayoutIsReproduced(s.panel, t.panel, s.stored, toggle);
    }
  }

  lemma OneLayoutIsReproduced(p: Panel, q: Panel, stored: ThrottleSettings, toggle: Flags)
    requires Structured(p) && Structured(q)
    requires IsReproducedBy(p, stored, toggle) && IsReproducedBy(q, stored, toggle)
    ensures SameLayout(p, q)
  {
    StructuredLists(p);
    StructuredLists(q);
    var r := Restored(New(toggle), stored);
    forall i | 0 <= i < |p.order| ensures TabsOf(p, p.order)[i] == TabsOf(q, q.order)[i] {
      assert p.order[i] in p.cabs && q.order[i] == p.order[i];
      assert TabOf(r.cabs[p.order[i]].state) == TabOf(p.cabs[p.order[i]].state);
      assert p.order[i] in q.cabs;
    }
    assert TabsOf(p, p.order) == TabsOf(q, q.order);
  }

  /** Happening i does not change the layout without saving it. */
  ghost predicate LosesNothing(u: Use, i: nat)
    requires i < |u.happenings|
  {
    ChangesLayout(u, i) ==> DiskAccepts(u, i)
  }

  lemma StaysInStep(u: Use, m: nat, toggle: Flags)
    requires Saves(u.persistence) && m < |u.happenings| && LosesNothing(u, m) && IsInStep(u, m, toggle)
    ensures IsInStep(u, m + 1, toggle)
  {
    InStepStep(u, m, toggle);
  }

  lemma InStepPersists(u: Use, j: nat, i: nat, toggle: Flags, inStep: nat -> bool)
    requires Saves(u.persistence) && j <= i <= |u.happenings|
    requires forall m: nat | m <= |u.happenings| :: inStep(m) == IsInStep(u, m, toggle)
    requires inStep(j) && forall m: nat | j <= m < i :: LosesNothing(u, m)
    ensures inStep(i)
  {
    forall m: nat | j <= m < i && inStep(m) ensures inStep(m + 1) {
      StaysInStep(u, m, toggle);
    }
    Persists(inStep, j, i);
  }

  lemma StepsKeepInStep(u: Use, j: nat, i: nat, toggle: Flags)
    requires Saves(u.persistence) && j <= i <= |u.happenings| && IsInStep(u, j, toggle)
    requires forall m | j <= m < i :: LosesNothing(u, m)
    ensures IsInStep(u, i, toggle)
  {
    var inStep := (m: nat) => m <= |u.happenings| && IsInStep(u, m, toggle);
    InStepPersists(u, j, i, toggle, inStep);
    assert inStep(i);
  }

  /** From the launch until the first layout change whose save fails, relaunching from the stored
      layout reproduces the tabs. */
  lemma StoredSinceLaunch(u: Use, i: nat)
    requires Saves(u.persistence) && i <= |u.happenings|
    requires forall m | 0 <= m < i :: LosesNothing(u, m)
    ensures IsInStep(u, i, u.toggle)
  {
    InitialIsReproduced(u.persistence.value.initial, u.toggle);
    assert IsInStep(u, 0, u.toggle);
    StepsKeepInStep(u, 0, i, u.toggle);
  }

  lemma SavedIsInStep(u: Use, j: nat, toggle: Flags)
    requires Saves(u.persistence) && j < |u.happenings| && ChangesLayout(u, j) && DiskAccepts(u, j)
    ensures IsInStep(u, j + 1, toggle)
  {
    InStepStep(u, j, toggle);
  }

  /** So it does from each successful save, whatever function modes are the default by then. */
  lemma StoredSinceSave(u: Use, j: nat, i: nat, toggle: Flags)
    requires Saves(u.persistence) && j < i <= |u.happenings|
    requires ChangesLayout(u, j) && DiskAccepts(u, j)
    requires forall m | j < m < i :: LosesNothing(u, m)
    ensures IsInStep(u, i, toggle)
  {
    SavedIsInStep(u, j, toggle);
    StepsKeepInStep(u, j + 1, i, toggle);
  }

  lemma UnreadableStep(u: Use, m: nat)
    requires !Saves(u.persistence) && m < |u.happenings|
    ensures SittingAt(u, m + 1).stored == SittingAt(u, m).stored
  {
    SavingIsForLife(u, m);
    StoredStep(u, m);
  }

  lemma UnreadableIsSteady(u: Use, i: nat, kept: nat -> bool)
    requires !Saves(u.persistence) && i <= |u.happenings|
    requires forall m: nat | m <= |u.happenings| :: kept(m) == (SittingAt(u, m).stored == InitialLayout(u.persistence))
    ensures kept(i) == kept(0)
  {
    forall m: nat | m < i ensures kept(m + 1) == kept(m) {
      UnreadableStep(u, m);
    }
    Steady(kept, 0, i);
  }

  /** Without a way to save, and when the layout did not validate at launch, storage is never
      written. */
  lemma {:induction false} UnreadableIsKept(u: Use, i: nat)
    requires !Saves(u.persistence) && i <= |u.happenings|
    ensures SittingAt(u, i).stored == InitialLayout(u.persistence)
  {
    var kept := (m: nat) => m <= |u.happenings| && SittingAt(u, m).stored == InitialLayout(u.persistence);
    UnreadableIsSteady(u, i, kept);
    assert SittingAt(u, 0).stored == InitialLayout(u.persistence);
    assert kept(i) == kept(0);
  }

  /** A launch shows the stored layout if there is one that validates, whether or not the session
      can save, and the default one otherwise. */
  lemma LaunchShowsStored(u: Use)
    ensures var initial := InitialLayout(u.persistence);
            ShowsLayout(SittingAt(u, 0).panel, if IsLayout(initial) then initial else DEFAULT_THROTTLES, u.toggle)
  {
    var initial := InitialLayout(u.persistence);
    DefaultRestoresFresh(u.toggle);
    RestoringShows(New(u.toggle), if IsLayout(initial) then initial else DEFAULT_THROTTLES);
  }
}
