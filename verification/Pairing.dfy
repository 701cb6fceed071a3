/** Function buttons: every momentary press is paired with its release. */
module Pairing {
  import opened Results
  import opened Commands
  import opened Settings
  import opened Panel
  import opened Structure
  import opened Runs
  import opened Agreement
  import opened Movement
  import opened History
  import opened Sets

  /** While the connection lasts, the held buttons of every open tab stay what they were. */
  ghost predicate HeldSame(p: Panel, q: Panel) {
    q.attached ==>
      && p.attached
      && forall c | c in q.cabs :: q.cabs[c].held == if c in p.cabs then p.cabs[c].held else NoFlags()
  }

  lemma HeldSameTrans(p: Panel, q: Panel, r: Panel)
    requires HeldSame(p, q) && HeldSame(q, r) && q.cabs.Keys == p.cabs.Keys
    ensures HeldSame(p, r)
  {
    assert forall c :: c in q.cabs <==> c in p.cabs.Keys;
  }

  lemma SendHeld(p: Panel, cmd: Command, answers: Answers)
    ensures HeldSame(p, Send(p, cmd, answers).panel)
  {
  }

  lemma TransmitHeld(p: Panel, k: int, speed: int, dir: int, now: int, answers: Answers)
    requires k in p.cabs
    ensures HeldSame(p, Transmit(p, k, speed, dir, now, answers).panel)
  {
  }

  lemma DirectedHeld(p: Panel, k: int, dir: int, now: int, answers: Answers)
    requires k in p.cabs
    ensures HeldSame(p, Directed(p, k, dir, now, answers).panel)
  {
    TransmitHeld(p, k, p.cabs[k].state.speed, dir, now, answers);
  }

  lemma StoppedHeld(p: Panel, k: int, now: int, answers: Answers)
    requires k in p.cabs
    ensures HeldSame(p, Stopped(p, k, now, answers).panel)
  {
    TransmitHeld(WithoutPending(p, k), k, 0, p.cabs[k].state.direction, now, answers);
  }

  lemma TickedHeld(p: Panel, k: int, now: int, answers: Answers)
    requires k in p.cabs
    ensures HeldSame(p, Ticked(p, k, now, answers).panel)
  {
    if p.cabs[k].pending.Some? {
      TransmitHeld(WithoutPending(p, k), k, p.cabs[k].pending.value, p.cabs[k].state.direction, now, answers);
    }
  }

  lemma EmergencyHeld(p: Panel, k: int, answers: Answers)
    requires k in p.cabs
    ensures HeldSame(p, EmergencyStopped(p, k, answers).panel)
  {
    SendHeld(p.(cabs := Each(p.cabs, Cancelled)), EmergencyStop, answers);
  }

  lemma {:induction false} OffFromHeld(p: Panel, k: int, on: Flags, n: nat, answers: Answers)
    requires k in p.cabs && n <= FUNCTIONS
    ensures HeldSame(p, OffFrom(p, k, on, n, answers).panel)
    decreases FUNCTIONS - n
  {
    if n < FUNCTIONS {
      if !on[n] {
        OffFromHeld(p, k, on, n + 1, answers);
      } else {
        var s := Issue(p, Function(k, n, 0), answers);
        SendHeld(p, Function(k, n, 0), answers);
        SendSameTabs(p, Function(k, n, 0), answers);
        if s.err == None {
          var t := WithFunction(s.panel, k, n, false);
          assert HeldSame(p, t) && t.cabs.Keys == p.cabs.Keys;
          OffFromHeld(t, k, on, n + 1, answers);
          HeldSameTrans(p, t, OffFrom(t, k, on, n + 1, answers).panel);
        }
      }
    }
  }

  lemma {:induction false} TickAllHeld(p: Panel, tabs: seq<int>, now: int, answers: Answers)
    ensures HeldSame(p, TickAll(p, tabs, now, answers).panel)
    decreases |tabs|
  {
    if tabs != [] && tabs[0] in p.cabs {
      var r := Ticked(p, tabs[0], now, answers);
      TickedHeld(p, tabs[0], now, answers);
      TickedSameTabs(p, tabs[0], now, answers);
      if r.err == None {
        TickAllHeld(r.panel, tabs[1..], now, answers);
        HeldSameTrans(p, r.panel, TickAll(r.panel, tabs[1..], now, answers).panel);
      }
    }
  }

  lemma SelectedHeld(p: Panel, k: int, preservePending: bool, answers: Answers)
    requires p.focus in p.cabs
    ensures HeldSame(p, Selected(p, k, preservePending, answers).panel)
  {
    if IsCab(k) && k != p.focus {
      var q := if preservePending then p else WithoutPending(p, p.focus);
      var r := (if k in q.cabs then q else WithTab(q, k, q.defaultToggle)).(focus := k);
      assert HeldSame(p, r);
      SendHeld(r, LocoRequest(k), answers);
      SendSameTabs(r, LocoRequest(k), answers);
      var t := Send(r, LocoRequest(k), answers).panel;
      assert forall c | c in t.cabs :: c in r.cabs.Keys;
    }
  }

  lemma AddedHeld(p: Panel, k: int, answers: Answers)
    requires p.focus in p.cabs
    ensures HeldSame(p, Added(p, k, answers).panel)
  {
    if k !in p.cabs && IsCab(k) {
      SelectedHeld(WithTab(p, k, p.defaultToggle), k, true, answers);
    }
  }

  lemma ReplacedHeld(p: Panel, gone: int, next: int, answers: Answers)
    requires p.focus in p.cabs
    ensures HeldSame(p, Replaced(p, gone, next, answers).panel)
  {
    if gone != next && IsCab(next) && next !in p.cabs && gone in p.cabs && IsAtRest(p.cabs[gone]) {
      var q := p.(cabs := p.cabs[next := Successor(p.cabs[gone].state, next)], order := Renumbered(p.order, gone, next));
      SelectedHeld(q, next, true, answers);
    }
  }

  /** The operation presses or releases function n of cab k. */
  predicate Touches(p: Panel, op: Op, k: int, n: int) {
    IsCommand(op) && Target(p, op) == Some(k) && op.intent.Press? && op.intent.n == n
  }

  lemma DrivingHeld(p: Panel, op: Op, answers: Answers)
    requires p.focus in p.cabs && IsCommand(op) && (op.intent.SetDirection? || op.intent.FlipDirection? || op.intent.Stop?)
    ensures HeldSame(p, Apply(p, op, answers).panel)
  {
    if Target(p, op).Some? {
      var k := Target(p, op).value;
      match op.intent
      case SetDirection(dir, now) => DirectedHeld(p, k, dir, now, answers);
      case FlipDirection(now) => DirectedHeld(p, k, 1 - p.cabs[k].state.direction, now, answers);
      case Stop(now) => StoppedHeld(p, k, now, answers);
    }
  }

  lemma CommandHeld(p: Panel, op: Op, answers: Answers)
    requires p.focus in p.cabs && IsCommand(op) && !op.intent.Press?
    ensures HeldSame(p, Apply(p, op, answers).panel)
  {
    if op.intent.SetDirection? || op.intent.FlipDirection? || op.intent.Stop? {
      DrivingHeld(p, op, answers);
    } else if Target(p, op).Some? {
      var k := Target(p, op).value;
      match op.intent
      case Emergency => EmergencyHeld(p, k, answers);
      case AllFunctionsOff => OffFromHeld(p, k, p.cabs[k].state.functions, 0, answers);
      case _ =>
    }
  }

  lemma TabOpHeld(p: Panel, op: Op, answers: Answers)
    requires p.focus in p.cabs && (op.AddCab? || op.FocusCab? || op.SelectCab? || op.ReplaceCab?)
    ensures HeldSame(p, Apply(p, op, answers).panel)
  {
    match op
    case AddCab(k) => AddedHeld(p, k, answers);
    case FocusCab(k) => SelectedHeld(p, k, true, answers);
    case SelectCab(k) => SelectedHeld(p, k, false, answers);
    case ReplaceCab(gone, next) => ReplacedHeld(p, gone, next, answers);
  }

  lemma OtherHeld(p: Panel, op: Op, answers: Answers)
    requires p.focus in p.cabs && !IsCommand(op) && !op.Attach?
    ensures HeldSame(p, Apply(p, op, answers).panel)
  {
    if op.AddCab? || op.FocusCab? || op.SelectCab? || op.ReplaceCab? {
      TabOpHeld(p, op, answers);
    } else {
      match op
      case Tick(now) => TickAllHeld(p, p.order, now, answers);
      case Station(cmd) => SendHeld(p, cmd, answers);
      case TogglePower(track) => SendHeld(p, Command.Power(RolePowerOf(p, track) == Messages.Off, track), answers);
      case Poll => SendHeld(p, CurrentQuery, answers);
      case _ =>
    }
  }

  /** What a press or a release does: it touches no other button, it is remembered as held
      exactly when it is a press in momentary mode, and it sends what its mode asks for. */
  lemma {:induction false} PressStep(p: Panel, k: int, n: int, pressed: bool, answers: Answers)
    requires k in p.cabs && IsCab(k) && IsFunction(n)
    requires Pressed(p, k, n, pressed, answers).panel.attached
    ensures var r, q := p.cabs[k], Pressed(p, k, n, pressed, answers).panel;
            var seg := if r.state.toggle[n] && !r.held[n] && !pressed then []
                       else if r.state.toggle[n] && pressed then
                         [Sent(Function(k, n, if r.state.functions[n] then 0 else 1), true)]
                       else [Sent(Function(k, n, if pressed then 1 else 0), true)];
            && p.attached && q.cabs.Keys == p.cabs.Keys
            && (forall c | c in p.cabs && c != k :: q.cabs[c].held == p.cabs[c].held)
            && (forall m | 0 <= m < FUNCTIONS && m != n :: q.cabs[k].held[m] == r.held[m])
            && q.cabs[k].held[n] == (pressed && !r.state.toggle[n])
            && q.log == p.log + seg
  {
    var r := p.cabs[k];
    assert p.log + [] == p.log;
    if !(r.state.toggle[n] && !r.held[n] && !pressed) {
      var toggle := r.state.toggle[n] && !(r.held[n] && !pressed);
      var on := if toggle then !r.state.functions[n] else pressed;
      var cmd := Function(k, n, if on then 1 else 0);
      assert InRange(cmd);
      SendAttached(p, cmd, answers);
    }
  }

  lemma SendAttached(p: Panel, cmd: Command, answers: Answers)
    ensures var s := Send(p, cmd, answers);
            s.panel.attached ==> p.attached && s.err == None && s.panel == p.(log := p.log + [Sent(cmd, true)])
  {
  }

  /** The operation is a press of function n of cab k in momentary mode that reaches the station. */
  predicate StartsHold(p: Panel, op: Op, q: Panel, k: int, n: int)
    requires IsFunction(n)
  {
    Touches(p, op, k, n) && op.intent.pressed && k in p.cabs && !p.cabs[k].state.toggle[n] && q.attached
  }

  /** The operation leaves the button alone and the connection standing. */
  predicate KeepsHold(p: Panel, op: Op, q: Panel, k: int, n: int) {
    !Touches(p, op, k, n) && !op.Attach? && p.attached && q.attached && k in p.cabs
  }

  lemma AttachHoldsNothing(p: Panel, k: int, answers: Answers)
    requires k in Attached(p, answers).panel.cabs
    ensures Attached(p, answers).panel.cabs[k].held == NoFlags()
  {
    var q := Detached(p).(attached := true);
    var r := Send(q, TrackQuery, answers);
    SendHeld(q, TrackQuery, answers);
    SendSameTabs(q, TrackQuery, answers);
    if r.err == None {
      var s := Send(r.panel, Status, answers);
      SendHeld(r.panel, Status, answers);
      SendSameTabs(r.panel, Status, answers);
      HeldSameTrans(q, r.panel, s.panel);
      if s.err == None {
        RequestAllHeld(s.panel, q.order, answers);
        HeldSameTrans(q, s.panel, RequestAll(s.panel, q.order, answers).panel);
      }
    }
    DetachedHoldsNothing(p, answers);
    var t := Attached(p, answers).panel;
    AttachedSameTabs(p, answers);
    assert k in p.cabs.Keys;
    if t.attached {
      assert HeldSame(q, t);
    } else {
      AttachedQuiet(p, answers);
    }
  }

  lemma DetachedHoldsNothing(p: Panel, answers: Answers)
    ensures forall c | c in Detached(p).cabs :: Detached(p).cabs[c].held == NoFlags()
  {
  }

  lemma AttachedQuiet(p: Panel, answers: Answers)
    requires !Attached(p, answers).panel.attached
    ensures forall c | c in Attached(p, answers).panel.cabs :: Attached(p, answers).panel.cabs[c].held == NoFlags()
  {
    var q := Detached(p).(attached := true);
    var r := Send(q, TrackQuery, answers);
    if r.err == None {
      var s := Send(r.panel, Status, answers);
      if s.err == None {
        RequestAllQuiet(s.panel, q.order, answers);
      }
    }
  }

  lemma {:induction false} RequestAllQuiet(p: Panel, tabs: seq<int>, answers: Answers)
    requires p.attached && !RequestAll(p, tabs, answers).panel.attached
    ensures var q := RequestAll(p, tabs, answers).panel; forall c | c in q.cabs :: q.cabs[c].held == NoFlags()
    decreases |tabs|
  {
    if tabs != [] {
      var r := Send(p, LocoRequest(tabs[0]), answers);
      if r.err == None {
        RequestAllQuiet(r.panel, tabs[1..], answers);
      }
    }
  }

  lemma {:induction false} RequestAllHeld(p: Panel, tabs: seq<int>, answers: Answers)
    ensures HeldSame(p, RequestAll(p, tabs, answers).panel)
    decreases |tabs|
  {
    if tabs != [] {
      var r := Send(p, LocoRequest(tabs[0]), answers);
      SendHeld(p, LocoRequest(tabs[0]), answers);
      SendSameTabs(p, LocoRequest(tabs[0]), answers);
      if r.err == None {
        RequestAllHeld(r.panel, tabs[1..], answers);
        HeldSameTrans(p, r.panel, RequestAll(r.panel, tabs[1..], answers).panel);
      }
    }
  }

  ghost predicate HeldRight(p: Panel, op: Op, q: Panel, k: int, n: int)
    requires IsFunction(n) && k in q.cabs
  {
    q.cabs[k].held[n] <==> StartsHold(p, op, q, k, n) || (k in p.cabs && p.cabs[k].held[n] && KeepsHold(p, op, q, k, n))
  }

  lemma UntouchedRight(p: Panel, op: Op, q: Panel, k: int, n: int)
    requires IsFunction(n) && k in q.cabs && HeldSame(p, q) && !Touches(p, op, k, n) && !op.Attach?
    requires AllGood(q, false)
    ensures HeldRight(p, op, q, k, n)
  {
    assert Good(q.cabs[k], q.attached, false);
  }

  lemma PressRight(p: Panel, op: Op, k: int, n: int, answers: Answers)
    requires Structured(p) && IsFunction(n) && IsCommand(op) && op.intent.Press?
    requires var q := Apply(p, op, answers).panel; k in q.cabs && AllGood(q, false)
    ensures HeldRight(p, op, Apply(p, op, answers).panel, k, n)
  {
    var q := Apply(p, op, answers).panel;
    assert Good(q.cabs[k], q.attached, false);
    if Target(p, op).Some? && IsFunction(op.intent.n) && q.attached {
      var t := Target(p, op).value;
      assert IsEntry(t, p.cabs[t]);
      PressStep(p, t, op.intent.n, op.intent.pressed, answers);
      assert k in p.cabs.Keys;
    }
  }

  lemma HeldStep(p: Panel, op: Op, k: int, n: int, answers: Answers)
    requires Structured(p) && AllGood(p, false) && IsFunction(n)
    requires k in Apply(p, op, answers).panel.cabs
    ensures HeldRight(p, op, Apply(p, op, answers).panel, k, n)
  {
    var q := Apply(p, op, answers).panel;
    AgreementKept(p, op, false, answers);
    if op.Attach? {
      AttachHoldsNothing(p, k, answers);
    } else if !IsCommand(op) {
      OtherHeld(p, op, answers);
      UntouchedRight(p, op, q, k, n);
    } else if !op.intent.Press? {
      CommandHeld(p, op, answers);
      UntouchedRight(p, op, q, k, n);
    } else {
      PressRight(p, op, k, n, answers);
    }
  }

  // ----------------------------------------------------------- whole-run theorems

  ghost predicate IsOpenAt(run: Run, i: nat, k: int)
    requires IsRun(run) && i <= |run.ops|
  {
    k in At(run, i).cabs
  }

  ghost predicate HeldAt(run: Run, i: nat, k: int, n: int)
    requires IsRun(run) && i <= |run.ops| && IsFunction(n)
  {
    k in At(run, i).cabs && At(run, i).cabs[k].held[n]
  }

  ghost predicate StartsAt(run: Run, i: nat, k: int, n: int)
    requires IsRun(run) && i < |run.ops| && IsFunction(n)
  {
    StartsHold(At(run, i), run.ops[i], At(run, i + 1), k, n)
  }

  /** Operation i leaves the button, the tab and the connection alone. */
  ghost predicate KeepsAt(run: Run, i: nat, k: int, n: int)
    requires IsRun(run) && i < |run.ops|
  {
    k in At(run, i + 1).cabs && KeepsHold(At(run, i), run.ops[i], At(run, i + 1), k, n)
  }

  lemma PressedTabStays(p: Panel, op: Op, k: int, n: int, answers: Answers)
    requires Structured(p) && IsFunction(n)
    ensures var q := Apply(p, op, answers).panel; StartsHold(p, op, q, k, n) ==> k in q.cabs
  {
    if Touches(p, op, k, n) {
      ObeyStructured(p, k, op.intent, answers);
      assert k in p.cabs.Keys;
    }
  }

  lemma HeldInRun(run: Run, i: nat, k: int, n: int)
    requires IsRun(run) && i < |run.ops| && IsFunction(n)
    ensures HeldAt(run, i + 1, k, n) <==> StartsAt(run, i, k, n) || (HeldAt(run, i, k, n) && KeepsAt(run, i, k, n))
  {
    DisplayedAgreesWithSent(run, i);
    Stepped(run, i);
    var p, op, q := At(run, i), run.ops[i], At(run, i + 1);
    PressedTabStays(p, op, k, n, run.answers);
    if k in q.cabs {
      HeldStep(p, op, k, n, run.answers);
    }
  }

  ghost predicate PressedSince(run: Run, j: nat, i: nat, k: int, n: int)
    requires IsRun(run) && i <= |run.ops| && IsFunction(n)
  {
    j < i && StartsAt(run, j, k, n) && forall m | j < m < i :: KeepsAt(run, m, k, n)
  }

  lemma HeldSteps(run: Run, i: nat, k: int, n: int, holds: nat -> bool, starts: nat -> bool, keeps: nat -> bool)
    requires IsRun(run) && i <= |run.ops| && IsFunction(n)
    requires forall m: nat | m <= i :: holds(m) == HeldAt(run, m, k, n)
    requires forall m: nat | m < i :: starts(m) == StartsAt(run, m, k, n) && keeps(m) == KeepsAt(run, m, k, n)
    ensures forall m: nat | m < i :: holds(m + 1) <==> starts(m) || (holds(m) && keeps(m))
  {
    forall m: nat | m < i ensures holds(m + 1) <==> starts(m) || (holds(m) && keeps(m)) {
      HeldInRun(run, m, k, n);
      assert holds(m + 1) == HeldAt(run, m + 1, k, n);
    }
  }

  lemma HeldHasPress(run: Run, i: nat, k: int, n: int)
    requires IsRun(run) && i <= |run.ops| && IsFunction(n) && HeldAt(run, i, k, n)
    ensures exists j: nat :: PressedSince(run, j, i, k, n)
  {
    var holds := (m: nat) => m <= |run.ops| && HeldAt(run, m, k, n);
    var starts := (m: nat) => m < |run.ops| && StartsAt(run, m, k, n);
    var keeps := (m: nat) => m < |run.ops| && KeepsAt(run, m, k, n);
    HeldSteps(run, i, k, n, holds, starts, keeps);
    NothingHeldAtLaunch(run, k, n);
    HasOrigin(holds, starts, keeps, i);
    var j: nat :| Since(starts, keeps, j, i);
    assert starts(j) && StartsAt(run, j, k, n);
    forall m | j < m < i ensures KeepsAt(run, m, k, n) {
      assert keeps(m);
    }
    assert PressedSince(run, j, i, k, n);
  }

  lemma PressHolds(run: Run, j: nat, i: nat, k: int, n: int)
    requires IsRun(run) && i <= |run.ops| && IsFunction(n) && PressedSince(run, j, i, k, n)
    ensures HeldAt(run, i, k, n)
  {
    var holds := (m: nat) => m <= |run.ops| && HeldAt(run, m, k, n);
    var starts := (m: nat) => m < |run.ops| && StartsAt(run, m, k, n);
    var keeps := (m: nat) => m < |run.ops| && KeepsAt(run, m, k, n);
    HeldSteps(run, i, k, n, holds, starts, keeps);
    assert starts(j);
    forall m | j < m < i ensures keeps(m) {
      assert KeepsAt(run, m, k, n);
    }
    assert Since(starts, keeps, j, i);
    OriginHolds(holds, starts, keeps, j, i);
    assert holds(i);
  }

  /** A function is held exactly from a press in momentary mode that reached the station until
      its button is next touched, its tab is closed or reassigned, or the connection breaks. */
  lemma HeldExactlyBetween(run: Run, i: nat, k: int, n: int)
    requires IsRun(run) && i <= |run.ops| && IsFunction(n)
    ensures HeldAt(run, i, k, n) <==> exists j: nat :: PressedSince(run, j, i, k, n)
  {
    if HeldAt(run, i, k, n) {
      HeldHasPress(run, i, k, n);
    }
    if j: nat :| PressedSince(run, j, i, k, n) {
      PressHolds(run, j, i, k, n);
    }
  }

  lemma NothingHeldAtLaunch(run: Run, k: int, n: int)
    requires IsRun(run) && IsFunction(n)
    ensures !HeldAt(run, 0, k, n)
  {
    if k in run.start.cabs {
      assert Layouts.AtRest(run.start.cabs[k]);
    }
  }

  /** Operations i and j press and release function n of cab k, nothing in between touches the
      button or closes the tab, and the connection stands throughout. */
  ghost predicate IsPair(run: Run, i: nat, j: nat, k: int, n: int)
    requires IsRun(run) && IsFunction(n)
  {
    && i < j < |run.ops|
    && k in At(run, i).cabs && At(run, i + 1).attached && At(run, j + 1).attached
    && Touches(At(run, i), run.ops[i], k, n) && run.ops[i].intent.pressed
    && Touches(At(run, j), run.ops[j], k, n) && !run.ops[j].intent.pressed
    && forall m | i < m < j :: KeepsAt(run, m, k, n)
  }

  lemma PressInRun(run: Run, i: nat, k: int, n: int)
    requires IsRun(run) && IsFunction(n) && i < |run.ops| && k in At(run, i).cabs
    requires Touches(At(run, i), run.ops[i], k, n) && At(run, i + 1).attached
    ensures var r, pressed := At(run, i).cabs[k], run.ops[i].intent.pressed;
            && IsOpenAt(run, i + 1, k)
            && (HeldAt(run, i + 1, k, n) <==> pressed && !r.state.toggle[n])
            && NewLog(run, i) == if r.state.toggle[n] && !r.held[n] && !pressed then []
                                 else if r.state.toggle[n] && pressed then
                                   [Sent(Function(k, n, if r.state.functions[n] then 0 else 1), true)]
                                 else [Sent(Function(k, n, if pressed then 1 else 0), true)]
  {
    Stepped(run, i);
    var p := At(run, i);
    assert IsEntry(k, p.cabs[k]);
    PressStep(p, k, n, run.ops[i].intent.pressed, run.answers);
    assert k in p.cabs.Keys;
  }

  lemma HeldUnchanged(run: Run, m: nat, k: int, n: int)
    requires IsRun(run) && IsFunction(n) && m < |run.ops| && KeepsAt(run, m, k, n)
    ensures IsOpenAt(run, m, k) && IsOpenAt(run, m + 1, k) && (HeldAt(run, m + 1, k, n) <==> HeldAt(run, m, k, n))
  {
    HeldInRun(run, m, k, n);
    assert !StartsAt(run, m, k, n);
  }

  lemma HeldIsSteady(run: Run, i: nat, m: nat, k: int, n: int, open: nat -> bool, held: nat -> bool)
    requires IsRun(run) && IsFunction(n) && i < m <= |run.ops|
    requires forall x: nat | x <= |run.ops| :: open(x) == IsOpenAt(run, x, k) && held(x) == HeldAt(run, x, k, n)
    requires forall x | i < x < m :: KeepsAt(run, x, k, n)
    ensures open(m) == open(i + 1) && held(m) == held(i + 1)
  {
    forall x: nat | i + 1 <= x < m ensures open(x + 1) == open(x) && held(x + 1) == held(x) {
      HeldUnchanged(run, x, k, n);
    }
    Steady(open, i + 1, m);
    Steady(held, i + 1, m);
  }

  lemma HeldThroughout(run: Run, i: nat, m: nat, k: int, n: int)
    requires IsRun(run) && IsFunction(n) && i < m <= |run.ops| && IsOpenAt(run, i + 1, k)
    requires forall x | i < x < m :: KeepsAt(run, x, k, n)
    ensures IsOpenAt(run, m, k) && (HeldAt(run, m, k, n) <==> HeldAt(run, i + 1, k, n))
  {
    var open := (x: nat) => x <= |run.ops| && IsOpenAt(run, x, k);
    var held := (x: nat) => x <= |run.ops| && HeldAt(run, x, k, n);
    HeldIsSteady(run, i, m, k, n, open, held);
    assert open(m) == open(i + 1) && held(m) == held(i + 1);
  }

  /** What a momentary press and its release come to: one "on", one "off", held in between. */
  ghost predicate IsOnThenOff(run: Run, i: nat, j: nat, k: int, n: int)
    requires IsRun(run) && IsFunction(n) && i < j < |run.ops|
  {
    && NewLog(run, i) == [Sent(Function(k, n, 1), true)]
    && NewLog(run, j) == [Sent(Function(k, n, 0), true)]
    && !HeldAt(run, j + 1, k, n) && forall m | i < m <= j :: HeldAt(run, m, k, n)
  }

  /** What a press in toggle mode comes to: one command, the opposite of the shown state; at its
      release nothing, except one "off" when the mode has become momentary meanwhile. */
  ghost predicate IsOneCommand(run: Run, i: nat, j: nat, k: int, n: int)
    requires IsRun(run) && IsFunction(n) && i < j < |run.ops| && k in At(run, i).cabs
  {
    && NewLog(run, i) == [Sent(Function(k, n, if At(run, i).cabs[k].state.functions[n] then 0 else 1), true)]
    && IsOpenAt(run, j, k)
    && NewLog(run, j) == (if At(run, j).cabs[k].state.toggle[n] then [] else [Sent(Function(k, n, 0), true)])
    && !HeldAt(run, j + 1, k, n) && forall m | i < m <= j :: !HeldAt(run, m, k, n)
  }

  /** A press in momentary mode sends exactly one "on" and its release exactly one "off",
      whatever happens to the mode in between, and the button counts as held exactly between. */
  lemma {:induction false} MomentaryPair(run: Run, i: nat, j: nat, k: int, n: int)
    requires IsRun(run) && IsFunction(n)
    ensures IsPair(run, i, j, k, n) && !At(run, i).cabs[k].state.toggle[n] ==> IsOnThenOff(run, i, j, k, n)
  {
    if IsPair(run, i, j, k, n) && !At(run, i).cabs[k].state.toggle[n] {
      PressInRun(run, i, k, n);
      forall m | i < m <= j ensures HeldAt(run, m, k, n) {
        assert i < m && forall x | i < x < m :: KeepsAt(run, x, k, n);
        HeldThroughout(run, i, m, k, n);
      }
      assert HeldAt(run, j, k, n);
      PressInRun(run, j, k, n);
    }
  }

  /** A press in toggle mode sends exactly one command and is never held. */
  lemma {:induction false} TogglePair(run: Run, i: nat, j: nat, k: int, n: int)
    requires IsRun(run) && IsFunction(n)
    ensures IsPair(run, i, j, k, n) && At(run, i).cabs[k].state.toggle[n] ==> IsOneCommand(run, i, j, k, n)
  {
    if IsPair(run, i, j, k, n) && At(run, i).cabs[k].state.toggle[n] {
      PressInRun(run, i, k, n);
      forall m | i < m <= j ensures IsOpenAt(run, m, k) && !HeldAt(run, m, k, n) {
        HeldThroughout(run, i, m, k, n);
      }
      assert IsOpenAt(run, j, k);
      PressInRun(run, j, k, n);
    }
  }

  // ---------------------------------------------------------- alternating buttons

  ghost predicate TouchesAt(run: Run, i: nat, k: int, n: int)
    requires IsRun(run) && i < |run.ops|
  {
    Touches(At(run, i), run.ops[i], k, n)
  }

  ghost predicate IsNextTouch(run: Run, i: nat, j: nat, k: int, n: int)
    requires IsRun(run)
  {
    && i < j < |run.ops| && TouchesAt(run, i, k, n) && TouchesAt(run, j, k, n)
    && forall m | i < m < j :: !TouchesAt(run, m, k, n)
  }

  /** Presses and releases of function n of cab k take turns, as a button asks for them. */
  ghost predicate TakesTurns(run: Run, k: int, n: int)
    requires IsRun(run)
  {
    forall i: nat, j: nat | IsNextTouch(run, i, j, k, n) :: run.ops[i].intent.pressed != run.ops[j].intent.pressed
  }

  /** The connection and the tab stand throughout operation m. */
  ghost predicate StandsAt(run: Run, m: nat, k: int)
    requires IsRun(run) && m < |run.ops|
  {
    && At(run, m).attached && IsOpenAt(run, m, k) && !run.ops[m].Attach?
    && At(run, m + 1).attached && IsOpenAt(run, m + 1, k)
  }

  /** The connection and the tab stand from before operation i to after operation j. */
  ghost predicate Stands(run: Run, i: nat, j: nat, k: int)
    requires IsRun(run) && i <= j < |run.ops|
  {
    forall m: nat | i <= m <= j :: StandsAt(run, m, k)
  }

  lemma StandingKeeps(run: Run, m: nat, k: int, n: int)
    requires IsRun(run) && m < |run.ops| && StandsAt(run, m, k) && !TouchesAt(run, m, k, n)
    ensures KeepsAt(run, m, k, n)
  {
  }

  lemma {:induction false} NextTouchIsPair(run: Run, i: nat, j: nat, k: int, n: int)
    requires IsRun(run) && IsFunction(n) && TakesTurns(run, k, n) && IsNextTouch(run, i, j, k, n)
    requires run.ops[i].intent.pressed && Stands(run, i, j, k)
    ensures IsPair(run, i, j, k, n)
  {
    assert StandsAt(run, i, k) && StandsAt(run, j, k);
    assert TouchesAt(run, i, k, n) && TouchesAt(run, j, k, n);
    forall m | i < m < j ensures KeepsAt(run, m, k, n) {
      assert StandsAt(run, m, k) && !TouchesAt(run, m, k, n);
      StandingKeeps(run, m, k, n);
    }
  }

  /** In a connected run in which the button takes turns, a press and the next touch of the button
      are a pair: it comes to one "on" and one "off" in momentary mode, whatever happens to the
      mode, and to one command in toggle mode. */
  lemma {:induction false} TurnsArePairs(run: Run, i: nat, j: nat, k: int, n: int)
    requires IsRun(run) && IsFunction(n) && i < j < |run.ops| && k in At(run, i).cabs
    ensures TakesTurns(run, k, n) && IsNextTouch(run, i, j, k, n) && run.ops[i].intent.pressed && Stands(run, i, j, k) ==>
              if At(run, i).cabs[k].state.toggle[n] then IsOneCommand(run, i, j, k, n) else IsOnThenOff(run, i, j, k, n)
  {
    if TakesTurns(run, k, n) && IsNextTouch(run, i, j, k, n) && run.ops[i].intent.pressed && Stands(run, i, j, k) {
      NextTouchIsPair(run, i, j, k, n);
      MomentaryPair(run, i, j, k, n);
      TogglePair(run, i, j, k, n);
    }
  }
}
