/** What is shown and what was last exchanged with the station agree, as an inductive invariant. */
module Agreement {
  import opened Results
  import opened Commands
  import opened Settings
  import opened Panel
  import opened Structure
  import opened Runs
  import opened Sets

  /** A queued speed is the shown one and has a transport to go to; the last known direction
      is the shown one; no function is held across a break of the connection. */
  predicate Sound(r: Runtime, attached: bool) {
    && 0 <= r.state.speed <= 126 && (r.state.direction == 0 || r.state.direction == 1)
    && (r.pending.Some? ==> attached && r.pending.value == r.state.speed)
    && (r.lastKnown ==> attached && r.lastDirection == r.state.direction)
    && (!attached ==> r.held == NoFlags())
  }

  /** With nothing queued, the last known speed is the shown one. */
  predicate Settled(r: Runtime) {
    r.lastKnown && r.pending == None ==> r.lastSpeed == r.state.speed
  }

  predicate Good(r: Runtime, attached: bool, settled: bool) {
    Sound(r, attached) && (settled ==> Settled(r))
  }

  ghost predicate AllGood(p: Panel, settled: bool) {
    forall k | k in p.cabs :: Good(p.cabs[k], p.attached, settled)
  }

  lemma DetachedGood(p: Panel, settled: bool)
    requires AllGood(p, settled)
    ensures AllGood(Detached(p), settled)
  {
  }

  lemma SendGood(p: Panel, cmd: Command, settled: bool, answers: Answers)
    requires AllGood(p, settled)
    ensures AllGood(Send(p, cmd, answers).panel, settled)
  {
    var q := p.(log := p.log + [Sent(cmd, answers(|p.log|))]);
    assert AllGood(q, settled);
    DetachedGood(q, settled);
  }

  lemma UpdateGood(p: Panel, k: int, r: Runtime, settled: bool)
    requires AllGood(p, settled) && Good(r, p.attached, settled)
    ensures AllGood(Update(p, k, r), settled)
  {
  }

  /** A panel of which all cabs but k are good. */
  ghost predicate OthersGood(p: Panel, k: int, settled: bool) {
    forall c | c in p.cabs && c != k :: Good(p.cabs[c], p.attached, settled)
  }

  /** A transmission either fails, and then all is quiet, or records what it sent. */
  lemma TransmitGood(p: Panel, k: int, speed: int, dir: int, now: int, settled: bool, answers: Answers)
    requires k in p.cabs && AllGood(p, settled)
    ensures var s := Transmit(p, k, speed, dir, now, answers);
            if s.err != None then AllGood(s.panel, settled)
            else
              && s.panel.attached && p.attached && OthersGood(s.panel, k, settled)
              && s.panel.cabs[k] == p.cabs[k].(lastSpeed := speed, lastDirection := dir, lastKnown := true, lastSent := Some(now))
  {
    SendGood(p, Throttle(k, speed, dir), settled, answers);
  }

  lemma FinishGood(p: Panel, k: int, r: Runtime, settled: bool)
    requires OthersGood(p, k, settled) && Good(r, p.attached, settled)
    ensures AllGood(Update(p, k, r), settled)
  {
  }

  lemma {:induction false} OffFromGood(p: Panel, k: int, on: Flags, n: nat, settled: bool, answers: Answers)
    requires k in p.cabs && n <= FUNCTIONS && AllGood(p, settled)
    ensures AllGood(OffFrom(p, k, on, n, answers).panel, settled)
    decreases FUNCTIONS - n
  {
    if n < FUNCTIONS {
      if !on[n] {
        OffFromGood(p, k, on, n + 1, settled, answers);
      } else {
        SendGood(p, Function(k, n, 0), settled, answers);
        var s := Issue(p, Function(k, n, 0), answers);
        if s.err == None {
          UpdateGood(s.panel, k, WithFunction(s.panel, k, n, false).cabs[k], settled);
          OffFromGood(WithFunction(s.panel, k, n, false), k, on, n + 1, settled, answers);
        }
      }
    }
  }

  lemma DirectedGood(p: Panel, k: int, dir: int, now: int, settled: bool, answers: Answers)
    requires k in p.cabs && AllGood(p, settled)
    ensures AllGood(Directed(p, k, dir, now, answers).panel, settled)
  {
    assert Good(p.cabs[k], p.attached, settled);
    TransmitGood(p, k, p.cabs[k].state.speed, dir, now, settled, answers);
    var s := Transmit(p, k, p.cabs[k].state.speed, dir, now, answers);
    if (dir == 0 || dir == 1) && s.err == None {
      var r := s.panel.cabs[k];
      FinishGood(s.panel, k, r.(state := r.state.(direction := dir)), settled);
    }
  }

  lemma StoppedGood(p: Panel, k: int, now: int, settled: bool, answers: Answers)
    requires k in p.cabs && AllGood(p, false) && (settled ==> AllGood(p, true))
    requires IsCab(k)
    ensures AllGood(Stopped(p, k, now, answers).panel, settled)
  {
    var r := p.cabs[k];
    assert Good(r, p.attached, settled);
    var w := WithoutPending(p, k);
    var s := Send(w, Throttle(k, 0, r.state.direction), answers);
    assert s == Issue(w, Throttle(k, 0, r.state.direction), answers);
    if !p.attached {
      UpdateGood(p, k, r.(pending := None), settled);
    } else if s.err != None {
      assert AllGood(s.panel, settled) by {
        forall c | c in s.panel.cabs ensures Good(s.panel.cabs[c], s.panel.attached, settled) {
          assert Good(p.cabs[c], p.attached, settled);
        }
      }
    } else {
      var t := Stopped(p, k, now, answers).panel;
      forall c | c in t.cabs ensures Good(t.cabs[c], t.attached, settled) {
        assert Good(p.cabs[c], p.attached, settled);
      }
    }
  }

  lemma EmergencyGood(p: Panel, k: int, settled: bool, answers: Answers)
    requires k in p.cabs && AllGood(p, settled)
    ensures AllGood(EmergencyStopped(p, k, answers).panel, settled)
  {
    var q := p.(cabs := Each(p.cabs, Cancelled));
    var s := Send(q, EmergencyStop, answers);
    var t := EmergencyStopped(p, k, answers).panel;
    forall c | c in t.cabs ensures Good(t.cabs[c], t.attached, settled) {
      assert Good(p.cabs[c], p.attached, settled);
    }
  }

  lemma TickedGood(p: Panel, k: int, now: int, settled: bool, answers: Answers)
    requires k in p.cabs && AllGood(p, settled) && IsCab(k)
    ensures AllGood(Ticked(p, k, now, answers).panel, settled)
  {
    var r := p.cabs[k];
    assert Good(r, p.attached, settled);
    var t := Ticked(p, k, now, answers).panel;
    forall c | c in t.cabs ensures Good(t.cabs[c], t.attached, settled) {
      assert Good(p.cabs[c], p.attached, settled);
    }
  }

  lemma PressedGood(p: Panel, k: int, n: int, pressed: bool, settled: bool, answers: Answers)
    requires k in p.cabs && AllGood(p, settled)
    ensures AllGood(Pressed(p, k, n, pressed, answers).panel, settled)
  {
    if IsFunction(n) {
      var r := p.cabs[k];
      var toggle := r.state.toggle[n] && !(r.held[n] && !pressed);
      var on := if toggle then !r.state.functions[n] else pressed;
      var s := Issue(p, Function(k, n, if on then 1 else 0), answers);
      SendGood(p, Function(k, n, if on then 1 else 0), settled, answers);
      if s.err == None {
        var t := WithHeld(s.panel, k, n, pressed && !toggle);
        UpdateGood(s.panel, k, t.cabs[k], settled);
        UpdateGood(t, k, WithFunction(t, k, n, on).cabs[k], settled);
      }
    }
  }

  lemma ObeyGood(p: Panel, k: int, intent: UserIntent, settled: bool, answers: Answers)
    requires k in p.cabs && AllGood(p, settled) && IsCab(k)
    ensures AllGood(Obey(p, k, intent, answers).panel, settled)
  {
    assert Good(p.cabs[k], p.attached, settled);
    if intent.MoveSpeed? || intent.SetToggle? || intent.FlipToggle? {
      var q := Obey(p, k, intent, answers).panel;
      if q != p {
        UpdateGood(p, k, q.cabs[k], settled);
        assert q == Update(p, k, q.cabs[k]);
      }
    }
    match intent
    case SetDirection(dir, now) => DirectedGood(p, k, dir, now, settled, answers);
    case FlipDirection(now) => DirectedGood(p, k, 1 - p.cabs[k].state.direction, now, settled, answers);
    case Stop(now) => StoppedGood(p, k, now, settled, answers);
    case Emergency => EmergencyGood(p, k, settled, answers);
    case Press(n, pressed) => PressedGood(p, k, n, pressed, settled, answers);
    case AllFunctionsOff => OffFromGood(p, k, p.cabs[k].state.functions, 0, settled, answers);
    case _ =>
  }

  lemma {:induction false} TickAllGood(p: Panel, tabs: seq<int>, now: int, settled: bool, answers: Answers)
    requires Structured(p) && AllGood(p, settled)
    ensures AllGood(TickAll(p, tabs, now, answers).panel, settled)
    decreases |tabs|
  {
    if tabs != [] && tabs[0] in p.cabs {
      assert IsEntry(tabs[0], p.cabs[tabs[0]]);
      var r := Ticked(p, tabs[0], now, answers);
      TickedGood(p, tabs[0], now, settled, answers);
      TickedSameTabs(p, tabs[0], now, answers);
      SameTabsStructured(p, r.panel);
      if r.err == None {
        TickAllGood(r.panel, tabs[1..], now, settled, answers);
      }
    }
  }

  lemma {:induction false} RequestAllGood(p: Panel, tabs: seq<int>, settled: bool, answers: Answers)
    requires AllGood(p, settled)
    ensures AllGood(RequestAll(p, tabs, answers).panel, settled)
    decreases |tabs|
  {
    if tabs != [] {
      SendGood(p, LocoRequest(tabs[0]), settled, answers);
      var r := Send(p, LocoRequest(tabs[0]), answers);
      if r.err == None {
        RequestAllGood(r.panel, tabs[1..], settled, answers);
      }
    }
  }

  lemma AttachedGood(p: Panel, settled: bool, answers: Answers)
    requires AllGood(p, settled)
    ensures AllGood(Attached(p, answers).panel, settled)
  {
    DetachedGood(p, settled);
    var q := Detached(p).(attached := true);
    SendGood(q, TrackQuery, settled, answers);
    var r := Send(q, TrackQuery, answers);
    if r.err == None {
      SendGood(r.panel, Status, settled, answers);
      var s := Send(r.panel, Status, answers);
      if s.err == None {
        RequestAllGood(s.panel, q.order, settled, answers);
      }
    }
  }

  lemma SelectedGood(p: Panel, k: int, preservePending: bool, settled: bool, answers: Answers)
    requires p.focus in p.cabs && AllGood(p, settled) && (settled ==> preservePending)
    ensures AllGood(Selected(p, k, preservePending, answers).panel, settled)
  {
    assert Good(p.cabs[p.focus], p.attached, settled);
    var q := if preservePending then p else WithoutPending(p, p.focus);
    assert AllGood(q, settled);
    var r := (if k in q.cabs then q else WithTab(q, k, q.defaultToggle)).(focus := k);
    assert AllGood(r, settled);
    SendGood(r, LocoRequest(k), settled, answers);
  }

  lemma ReceivedGood(p: Panel, e: Report, settled: bool)
    requires AllGood(p, settled)
    ensures AllGood(Received(p, e), settled)
  {
    if p.attached && e.LocoState? && e.cab in p.cabs {
      assert Good(p.cabs[e.cab], p.attached, settled);
      UpdateGood(p, e.cab, Received(p, e).cabs[e.cab], settled);
    }
  }

  lemma AddedGood(p: Panel, k: int, settled: bool, answers: Answers)
    requires p.focus in p.cabs && AllGood(p, settled)
    ensures AllGood(Added(p, k, answers).panel, settled)
  {
    if k !in p.cabs {
      assert AllGood(WithTab(p, k, p.defaultToggle), settled);
      SelectedGood(WithTab(p, k, p.defaultToggle), k, true, settled, answers);
    }
  }

  lemma ReplacedGood(p: Panel, gone: int, next: int, settled: bool, answers: Answers)
    requires p.focus in p.cabs && AllGood(p, settled)
    ensures AllGood(Replaced(p, gone, next, answers).panel, settled)
  {
    if gone != next && IsCab(next) && next !in p.cabs && gone in p.cabs && IsAtRest(p.cabs[gone]) {
      var q := p.(cabs := p.cabs[next := Successor(p.cabs[gone].state, next)], order := Renumbered(p.order, gone, next));
      assert AllGood(q, settled);
      SelectedGood(q, next, true, settled, answers);
    }
  }

  lemma EditedGood(p: Panel, op: Op, settled: bool, answers: Answers)
    requires p.focus in p.cabs && AllGood(p, settled)
    requires op.RenameCab? || op.SetFunctionLabel? || op.SetFunctionHidden?
    ensures AllGood(Apply(p, op, answers).panel, settled)
  {
    if op.cab in p.cabs {
      var q := Apply(p, op, answers).panel;
      assert Good(p.cabs[op.cab], p.attached, settled);
      UpdateGood(p, op.cab, q.cabs[op.cab], settled);
      assert q == p || q == Update(p, op.cab, q.cabs[op.cab]);
    }
  }

  predicate IsTabOp(op: Op) {
    op.AddCab? || op.FocusCab? || op.SelectCab? || op.RemoveCab? || op.ReplaceCab?
  }

  lemma TabOpGood(p: Panel, op: Op, settled: bool, answers: Answers)
    requires Structured(p) && AllGood(p, settled) && IsTabOp(op)
    requires settled ==> !op.SelectCab?
    ensures AllGood(Apply(p, op, answers).panel, settled)
  {
    match op
    case AddCab(cab) => AddedGood(p, cab, settled, answers);
    case FocusCab(cab) => SelectedGood(p, cab, true, settled, answers);
    case SelectCab(cab) => SelectedGood(p, cab, false, settled, answers);
    case RemoveCab(cab) =>
    case ReplaceCab(gone, next) => ReplacedGood(p, gone, next, settled, answers);
  }

  lemma CommandGood(p: Panel, op: Op, settled: bool, answers: Answers)
    requires Structured(p) && AllGood(p, settled) && (op.Do? || op.WithCab?)
    ensures AllGood(Apply(p, op, answers).panel, settled)
  {
    var k := if op.Do? then p.focus else op.cab;
    if k in p.cabs {
      assert IsEntry(k, p.cabs[k]);
      ObeyGood(p, k, op.intent, settled, answers);
    }
  }

  /** One step keeps the agreement; it keeps the settled part too unless it is SelectCab. */
  lemma AgreementKept(p: Panel, op: Op, settled: bool, answers: Answers)
    requires Structured(p) && AllGood(p, settled)
    requires settled ==> !op.SelectCab?
    ensures AllGood(Apply(p, op, answers).panel, settled)
  {
    if IsTabOp(op) {
      TabOpGood(p, op, settled, answers);
    } else {
      match op
      case Do(_) => CommandGood(p, op, settled, answers);
      case WithCab(_, _) => CommandGood(p, op, settled, answers);
      case RenameCab(_, _) => EditedGood(p, op, settled, answers);
      case SetFunctionLabel(_, _, _) => EditedGood(p, op, settled, answers);
      case SetFunctionHidden(_, _, _) => EditedGood(p, op, settled, answers);
      case Tick(now) => TickAllGood(p, p.order, now, settled, answers);
      case Receive(event) => ReceivedGood(p, event, settled);
      case Attach => AttachedGood(p, settled, answers);
      case Detach => DetachedGood(p, settled);
      case Station(cmd) => SendGood(p, cmd, settled, answers);
      case TogglePower(track) => SendGood(p, Command.Power(RolePowerOf(p, track) == Messages.Off, track), settled, answers);
      case Poll => SendGood(p, CurrentQuery, settled, answers);
      case SetPoll(_) =>
    }
  }

  ghost predicate NoSelect(run: Run, i: nat)
    requires i <= |run.ops|
  {
    forall j | 0 <= j < i :: !run.ops[j].SelectCab?
  }

  /** Displayed and sent state agree in every reachable state; in runs without SelectCab a
      cab with nothing queued shows exactly the speed that was last exchanged. */
  lemma {:induction false} DisplayedAgreesWithSent(run: Run, i: nat)
    requires IsRun(run) && i <= |run.ops|
    ensures AllGood(At(run, i), false)
    ensures NoSelect(run, i) ==> AllGood(At(run, i), true)
  {
    if i > 0 {
      DisplayedAgreesWithSent(run, i - 1);
      Stepped(run, i - 1);
      AgreementKept(At(run, i - 1), run.ops[i - 1], false, run.answers);
      if NoSelect(run, i) {
        AgreementKept(At(run, i - 1), run.ops[i - 1], true, run.answers);
      }
    }
  }

  /** So a tab is only closed or reassigned when the last exchanged speed, if known, is zero. */
  lemma OnlyStoppedCabsAreDropped(run: Run, i: nat, k: int)
    requires IsRun(run) && i < |run.ops| && NoSelect(run, i)
    requires k in At(run, i).cabs && k !in At(run, i + 1).cabs
    ensures var r := At(run, i).cabs[k]; r.state.speed == 0 && r.pending == None && (r.lastKnown ==> r.lastSpeed == 0)
  {
    DisplayedAgreesWithSent(run, i);
    Stepped(run, i);
    var p, op := At(run, i), run.ops[i];
    assert Good(p.cabs[k], p.attached, true);
    if !IsAtRest(p.cabs[k]) {
      MovingCabsStay(p, op, k, run.answers);
      assert false;
    }
  }

  lemma MovingCabsStay(p: Panel, op: Op, k: int, answers: Answers)
    requires Structured(p) && k in p.cabs && !IsAtRest(p.cabs[k])
    ensures k in Apply(p, op, answers).panel.cabs
  {
    var q := Apply(p, op, answers).panel;
    if !EditsTabs(op) {
      ApplySameTabs(p, op, answers);
      assert k in q.cabs.Keys;
    } else if op.Do? || op.WithCab? {
      var c := if op.Do? then p.focus else op.cab;
      if c in p.cabs {
        ObeyStructured(p, c, op.intent, answers);
        assert k in q.cabs.Keys;
      }
    } else if op.ReplaceCab? {
      MovingCabsStayReplaced(p, op.gone, op.next, k, answers);
    }
  }

  lemma MovingCabsStayReplaced(p: Panel, gone: int, next: int, k: int, answers: Answers)
    requires Structured(p) && k in p.cabs && !IsAtRest(p.cabs[k])
    ensures k in Replaced(p, gone, next, answers).panel.cabs
  {
    if gone != next && IsCab(next) && next !in p.cabs && gone in p.cabs && IsAtRest(p.cabs[gone]) {
      var q := p.(cabs := p.cabs[next := Successor(p.cabs[gone].state, next)], order := Renumbered(p.order, gone, next));
      SendSameTabs(q.(focus := next), LocoRequest(next), answers);
      assert k in q.cabs.Keys;
    }
  }

  /** SelectCab leaves the shown speed of the cab it leaves while forgetting the queued one:
      the settled agreement survives it exactly when no unsent, different speed is queued there
      (or when the selection does not happen, or its request detaches the panel). */
  lemma SelectBreaksAgreementExactly(p: Panel, k: int, answers: Answers)
    requires Structured(p) && AllGood(p, true)
    ensures var r := p.cabs[p.focus];
            AllGood(Apply(p, SelectCab(k), answers).panel, true) <==>
            !(IsCab(k) && k != p.focus && r.lastKnown && r.pending.Some? && r.pending.value != r.lastSpeed
              && answers(|p.log|))
  {
    var f := p.focus;
    var r := p.cabs[f];
    assert Good(r, p.attached, true);
    if IsCab(k) && k != f {
      var w := WithoutPending(p, f);
      var q := (if k in w.cabs then w else WithTab(w, k, w.defaultToggle)).(focus := k);
      OnlyTheLeftCab(p, q, answers);
      assert Selected(p, k, false, answers) == if q.attached then Send(q, LocoRequest(k), answers) else Reply(q, None);
      assert q.cabs[f] == r.(pending := None) && q.log == p.log;
      if p.attached {
        if answers(|p.log|) {
          assert f in q.cabs && Send(q, LocoRequest(k), answers).panel.cabs == q.cabs;
        } else {
          QuietGood(q.(log := q.log + [Sent(LocoRequest(k), false)]));
        }
      }
    }
  }

  lemma OnlyTheLeftCab(p: Panel, q: Panel, answers: Answers)
    requires AllGood(p, true) && p.focus in p.cabs && q.attached == p.attached
    requires forall c | c in q.cabs :: Good(q.cabs[c], q.attached, false)
    requires forall c | c in q.cabs && c != p.focus :: (c in p.cabs && q.cabs[c] == p.cabs[c]) || q.cabs[c].lastKnown == false
    ensures OthersGood(q, p.focus, true)
  {
    forall c | c in q.cabs && c != p.focus ensures Good(q.cabs[c], q.attached, true) {
      if c in p.cabs {
        assert Good(p.cabs[c], p.attached, true);
      }
    }
  }

  lemma QuietGood(p: Panel)
    requires AllGood(p, false)
    ensures AllGood(Detached(p), true)
  {
    forall c | c in Detached(p).cabs ensures Good(Detached(p).cabs[c], false, true) {
      assert Good(p.cabs[c], p.attached, false);
    }
  }
}
