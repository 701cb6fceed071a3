/** Where every speed comes from: what one operation does to the speed of a cab, and which
    throttle commands it sends. */
module Speeds {
  import opened Results
  import opened Commands
  import opened Settings
  import opened Panel
  import opened Structure
  import opened Agreement
  import opened Motion
  import opened Movement
  import opened Sets

  /** The speed of a cab on show, queued, and last exchanged with the station if that is known. */
  datatype Pace = Pace(shown: int, queued: Option<int>, exchanged: Option<int>)

  const UNMOVED := Pace(0, None, None)

  function PaceOf(r: Runtime): Pace {
    Pace(r.state.speed, r.pending, if r.lastKnown then Some(r.lastSpeed) else None)
  }

  // ---------------------------------------------------------------- calm operations

  /** Not a throttle command, and well within its encoder's range. */
  predicate IsCalm(w: Wire) {
    w.Sent? ==> InRange(w.cmd) && !w.cmd.Throttle?
  }

  /** The connection is closed right after every command that failed. */
  predicate FailuresClose(wires: seq<Wire>) {
    forall n | 0 <= n < |wires| && wires[n].Sent? && !wires[n].ok :: n + 1 < |wires| && wires[n + 1] == Closed
  }

  lemma FailuresCloseConcat(a: seq<Wire>, b: seq<Wire>)
    requires FailuresClose(a) && FailuresClose(b)
    ensures FailuresClose(a + b)
  {
    forall n | 0 <= n < |a + b| && (a + b)[n].Sent? && !(a + b)[n].ok
      ensures n + 1 < |a + b| && (a + b)[n + 1] == Closed
    {
      if n < |a| {
        assert a[n] == (a + b)[n] && a[n + 1] == (a + b)[n + 1];
      } else {
        assert b[n - |a|] == (a + b)[n] && b[n - |a| + 1] == (a + b)[n + 1];
      }
    }
  }

  predicate AreCalm(wires: seq<Wire>) {
    (forall n | 0 <= n < |wires| :: IsCalm(wires[n])) && FailuresClose(wires)
  }

  ghost predicate CalmExtends(a: seq<Wire>, b: seq<Wire>) {
    |a| <= |b| && b[..|a|] == a && AreCalm(b[|a|..])
  }

  lemma CalmExtendsTrans(a: seq<Wire>, b: seq<Wire>, c: seq<Wire>)
    requires CalmExtends(a, b) && CalmExtends(b, c)
    ensures CalmExtends(a, c)
  {
    assert c[..|a|] == c[..|b|][..|a|];
    assert c[|a|..] == b[|a|..] + c[|b|..];
    FailuresCloseConcat(b[|a|..], c[|b|..]);
  }

  predicate CabCalm(p: Panel, q: Panel, c: int)
    requires c in q.cabs
  {
    if c in p.cabs then
      && q.cabs[c].state.speed == p.cabs[c].state.speed
      && q.cabs[c].state.direction == p.cabs[c].state.direction
      && (q.attached ==> PaceOf(q.cabs[c]) == PaceOf(p.cabs[c]))
    else PaceOf(q.cabs[c]) == UNMOVED && q.cabs[c].state.direction == 1
  }

  /** Nothing moves: no throttle command is sent, and all cabs keep their pace while the
      connection lasts. */
  ghost predicate Calm(p: Panel, q: Panel) {
    && CalmExtends(p.log, q.log)
    && (q.attached ==> p.attached)
    && forall c | c in q.cabs :: CabCalm(p, q, c)
  }

  lemma CalmTrans(p: Panel, q: Panel, r: Panel)
    requires Calm(p, q) && Calm(q, r)
    requires forall c | c in r.cabs && c in p.cabs :: c in q.cabs
    requires forall c | c in r.cabs && c in q.cabs && c !in p.cabs :: PaceOf(r.cabs[c]) == UNMOVED
    ensures Calm(p, r)
  {
    CalmExtendsTrans(p.log, q.log, r.log);
    forall c | c in r.cabs ensures CabCalm(p, r, c) {
      assert CabCalm(q, r, c);
      if c in q.cabs {
        assert CabCalm(p, q, c);
      }
    }
  }

  lemma CalmTransSameKeys(p: Panel, q: Panel, r: Panel)
    requires Calm(p, q) && Calm(q, r) && q.cabs.Keys == p.cabs.Keys
    ensures Calm(p, r)
  {
    assert forall c :: c in q.cabs <==> c in p.cabs.Keys;
    CalmTrans(p, q, r);
  }

  lemma CalmLog(p: Panel, q: Panel)
    requires q.log == p.log && (q.attached ==> p.attached) && forall c | c in q.cabs :: CabCalm(p, q, c)
    ensures Calm(p, q)
  {
    assert NewWire(p, q) == [];
  }

  lemma SendCalm(p: Panel, cmd: Command, answers: Answers)
    requires InRange(cmd) && !cmd.Throttle?
    ensures Calm(p, Send(p, cmd, answers).panel)
  {
    var q := Send(p, cmd, answers).panel;
    if !p.attached {
      assert NewWire(p, q) == [];
    } else {
      var sent := Sent(cmd, answers(|p.log|));
      assert NewWire(p, q) == if answers(|p.log|) then [sent] else [sent, Closed];
    }
  }

  lemma IssueCalm(p: Panel, cmd: Command, answers: Answers)
    requires !cmd.Throttle?
    ensures Calm(p, Issue(p, cmd, answers).panel)
  {
    if InRange(cmd) {
      SendCalm(p, cmd, answers);
    } else {
      CalmLog(p, p);
    }
  }

  lemma UpdateCalm(p: Panel, k: int, r: Runtime)
    requires k in p.cabs && PaceOf(r) == PaceOf(p.cabs[k]) && r.state.direction == p.cabs[k].state.direction
    ensures Calm(p, Update(p, k, r))
  {
    CalmLog(p, Update(p, k, r));
  }

  lemma SwitchedCalm(p: Panel, k: int, n: int, on: bool, shown: bool, held: bool, answers: Answers)
    requires k in p.cabs && IsFunction(n)
    ensures Calm(p, Switched(p, k, n, on, shown, held, answers).panel)
  {
    var cmd := Function(k, n, if on then 1 else 0);
    var s := Issue(p, cmd, answers);
    IssueCalm(p, cmd, answers);
    SendSameTabs(p, cmd, answers);
    if s.err == None {
      var t := WithHeld(s.panel, k, n, held);
      UpdateCalm(s.panel, k, t.cabs[k]);
      CalmTransSameKeys(p, s.panel, t);
      assert t.cabs.Keys == p.cabs.Keys;
      var u := WithFunction(t, k, n, on);
      UpdateCalm(t, k, u.cabs[k]);
      CalmTransSameKeys(p, t, u);
    }
  }

  lemma PressedCalm(p: Panel, k: int, n: int, pressed: bool, answers: Answers)
    requires k in p.cabs
    ensures Calm(p, Pressed(p, k, n, pressed, answers).panel)
  {
    CalmLog(p, p);
    if IsFunction(n) {
      var r := p.cabs[k];
      var toggle := r.state.toggle[n] && !(r.held[n] && !pressed);
      SwitchedCalm(p, k, n, if toggle then !r.state.functions[n] else pressed, toggle, pressed && !toggle, answers);
    }
  }

  lemma {:induction false} OffFromCalm(p: Panel, k: int, on: Flags, n: nat, answers: Answers)
    requires k in p.cabs && n <= FUNCTIONS
    ensures Calm(p, OffFrom(p, k, on, n, answers).panel)
    decreases FUNCTIONS - n
  {
    CalmLog(p, p);
    if n < FUNCTIONS {
      if !on[n] {
        OffFromCalm(p, k, on, n + 1, answers);
      } else {
        var cmd := Function(k, n, 0);
        var s := Issue(p, cmd, answers);
        IssueCalm(p, cmd, answers);
        SendSameTabs(p, cmd, answers);
        if s.err == None {
          var t := WithFunction(s.panel, k, n, false);
          UpdateCalm(s.panel, k, t.cabs[k]);
          CalmTransSameKeys(p, s.panel, t);
          assert t.cabs.Keys == p.cabs.Keys;
          OffFromCalm(t, k, on, n + 1, answers);
          CalmTransSameKeys(p, t, OffFrom(t, k, on, n + 1, answers).panel);
        }
      }
    }
  }

  lemma {:induction false} RequestAllCalm(p: Panel, tabs: seq<int>, answers: Answers)
    requires forall i | 0 <= i < |tabs| :: IsCab(tabs[i])
    ensures Calm(p, RequestAll(p, tabs, answers).panel)
    decreases |tabs|
  {
    CalmLog(p, p);
    if tabs != [] {
      var cmd := LocoRequest(tabs[0]);
      var r := Send(p, cmd, answers);
      SendCalm(p, cmd, answers);
      SendSameTabs(p, cmd, answers);
      if r.err == None {
        RequestAllCalm(r.panel, tabs[1..], answers);
        CalmTransSameKeys(p, r.panel, RequestAll(r.panel, tabs[1..], answers).panel);
      }
    }
  }

  lemma SelectedCalm(p: Panel, k: int, answers: Answers)
    requires p.focus in p.cabs
    ensures Calm(p, Selected(p, k, true, answers).panel)
  {
    CalmLog(p, p);
    if IsCab(k) && k != p.focus {
      var r := (if k in p.cabs then p else WithTab(p, k, p.defaultToggle)).(focus := k);
      CalmLog(p, r);
      var t := Send(r, LocoRequest(k), answers).panel;
      SendCalm(r, LocoRequest(k), answers);
      SendSameTabs(r, LocoRequest(k), answers);
      assert forall c | c in t.cabs :: c in r.cabs.Keys;
      assert forall c | c in t.cabs :: t.cabs[c] == r.cabs[c] || t.cabs[c] == Quiet(r.cabs[c]);
      CalmTrans(p, r, t);
    }
  }

  lemma AddedCalm(p: Panel, k: int, answers: Answers)
    requires p.focus in p.cabs
    ensures Calm(p, Added(p, k, answers).panel)
  {
    CalmLog(p, p);
    if k !in p.cabs && IsCab(k) {
      var w := WithTab(p, k, p.defaultToggle);
      CalmLog(p, w);
      SelectedCalm(w, k, answers);
      var t := Selected(w, k, true, answers).panel;
      assert t.cabs.Keys == w.cabs.Keys;
      CalmTrans(p, w, t);
    }
  }

  lemma ReplacedCalm(p: Panel, gone: int, next: int, answers: Answers)
    requires p.focus in p.cabs
    ensures Calm(p, Replaced(p, gone, next, answers).panel)
  {
    CalmLog(p, p);
    if gone != next && IsCab(next) && next !in p.cabs && gone in p.cabs && IsAtRest(p.cabs[gone]) {
      var q := p.(cabs := p.cabs[next := Successor(p.cabs[gone].state, next)], order := Renumbered(p.order, gone, next));
      CalmLog(p, q);
      SelectedCalm(q, next, answers);
      var t := Selected(q, next, true, answers).panel;
      assert t.cabs.Keys == q.cabs.Keys;
      CalmTrans(p, q, t);
      var u := t.(cabs := t.cabs - {gone});
      CalmLog(t, u);
      assert forall c | c in u.cabs && c in p.cabs :: c in q.cabs.Keys;
      CalmTrans(p, t, u);
    }
  }

  /** The operations that neither command the motion of a cab nor report it. */
  predicate IsCalmOp(op: Op) {
    || op.AddCab? || op.FocusCab? || op.RemoveCab? || op.ReplaceCab?
    || op.RenameCab? || op.SetFunctionLabel? || op.SetFunctionHidden? || op.SetPoll?
    || op.Station? || op.TogglePower? || op.Poll?
    || (op.Receive? && !op.event.LocoState?)
    || (IsCommand(op) && (op.intent.Press? || op.intent.AllFunctionsOff? || op.intent.SetToggle? || op.intent.FlipToggle?))
  }

  lemma CommandCalm(p: Panel, op: Op, answers: Answers)
    requires p.focus in p.cabs && IsCommand(op) && IsCalmOp(op)
    ensures Calm(p, Apply(p, op, answers).panel)
  {
    CalmLog(p, p);
    if Target(p, op).Some? {
      var k := Target(p, op).value;
      match op.intent
      case Press(n, pressed) => PressedCalm(p, k, n, pressed, answers);
      case AllFunctionsOff => OffFromCalm(p, k, p.cabs[k].state.functions, 0, answers);
      case SetToggle(n, on) => CalmLog(p, Apply(p, op, answers).panel);
      case FlipToggle(n) => CalmLog(p, Apply(p, op, answers).panel);
    }
  }

  lemma CalmStep(p: Panel, op: Op, answers: Answers)
    requires p.focus in p.cabs && IsCalmOp(op)
    ensures Calm(p, Apply(p, op, answers).panel)
  {
    CalmLog(p, p);
    if IsCommand(op) {
      CommandCalm(p, op, answers);
    } else if op.RemoveCab? || op.Receive? || op.SetPoll? || op.RenameCab? || op.SetFunctionLabel? || op.SetFunctionHidden? {
      CalmLog(p, Apply(p, op, answers).panel);
    } else {
      match op
      case AddCab(k) => AddedCalm(p, k, answers);
      case FocusCab(k) => SelectedCalm(p, k, answers);
      case ReplaceCab(gone, next) => ReplacedCalm(p, gone, next, answers);
      case Station(cmd) => IssueCalm(p, cmd, answers);
      case TogglePower(track) => IssueCalm(p, Command.Power(RolePowerOf(p, track) == Messages.Off, track), answers);
      case Poll => SendCalm(p, CurrentQuery, answers);
      case _ =>
    }
  }

  // --------------------------------------------------- the operations that move cabs

  predicate Stops(p: Panel, op: Op, k: int) {
    IsCommand(op) && Target(p, op) == Some(k) && op.intent.Stop?
  }

  /** An emergency stop, commanded through any open cab. */
  predicate HaltsAll(p: Panel, op: Op) {
    IsCommand(op) && Target(p, op).Some? && op.intent.Emergency?
  }

  function Reversal(p: Panel, op: Op, k: int): Option<int> {
    if !IsCommand(op) || Target(p, op) != Some(k) || k !in p.cabs then None
    else
      match op.intent
      case SetDirection(dir, _) => if (dir == 0 || dir == 1) && dir != p.cabs[k].state.direction then Some(dir) else None
      case FlipDirection(_) => Some(1 - p.cabs[k].state.direction)
      case _ => None
  }

  predicate Reports(op: Op, k: int) {
    op.Receive? && op.event.LocoState? && op.event.cab == k
  }

  predicate Leaves(p: Panel, op: Op, k: int) {
    op.SelectCab? && p.focus == k && op.cab != k && IsCab(op.cab)
  }

  /** The pace of cab k after a step from p to q, from its pace before, the operation and what
      went over the connection. */
  ghost function NextPace(m: Pace, p: Panel, op: Op, q: Panel, k: int): Pace {
    if Asks(p, op, k) then Pace(op.intent.speed, if q.attached then Some(op.intent.speed) else None, m.exchanged)
    else if !q.attached || op.Attach? then Pace(m.shown, None, None)
    else if Stops(p, op, k) then Pace(0, None, Some(0))
    else if HaltsAll(p, op) then Pace(0, None, if m.exchanged.Some? || Target(p, op) == Some(k) then Some(0) else None)
    else if Reversal(p, op, k).Some? then m.(exchanged := Some(m.shown))
    else if Reports(op, k) then Pace(op.event.speed, None, Some(op.event.speed))
    else if Leaves(p, op, k) then m.(queued := None)
    else if op.Tick? && Transmits(NewWire(p, q), k) then Pace(m.shown, None, m.queued)
    else if op.Tick? && m.queued.Some? && m.queued == m.exchanged then m.(queued := None)
    else m
  }

  /** One throttle command was handed over and decided the fate of the connection; the cabs but k
      kept their pace. */
  ghost predicate SentOne(p: Panel, q: Panel, k: int, speed: int, dir: int) {
    && p.attached && q.cabs.Keys == p.cabs.Keys
    && (forall c | c in p.cabs && c != k :: CabCalm(p, q, c))
    && |p.log| <= |q.log| && q.log[..|p.log|] == p.log
    && NewWire(p, q) == [Sent(Throttle(k, speed, dir), q.attached)] + if q.attached then [] else [Closed]
  }

  lemma TransmitEffect(p: Panel, k: int, speed: int, dir: int, now: int, answers: Answers)
    requires k in p.cabs && InRange(Throttle(k, speed, dir))
    ensures var q := Transmit(p, k, speed, dir, now, answers).panel;
            if p.attached then
              && SentOne(p, q, k, speed, dir)
              && (q.attached <==> Transmit(p, k, speed, dir, now, answers).err == None)
              && q.cabs[k].state == p.cabs[k].state
              && (q.attached ==> PaceOf(q.cabs[k]) == PaceOf(p.cabs[k]).(exchanged := Some(speed)))
            else q == p && Transmit(p, k, speed, dir, now, answers).err != None
  {
    var q := Transmit(p, k, speed, dir, now, answers).panel;
    var sent := Sent(Throttle(k, speed, dir), answers(|p.log|));
    assert q.cabs.Keys == p.cabs.Keys;
    if p.attached {
      assert NewWire(p, q) == [sent] + if answers(|p.log|) then [] else [Closed];
    }
  }

  lemma StoppedEffect(p: Panel, k: int, now: int, answers: Answers)
    requires k in p.cabs && IsCab(k) && Good(p.cabs[k], p.attached, false)
    ensures var q := Stopped(p, k, now, answers).panel;
            if p.attached then
              && SentOne(p, q, k, 0, p.cabs[k].state.direction)
              && q.cabs[k].state == (if q.attached then p.cabs[k].state.(speed := 0) else p.cabs[k].state)
              && (q.attached ==> PaceOf(q.cabs[k]) == Pace(0, None, Some(0)))
            else q == p
  {
    var w := WithoutPending(p, k);
    TransmitEffect(w, k, 0, p.cabs[k].state.direction, now, answers);
    if p.attached {
      var s := Transmit(w, k, 0, p.cabs[k].state.direction, now, answers).panel;
      var q := Stopped(p, k, now, answers).panel;
      assert q.cabs.Keys == p.cabs.Keys && w.cabs.Keys == p.cabs.Keys;
      forall c | c in p.cabs && c != k ensures CabCalm(p, q, c) {
        assert CabCalm(w, s, c);
      }
      assert NewWire(p, q) == NewWire(w, s);
    } else {
      Rewrite(p.cabs, k);
    }
  }

  lemma DirectedEffect(p: Panel, k: int, dir: int, now: int, answers: Answers)
    requires k in p.cabs && IsCab(k) && Good(p.cabs[k], p.attached, false)
    ensures var q := Directed(p, k, dir, now, answers).panel;
            if p.attached && (dir == 0 || dir == 1) && dir != p.cabs[k].state.direction then
              && SentOne(p, q, k, p.cabs[k].state.speed, dir)
              && q.cabs[k].state.speed == p.cabs[k].state.speed
              && (q.attached ==> PaceOf(q.cabs[k]) == PaceOf(p.cabs[k]).(exchanged := Some(p.cabs[k].state.speed)))
            else q == p
  {
    if (dir == 0 || dir == 1) && dir != p.cabs[k].state.direction {
      TransmitEffect(p, k, p.cabs[k].state.speed, dir, now, answers);
      if p.attached {
        var s := Transmit(p, k, p.cabs[k].state.speed, dir, now, answers).panel;
        var q := Directed(p, k, dir, now, answers).panel;
        assert q.cabs.Keys == p.cabs.Keys;
        forall c | c in p.cabs && c != k ensures CabCalm(p, q, c) {
          assert CabCalm(p, s, c);
        }
        assert NewWire(p, q) == NewWire(p, s);
      }
    }
  }

  lemma HaltedEffect(p: Panel, k: int, answers: Answers)
    requires k in p.cabs
    ensures var q := EmergencyStopped(p, k, answers).panel;
            && CalmExtends(p.log, q.log)
            && q.cabs.Keys == p.cabs.Keys && (q.attached ==> p.attached)
            && forall c | c in p.cabs ::
                 if q.attached then
                   PaceOf(q.cabs[c]) == Pace(0, None, if p.cabs[c].lastKnown || c == k then Some(0) else None)
                 else q.cabs[c].state.speed == p.cabs[c].state.speed
  {
    var m := p.(cabs := Each(p.cabs, Cancelled));
    var s := Send(m, EmergencyStop, answers).panel;
    SendCalm(m, EmergencyStop, answers);
    var q := EmergencyStopped(p, k, answers).panel;
    assert q.cabs.Keys == p.cabs.Keys;
  }

  lemma AttachCalm(p: Panel, answers: Answers)
    requires Structured(p)
    ensures Calm(Detached(p).(attached := true), Attached(p, answers).panel)
  {
    var m := Detached(p).(attached := true);
    var r := Send(m, TrackQuery, answers);
    SendCalm(m, TrackQuery, answers);
    SendSameTabs(m, TrackQuery, answers);
    if r.err == None {
      var s := Send(r.panel, Status, answers);
      SendCalm(r.panel, Status, answers);
      SendSameTabs(r.panel, Status, answers);
      CalmTransSameKeys(m, r.panel, s.panel);
      SameTabsIsTransitive(m, r.panel, s.panel);
      if s.err == None {
        OrderedCabs(p);
        RequestAllCalm(s.panel, m.order, answers);
        CalmTransSameKeys(m, s.panel, RequestAll(s.panel, m.order, answers).panel);
      }
    }
  }

  lemma AttachEffect(p: Panel, answers: Answers)
    requires Structured(p) && AllGood(p, false)
    ensures var q := Attached(p, answers).panel;
            && CalmExtends(p.log, q.log)
            && q.cabs.Keys == p.cabs.Keys
            && forall c | c in p.cabs :: PaceOf(q.cabs[c]) == Pace(p.cabs[c].state.speed, None, None)
  {
    var m, q := Detached(p).(attached := true), Attached(p, answers).panel;
    AttachCalm(p, answers);
    AttachKeepsStates(p, answers);
    AttachedGood(p, false, answers);
    forall c | c in p.cabs ensures PaceOf(q.cabs[c]) == Pace(p.cabs[c].state.speed, None, None) {
      assert c in q.cabs.Keys && Good(q.cabs[c], q.attached, false) && CabCalm(m, q, c);
    }
    assert CalmExtends(p.log, m.log);
    CalmExtendsTrans(p.log, m.log, q.log);
  }

  lemma OrderedCabs(p: Panel)
    requires Structured(p)
    ensures forall i | 0 <= i < |p.order| :: IsCab(p.order[i])
  {
    forall i | 0 <= i < |p.order| ensures IsCab(p.order[i]) {
      assert p.order[i] in p.order;
      assert IsEntry(p.order[i], p.cabs[p.order[i]]);
    }
  }

  // ------------------------------------------------------------------------- ticks

  lemma {:induction false} TickKeepsShown(p: Panel, tabs: seq<int>, now: int, answers: Answers)
    ensures var q := TickAll(p, tabs, now, answers).panel;
            q.cabs.Keys == p.cabs.Keys && forall c | c in p.cabs :: q.cabs[c].state == p.cabs[c].state
    decreases |tabs|
  {
    if tabs != [] && tabs[0] in p.cabs {
      var r := Ticked(p, tabs[0], now, answers);
      TickedKeepsShown(p, tabs[0], now, answers);
      if r.err == None {
        TickKeepsShown(r.panel, tabs[1..], now, answers);
        assert forall c | c in p.cabs :: c in r.panel.cabs.Keys;
      }
    }
  }

  lemma TickedKeepsShown(p: Panel, k: int, now: int, answers: Answers)
    requires k in p.cabs
    ensures var q := Ticked(p, k, now, answers).panel;
            q.cabs.Keys == p.cabs.Keys && forall c | c in p.cabs :: q.cabs[c].state == p.cabs[c].state
  {
    assert Ticked(p, k, now, answers).panel.cabs.Keys == p.cabs.Keys;
  }

  /** The pace of a cab after its turn in a tick that succeeds. */
  function TickedPace(p: Panel, k: int, now: int): Pace
    requires k in p.cabs
  {
    var m := PaceOf(p.cabs[k]);
    if IsDue(p, k, now) then Pace(m.shown, None, m.queued)
    else if m.queued.Some? && m.queued == m.exchanged then m.(queued := None)
    else m
  }

  lemma TickedPaceAlone(p: Panel, k: int, now: int, answers: Answers)
    requires k in p.cabs && Good(p.cabs[k], p.attached, false) && IsCab(k) && Ticked(p, k, now, answers).err == None
    ensures var q := Ticked(p, k, now, answers).panel; k in q.cabs && PaceOf(q.cabs[k]) == TickedPace(p, k, now)
  {
    assert InRange(Throttle(k, p.cabs[k].state.speed, p.cabs[k].state.direction));
  }

  lemma TickedPaceDepends(p: Panel, r: Panel, c: int, now: int)
    requires c in p.cabs && c in r.cabs && r.cabs[c] == p.cabs[c] && r.attached == p.attached
    ensures TickedPace(r, c, now) == TickedPace(p, c, now)
  {
  }

  lemma {:induction false} TickPaces(p: Panel, tabs: seq<int>, now: int, answers: Answers)
    requires CanTick(p, tabs) && TickAll(p, tabs, now, answers).err == None
    ensures var q := TickAll(p, tabs, now, answers).panel;
            && q.cabs.Keys == p.cabs.Keys
            && forall i | 0 <= i < |tabs| :: PaceOf(q.cabs[tabs[i]]) == TickedPace(p, tabs[i], now)
    decreases |tabs|
  {
    if tabs != [] {
      var k, rest := tabs[0], tabs[1..];
      assert Good(p.cabs[k], p.attached, false) && IsEntry(k, p.cabs[k]);
      var r := Ticked(p, k, now, answers).panel;
      TickedPaceAlone(p, k, now, answers);
      TickedAlone(p, k, now, answers);
      RestOfTick(p, tabs, now, answers);
      TickPaces(r, rest, now, answers);
      TickSettles(r, rest, now, answers);
      var q := TickAll(p, tabs, now, answers).panel;
      assert k in r.cabs.Keys && q.cabs[k] == r.cabs[k];
      forall i | 0 < i < |tabs| ensures PaceOf(q.cabs[tabs[i]]) == TickedPace(p, tabs[i], now) {
        var c := rest[i - 1];
        assert tabs[i] == c;
        TickedPaceDepends(p, r, c, now);
      }
    }
  }

  /** A tick transmits to a due cab unless it fails before. */
  lemma {:induction false} DueIsTransmitted(p: Panel, tabs: seq<int>, now: int, n: nat, k: int, answers: Answers)
    requires k in tabs && (forall i | 0 <= i < |tabs| :: tabs[i] in p.cabs) && IsDue(p, k, now)
    ensures var log := TickLog(p, tabs, now, n, answers); Closed in log || Transmits(log, k)
    decreases |tabs|
  {
    var log := TickLog(p, tabs, now, n, answers);
    if !IsDue(p, tabs[0], now) {
      DueIsTransmitted(p, tabs[1..], now, n, k, answers);
    } else if !answers(n) {
      assert log[1] == Closed;
    } else {
      var tail := TickLog(p, tabs[1..], now, n + 1, answers);
      assert log == [log[0]] + tail;
      if tabs[0] == k {
        assert IsTransmit(log[0], k);
      } else {
        DueIsTransmitted(p, tabs[1..], now, n + 1, k, answers);
        TransmitsConcat([log[0]], tail, k);
      }
    }
  }

  lemma {:induction false} CleanTickLog(p: Panel, tabs: seq<int>, now: int, answers: Answers)
    requires CanTick(p, tabs) && TickAll(p, tabs, now, answers).err == None
    ensures Closed !in TickLog(p, tabs, now, |p.log|, answers)
    decreases |tabs|
  {
    if tabs != [] {
      var k, rest := tabs[0], tabs[1..];
      assert Good(p.cabs[k], p.attached, false) && IsEntry(k, p.cabs[k]);
      var r := Ticked(p, k, now, answers).panel;
      TickedAlone(p, k, now, answers);
      RestOfTick(p, tabs, now, answers);
      TickLogDepends(p, r, rest, now, |r.log|, answers);
      CleanTickLog(r, rest, now, answers);
    }
  }

  /** What a tick does to the pace of a cab, read off the connection. */
  lemma TickEffect(p: Panel, now: int, k: int, answers: Answers)
    requires Structured(p) && AllGood(p, false) && k in p.cabs
    ensures var q := TickAll(p, p.order, now, answers).panel;
            && q.cabs.Keys == p.cabs.Keys && (q.attached ==> p.attached)
            && q.cabs[k].state == p.cabs[k].state
            && (q.attached ==> PaceOf(q.cabs[k]) == NextPace(PaceOf(p.cabs[k]), p, Tick(now), q, k))
  {
    var r := TickAll(p, p.order, now, answers);
    var q := r.panel;
    TickKeepsShown(p, p.order, now, answers);
    assert forall x | 0 <= x < |p.order| :: p.order[x] in p.order;
    TickSends(p, p.order, now, answers);
    var log := TickLog(p, p.order, now, |p.log|, answers);
    assert NewWire(p, q) == log;
    FailedTickDetaches(p, p.order, now, answers);
    if q.attached {
      assert k in p.order;
      var x :| 0 <= x < |p.order| && p.order[x] == k;
      TickPaces(p, p.order, now, answers);
      assert PaceOf(q.cabs[k]) == TickedPace(p, k, now);
      TransmittedIsDue(p, now, k, answers);
    }
    OfflineTick(p, p.order, now, answers);
  }

  lemma TransmittedIsDue(p: Panel, now: int, k: int, answers: Answers)
    requires CanTick(p, p.order) && k in p.order && TickAll(p, p.order, now, answers).err == None
    ensures Transmits(TickLog(p, p.order, now, |p.log|, answers), k) <==> IsDue(p, k, now)
  {
    var log := TickLog(p, p.order, now, |p.log|, answers);
    if IsDue(p, k, now) {
      CleanTickLog(p, p.order, now, answers);
      DueIsTransmitted(p, p.order, now, |p.log|, k, answers);
    }
    if j :| 0 <= j < |log| && IsTransmit(log[j], k) {
      TickLogIsSound(p, p.order, now, |p.log|, j, answers);
    }
  }

  lemma {:induction false} OfflineTick(p: Panel, tabs: seq<int>, now: int, answers: Answers)
    ensures TickAll(p, tabs, now, answers).panel.attached ==> p.attached
    decreases |tabs|
  {
    if tabs != [] && tabs[0] in p.cabs {
      var r := Ticked(p, tabs[0], now, answers);
      if r.err == None {
        OfflineTick(r.panel, tabs[1..], now, answers);
      }
    }
  }

  // ---------------------------------------------------------------------- every step

  lemma SelectedPace(p: Panel, cab: int, answers: Answers)
    requires Structured(p)
    ensures var q := Selected(p, cab, false, answers).panel;
            && CalmExtends(p.log, q.log) && (q.attached ==> p.attached)
            && forall c | c in q.cabs ::
                 if c !in p.cabs then PaceOf(q.cabs[c]) == UNMOVED
                 else
                   && q.cabs[c].state.speed == p.cabs[c].state.speed
                   && (q.attached ==>
                         PaceOf(q.cabs[c]) == if Leaves(p, SelectCab(cab), c) then PaceOf(p.cabs[c]).(queued := None)
                                              else PaceOf(p.cabs[c]))
  {
    CalmLog(p, p);
    if IsCab(cab) && cab != p.focus {
      var w := WithoutPending(p, p.focus);
      SelectedCalm(w, cab, answers);
      var q := Selected(w, cab, true, answers).panel;
      assert Selected(p, cab, false, answers).panel == q;
      assert w.cabs.Keys == p.cabs.Keys;
      forall c | c in q.cabs ensures CabCalm(w, q, c) && (c in w.cabs <==> c in p.cabs) {
        assert c in w.cabs.Keys <==> c in p.cabs.Keys;
      }
    }
  }

  lemma ReportedPace(p: Panel, e: Report, k: int)
    requires k in p.cabs && e.LocoState?
    ensures var q := Received(p, e);
            && q.log == p.log && q.cabs.Keys == p.cabs.Keys && q.attached == p.attached
            && PaceOf(q.cabs[k]) == if p.attached && e.cab == k then Pace(e.speed, None, Some(e.speed)) else PaceOf(p.cabs[k])
  {
    assert Received(p, e).cabs.Keys == p.cabs.Keys;
  }

  /** The shown speed after a step, and the whole pace while the connection lasts. */
  ghost predicate PaceFollows(p: Panel, op: Op, q: Panel, k: int)
    requires k in q.cabs
  {
    if k !in p.cabs then PaceOf(q.cabs[k]) == UNMOVED
    else
      && q.cabs[k].state.speed == NextPace(PaceOf(p.cabs[k]), p, op, q, k).shown
      && (q.attached ==> PaceOf(q.cabs[k]) == NextPace(PaceOf(p.cabs[k]), p, op, q, k))
  }

  lemma CalmFollows(p: Panel, op: Op, q: Panel, k: int)
    requires p.focus in p.cabs && IsCalmOp(op) && Calm(p, q) && k in q.cabs
    ensures PaceFollows(p, op, q, k)
  {
    assert CabCalm(p, q, k);
  }

  lemma CalmPace(p: Panel, op: Op, k: int, answers: Answers)
    requires p.focus in p.cabs && IsCalmOp(op) && k in Apply(p, op, answers).panel.cabs
    ensures PaceFollows(p, op, Apply(p, op, answers).panel, k)
  {
    CalmStep(p, op, answers);
    CalmFollows(p, op, Apply(p, op, answers).panel, k);
  }

  lemma AskPace(p: Panel, op: Op, k: int, answers: Answers)
    requires Structured(p) && AllGood(p, false) && IsCommand(op) && op.intent.MoveSpeed?
    requires k in p.cabs && k in Apply(p, op, answers).panel.cabs
    ensures PaceFollows(p, op, Apply(p, op, answers).panel, k)
  {
    assert Good(p.cabs[k], p.attached, false) && IsEntry(k, p.cabs[k]);
    if Target(p, op).Some? {
      var t := Target(p, op).value;
      assert Good(p.cabs[t], p.attached, false) && IsEntry(t, p.cabs[t]);
    }
  }

  lemma DirectedPace(p: Panel, t: int, dir: int, now: int, k: int, answers: Answers)
    requires k in p.cabs && t in p.cabs && IsCab(t) && Good(p.cabs[t], p.attached, false)
    ensures var q := Directed(p, t, dir, now, answers).panel;
            && k in q.cabs && (q.attached ==> p.attached)
            && q.cabs[k].state.speed == p.cabs[k].state.speed
            && (q.attached ==>
                  PaceOf(q.cabs[k]) ==
                    if k == t && (dir == 0 || dir == 1) && dir != p.cabs[t].state.direction
                    then PaceOf(p.cabs[k]).(exchanged := Some(p.cabs[k].state.speed)) else PaceOf(p.cabs[k]))
  {
    var q := Directed(p, t, dir, now, answers).panel;
    DirectedEffect(p, t, dir, now, answers);
    if q != p {
      assert k in q.cabs.Keys;
      assert k != t ==> CabCalm(p, q, k);
    }
  }

  /** The direction that a reversing command asks for. */
  function NewDirection(p: Panel, t: int, intent: Intent): int
    requires t in p.cabs && (intent.SetDirection? || intent.FlipDirection?)
  {
    if intent.SetDirection? then intent.dir else 1 - p.cabs[t].state.direction
  }

  lemma ReversePace(p: Panel, op: Op, t: int, k: int, answers: Answers)
    requires Structured(p) && AllGood(p, false) && IsCommand(op) && (op.intent.SetDirection? || op.intent.FlipDirection?)
    requires Target(p, op) == Some(t) && t in p.cabs && k in p.cabs
    ensures var q := Directed(p, t, NewDirection(p, t, op.intent), op.intent.now, answers).panel;
            k in q.cabs && PaceFollows(p, op, q, k)
  {
    assert Good(p.cabs[k], p.attached, false);
    assert Good(p.cabs[t], p.attached, false) && IsEntry(t, p.cabs[t]);
    DirectedPace(p, t, NewDirection(p, t, op.intent), op.intent.now, k, answers);
  }

  lemma StopPace(p: Panel, op: Op, t: int, k: int, answers: Answers)
    requires Structured(p) && AllGood(p, false) && IsCommand(op) && op.intent.Stop?
    requires Target(p, op) == Some(t) && t in p.cabs && k in p.cabs
    ensures var q := Stopped(p, t, op.intent.now, answers).panel; k in q.cabs && PaceFollows(p, op, q, k)
  {
    assert Good(p.cabs[k], p.attached, false);
    assert Good(p.cabs[t], p.attached, false) && IsEntry(t, p.cabs[t]);
    var q := Stopped(p, t, op.intent.now, answers).panel;
    StoppedEffect(p, t, op.intent.now, answers);
    assert k in q.cabs.Keys;
    assert k != t && p.attached ==> CabCalm(p, q, k);
  }

  lemma HaltPace(p: Panel, op: Op, t: int, k: int, answers: Answers)
    requires Structured(p) && AllGood(p, false) && IsCommand(op) && op.intent.Emergency?
    requires Target(p, op) == Some(t) && t in p.cabs && k in p.cabs
    ensures var q := EmergencyStopped(p, t, answers).panel; k in q.cabs && PaceFollows(p, op, q, k)
  {
    HaltedEffect(p, t, answers);
    assert k in EmergencyStopped(p, t, answers).panel.cabs.Keys;
  }

  lemma CommandPace(p: Panel, op: Op, k: int, answers: Answers)
    requires Structured(p) && AllGood(p, false) && IsCommand(op) && !IsCalmOp(op)
    requires k in p.cabs && k in Apply(p, op, answers).panel.cabs
    ensures PaceFollows(p, op, Apply(p, op, answers).panel, k)
  {
    var q := Apply(p, op, answers).panel;
    if Target(p, op) == None {
      assert Good(p.cabs[k], p.attached, false) && q == p;
    } else if op.intent.SetDirection? || op.intent.FlipDirection? {
      var t := Target(p, op).value;
      ReversePace(p, op, t, k, answers);
      assert q == Directed(p, t, NewDirection(p, t, op.intent), op.intent.now, answers).panel;
    } else if op.intent.MoveSpeed? {
      AskPace(p, op, k, answers);
    } else if op.intent.Stop? {
      StopPace(p, op, Target(p, op).value, k, answers);
      assert q == Stopped(p, Target(p, op).value, op.intent.now, answers).panel;
    } else {
      HaltPace(p, op, Target(p, op).value, k, answers);
      assert q == EmergencyStopped(p, Target(p, op).value, answers).panel;
    }
  }

  lemma StationPace(p: Panel, op: Op, k: int, answers: Answers)
    requires Structured(p) && AllGood(p, false) && (op.Attach? || op.Detach? || op.Receive?)
    requires k in Apply(p, op, answers).panel.cabs && !IsCalmOp(op)
    ensures PaceFollows(p, op, Apply(p, op, answers).panel, k)
  {
    match op
    case Attach =>
      AttachEffect(p, answers);
      assert k in p.cabs.Keys;
    case Detach =>
      assert k in p.cabs.Keys;
    case Receive(e) =>
      assert Received(p, e).cabs.Keys == p.cabs.Keys;
      assert k in p.cabs.Keys;
      ReportedPace(p, e, k);
  }

  lemma TickPace(p: Panel, op: Op, k: int, answers: Answers)
    requires Structured(p) && AllGood(p, false) && op.Tick? && k in Apply(p, op, answers).panel.cabs
    ensures PaceFollows(p, op, Apply(p, op, answers).panel, k)
  {
    TickKeepsShown(p, p.order, op.now, answers);
    assert k in p.cabs.Keys;
    TickEffect(p, op.now, k, answers);
  }

  lemma AnyPaceFollows(p: Panel, op: Op, k: int, answers: Answers)
    requires Structured(p) && AllGood(p, false) && k in Apply(p, op, answers).panel.cabs
    ensures PaceFollows(p, op, Apply(p, op, answers).panel, k)
  {
    if IsCalmOp(op) {
      CalmPace(p, op, k, answers);
    } else if IsCommand(op) {
      OpenStays(p, op, k, answers);
      CommandPace(p, op, k, answers);
    } else if op.SelectCab? {
      SelectedPace(p, op.cab, answers);
    } else if op.Tick? {
      TickPace(p, op, k, answers);
    } else {
      StationPace(p, op, k, answers);
    }
  }

  lemma OpenStays(p: Panel, op: Op, k: int, answers: Answers)
    requires Structured(p) && IsCommand(op) && k in Apply(p, op, answers).panel.cabs
    ensures k in p.cabs
  {
    if Target(p, op).Some? {
      ObeyStructured(p, Target(p, op).value, op.intent, answers);
      assert k in p.cabs.Keys;
    }
  }

  /** What every operation does to the pace of every cab: a new tab is unmoved, and the pace of an
      open one follows from its pace before and what went over the connection. */
  lemma PaceStep(p: Panel, op: Op, k: int, answers: Answers)
    requires Structured(p) && AllGood(p, false) && k in Apply(p, op, answers).panel.cabs
    ensures var q := Apply(p, op, answers).panel;
            PaceOf(q.cabs[k]) == if k in p.cabs then NextPace(PaceOf(p.cabs[k]), p, op, q, k) else UNMOVED
  {
    var q := Apply(p, op, answers).panel;
    AnyPaceFollows(p, op, k, answers);
    AgreementKept(p, op, false, answers);
    assert Good(q.cabs[k], q.attached, false);
    if k in p.cabs {
      assert Good(p.cabs[k], p.attached, false);
      StaysOffline(p, op, k, answers);
    }
  }

  lemma StaysOffline(p: Panel, op: Op, k: int, answers: Answers)
    requires Structured(p)
    ensures Asks(p, op, k) ==> Apply(p, op, answers).panel.attached == p.attached
  {
  }

  // ------------------------------------------------------- every throttle command

  /** Why a throttle command is sent: a tick sends a due cab its queued speed, a stop sends 0, and
      a reversal sends the speed on show with the other direction. */
  predicate IsExplained(p: Panel, op: Op, cmd: Command) {
    cmd.Throttle? && cmd.cab in p.cabs
    && var r := p.cabs[cmd.cab];
       if op.Tick? then IsDue(p, cmd.cab, op.now) && r.pending == Some(cmd.speed) && cmd.dir == r.state.direction
       else if Stops(p, op, cmd.cab) then cmd.speed == 0 && cmd.dir == r.state.direction
       else Reversal(p, op, cmd.cab) == Some(cmd.dir) && cmd.speed == r.state.speed
  }

  predicate IsSentProperly(p: Panel, op: Op, w: Wire) {
    w.Sent? ==> InRange(w.cmd) && (w.cmd.Throttle? ==> IsExplained(p, op, w.cmd))
  }

  lemma CalmIsProper(p: Panel, op: Op, q: Panel)
    requires CalmExtends(p.log, q.log)
    ensures forall n | 0 <= n < |NewWire(p, q)| :: IsSentProperly(p, op, NewWire(p, q)[n])
  {
    assert AreCalm(NewWire(p, q));
  }

  lemma TickIsProper(p: Panel, now: int, n: nat, answers: Answers)
    requires Structured(p) && AllGood(p, false)
    requires n < |NewWire(p, TickAll(p, p.order, now, answers).panel)|
    ensures IsSentProperly(p, Tick(now), NewWire(p, TickAll(p, p.order, now, answers).panel)[n])
  {
    assert forall x | 0 <= x < |p.order| :: p.order[x] in p.order;
    TickSends(p, p.order, now, answers);
    var log := TickLog(p, p.order, now, |p.log|, answers);
    assert NewWire(p, TickAll(p, p.order, now, answers).panel) == log;
    TickLogIsSound(p, p.order, now, |p.log|, n, answers);
    if log[n].Sent? {
      var k := log[n].cmd.cab;
      assert Good(p.cabs[k], p.attached, false) && IsEntry(k, p.cabs[k]);
    }
  }

  /** The one command that a stop or a reversal sends is its own. */
  lemma OneIsProper(p: Panel, op: Op, q: Panel, t: int, speed: int, dir: int, n: nat)
    requires SentOne(p, q, t, speed, dir) && t in p.cabs && n < |NewWire(p, q)|
    requires InRange(Throttle(t, speed, dir)) && IsExplained(p, op, Throttle(t, speed, dir))
    ensures IsSentProperly(p, op, NewWire(p, q)[n])
  {
  }

  lemma StopIsProper(p: Panel, op: Op, t: int, n: nat, answers: Answers)
    requires Structured(p) && AllGood(p, false) && IsCommand(op) && op.intent.Stop? && Target(p, op) == Some(t) && t in p.cabs
    requires n < |NewWire(p, Stopped(p, t, op.intent.now, answers).panel)|
    ensures IsSentProperly(p, op, NewWire(p, Stopped(p, t, op.intent.now, answers).panel)[n])
  {
    assert Good(p.cabs[t], p.attached, false) && IsEntry(t, p.cabs[t]);
    var q := Stopped(p, t, op.intent.now, answers).panel;
    StoppedEffect(p, t, op.intent.now, answers);
    if p.attached {
      OneIsProper(p, op, q, t, 0, p.cabs[t].state.direction, n);
    }
  }

  lemma ReversalIsProper(p: Panel, op: Op, t: int, n: nat, answers: Answers)
    requires Structured(p) && AllGood(p, false) && IsCommand(op) && (op.intent.SetDirection? || op.intent.FlipDirection?)
    requires Target(p, op) == Some(t) && t in p.cabs
    requires n < |NewWire(p, Directed(p, t, NewDirection(p, t, op.intent), op.intent.now, answers).panel)|
    ensures IsSentProperly(p, op, NewWire(p, Directed(p, t, NewDirection(p, t, op.intent), op.intent.now, answers).panel)[n])
  {
    assert Good(p.cabs[t], p.attached, false) && IsEntry(t, p.cabs[t]);
    var dir := NewDirection(p, t, op.intent);
    var q := Directed(p, t, dir, op.intent.now, answers).panel;
    DirectedEffect(p, t, dir, op.intent.now, answers);
    if q != p {
      assert Reversal(p, op, t) == Some(dir);
      OneIsProper(p, op, q, t, p.cabs[t].state.speed, dir, n);
    }
  }

  lemma MotionIsProper(p: Panel, op: Op, n: nat, answers: Answers)
    requires Structured(p) && AllGood(p, false) && IsCommand(op) && !IsCalmOp(op)
    requires n < |NewWire(p, Apply(p, op, answers).panel)|
    ensures IsSentProperly(p, op, NewWire(p, Apply(p, op, answers).panel)[n])
  {
    var q := Apply(p, op, answers).panel;
    if Target(p, op).Some? && !op.intent.MoveSpeed? {
      var t := Target(p, op).value;
      if op.intent.Stop? {
        assert q == Stopped(p, t, op.intent.now, answers).panel;
        StopIsProper(p, op, t, n, answers);
      } else if op.intent.Emergency? {
        assert q == EmergencyStopped(p, t, answers).panel;
        HaltedEffect(p, t, answers);
        CalmIsProper(p, op, q);
      } else {
        assert q == Directed(p, t, NewDirection(p, t, op.intent), op.intent.now, answers).panel;
        ReversalIsProper(p, op, t, n, answers);
      }
    }
  }

  /** Every command of every operation is within its encoder's range, and every throttle command
      has one of the three reasons. */
  lemma ThrottleStep(p: Panel, op: Op, n: nat, answers: Answers)
    requires Structured(p) && AllGood(p, false)
    requires n < |NewWire(p, Apply(p, op, answers).panel)|
    ensures IsSentProperly(p, op, NewWire(p, Apply(p, op, answers).panel)[n])
  {
    var q := Apply(p, op, answers).panel;
    if IsCalmOp(op) {
      CalmStep(p, op, answers);
      CalmIsProper(p, op, q);
    } else if IsCommand(op) {
      MotionIsProper(p, op, n, answers);
    } else if op.Tick? {
      TickIsProper(p, op.now, n, answers);
    } else if op.SelectCab? {
      SelectedPace(p, op.cab, answers);
      CalmIsProper(p, op, q);
    } else if op.Attach? {
      AttachEffect(p, answers);
      CalmIsProper(p, op, q);
    }
  }

  lemma {:induction false} TickFailuresClose(p: Panel, tabs: seq<int>, now: int, n: nat, answers: Answers)
    requires forall i | 0 <= i < |tabs| :: tabs[i] in p.cabs
    ensures FailuresClose(TickLog(p, tabs, now, n, answers))
    decreases |tabs|
  {
    if tabs != [] {
      TickFailuresClose(p, tabs[1..], now, n, answers);
      TickFailuresClose(p, tabs[1..], now, n + 1, answers);
      if IsDue(p, tabs[0], now) && answers(n) {
        FailuresCloseConcat([TickLog(p, tabs, now, n, answers)[0]], TickLog(p, tabs[1..], now, n + 1, answers));
      }
    }
  }

  lemma OneFailureCloses(p: Panel, q: Panel, t: int, speed: int, dir: int)
    requires SentOne(p, q, t, speed, dir)
    ensures FailuresClose(NewWire(p, q))
  {
  }

  lemma StopFailureCloses(p: Panel, t: int, now: int, answers: Answers)
    requires Structured(p) && AllGood(p, false) && t in p.cabs
    ensures FailuresClose(NewWire(p, Stopped(p, t, now, answers).panel))
  {
    assert Good(p.cabs[t], p.attached, false) && IsEntry(t, p.cabs[t]);
    StoppedEffect(p, t, now, answers);
    if p.attached {
      OneFailureCloses(p, Stopped(p, t, now, answers).panel, t, 0, p.cabs[t].state.direction);
    }
  }

  lemma ReversalFailureCloses(p: Panel, t: int, dir: int, now: int, answers: Answers)
    requires Structured(p) && AllGood(p, false) && t in p.cabs
    ensures FailuresClose(NewWire(p, Directed(p, t, dir, now, answers).panel))
  {
    assert Good(p.cabs[t], p.attached, false) && IsEntry(t, p.cabs[t]);
    DirectedEffect(p, t, dir, now, answers);
    if p.attached && (dir == 0 || dir == 1) && dir != p.cabs[t].state.direction {
      OneFailureCloses(p, Directed(p, t, dir, now, answers).panel, t, p.cabs[t].state.speed, dir);
    }
  }

  lemma MotionFailuresClose(p: Panel, op: Op, answers: Answers)
    requires Structured(p) && AllGood(p, false) && IsCommand(op) && !IsCalmOp(op)
    ensures FailuresClose(NewWire(p, Apply(p, op, answers).panel))
  {
    var q := Apply(p, op, answers).panel;
    if Target(p, op).Some? && !op.intent.MoveSpeed? {
      var t := Target(p, op).value;
      if op.intent.Stop? {
        StopFailureCloses(p, t, op.intent.now, answers);
        assert q == Stopped(p, t, op.intent.now, answers).panel;
      } else if op.intent.Emergency? {
        HaltedEffect(p, t, answers);
        assert q == EmergencyStopped(p, t, answers).panel;
      } else {
        var dir := NewDirection(p, t, op.intent);
        ReversalFailureCloses(p, t, dir, op.intent.now, answers);
        assert q == Directed(p, t, dir, op.intent.now, answers).panel;
      }
    }
  }

  /** After every failed command of every operation the connection is closed at once. */
  lemma FailureStep(p: Panel, op: Op, answers: Answers)
    requires Structured(p) && AllGood(p, false)
    ensures FailuresClose(NewWire(p, Apply(p, op, answers).panel))
  {
    var q := Apply(p, op, answers).panel;
    if IsCalmOp(op) {
      CalmStep(p, op, answers);
    } else if IsCommand(op) {
      MotionFailuresClose(p, op, answers);
    } else if op.Tick? {
      assert forall x | 0 <= x < |p.order| :: p.order[x] in p.order;
      TickSends(p, p.order, op.now, answers);
      TickFailuresClose(p, p.order, op.now, |p.log|, answers);
      assert NewWire(p, q) == TickLog(p, p.order, op.now, |p.log|, answers);
    } else if op.SelectCab? {
      SelectedPace(p, op.cab, answers);
    } else if op.Attach? {
      AttachEffect(p, answers);
    }
  }
}
