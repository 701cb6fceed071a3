/** Which functions of a cab are shown as on, and which direction: what was last reported or last
    went over the connection, over whole runs. */
module Looks {
  import opened Results
  import opened Commands
  import opened Settings
  import opened Messages
  import opened Panel
  import opened Structure
  import opened Layouts
  import opened Runs
  import opened Agreement
  import opened Movement
  import opened Speeds
  import opened Tabs
  import opened Transcripts
  import opened History

  // --------------------------------------------------------------------- masks

  /** Function n weighs 2^n. */
  function Weight(on: Flags, n: nat): nat
    requires n <= FUNCTIONS
  {
    if n == 0 then 0 else Weight(on, n - 1) + if on[n - 1] then Power2(n - 1) else 0
  }

  function Power2(n: nat): (w: nat)
    ensures w > 0
  {
    if n == 0 then 1 else Power2(n - 1) + Power2(n - 1)
  }

  /** Bit n of a mask, by halving it n times. */
  predicate IsOn(mask: nat, n: nat)
    decreases n
  {
    if n == 0 then mask % 2 == 1 else IsOn(mask / 2, n - 1)
  }

  lemma {:induction false} SamePowers(n: nat)
    ensures Pow2(n) == Power2(n)
  {
    if n > 0 {
      SamePowers(n - 1);
    }
  }

  lemma HalfOfQuotient(mask: nat, w: nat)
    requires w > 0
    ensures mask / 2 / w == mask / (2 * w)
  {
    var q := mask / (2 * w);
    var r := mask % (2 * w);
    assert mask == 2 * w * q + r;
    assert mask / 2 == w * q + r / 2 by {
      assert mask == 2 * (w * q) + r;
    }
    assert 0 <= r / 2 < w;
    Quotient(mask / 2, w, q, r / 2);
  }

  lemma Grows(w: nat, a: nat, b: nat)
    requires a < b
    ensures w * a + w <= w * b
  {
    var d := b - a - 1;
    assert w * b == w * (a + 1 + d) == w * a + w + w * d;
  }

  /** Division is unique. */
  lemma Quotient(m: nat, w: nat, q: nat, r: nat)
    requires w > 0 && m == w * q + r && r < w
    ensures m / w == q && m % w == r
  {
    var p := m / w;
    if p < q {
      Grows(w, p, q);
    } else if q < p {
      Grows(w, q, p);
    }
  }

  lemma {:induction false} BitIsOn(mask: nat, n: nat)
    ensures MaskBit(mask, n) <==> IsOn(mask, n)
    decreases n
  {
    Pow2IsPositive(n);
    if n > 0 {
      BitIsOn(mask / 2, n - 1);
      Pow2IsPositive(n - 1);
      HalfOfQuotient(mask, Pow2(n - 1));
    }
  }

  /** The next bit of a remainder. */
  lemma NextBit(mask: nat, w: nat)
    requires w > 0
    ensures mask % (2 * w) == mask % w + if mask / w % 2 == 1 then w else 0
  {
    var q, r := mask / w, mask % w;
    assert mask == w * q + r;
    var h, b := q / 2, q % 2;
    assert q == 2 * h + b;
    assert w * q == 2 * w * h + w * b;
    var rest := w * b + r;
    assert b == 0 || b == 1;
    assert rest < 2 * w;
    Quotient(mask, 2 * w, h, rest);
  }

  lemma {:induction false} WeightOfMask(mask: nat, n: nat)
    requires n <= FUNCTIONS
    ensures Weight(MaskFlags(mask), n) == mask % Power2(n)
  {
    if n > 0 {
      WeightOfMask(mask, n - 1);
      SamePowers(n - 1);
      Pow2IsPositive(n - 1);
      NextBit(mask, Power2(n - 1));
    }
  }

  lemma {:induction false} WeightIsSmall(on: Flags, n: nat)
    requires n <= FUNCTIONS
    ensures Weight(on, n) < Power2(n)
  {
    if n > 0 {
      WeightIsSmall(on, n - 1);
    }
  }

  /** The weight tells the functions. */
  lemma {:induction false} WeightTells(a: Flags, b: Flags, n: nat)
    requires n <= FUNCTIONS && Weight(a, n) == Weight(b, n)
    ensures forall i | 0 <= i < n :: a[i] == b[i]
  {
    if n > 0 {
      WeightIsSmall(a, n - 1);
      WeightIsSmall(b, n - 1);
      WeightTells(a, b, n - 1);
    }
  }

  lemma AllFunctionsWeigh()
    ensures Power2(29) == 0x2000_0000
  {
    assert Power2(8) == 256;
    assert Power2(16) == 65536;
    assert Power2(24) == 0x100_0000;
  }

  /** A report of an open cab, while connected, shows exactly the functions whose weights add up to
      its mask, up to the 29 there are, and its speed and direction; what makes up the tab and what
      is held stay, and no other cab changes. */
  lemma ReportShows(p: Panel, e: Report, answers: Answers)
    requires p.focus in p.cabs && p.attached && e.LocoState? && e.cab in p.cabs
    ensures var q, k := Apply(p, Receive(e), answers).panel, e.cab;
            && k in q.cabs
            && Weight(q.cabs[k].state.functions, 29) == e.mask % 0x2000_0000
            && q.cabs[k].state.direction == e.direction && q.cabs[k].state.speed == e.speed
            && SameIdentity(p.cabs[k].state, q.cabs[k].state) && q.cabs[k].held == p.cabs[k].held
            && q == p.(cabs := p.cabs[k := q.cabs[k]])
    ensures forall n | 0 <= n < FUNCTIONS :: Apply(p, Receive(e), answers).panel.cabs[e.cab].state.functions[n] == IsOn(e.mask, n)
  {
    WeightOfMask(e.mask, 29);
    AllFunctionsWeigh();
    forall n | 0 <= n < FUNCTIONS ensures MaskFlags(e.mask)[n] == IsOn(e.mask, n) {
      BitIsOn(e.mask, n);
    }
  }

  // ------------------------------------------------------------ read off the wire

  /** The state that the last successful command for function n of cab k asked for. */
  function SentState(wires: seq<Wire>, k: int, n: int): Option<bool> {
    if wires == [] then None
    else
      var most, w := wires[..|wires| - 1], wires[|wires| - 1];
      if w.Sent? && w.ok && w.cmd.Function? && w.cmd.cab == k && w.cmd.function_ == n then Some(w.cmd.state == 1)
      else SentState(most, k, n)
  }

  /** The direction of the last successful throttle command to cab k. */
  function SentDirection(wires: seq<Wire>, k: int): Option<int> {
    if wires == [] then None
    else
      var most, w := wires[..|wires| - 1], wires[|wires| - 1];
      if w.Sent? && w.ok && w.cmd.Throttle? && w.cmd.cab == k then Some(w.cmd.dir) else SentDirection(most, k)
  }

  lemma SnocWire(wires: seq<Wire>, w: Wire, k: int, n: int)
    ensures SentState(wires + [w], k, n) ==
              if w.Sent? && w.ok && w.cmd.Function? && w.cmd.cab == k && w.cmd.function_ == n then Some(w.cmd.state == 1)
              else SentState(wires, k, n)
    ensures SentDirection(wires + [w], k) ==
              if w.Sent? && w.ok && w.cmd.Throttle? && w.cmd.cab == k then Some(w.cmd.dir) else SentDirection(wires, k)
  {
    assert (wires + [w])[..|wires|] == wires;
  }

  lemma {:induction false} SentStateConcat(a: seq<Wire>, b: seq<Wire>, k: int, n: int)
    ensures SentState(a + b, k, n) == if SentState(b, k, n).Some? then SentState(b, k, n) else SentState(a, k, n)
    decreases |b|
  {
    if b == [] {
      assert a + b == a;
    } else {
      var most, w := b[..|b| - 1], b[|b| - 1];
      assert a + b == (a + most) + [w] && b == most + [w];
      SnocWire(a + most, w, k, n);
      SentStateConcat(a, most, k, n);
    }
  }

  lemma {:induction false} DirectionWasSent(wires: seq<Wire>, k: int)
    requires SentDirection(wires, k).Some?
    ensures exists w :: w in wires && w.Sent? && w.ok && w.cmd.Throttle? && w.cmd.cab == k && SentDirection(wires, k) == Some(w.cmd.dir)
  {
    var most, w := wires[..|wires| - 1], wires[|wires| - 1];
    if !(w.Sent? && w.ok && w.cmd.Throttle? && w.cmd.cab == k) {
      DirectionWasSent(most, k);
    } else {
      assert w in wires;
    }
  }

  // ------------------------------------------------------------------- the rules

  /** The operation shows what it sends for function n of cab k: it switches all functions off, or
      presses this one in toggle mode. */
  predicate Shows(p: Panel, op: Op, k: int, n: int)
    requires k in p.cabs && IsFunction(n)
  {
    && IsCommand(op) && Target(p, op) == Some(k)
    && (op.intent.AllFunctionsOff?
        || (op.intent.Press? && op.intent.n == n && op.intent.pressed && p.cabs[k].state.toggle[n]))
  }

  /** Whether function n of cab k is shown as on after an operation that put these wires on the
      connection: as reported, as sent if what is sent is shown, or else as before. */
  function NextOn(on: bool, p: Panel, op: Op, wires: seq<Wire>, k: int, n: int): bool
    requires k in p.cabs && IsFunction(n)
  {
    if Reports(op, k) && p.attached then IsOn(op.event.mask, n)
    else if Shows(p, op, k, n) && SentState(wires, k, n).Some? then SentState(wires, k, n).value
    else on
  }

  function NextDirection(dir: int, p: Panel, op: Op, wires: seq<Wire>, k: int): int {
    if Reports(op, k) && p.attached then op.event.direction
    else if SentDirection(wires, k).Some? then SentDirection(wires, k).value
    else dir
  }

  ghost predicate SameLook(p: Panel, q: Panel, k: int) {
    k in p.cabs && k in q.cabs ==>
      && q.cabs[k].state.direction == p.cabs[k].state.direction
      && q.cabs[k].state.functions == p.cabs[k].state.functions
  }

  predicate TurnsOrSwitches(op: Op) {
    IsCommand(op) && (op.intent.SetDirection? || op.intent.FlipDirection? || op.intent.Press? || op.intent.AllFunctionsOff?)
  }

  lemma TransmitKeepsStates(p: Panel, k: int, speed: int, dir: int, now: int, answers: Answers)
    requires k in p.cabs
    ensures KeepsStates(p, Transmit(p, k, speed, dir, now, answers).panel)
  {
  }

  lemma StoppedLook(p: Panel, t: int, now: int, k: int, answers: Answers)
    requires t in p.cabs
    ensures SameLook(p, Stopped(p, t, now, answers).panel, k)
  {
    var w := WithoutPending(p, t);
    TransmitKeepsStates(w, t, 0, p.cabs[t].state.direction, now, answers);
    assert k in p.cabs ==> k in w.cabs && w.cabs[k].state == p.cabs[k].state;
  }

  lemma EmergencyLook(p: Panel, t: int, k: int, answers: Answers)
    requires t in p.cabs
    ensures SameLook(p, EmergencyStopped(p, t, answers).panel, k)
  {
  }

  lemma CommandLook(p: Panel, op: Op, k: int, answers: Answers)
    requires p.focus in p.cabs && IsCommand(op) && !TurnsOrSwitches(op)
    ensures SameLook(p, Apply(p, op, answers).panel, k)
  {
    if Target(p, op).Some? {
      var t := Target(p, op).value;
      match op.intent
      case Stop(now) => StoppedLook(p, t, now, k, answers);
      case Emergency => EmergencyLook(p, t, k, answers);
      case _ =>
    }
  }

  lemma TabOpLook(p: Panel, op: Op, k: int, answers: Answers)
    requires Structured(p) && (op.AddCab? || op.FocusCab? || op.SelectCab? || op.RemoveCab? || op.ReplaceCab?)
    ensures SameLook(p, Apply(p, op, answers).panel, k)
  {
    if op.RemoveCab? {
      ClosingFollows(p, op, answers);
    } else if op.ReplaceCab? {
      ReassigningFollows(p, op, answers);
    } else {
      SelectionFollows(p, op, answers);
    }
  }

  lemma StationLook(p: Panel, op: Op, k: int, answers: Answers)
    requires p.focus in p.cabs && (op.Detach? || op.Station? || op.TogglePower? || op.Poll?)
    ensures SameLook(p, Apply(p, op, answers).panel, k)
  {
    match op
    case Station(cmd) => SendSameStates(p, cmd, answers);
    case TogglePower(track) => SendSameStates(p, Command.Power(RolePowerOf(p, track) == Off, track), answers);
    case Poll => SendSameStates(p, CurrentQuery, answers);
    case Detach =>
  }

  /** All other operations leave direction and functions alone. */
  lemma OtherLook(p: Panel, op: Op, k: int, answers: Answers)
    requires Structured(p) && !TurnsOrSwitches(op) && !(Reports(op, k) && p.attached)
    ensures SameLook(p, Apply(p, op, answers).panel, k)
  {
    if IsCommand(op) {
      CommandLook(p, op, k, answers);
    } else if op.AddCab? || op.FocusCab? || op.SelectCab? || op.RemoveCab? || op.ReplaceCab? {
      TabOpLook(p, op, k, answers);
    } else if op.Detach? || op.Station? || op.TogglePower? || op.Poll? {
      StationLook(p, op, k, answers);
    } else if op.Attach? {
      AttachKeepsStates(p, answers);
    } else if op.Tick? {
      TickKeepsShown(p, p.order, op.now, answers);
    }
  }

  // ---------------------------------------------------------- turning and switching

  /** A reversal shows its direction exactly if its command succeeds. */
  lemma DirectedLook(p: Panel, t: int, dir: int, now: int, k: int, answers: Answers)
    requires t in p.cabs && IsCab(t) && Good(p.cabs[t], p.attached, false) && k in p.cabs
    ensures var q := Directed(p, t, dir, now, answers).panel;
            && k in q.cabs && q.cabs[k].state.functions == p.cabs[k].state.functions
            && q.cabs[k].state.direction ==
                 if k == t && p.attached && (dir == 0 || dir == 1) && dir != p.cabs[t].state.direction && answers(|p.log|)
                 then dir else p.cabs[k].state.direction
  {
    if (dir == 0 || dir == 1) && dir != p.cabs[t].state.direction {
      TransmitKeepsStates(p, t, p.cabs[t].state.speed, dir, now, answers);
      assert InRange(Throttle(t, p.cabs[t].state.speed, dir));
    }
  }

  /** A press in toggle mode shows the function switched over exactly if its command succeeds. */
  lemma PressedLook(p: Panel, t: int, n: int, pressed: bool, k: int, answers: Answers)
    requires t in p.cabs && IsCab(t) && k in p.cabs
    ensures var q := Pressed(p, t, n, pressed, answers).panel;
            && k in q.cabs && q.cabs[k].state.direction == p.cabs[k].state.direction
            && q.cabs[k].state.functions ==
                 if k == t && IsFunction(n) && pressed && p.cabs[t].state.toggle[n] && p.attached && answers(|p.log|)
                 then p.cabs[k].state.functions[n := !p.cabs[k].state.functions[n]] else p.cabs[k].state.functions
  {
    if IsFunction(n) {
      var r := p.cabs[t];
      var toggle := r.state.toggle[n] && !(r.held[n] && !pressed);
      SwitchedLook(p, t, n, if toggle then !r.state.functions[n] else pressed, toggle, pressed && !toggle, k, answers);
    }
  }

  lemma SwitchedLook(p: Panel, t: int, n: int, on: bool, shown: bool, held: bool, k: int, answers: Answers)
    requires t in p.cabs && IsCab(t) && IsFunction(n) && k in p.cabs
    ensures var q := Switched(p, t, n, on, shown, held, answers).panel;
            && k in q.cabs && q.cabs[k].state.direction == p.cabs[k].state.direction
            && q.cabs[k].state.functions ==
                 if k == t && shown && p.attached && answers(|p.log|) then p.cabs[k].state.functions[n := on]
                 else p.cabs[k].state.functions
  {
    SendSameStates(p, Function(t, n, if on then 1 else 0), answers);
  }

  /** The attempt of one off command before others. */
  lemma OffFirst(t: int, n: nat, rest: seq<Command>, at: nat, k: int, m: int, answers: Answers)
    ensures var cmd := Function(t, n, 0);
            SentState(Attempted([cmd] + rest, at, answers), k, m) ==
              if !answers(at) then None
              else if SentState(Attempted(rest, at + 1, answers), k, m).Some?
                then SentState(Attempted(rest, at + 1, answers), k, m)
              else if t == k && n == m then Some(false)
              else None
  {
    var cmd := Function(t, n, 0);
    assert ([cmd] + rest)[1..] == rest && ([cmd] + rest)[0] == cmd;
    FailedAlone(cmd, k, m);
    var one := [Sent(cmd, true)];
    assert one[..0] == [];
    SentStateConcat(one, Attempted(rest, at + 1, answers), k, m);
  }

  /** One off command and what it leaves to look at. */
  lemma OneOff(p: Panel, t: int, n: int, k: int, m: int, answers: Answers)
    requires t in p.cabs && IsCab(t) && k in p.cabs && IsFunction(n) && IsFunction(m)
    ensures var s := Issue(p, Function(t, n, 0), answers);
            && k in s.panel.cabs && s.panel.cabs[k].state == p.cabs[k].state && t in s.panel.cabs
            && (s.err == None <==> p.attached && answers(|p.log|))
            && (s.err == None ==>
                  var w := WithFunction(s.panel, t, n, false);
                  && w.attached && |w.log| == |p.log| + 1 && k in w.cabs && t in w.cabs
                  && w.cabs[k].state.direction == p.cabs[k].state.direction
                  && w.cabs[k].state.functions[m] == (if k == t && m == n then false else p.cabs[k].state.functions[m]))
  {
    SendSameStates(p, Function(t, n, 0), answers);
  }

  lemma OffFromUnfolds(p: Panel, t: int, on: Flags, n: nat, answers: Answers)
    requires t in p.cabs && n < FUNCTIONS && on[n]
    ensures var s := Issue(p, Function(t, n, 0), answers);
            OffFrom(p, t, on, n, answers).panel ==
              if s.err == None then OffFrom(WithFunction(s.panel, t, n, false), t, on, n + 1, answers).panel else s.panel
    ensures Offs(t, on, n) == [Function(t, n, 0)] + Offs(t, on, n + 1)
  {
  }

  /** What is shown of function m of cab k once the off commands for t have been attempted. */
  predicate ShowsOff(p: Panel, q: Panel, t: int, cmds: seq<Command>, k: int, m: int, answers: Answers)
    requires k in p.cabs && IsFunction(m)
  {
    var sent := SentState(Attempted(cmds, |p.log|, answers), k, m);
    && k in q.cabs && q.cabs[k].state.direction == p.cabs[k].state.direction
    && q.cabs[k].state.functions[m] ==
         if k == t && p.attached && sent.Some? then sent.value else p.cabs[k].state.functions[m]
  }

  lemma ShowsOffFirst(p: Panel, w: Panel, q: Panel, t: int, n: nat, rest: seq<Command>, k: int, m: int, answers: Answers)
    requires k in p.cabs && k in w.cabs && IsFunction(m) && p.attached && answers(|p.log|)
    requires w.attached && |w.log| == |p.log| + 1
    requires w.cabs[k].state.direction == p.cabs[k].state.direction
    requires w.cabs[k].state.functions[m] == (if k == t && m == n then false else p.cabs[k].state.functions[m])
    requires ShowsOff(w, q, t, rest, k, m, answers)
    ensures ShowsOff(p, q, t, [Function(t, n, 0)] + rest, k, m, answers)
  {
    OffFirst(t, n, rest, |p.log|, k, m, answers);
  }

  /** Switching all off shows each function off whose command succeeds. */
  lemma {:induction false} OffFromLook(p: Panel, t: int, on: Flags, n: nat, k: int, m: int, answers: Answers)
    requires t in p.cabs && IsCab(t) && n <= FUNCTIONS && k in p.cabs && IsFunction(m)
    ensures ShowsOff(p, OffFrom(p, t, on, n, answers).panel, t, Offs(t, on, n), k, m, answers)
    decreases FUNCTIONS - n
  {
    if n < FUNCTIONS {
      var rest := Offs(t, on, n + 1);
      if !on[n] {
        assert Offs(t, on, n) == rest;
        OffFromLook(p, t, on, n + 1, k, m, answers);
      } else {
        OffFromUnfolds(p, t, on, n, answers);
        OneOff(p, t, n, k, m, answers);
        if p.attached && answers(|p.log|) {
          var w := WithFunction(Issue(p, Function(t, n, 0), answers).panel, t, n, false);
          OffFromLook(w, t, on, n + 1, k, m, answers);
          ShowsOffFirst(p, w, OffFrom(w, t, on, n + 1, answers).panel, t, n, rest, k, m, answers);
        } else {
          OffFirst(t, n, rest, |p.log|, k, m, answers);
        }
      }
    }
  }

  lemma ClosedAlone(k: int, m: int)
    ensures SentState([Closed], k, m) == None && SentDirection([Closed], k) == None
  {
    assert [Closed][..0] == [];
  }

  lemma FailedAlone(cmd: Command, k: int, m: int)
    ensures SentState([Sent(cmd, false), Closed], k, m) == None && SentDirection([Sent(cmd, false), Closed], k) == None
  {
    var one, two := [Sent(cmd, false)], [Sent(cmd, false), Closed];
    assert one[..0] == [] && two[..1] == one;
    assert SentState(one, k, m) == None && SentDirection(one, k) == None;
  }

  /** What the attempt of one command shows. */
  lemma OneAttempt(cmd: Command, at: nat, k: int, m: int, answers: Answers)
    ensures SentState(Attempted([cmd], at, answers), k, m) ==
              if answers(at) && cmd.Function? && cmd.cab == k && cmd.function_ == m then Some(cmd.state == 1) else None
    ensures SentDirection(Attempted([cmd], at, answers), k) ==
              if answers(at) && cmd.Throttle? && cmd.cab == k then Some(cmd.dir) else None
  {
    FailedAlone(cmd, k, m);
    var one := [Sent(cmd, true)];
    assert one[..0] == [] && Attempted([cmd][1..], at + 1, answers) == [];
    assert one + [] == one;
  }

  // ---------------------------------------------------------------------- each step

  /** The new wires of a command: its attempt, or nothing. */
  lemma CommandWires(p: Panel, op: Op, t: int, answers: Answers)
    requires Structured(p) && AllGood(p, false) && IsCommand(op) && Target(p, op) == Some(t) && t in p.cabs
    ensures NewWire(p, Apply(p, op, answers).panel) ==
              if p.attached then Attempted(WantedOfIntent(t, p.cabs[t], op.intent), |p.log|, answers) else []
  {
    SentIsSpoken(p, op, answers);
    var attempt := Attempted(WantedOfIntent(t, p.cabs[t], op.intent), |p.log|, answers);
    assert [] + attempt == attempt;
  }

  lemma OffStep(p: Panel, op: Op, t: int, on: Flags, from: nat, k: int, n: int, answers: Answers)
    requires k in p.cabs && t in p.cabs && IsCab(t) && IsFunction(n) && from <= FUNCTIONS
    requires IsCommand(op) && op.intent.AllFunctionsOff? && Target(p, op) == Some(t)
    ensures var q := OffFrom(p, t, on, from, answers).panel;
            var wires := if p.attached then Attempted(Offs(t, on, from), |p.log|, answers) else [];
            && k in q.cabs
            && q.cabs[k].state.functions[n] == NextOn(p.cabs[k].state.functions[n], p, op, wires, k, n)
            && q.cabs[k].state.direction == p.cabs[k].state.direction
  {
    OffFromLook(p, t, on, from, k, n, answers);
    assert Shows(p, op, k, n) <==> k == t;
  }

  lemma PressStep(p: Panel, op: Op, t: int, k: int, n: int, answers: Answers)
    requires p.focus in p.cabs && k in p.cabs && t in p.cabs && IsCab(t) && IsFunction(n)
    requires IsCommand(op) && op.intent.Press? && Target(p, op) == Some(t)
    ensures var q := Pressed(p, t, op.intent.n, op.intent.pressed, answers).panel;
            var wires := if p.attached then Attempted(WantedOfIntent(t, p.cabs[t], op.intent), |p.log|, answers) else [];
            && k in q.cabs
            && q.cabs[k].state.functions[n] == NextOn(p.cabs[k].state.functions[n], p, op, wires, k, n)
            && q.cabs[k].state.direction == p.cabs[k].state.direction
  {
    PressedLook(p, t, op.intent.n, op.intent.pressed, k, answers);
    if Shows(p, op, k, n) {
      OneAttempt(Function(k, n, if p.cabs[k].state.functions[n] then 0 else 1), |p.log|, k, n, answers);
    }
  }

  lemma PressedStep(p: Panel, op: Op, t: int, k: int, n: int, answers: Answers)
    requires Structured(p) && AllGood(p, false) && k in p.cabs && IsFunction(n)
    requires IsCommand(op) && op.intent.Press? && Target(p, op) == Some(t)
    ensures var q := Apply(p, op, answers).panel;
            && k in q.cabs
            && q.cabs[k].state.functions[n] == NextOn(p.cabs[k].state.functions[n], p, op, NewWire(p, q), k, n)
            && q.cabs[k].state.direction == p.cabs[k].state.direction
  {
    CommandWires(p, op, t, answers);
    assert IsEntry(t, p.cabs[t]);
    PressStep(p, op, t, k, n, answers);
  }

  lemma SwitchedOffStep(p: Panel, op: Op, t: int, k: int, n: int, wires: seq<Wire>, answers: Answers)
    requires p.focus in p.cabs && t in p.cabs && IsCab(t) && k in p.cabs && IsFunction(n)
    requires IsCommand(op) && op.intent.AllFunctionsOff? && Target(p, op) == Some(t)
    requires wires == if p.attached then Attempted(WantedOfIntent(t, p.cabs[t], op.intent), |p.log|, answers) else []
    ensures var q := Apply(p, op, answers).panel;
            && k in q.cabs
            && q.cabs[k].state.functions[n] == NextOn(p.cabs[k].state.functions[n], p, op, wires, k, n)
            && q.cabs[k].state.direction == p.cabs[k].state.direction
  {
    var on := p.cabs[t].state.functions;
    assert WantedOfIntent(t, p.cabs[t], op.intent) == Offs(t, on, 0);
    assert Apply(p, op, answers) == OffFrom(p, t, on, 0, answers);
    OffStep(p, op, t, on, 0, k, n, answers);
  }

  lemma TurnStep(p: Panel, op: Op, k: int, answers: Answers)
    requires Structured(p) && AllGood(p, false) && k in p.cabs
    requires IsCommand(op) && (op.intent.SetDirection? || op.intent.FlipDirection?)
    ensures var q := Apply(p, op, answers).panel;
            && k in q.cabs && q.cabs[k].state.functions == p.cabs[k].state.functions
            && q.cabs[k].state.direction == NextDirection(p.cabs[k].state.direction, p, op, NewWire(p, q), k)
  {
    if Target(p, op).Some? {
      var t := Target(p, op).value;
      assert IsEntry(t, p.cabs[t]) && Good(p.cabs[t], p.attached, false);
      CommandWires(p, op, t, answers);
      var dir := NewDirection(p, t, op.intent);
      DirectedLook(p, t, dir, op.intent.now, k, answers);
      OneAttempt(Throttle(t, p.cabs[t].state.speed, dir), |p.log|, k, 0, answers);
    }
  }

  /** A throttle command of any other operation carries the direction on show. */
  lemma OtherReason(p: Panel, op: Op, cmd: Command)
    requires HasReason(p, op, cmd) && cmd.Throttle?
    requires !(IsCommand(op) && (op.intent.SetDirection? || op.intent.FlipDirection?))
    ensures cmd.cab in p.cabs && cmd.dir == p.cabs[cmd.cab].state.direction && !op.Receive?
  {
    if !op.Tick? {
      if op.intent.AllFunctionsOff? {
        OffsAreOn(cmd.cab, p.cabs[cmd.cab].state.functions, 0, cmd);
      }
      OneWanted(cmd.cab, p.cabs[cmd.cab], op.intent);
    }
  }

  lemma SpokenDirection(p: Panel, op: Op, wires: seq<Wire>, k: int)
    requires forall w | w in wires && w.Sent? :: HasReason(p, op, w.cmd)
    requires k in p.cabs && !(IsCommand(op) && (op.intent.SetDirection? || op.intent.FlipDirection?))
    ensures SentDirection(wires, k).Some? ==> SentDirection(wires, k).value == p.cabs[k].state.direction && !op.Receive?
  {
    if SentDirection(wires, k).Some? {
      DirectionWasSent(wires, k);
      var w :| w in wires && w.Sent? && w.ok && w.cmd.Throttle? && w.cmd.cab == k && SentDirection(wires, k) == Some(w.cmd.dir);
      OtherReason(p, op, w.cmd);
    }
  }

  lemma OtherDirection(p: Panel, op: Op, k: int, answers: Answers)
    requires Structured(p) && AllGood(p, false) && k in p.cabs
    requires !(IsCommand(op) && (op.intent.SetDirection? || op.intent.FlipDirection?))
    ensures var sent := SentDirection(NewWire(p, Apply(p, op, answers).panel), k);
            sent.Some? ==> sent.value == p.cabs[k].state.direction && !op.Receive?
  {
    SentIsSpoken(p, op, answers);
    var wires := Spoken(p, op, answers);
    forall w | w in wires && w.Sent? ensures HasReason(p, op, w.cmd) {
      SpokenHasReason(p, op, w, answers);
    }
    SpokenDirection(p, op, wires, k);
  }

  lemma ReportStep(p: Panel, op: Op, k: int, n: int, answers: Answers)
    requires p.focus in p.cabs && k in p.cabs && IsFunction(n) && Reports(op, k) && p.attached
    ensures var q := Apply(p, op, answers).panel;
            && k in q.cabs && q.cabs[k].state.functions[n] == IsOn(op.event.mask, n)
            && q.cabs[k].state.direction == op.event.direction
  {
    ReportShows(p, op.event, answers);
  }

  /** What every operation does to what an open cab shows. */
  lemma LookStep(p: Panel, op: Op, k: int, n: int, answers: Answers)
    requires Structured(p) && AllGood(p, false) && k in p.cabs && IsFunction(n)
    ensures var q := Apply(p, op, answers).panel;
            k in q.cabs ==>
              && q.cabs[k].state.functions[n] == NextOn(p.cabs[k].state.functions[n], p, op, NewWire(p, q), k, n)
              && q.cabs[k].state.direction == NextDirection(p.cabs[k].state.direction, p, op, NewWire(p, q), k)
  {
    if Reports(op, k) && p.attached {
      ReportStep(p, op, k, n, answers);
    } else if IsCommand(op) && (op.intent.SetDirection? || op.intent.FlipDirection?) {
      TurnStep(p, op, k, answers);
    } else {
      OtherDirection(p, op, k, answers);
      if IsCommand(op) && (op.intent.Press? || op.intent.AllFunctionsOff?) {
        if Target(p, op).Some? {
          if op.intent.Press? {
            PressedStep(p, op, Target(p, op).value, k, n, answers);
          } else {
            CommandWires(p, op, Target(p, op).value, answers);
            assert IsEntry(Target(p, op).value, p.cabs[Target(p, op).value]);
            SwitchedOffStep(p, op, Target(p, op).value, k, n, NewWire(p, Apply(p, op, answers).panel), answers);
          }
        }
      } else {
        OtherLook(p, op, k, answers);
      }
    }
  }

  /** A tab just opened shows every function off and forward. */
  lemma NewLook(p: Panel, op: Op, k: int, answers: Answers)
    requires Structured(p) && k !in p.cabs
    ensures var q := Apply(p, op, answers).panel;
            k in q.cabs ==> q.cabs[k].state.direction == 1 && q.cabs[k].state.functions == NoFlags()
  {
    TabsStep(p, op, answers);
    StructureKept(p, op, answers);
    var q := Apply(p, op, answers).panel;
    if k in q.cabs {
      assert k in q.order && k !in p.order;
      if op.ReplaceCab? {
        ReplacedTabs(p, op.gone, op.next, answers);
      }
      OnlyNewTabs(p, op, q, k);
    }
  }

  lemma OnlyNewTabs(p: Panel, op: Op, q: Panel, k: int)
    requires TabsFollow(p, op, q) && k in q.order && k !in p.order
    ensures Opened(p, op) == Some(k) || (Reassigns(p, op) && op.next == k)
  {
  }

  // ------------------------------------------------------------------------ runs

  /** Whether function n of cab k is shown as on, read off the operations and the connection. */
  ghost function OnHistory(run: Run, i: nat, k: int, n: int): bool
    requires IsRun(run) && i <= |run.ops| && IsFunction(n)
  {
    if i == 0 || k !in At(run, i - 1).cabs then false
    else NextOn(OnHistory(run, i - 1, k, n), At(run, i - 1), run.ops[i - 1], NewLog(run, i - 1), k, n)
  }

  ghost function DirectionHistory(run: Run, i: nat, k: int): int
    requires IsRun(run) && i <= |run.ops|
  {
    if i == 0 || k !in At(run, i - 1).cabs then 1
    else NextDirection(DirectionHistory(run, i - 1, k), At(run, i - 1), run.ops[i - 1], NewLog(run, i - 1), k)
  }

  ghost predicate LookAgrees(run: Run, i: nat, k: int, n: int)
    requires IsRun(run) && i <= |run.ops| && IsFunction(n)
  {
    k in At(run, i).cabs ==>
      && At(run, i).cabs[k].state.functions[n] == OnHistory(run, i, k, n)
      && At(run, i).cabs[k].state.direction == DirectionHistory(run, i, k)
  }

  lemma LookInRun(run: Run, i: nat, k: int, n: int)
    requires IsRun(run) && i < |run.ops| && IsFunction(n) && k in At(run, i + 1).cabs
    ensures var p, q := At(run, i), At(run, i + 1);
            if k in p.cabs then
              && q.cabs[k].state.functions[n] == NextOn(p.cabs[k].state.functions[n], p, run.ops[i], NewLog(run, i), k, n)
              && q.cabs[k].state.direction == NextDirection(p.cabs[k].state.direction, p, run.ops[i], NewLog(run, i), k)
            else q.cabs[k].state.direction == 1 && q.cabs[k].state.functions == NoFlags()
  {
    Stepped(run, i);
    DisplayedAgreesWithSent(run, i);
    if k in At(run, i).cabs {
      LookStep(At(run, i), run.ops[i], k, n, run.answers);
    } else {
      NewLook(At(run, i), run.ops[i], k, run.answers);
    }
  }

  lemma LookAgreesNext(run: Run, i: nat, k: int, n: int)
    requires IsRun(run) && i < |run.ops| && IsFunction(n) && LookAgrees(run, i, k, n)
    ensures LookAgrees(run, i + 1, k, n)
  {
    if k in At(run, i + 1).cabs {
      LookInRun(run, i, k, n);
    }
  }

  lemma LookAgreesAtFirst(run: Run, k: int, n: int)
    requires IsRun(run) && IsFunction(n)
    ensures LookAgrees(run, 0, k, n)
  {
    if k in run.start.cabs {
      assert AtRest(run.start.cabs[k]);
    }
  }

  lemma LookPersists(run: Run, i: nat, k: int, n: int, agrees: nat -> bool)
    requires IsRun(run) && i <= |run.ops| && IsFunction(n) && agrees(0)
    requires forall m: nat | m <= |run.ops| :: agrees(m) == LookAgrees(run, m, k, n)
    ensures agrees(i)
  {
    forall m: nat | m < i && agrees(m) ensures agrees(m + 1) {
      LookAgreesNext(run, m, k, n);
    }
    Persists(agrees, 0, i);
  }

  /** In every reachable state a function of an open cab is shown as on exactly if it was on in the
      last report of that cab, or by the last successful command of a toggle press or of switching
      all off, whichever came later; and the direction on show is the one last reported or last
      sent. */
  lemma {:induction false} LooksAreHistory(run: Run, i: nat, k: int, n: int)
    requires IsRun(run) && i <= |run.ops| && IsFunction(n) && k in At(run, i).cabs
    ensures At(run, i).cabs[k].state.functions[n] == OnHistory(run, i, k, n)
    ensures At(run, i).cabs[k].state.direction == DirectionHistory(run, i, k)
  {
    var agrees := (m: nat) => m <= |run.ops| && LookAgrees(run, m, k, n);
    LookAgreesAtFirst(run, k, n);
    LookPersists(run, i, k, n, agrees);
    assert agrees(i);
  }
}
