/** What every operation puts on the connection: an exact list of commands, read off the panel and
    the operation, sent in order up to the first failure. */
module Transcripts {
  import opened Results
  import opened Commands
  import opened Settings
  import opened Messages
  import opened Panel
  import opened Structure
  import opened Runs
  import opened Agreement
  import opened Movement
  import opened Sets

  // ------------------------------------------------------------------ attempts

  /** The commands handed over from position n of the log on: each with the connection's answer,
      and after the first failure nothing but the close. */
  function Attempted(cmds: seq<Command>, n: nat, answers: Answers): seq<Wire>
    decreases |cmds|
  {
    if cmds == [] then []
    else if answers(n) then [Sent(cmds[0], true)] + Attempted(cmds[1..], n + 1, answers)
    else [Sent(cmds[0], false), Closed]
  }

  predicate AllAnswered(cmds: seq<Command>, n: nat, answers: Answers) {
    forall m | n <= m < n + |cmds| :: answers(m)
  }

  /** From p to q the commands were attempted, if there was a connection, and it stands exactly if
      none failed. */
  predicate Did(p: Panel, q: Panel, cmds: seq<Command>, answers: Answers) {
    if p.attached then
      && q.log == p.log + Attempted(cmds, |p.log|, answers)
      && (q.attached <==> AllAnswered(cmds, |p.log|, answers))
    else q.log == p.log && !q.attached
  }

  lemma AnsweredConcat(a: seq<Command>, b: seq<Command>, n: nat, answers: Answers)
    ensures AllAnswered(a + b, n, answers) <==> AllAnswered(a, n, answers) && AllAnswered(b, n + |a|, answers)
  {
  }

  lemma {:induction false} AttemptedConcat(a: seq<Command>, b: seq<Command>, n: nat, answers: Answers)
    ensures Attempted(a + b, n, answers) ==
              Attempted(a, n, answers) + if AllAnswered(a, n, answers) then Attempted(b, n + |a|, answers) else []
    decreases |a|
  {
    if a == [] {
      assert a + b == b;
    } else {
      var c, rest := a[0], a[1..];
      assert (a + b)[0] == c && (a + b)[1..] == rest + b;
      AttemptedConcat(rest, b, n + 1, answers);
      assert AllAnswered(a, n, answers) <==> answers(n) && AllAnswered(rest, n + 1, answers);
      if answers(n) {
        var tail := if AllAnswered(rest, n + 1, answers) then Attempted(b, n + |a|, answers) else [];
        assert [Sent(c, true)] + (Attempted(rest, n + 1, answers) + tail)
            == [Sent(c, true)] + Attempted(rest, n + 1, answers) + tail;
      }
    }
  }

  lemma {:induction false} AttemptedInFull(cmds: seq<Command>, n: nat, answers: Answers)
    requires AllAnswered(cmds, n, answers)
    ensures |Attempted(cmds, n, answers)| == |cmds|
    decreases |cmds|
  {
    if cmds != [] {
      AttemptedInFull(cmds[1..], n + 1, answers);
    }
  }

  /** Commands attempted one after the other. */
  lemma DidThen(p: Panel, q: Panel, r: Panel, a: seq<Command>, b: seq<Command>, answers: Answers)
    requires Did(p, q, a, answers)
    requires if q.attached then Did(q, r, b, answers) else r.log == q.log && !r.attached
    ensures Did(p, r, a + b, answers)
  {
    AttemptedConcat(a, b, |p.log|, answers);
    AnsweredConcat(a, b, |p.log|, answers);
    if AllAnswered(a, |p.log|, answers) {
      AttemptedInFull(a, |p.log|, answers);
    }
    var x := Attempted(a, |p.log|, answers);
    assert p.log + x + Attempted(b, |p.log| + |a|, answers) == p.log + (x + Attempted(b, |p.log| + |a|, answers));
    assert x + [] == x;
  }

  lemma DidNothing(p: Panel, q: Panel, answers: Answers)
    requires q.log == p.log && q.attached == p.attached
    ensures Did(p, q, [], answers)
  {
    assert p.log + [] == p.log;
  }

  lemma SendDid(p: Panel, cmd: Command, answers: Answers)
    ensures Did(p, Send(p, cmd, answers).panel, [cmd], answers)
  {
    if p.attached {
      assert AllAnswered([cmd], |p.log|, answers) <==> answers(|p.log|);
      if answers(|p.log|) {
        assert Attempted([cmd], |p.log|, answers) == [Sent(cmd, true)];
      } else {
        assert p.log + [Sent(cmd, false)] + [Closed] == p.log + [Sent(cmd, false), Closed];
      }
    }
  }

  // -------------------------------------------------------------- wanted commands

  /** The off commands for the functions from n on that are on. */
  function Offs(k: int, on: Flags, n: nat): seq<Command>
    requires n <= FUNCTIONS
    decreases FUNCTIONS - n
  {
    if n == FUNCTIONS then [] else (if on[n] then [Function(k, n, 0)] else []) + Offs(k, on, n + 1)
  }

  /** A press or release of function n: a release of what is held switches off whatever the mode,
      a press in toggle mode switches over, and in momentary mode the button is followed. */
  function WantedOfPress(k: int, r: Runtime, n: int, pressed: bool): seq<Command> {
    if !IsFunction(n) then []
    else if r.held[n] && !pressed then [Function(k, n, 0)]
    else if !r.state.toggle[n] then [Function(k, n, if pressed then 1 else 0)]
    else if pressed then [Function(k, n, if r.state.functions[n] then 0 else 1)]
    else []
  }

  function WantedOfIntent(k: int, r: Runtime, intent: UserIntent): seq<Command> {
    match intent
    case SetDirection(dir, _) =>
      if (dir == 0 || dir == 1) && dir != r.state.direction then [Throttle(k, r.state.speed, dir)] else []
    case FlipDirection(_) => [Throttle(k, r.state.speed, 1 - r.state.direction)]
    case Stop(_) => [Throttle(k, 0, r.state.direction)]
    case Emergency => [EmergencyStop]
    case Press(n, pressed) => WantedOfPress(k, r, n, pressed)
    case AllFunctionsOff => Offs(k, r.state.functions, 0)
    case _ => []
  }

  /** The queued speed of a cab that is due. */
  function WantedOfTab(p: Panel, k: int, now: int): seq<Command>
    requires k in p.cabs
  {
    var r := p.cabs[k];
    if IsDue(p, k, now) then [Throttle(k, r.pending.value, r.state.direction)] else []
  }

  /** One command for each due cab, in tab order. */
  function WantedOfTick(p: Panel, tabs: seq<int>, now: int): seq<Command>
    requires forall i | 0 <= i < |tabs| :: tabs[i] in p.cabs
  {
    if tabs == [] then [] else WantedOfTab(p, tabs[0], now) + WantedOfTick(p, tabs[1..], now)
  }

  function Requests(tabs: seq<int>): seq<Command> {
    if tabs == [] then [] else [LocoRequest(tabs[0])] + Requests(tabs[1..])
  }

  /** The cab that an operation newly puts into focus. */
  function NewFocus(p: Panel, op: Op): Option<int> {
    match op
    case SelectCab(k) => if IsCab(k) && k != p.focus then Some(k) else None
    case FocusCab(k) => if k in p.cabs && k != p.focus then Some(k) else None
    case AddCab(k) => if IsCab(k) && k !in p.cabs then Some(k) else None
    case ReplaceCab(gone, next) =>
      if IsCab(next) && next !in p.cabs && gone in p.cabs && IsAtRest(p.cabs[gone]) then Some(next) else None
    case _ => None
  }

  ghost predicate IsOrdered(p: Panel) {
    forall i | 0 <= i < |p.order| :: p.order[i] in p.cabs
  }

  /** What an operation has to say to the station, given that it is connected. */
  ghost function Wanted(p: Panel, op: Op): seq<Command>
    requires p.focus in p.cabs && IsOrdered(p)
  {
    match op
    case Do(intent) => WantedOfIntent(p.focus, p.cabs[p.focus], intent)
    case WithCab(k, intent) => if k in p.cabs then WantedOfIntent(k, p.cabs[k], intent) else []
    case Tick(now) => WantedOfTick(p, p.order, now)
    case Attach => [TrackQuery, Status] + Requests(p.order)
    case Station(cmd) => if InRange(cmd) then [cmd] else []
    case TogglePower(track) =>
      if track == All || RolePowerOf(p, track) == Unreported then []
      else [Command.Power(RolePowerOf(p, track) == Off, track)]
    case Poll => if p.poll then [CurrentQuery] else []
    case _ => if NewFocus(p, op).Some? then [LocoRequest(NewFocus(p, op).value)] else []
  }

  lemma OrderedPanel(p: Panel)
    requires Structured(p)
    ensures IsOrdered(p)
  {
    assert forall i | 0 <= i < |p.order| :: p.order[i] in p.order;
  }

  // ------------------------------------------------------------------- operations

  /** Only the log and the connection count. */
  lemma DidLike(p: Panel, w: Panel, q: Panel, r: Panel, cmds: seq<Command>, answers: Answers)
    requires Did(w, q, cmds, answers) && w.log == p.log && w.attached == p.attached
    requires r.log == q.log && r.attached == q.attached
    ensures Did(p, r, cmds, answers)
  {
  }

  lemma TransmitDid(p: Panel, k: int, speed: int, dir: int, now: int, answers: Answers)
    requires k in p.cabs && InRange(Throttle(k, speed, dir))
    ensures Did(p, Transmit(p, k, speed, dir, now, answers).panel, [Throttle(k, speed, dir)], answers)
  {
    SendDid(p, Throttle(k, speed, dir), answers);
  }

  lemma DirectedDid(p: Panel, k: int, dir: int, now: int, answers: Answers)
    requires k in p.cabs && IsCab(k) && Good(p.cabs[k], p.attached, false)
    ensures Did(p, Directed(p, k, dir, now, answers).panel,
                WantedOfIntent(k, p.cabs[k], SetDirection(dir, now)), answers)
  {
    DidNothing(p, p, answers);
    if (dir == 0 || dir == 1) && dir != p.cabs[k].state.direction {
      TransmitDid(p, k, p.cabs[k].state.speed, dir, now, answers);
    }
  }

  lemma StoppedDid(p: Panel, k: int, now: int, answers: Answers)
    requires k in p.cabs && IsCab(k) && Good(p.cabs[k], p.attached, false)
    ensures Did(p, Stopped(p, k, now, answers).panel, [Throttle(k, 0, p.cabs[k].state.direction)], answers)
  {
    TransmitDid(WithoutPending(p, k), k, 0, p.cabs[k].state.direction, now, answers);
  }

  lemma EmergencyDid(p: Panel, k: int, answers: Answers)
    requires k in p.cabs
    ensures Did(p, EmergencyStopped(p, k, answers).panel, [EmergencyStop], answers)
  {
    var q := p.(cabs := Each(p.cabs, Cancelled));
    SendDid(q, EmergencyStop, answers);
    DidLike(p, q, Send(q, EmergencyStop, answers).panel, EmergencyStopped(p, k, answers).panel, [EmergencyStop], answers);
  }

  lemma SwitchedDid(p: Panel, k: int, n: int, on: bool, shown: bool, held: bool, answers: Answers)
    requires k in p.cabs && IsCab(k) && IsFunction(n)
    ensures Did(p, Switched(p, k, n, on, shown, held, answers).panel, [Function(k, n, if on then 1 else 0)], answers)
  {
    SendDid(p, Function(k, n, if on then 1 else 0), answers);
  }

  lemma PressedDid(p: Panel, k: int, n: int, pressed: bool, answers: Answers)
    requires k in p.cabs && IsCab(k)
    ensures Did(p, Pressed(p, k, n, pressed, answers).panel, WantedOfPress(k, p.cabs[k], n, pressed), answers)
  {
    DidNothing(p, p, answers);
    if IsFunction(n) {
      var r := p.cabs[k];
      var toggle := r.state.toggle[n] && !(r.held[n] && !pressed);
      SwitchedDid(p, k, n, if toggle then !r.state.functions[n] else pressed, toggle, pressed && !toggle, answers);
    }
  }

  lemma {:induction false} OffFromDid(p: Panel, k: int, on: Flags, n: nat, answers: Answers)
    requires k in p.cabs && IsCab(k) && n <= FUNCTIONS
    ensures Did(p, OffFrom(p, k, on, n, answers).panel, Offs(k, on, n), answers)
    decreases FUNCTIONS - n
  {
    if n == FUNCTIONS {
      DidNothing(p, p, answers);
    } else if !on[n] {
      OffFromDid(p, k, on, n + 1, answers);
      assert [] + Offs(k, on, n + 1) == Offs(k, on, n + 1);
    } else {
      var s := Issue(p, Function(k, n, 0), answers);
      SendDid(p, Function(k, n, 0), answers);
      if s.err == None {
        OffFromDid(WithFunction(s.panel, k, n, false), k, on, n + 1, answers);
      }
      DidThen(p, s.panel, OffFrom(p, k, on, n, answers).panel, [Function(k, n, 0)], Offs(k, on, n + 1), answers);
    }
  }

  lemma ObeyDid(p: Panel, k: int, intent: UserIntent, answers: Answers)
    requires k in p.cabs && IsCab(k) && Good(p.cabs[k], p.attached, false)
    ensures Did(p, Obey(p, k, intent, answers).panel, WantedOfIntent(k, p.cabs[k], intent), answers)
  {
    var q := Obey(p, k, intent, answers).panel;
    if intent.MoveSpeed? || intent.SetToggle? || intent.FlipToggle? {
      DidNothing(p, q, answers);
    }
    match intent
    case SetDirection(dir, now) => DirectedDid(p, k, dir, now, answers);
    case FlipDirection(now) => DirectedDid(p, k, 1 - p.cabs[k].state.direction, now, answers);
    case Stop(now) => StoppedDid(p, k, now, answers);
    case Emergency => EmergencyDid(p, k, answers);
    case Press(n, pressed) => PressedDid(p, k, n, pressed, answers);
    case AllFunctionsOff => OffFromDid(p, k, p.cabs[k].state.functions, 0, answers);
    case _ =>
  }

  lemma TickedDid(p: Panel, k: int, now: int, answers: Answers)
    requires Structured(p) && AllGood(p, false) && k in p.cabs
    ensures Did(p, Ticked(p, k, now, answers).panel, WantedOfTab(p, k, now), answers)
    ensures Ticked(p, k, now, answers).err != None ==> p.attached && !Ticked(p, k, now, answers).panel.attached
  {
    var r, s := p.cabs[k], Ticked(p, k, now, answers);
    assert Good(r, p.attached, false) && IsEntry(k, r);
    if IsDue(p, k, now) {
      TransmitDid(WithoutPending(p, k), k, r.pending.value, r.state.direction, now, answers);
    } else {
      DidNothing(p, s.panel, answers);
    }
  }

  lemma {:induction false} WantedDepends(p: Panel, q: Panel, tabs: seq<int>, now: int)
    requires p.attached == q.attached
    requires forall i | 0 <= i < |tabs| :: tabs[i] in p.cabs && tabs[i] in q.cabs && q.cabs[tabs[i]] == p.cabs[tabs[i]]
    ensures WantedOfTick(q, tabs, now) == WantedOfTick(p, tabs, now)
  {
    if tabs != [] {
      WantedDepends(p, q, tabs[1..], now);
    }
  }

  lemma {:induction false} TickDid(p: Panel, tabs: seq<int>, now: int, answers: Answers)
    requires CanTick(p, tabs)
    ensures Did(p, TickAll(p, tabs, now, answers).panel, WantedOfTick(p, tabs, now), answers)
    decreases |tabs|
  {
    if tabs == [] {
      DidNothing(p, p, answers);
    } else {
      var k, rest := tabs[0], tabs[1..];
      var r := Ticked(p, k, now, answers);
      TickedDid(p, k, now, answers);
      if r.err == None {
        RestOfTick(p, tabs, now, answers);
        TickDid(r.panel, rest, now, answers);
        WantedDepends(p, r.panel, rest, now);
      }
      TickTail(p, tabs, now, answers);
      DidThen(p, r.panel, TickAll(p, tabs, now, answers).panel, WantedOfTab(p, k, now), WantedOfTick(p, rest, now), answers);
    }
  }

  /** A tick goes on exactly while the connection stands or there is none. */
  lemma TickTail(p: Panel, tabs: seq<int>, now: int, answers: Answers)
    requires CanTick(p, tabs) && tabs != []
    ensures var r := Ticked(p, tabs[0], now, answers);
            && (r.err != None ==> !r.panel.attached && TickAll(p, tabs, now, answers).panel == r.panel)
            && (r.err == None ==>
                  && r.panel.attached == p.attached
                  && TickAll(p, tabs, now, answers).panel == TickAll(r.panel, tabs[1..], now, answers).panel)
  {
    TickedDid(p, tabs[0], now, answers);
    if Ticked(p, tabs[0], now, answers).err == None {
      RestOfTick(p, tabs, now, answers);
    }
  }

  lemma {:induction false} RequestAllDid(p: Panel, tabs: seq<int>, answers: Answers)
    ensures Did(p, RequestAll(p, tabs, answers).panel, Requests(tabs), answers)
    decreases |tabs|
  {
    if tabs == [] {
      DidNothing(p, p, answers);
    } else {
      var cmd := LocoRequest(tabs[0]);
      var r := Send(p, cmd, answers);
      SendDid(p, cmd, answers);
      if r.err == None {
        RequestAllDid(r.panel, tabs[1..], answers);
      }
      DidThen(p, r.panel, RequestAll(p, tabs, answers).panel, [cmd], Requests(tabs[1..]), answers);
    }
  }

  /** Attaching queries the tracks, asks for the status and then about every tab, in order, over
      the new connection. */
  lemma AttachedDid(p: Panel, answers: Answers)
    ensures var fresh_ := Detached(p).(attached := true);
            Did(fresh_, Attached(p, answers).panel, [TrackQuery, Status] + Requests(p.order), answers)
  {
    var q := Detached(p).(attached := true);
    var t := Attached(p, answers).panel;
    var r := Send(q, TrackQuery, answers);
    var s := Send(r.panel, Status, answers);
    SendDid(q, TrackQuery, answers);
    if r.err == None {
      SendDid(r.panel, Status, answers);
      if s.err == None {
        RequestAllDid(s.panel, q.order, answers);
      }
      DidThen(r.panel, s.panel, t, [Status], Requests(p.order), answers);
    }
    DidThen(q, r.panel, t, [TrackQuery], [Status] + Requests(p.order), answers);
    assert [TrackQuery] + ([Status] + Requests(p.order)) == [TrackQuery, Status] + Requests(p.order);
  }

  lemma SelectedDid(p: Panel, k: int, preservePending: bool, answers: Answers)
    requires p.focus in p.cabs
    ensures Did(p, Selected(p, k, preservePending, answers).panel,
                if IsCab(k) && k != p.focus then [LocoRequest(k)] else [], answers)
  {
    DidNothing(p, p, answers);
    if IsCab(k) && k != p.focus {
      var q := if preservePending then p else WithoutPending(p, p.focus);
      var r := (if k in q.cabs then q else WithTab(q, k, q.defaultToggle)).(focus := k);
      SendDid(r, LocoRequest(k), answers);
    }
  }

  lemma TabOpDid(p: Panel, op: Op, answers: Answers)
    requires Structured(p) && (op.AddCab? || op.FocusCab? || op.SelectCab? || op.ReplaceCab?)
    ensures Did(p, Apply(p, op, answers).panel,
                if NewFocus(p, op).Some? then [LocoRequest(NewFocus(p, op).value)] else [], answers)
  {
    DidNothing(p, p, answers);
    match op
    case SelectCab(k) => SelectedDid(p, k, false, answers);
    case FocusCab(k) =>
      assert k in p.cabs ==> IsEntry(k, p.cabs[k]);
      SelectedDid(p, k, true, answers);
    case AddCab(k) => if k !in p.cabs && IsCab(k) { SelectedDid(WithTab(p, k, p.defaultToggle), k, true, answers); }
    case ReplaceCab(gone, next) => if NewFocus(p, op).Some? {
      var q := p.(cabs := p.cabs[next := Successor(p.cabs[gone].state, next)], order := Renumbered(p.order, gone, next));
      SelectedDid(q, next, true, answers);
      DidLike(p, q, Selected(q, next, true, answers).panel, Replaced(p, gone, next, answers).panel, [LocoRequest(next)], answers);
    }
  }

  // ------------------------------------------------------------------ main results

  /** The connection ends before an attach begins anew, and at a detach. */
  function Farewell(p: Panel, op: Op): seq<Wire> {
    if p.attached && (op.Attach? || op.Detach?) then [Closed] else []
  }

  /** Whether the operation has a connection to speak over. */
  predicate CanSpeak(p: Panel, op: Op) {
    op.Attach? || (p.attached && !op.Detach?)
  }

  lemma OperationDid(p: Panel, op: Op, answers: Answers)
    requires Structured(p) && AllGood(p, false) && !op.Attach? && !op.Detach?
    ensures IsOrdered(p) && Did(p, Apply(p, op, answers).panel, Wanted(p, op), answers)
  {
    OrderedPanel(p);
    DidNothing(p, p, answers);
    if op.Do? {
      CommandDid(p, p.focus, op.intent, answers);
    } else if op.WithCab? {
      if op.cab in p.cabs {
        CommandDid(p, op.cab, op.intent, answers);
      }
    } else if op.Tick? {
      TickDid(p, p.order, op.now, answers);
    } else {
      OtherDid(p, op, answers);
    }
  }

  lemma CommandDid(p: Panel, k: int, intent: UserIntent, answers: Answers)
    requires Structured(p) && AllGood(p, false) && k in p.cabs
    ensures Did(p, Obey(p, k, intent, answers).panel, WantedOfIntent(k, p.cabs[k], intent), answers)
  {
    assert IsEntry(k, p.cabs[k]) && Good(p.cabs[k], p.attached, false);
    ObeyDid(p, k, intent, answers);
  }

  lemma OtherDid(p: Panel, op: Op, answers: Answers)
    requires Structured(p) && IsOrdered(p)
    requires !IsCommand(op) && !op.Tick? && !op.Attach? && !op.Detach?
    ensures Did(p, Apply(p, op, answers).panel, Wanted(p, op), answers)
  {
    var q := Apply(p, op, answers).panel;
    DidNothing(p, p, answers);
    if op.AddCab? || op.FocusCab? || op.SelectCab? || op.ReplaceCab? {
      TabOpDid(p, op, answers);
    } else if op.Station? {
      SendDid(p, op.cmd, answers);
    } else if op.TogglePower? {
      SendDid(p, Command.Power(RolePowerOf(p, op.track) == Off, op.track), answers);
    } else if op.Poll? {
      SendDid(p, CurrentQuery, answers);
    } else {
      DidNothing(p, q, answers);
    }
  }

  /** The close of the old connection, if the operation ends it, and the attempt of the commands, if
      it has one to speak over. */
  function Speech(p: Panel, op: Op, cmds: seq<Command>, answers: Answers): seq<Wire> {
    Farewell(p, op) + if CanSpeak(p, op) then Attempted(cmds, |p.log| + |Farewell(p, op)|, answers) else []
  }

  /** From p to q exactly this went over the connection: the close of the old one, if the operation
      ends it, then the commands, in order, up to the first that fails and the close that follows;
      and the connection stands afterwards exactly if none failed. */
  predicate IsTranscript(p: Panel, op: Op, q: Panel, cmds: seq<Command>, answers: Answers) {
    && q.log == p.log + Speech(p, op, cmds, answers)
    && (q.attached <==> CanSpeak(p, op) && AllAnswered(cmds, |p.log| + |Farewell(p, op)|, answers))
  }

  lemma DidTranscript(p: Panel, op: Op, q: Panel, cmds: seq<Command>, answers: Answers)
    requires Did(p, q, cmds, answers) && !op.Attach? && !op.Detach?
    ensures IsTranscript(p, op, q, cmds, answers)
  {
    var attempt := Attempted(cmds, |p.log|, answers);
    assert [] + attempt == attempt && p.log + [] == p.log;
  }

  lemma Assoc(a: seq<Wire>, b: seq<Wire>, c: seq<Wire>)
    ensures (a + b) + c == a + (b + c)
  {
  }

  lemma AttachTranscript(p: Panel, op: Op, answers: Answers)
    requires op.Attach?
    ensures IsTranscript(p, op, Attached(p, answers).panel, [TrackQuery, Status] + Requests(p.order), answers)
  {
    AttachedDid(p, answers);
    assert p.log + [] == p.log;
    var cmds := [TrackQuery, Status] + Requests(p.order);
    Assoc(p.log, Farewell(p, op), Attempted(cmds, |p.log| + |Farewell(p, op)|, answers));
  }

  /** Every operation sends exactly the commands it wants. */
  lemma SendsExactly(p: Panel, op: Op, answers: Answers)
    requires Structured(p) && AllGood(p, false)
    ensures IsOrdered(p) && IsTranscript(p, op, Apply(p, op, answers).panel, Wanted(p, op), answers)
  {
    OrderedPanel(p);
    if op.Attach? {
      AttachTranscript(p, op, answers);
    } else if op.Detach? {
      assert p.log + ([] + []) == p.log && p.log + ([Closed] + []) == p.log + [Closed];
    } else {
      OperationDid(p, op, answers);
      DidTranscript(p, op, Apply(p, op, answers).panel, Wanted(p, op), answers);
    }
  }

  // -------------------------------------------------------------- every command

  /** Why a command is sent. */
  ghost predicate HasReason(p: Panel, op: Op, cmd: Command) {
    match cmd
    case EmergencyStop => IsCommand(op) && Target(p, op).Some? && op.intent.Emergency?
    case Power(on, track) =>
      || (op.Station? && op.cmd == cmd)
      || (op.TogglePower? && op.track == track && track != All && RolePowerOf(p, track) != Unreported
          && (on <==> RolePowerOf(p, track) == Off))
    case LocoRequest(k) => (op.Attach? && k in p.order) || NewFocus(p, op) == Some(k)
    case TrackQuery => op.Attach?
    case Status => op.Attach?
    case CurrentQuery => op.Poll? && p.poll
    case Function(k, n, state) =>
      && IsCommand(op) && Target(p, op) == Some(k) && k in p.cabs && IsFunction(n)
      && if op.intent.Press? then op.intent.n == n && WantedOfPress(k, p.cabs[k], n, op.intent.pressed) == [cmd]
         else op.intent.AllFunctionsOff? && state == 0 && p.cabs[k].state.functions[n]
    case Throttle(k, speed, dir) =>
      && k in p.cabs
      && if op.Tick? then IsDue(p, k, op.now) && p.cabs[k].pending == Some(speed) && dir == p.cabs[k].state.direction
         else IsCommand(op) && Target(p, op) == Some(k) && WantedOfIntent(k, p.cabs[k], op.intent) == [cmd]
    case _ => op.Station? && op.cmd == cmd
  }

  lemma {:induction false} OffsAreOn(k: int, on: Flags, n: nat, cmd: Command)
    requires n <= FUNCTIONS && cmd in Offs(k, on, n)
    ensures cmd.Function? && cmd.cab == k && cmd.state == 0 && IsFunction(cmd.function_) && on[cmd.function_]
    decreases FUNCTIONS - n
  {
    if n < FUNCTIONS && cmd in Offs(k, on, n + 1) {
      OffsAreOn(k, on, n + 1, cmd);
    }
  }

  lemma {:induction false} TickCommandsAreDue(p: Panel, tabs: seq<int>, now: int, cmd: Command)
    requires forall i | 0 <= i < |tabs| :: tabs[i] in p.cabs
    requires cmd in WantedOfTick(p, tabs, now)
    ensures cmd.Throttle? && cmd.cab in tabs && IsDue(p, cmd.cab, now)
    ensures cmd in WantedOfTab(p, cmd.cab, now)
  {
    if cmd in WantedOfTick(p, tabs[1..], now) {
      TickCommandsAreDue(p, tabs[1..], now, cmd);
    }
  }

  lemma {:induction false} RequestsAreOfTabs(tabs: seq<int>, cmd: Command)
    requires cmd in Requests(tabs)
    ensures cmd.LocoRequest? && cmd.cab in tabs
  {
    if cmd in Requests(tabs[1..]) {
      RequestsAreOfTabs(tabs[1..], cmd);
    }
  }

  lemma IntentHasReason(p: Panel, op: Op, k: int, cmd: Command)
    requires IsCommand(op) && Target(p, op) == Some(k) && k in p.cabs
    requires cmd in WantedOfIntent(k, p.cabs[k], op.intent)
    ensures HasReason(p, op, cmd)
  {
    var wanted := WantedOfIntent(k, p.cabs[k], op.intent);
    if op.intent.AllFunctionsOff? {
      OffsAreOn(k, p.cabs[k].state.functions, 0, cmd);
    } else {
      OneWanted(k, p.cabs[k], op.intent);
      assert wanted == [cmd];
    }
  }

  lemma OneWanted(k: int, r: Runtime, intent: UserIntent)
    requires !intent.AllFunctionsOff? && WantedOfIntent(k, r, intent) != []
    ensures |WantedOfIntent(k, r, intent)| == 1
    ensures var cmd := WantedOfIntent(k, r, intent)[0];
            match cmd
            case EmergencyStop => intent.Emergency?
            case Function(c, n, _) => intent.Press? && c == k && n == intent.n && IsFunction(n)
            case Throttle(c, _, _) => c == k && !intent.Press? && !intent.Emergency?
            case _ => false
  {
  }

  lemma WantedHasReason(p: Panel, op: Op, cmd: Command)
    requires p.focus in p.cabs && IsOrdered(p) && cmd in Wanted(p, op)
    ensures HasReason(p, op, cmd)
  {
    if IsCommand(op) {
      IntentHasReason(p, op, Target(p, op).value, cmd);
    } else if op.Tick? {
      TickCommandsAreDue(p, p.order, op.now, cmd);
    } else if op.Attach? {
      if cmd != TrackQuery && cmd != Status {
        RequestsAreOfTabs(p.order, cmd);
      }
    }
  }

  lemma {:induction false} AttemptedAreWanted(cmds: seq<Command>, n: nat, answers: Answers, w: Wire)
    requires w in Attempted(cmds, n, answers)
    ensures w.Sent? ==> w.cmd in cmds
    decreases |cmds|
  {
    if answers(n) && w in Attempted(cmds[1..], n + 1, answers) {
      AttemptedAreWanted(cmds[1..], n + 1, answers, w);
    }
  }

  /** What an operation says to the station. */
  ghost function Spoken(p: Panel, op: Op, answers: Answers): seq<Wire>
    requires p.focus in p.cabs && IsOrdered(p)
  {
    Speech(p, op, Wanted(p, op), answers)
  }

  lemma SpokenHasReason(p: Panel, op: Op, w: Wire, answers: Answers)
    requires p.focus in p.cabs && IsOrdered(p) && w in Spoken(p, op, answers) && w.Sent?
    ensures HasReason(p, op, w.cmd)
  {
    AttemptedAreWanted(Wanted(p, op), |p.log| + |Farewell(p, op)|, answers, w);
    WantedHasReason(p, op, w.cmd);
  }

  lemma NewWireOf(p: Panel, q: Panel, speech: seq<Wire>)
    requires q.log == p.log + speech
    ensures NewWire(p, q) == speech
  {
  }

  lemma SentIsSpoken(p: Panel, op: Op, answers: Answers)
    requires Structured(p) && AllGood(p, false)
    ensures IsOrdered(p) && NewWire(p, Apply(p, op, answers).panel) == Spoken(p, op, answers)
  {
    SendsExactly(p, op, answers);
    NewWireOf(p, Apply(p, op, answers).panel, Spoken(p, op, answers));
  }

  /** What operation number i of a run sends: exactly what it wants, and nothing without a reason.
      An emergency stop goes out only for an emergency, a power command only when somebody asks or
      toggles a track whose state is known, a question about a locomotive only for the tabs of an
      attach and for a cab newly in focus, the track query and the status request only for an
      attach, and so on for every command there is. */
  lemma {:induction false} EveryCommandHasReason(run: Run, i: nat)
    requires IsRun(run) && i < |run.ops|
    ensures IsOrdered(At(run, i)) && NewLog(run, i) == Spoken(At(run, i), run.ops[i], run.answers)
    ensures forall w | w in NewLog(run, i) && w.Sent? :: HasReason(At(run, i), run.ops[i], w.cmd)
  {
    Stepped(run, i);
    DisplayedAgreesWithSent(run, i);
    SentIsSpoken(At(run, i), run.ops[i], run.answers);
    forall w | w in NewLog(run, i) && w.Sent? ensures HasReason(At(run, i), run.ops[i], w.cmd) {
      SpokenHasReason(At(run, i), run.ops[i], w, run.answers);
    }
  }
}
