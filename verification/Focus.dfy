/** Commands to a cab neither read nor change the focus, and touch no other cab. */
module Focus {
  import opened Results
  import opened Commands
  import opened Settings
  import opened Panel
  import opened Structure
  import opened Sets

  function Refocus(r: Reply, f: int): Reply {
    Reply(r.panel.(focus := f), r.err)
  }

  lemma {:induction false} OffFromIgnoresFocus(p: Panel, k: int, on: Flags, n: nat, f: int, answers: Answers)
    requires k in p.cabs && n <= FUNCTIONS
    ensures OffFrom(p.(focus := f), k, on, n, answers) == Refocus(OffFrom(p, k, on, n, answers), f)
    decreases FUNCTIONS - n
  {
    if n < FUNCTIONS {
      if !on[n] {
        OffFromIgnoresFocus(p, k, on, n + 1, f, answers);
      } else {
        var s := Issue(p, Function(k, n, 0), answers);
        if s.err == None {
          OffFromIgnoresFocus(WithFunction(s.panel, k, n, false), k, on, n + 1, f, answers);
        }
      }
    }
  }

  lemma SendIgnoresFocus(p: Panel, cmd: Command, f: int, answers: Answers)
    ensures Send(p.(focus := f), cmd, answers) == Refocus(Send(p, cmd, answers), f)
  {
  }

  lemma TransmitIgnoresFocus(p: Panel, k: int, speed: int, dir: int, now: int, f: int, answers: Answers)
    requires k in p.cabs
    ensures Transmit(p.(focus := f), k, speed, dir, now, answers) == Refocus(Transmit(p, k, speed, dir, now, answers), f)
  {
    SendIgnoresFocus(p, Throttle(k, speed, dir), f, answers);
  }

  lemma EmergencyIgnoresFocus(p: Panel, k: int, f: int, answers: Answers)
    requires k in p.cabs
    ensures EmergencyStopped(p.(focus := f), k, answers) == Refocus(EmergencyStopped(p, k, answers), f)
  {
    SendIgnoresFocus(p.(cabs := Each(p.cabs, Cancelled)), EmergencyStop, f, answers);
  }

  lemma PressedIgnoresFocus(p: Panel, k: int, n: int, pressed: bool, f: int, answers: Answers)
    requires k in p.cabs
    ensures Pressed(p.(focus := f), k, n, pressed, answers) == Refocus(Pressed(p, k, n, pressed, answers), f)
  {
    SendIgnoresFocus(p, Function(k, n, 0), f, answers);
    SendIgnoresFocus(p, Function(k, n, 1), f, answers);
  }

  lemma DirectedIgnoresFocus(p: Panel, k: int, dir: int, now: int, f: int, answers: Answers)
    requires k in p.cabs
    ensures Directed(p.(focus := f), k, dir, now, answers) == Refocus(Directed(p, k, dir, now, answers), f)
  {
    TransmitIgnoresFocus(p, k, p.cabs[k].state.speed, dir, now, f, answers);
  }

  lemma StoppedIgnoresFocus(p: Panel, k: int, now: int, f: int, answers: Answers)
    requires k in p.cabs
    ensures Stopped(p.(focus := f), k, now, answers) == Refocus(Stopped(p, k, now, answers), f)
  {
    TransmitIgnoresFocus(WithoutPending(p, k), k, 0, p.cabs[k].state.direction, now, f, answers);
  }

  lemma TickedIgnoresFocus(p: Panel, k: int, now: int, f: int, answers: Answers)
    requires k in p.cabs
    ensures Ticked(p.(focus := f), k, now, answers) == Refocus(Ticked(p, k, now, answers), f)
  {
    if p.cabs[k].pending.Some? {
      TransmitIgnoresFocus(WithoutPending(p, k), k, p.cabs[k].pending.value, p.cabs[k].state.direction, now, f, answers);
    }
  }

  lemma ObeyIgnoresFocus(p: Panel, k: int, intent: Intent, f: int, answers: Answers)
    requires k in p.cabs
    ensures Obey(p.(focus := f), k, intent, answers) == Refocus(Obey(p, k, intent, answers), f)
  {
    var s := p.cabs[k].state;
    match intent
    case AllFunctionsOff => OffFromIgnoresFocus(p, k, s.functions, 0, f, answers);
    case SetDirection(dir, now) => DirectedIgnoresFocus(p, k, dir, now, f, answers);
    case FlipDirection(now) => DirectedIgnoresFocus(p, k, 1 - s.direction, now, f, answers);
    case Stop(now) => StoppedIgnoresFocus(p, k, now, f, answers);
    case Emergency => EmergencyIgnoresFocus(p, k, f, answers);
    case Press(n, pressed) => PressedIgnoresFocus(p, k, n, pressed, f, answers);
    case TickOne(now) => TickedIgnoresFocus(p, k, now, f, answers);
    case _ =>
  }

  /** All cabs but one, the tabs and the focus are what they were. */
  ghost predicate SameElsewhere(p: Panel, q: Panel, k: int) {
    && q.focus == p.focus && q.order == p.order && q.cabs.Keys == p.cabs.Keys
    && forall c | c in p.cabs && c != k :: q.cabs[c] == p.cabs[c]
  }

  lemma {:induction false} SwitchingOffIsLocal(p: Panel, k: int, on: Flags, n: nat, answers: Answers)
    requires k in p.cabs && n <= FUNCTIONS
    requires OffFrom(p, k, on, n, answers).panel.attached == p.attached
    ensures SameElsewhere(p, OffFrom(p, k, on, n, answers).panel, k)
    decreases FUNCTIONS - n
  {
    if n < FUNCTIONS {
      if !on[n] {
        SwitchingOffIsLocal(p, k, on, n + 1, answers);
      } else {
        var s := Issue(p, Function(k, n, 0), answers);
        if s.err == None {
          var t := WithFunction(s.panel, k, n, false);
          OffFromStaysOffline(t, k, on, n + 1, answers);
          assert t.attached == p.attached && t.cabs.Keys == p.cabs.Keys;
          SwitchingOffIsLocal(t, k, on, n + 1, answers);
        }
      }
    }
  }

  lemma {:induction false} OffFromStaysOffline(p: Panel, k: int, on: Flags, n: nat, answers: Answers)
    requires k in p.cabs && n <= FUNCTIONS
    ensures OffFrom(p, k, on, n, answers).panel.attached ==> p.attached
    decreases FUNCTIONS - n
  {
    if n < FUNCTIONS {
      if !on[n] {
        OffFromStaysOffline(p, k, on, n + 1, answers);
      } else {
        var s := Issue(p, Function(k, n, 0), answers);
        if s.err == None {
          OffFromStaysOffline(WithFunction(s.panel, k, n, false), k, on, n + 1, answers);
        }
      }
    }
  }

  lemma TransmitIsLocal(p: Panel, k: int, speed: int, dir: int, now: int, answers: Answers)
    requires k in p.cabs && Transmit(p, k, speed, dir, now, answers).panel.attached == p.attached
    ensures SameElsewhere(p, Transmit(p, k, speed, dir, now, answers).panel, k)
  {
    assert Transmit(p, k, speed, dir, now, answers).panel.cabs.Keys == p.cabs.Keys;
  }

  lemma DirectedIsLocal(p: Panel, k: int, dir: int, now: int, answers: Answers)
    requires k in p.cabs && Directed(p, k, dir, now, answers).panel.attached == p.attached
    ensures SameElsewhere(p, Directed(p, k, dir, now, answers).panel, k)
  {
    assert Directed(p, k, dir, now, answers).panel.cabs.Keys == p.cabs.Keys;
    if (dir == 0 || dir == 1) && dir != p.cabs[k].state.direction {
      TransmitIsLocal(p, k, p.cabs[k].state.speed, dir, now, answers);
    }
  }

  lemma StoppedIsLocal(p: Panel, k: int, now: int, answers: Answers)
    requires k in p.cabs && Stopped(p, k, now, answers).panel.attached == p.attached
    ensures SameElsewhere(p, Stopped(p, k, now, answers).panel, k)
  {
    assert Stopped(p, k, now, answers).panel.cabs.Keys == p.cabs.Keys;
    TransmitIsLocal(WithoutPending(p, k), k, 0, p.cabs[k].state.direction, now, answers);
  }

  lemma TickedIsLocal(p: Panel, k: int, now: int, answers: Answers)
    requires k in p.cabs && Ticked(p, k, now, answers).panel.attached == p.attached
    ensures SameElsewhere(p, Ticked(p, k, now, answers).panel, k)
  {
    assert Ticked(p, k, now, answers).panel.cabs.Keys == p.cabs.Keys;
  }

  lemma PressedIsLocal(p: Panel, k: int, n: int, pressed: bool, answers: Answers)
    requires k in p.cabs && Pressed(p, k, n, pressed, answers).panel.attached == p.attached
    ensures SameElsewhere(p, Pressed(p, k, n, pressed, answers).panel, k)
  {
    assert Pressed(p, k, n, pressed, answers).panel.cabs.Keys == p.cabs.Keys;
  }

  lemma UpdateIsLocal(p: Panel, k: int, r: Runtime)
    requires k in p.cabs
    ensures SameElsewhere(p, Update(p, k, r), k) && SameElsewhere(p, p, k)
  {
    assert Update(p, k, r).cabs.Keys == p.cabs.Keys;
  }

  /** A command to one cab, other than the emergency stop, changes no other cab as long as the
      connection survives it. */
  lemma {:induction false} CommandsAreLocal(p: Panel, k: int, intent: Intent, answers: Answers)
    requires k in p.cabs && !intent.Emergency?
    requires Obey(p, k, intent, answers).panel.attached == p.attached
    ensures SameElsewhere(p, Obey(p, k, intent, answers).panel, k)
  {
    var s := p.cabs[k].state;
    match intent
    case SetDirection(dir, now) => DirectedIsLocal(p, k, dir, now, answers);
    case FlipDirection(now) => DirectedIsLocal(p, k, 1 - s.direction, now, answers);
    case Stop(now) => StoppedIsLocal(p, k, now, answers);
    case TickOne(now) => TickedIsLocal(p, k, now, answers);
    case Press(n, pressed) => PressedIsLocal(p, k, n, pressed, answers);
    case AllFunctionsOff => SwitchingOffIsLocal(p, k, s.functions, 0, answers);
    case MoveSpeed(_) => UpdateIsLocal(p, k, Obey(p, k, intent, answers).panel.cabs[k]);
    case SetToggle(_, _) => UpdateIsLocal(p, k, Obey(p, k, intent, answers).panel.cabs[k]);
    case FlipToggle(_) => UpdateIsLocal(p, k, Obey(p, k, intent, answers).panel.cabs[k]);
    case Hear(_, _, _) => UpdateIsLocal(p, k, Obey(p, k, intent, answers).panel.cabs[k]);
  }

  lemma RefocusedStructured(p: Panel, f: int)
    requires Structured(p) && f in p.cabs
    ensures Structured(p.(focus := f))
  {
  }

  /** Commanding another cab in focus and refocusing is commanding it from afar. */
  lemma ThereAndBack(p: Panel, k: int, intent: Intent, answers: Answers)
    requires Structured(p) && k in p.cabs
    ensures var r := Obey(p.(focus := k), k, intent, answers);
            && p.focus in r.panel.cabs
            && r.panel.focus == k
            && Refocus(r, p.focus) == Obey(p, k, intent, answers)
            && Structured(r.panel.(focus := p.focus))
  {
    ObeyIgnoresFocus(p, k, intent, k, answers);
    ObeyStructured(p, k, intent, answers);
    var q := Obey(p, k, intent, answers).panel;
    assert p.focus in q.cabs.Keys;
    assert q.(focus := p.focus) == q;
  }

  // ------------------------------------------------------------- several commands

  /** Commands to one cab one after the other, up to the first that fails. */
  ghost function ObeyAll(p: Panel, k: int, intents: seq<Intent>, answers: Answers): (r: Reply)
    requires Structured(p) && k in p.cabs
    ensures Structured(r.panel) && r.panel.cabs.Keys == p.cabs.Keys && r.panel.focus == p.focus
    decreases |intents|
  {
    if intents == [] then Reply(p, None)
    else
      ObeyStructured(p, k, intents[0], answers);
      var r := Obey(p, k, intents[0], answers);
      if r.err != None then r else ObeyAll(r.panel, k, intents[1..], answers)
  }

  lemma {:induction false} ObeyAllIgnoresFocus(p: Panel, k: int, intents: seq<Intent>, f: int, answers: Answers)
    requires Structured(p) && k in p.cabs && f in p.cabs
    ensures Structured(p.(focus := f))
    ensures ObeyAll(p.(focus := f), k, intents, answers) == Refocus(ObeyAll(p, k, intents, answers), f)
    decreases |intents|
  {
    RefocusedStructured(p, f);
    if intents != [] {
      ObeyIgnoresFocus(p, k, intents[0], f, answers);
      ObeyStructured(p, k, intents[0], answers);
      var r := Obey(p, k, intents[0], answers);
      if r.err == None {
        assert f in r.panel.cabs.Keys && k in r.panel.cabs.Keys;
        ObeyAllIgnoresFocus(r.panel, k, intents[1..], f, answers);
      }
    }
  }
}
