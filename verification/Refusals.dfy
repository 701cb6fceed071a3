/** When an operation fails: what it refuses outright, what needs a connection, and otherwise
    exactly a command that fails. */
module Refusals {
  import opened Results
  import opened Commands
  import opened Settings
  import opened Messages
  import opened Panel
  import opened Structure
  import opened Runs
  import opened Agreement
  import opened Movement
  import opened Effects
  import opened Transcripts

  /** Why an operation is refused before it has any effect. */
  function Refusal(p: Panel, op: Op): Option<Failure> {
    match op
    case Do(intent) => RefusalOfIntent(intent)
    case WithCab(k, intent) => if k !in p.cabs then Some(TabClosed) else RefusalOfIntent(intent)
    case AddCab(k) => if k in p.cabs then Some(TabOpen) else if !IsCab(k) then Some(Invalid) else None
    case FocusCab(k) => if k !in p.cabs then Some(TabClosed) else None
    case SelectCab(k) => if !IsCab(k) then Some(Invalid) else None
    case RemoveCab(k) =>
      if k !in p.cabs then Some(TabClosed)
      else if |p.order| == 1 then Some(LastTab)
      else if !IsAtRest(p.cabs[k]) then Some(StillMoving)
      else None
    case ReplaceCab(gone, next) =>
      if gone == next then None
      else if !IsCab(next) then Some(Invalid)
      else if next in p.cabs then Some(TabOpen)
      else if gone !in p.cabs then Some(TabClosed)
      else if !IsAtRest(p.cabs[gone]) then Some(StillMoving)
      else None
    case RenameCab(k, name) =>
      if k !in p.cabs then Some(TabClosed) else if !IsDisplayName(name) then Some(Invalid) else None
    case SetFunctionLabel(k, n, label_) =>
      if k !in p.cabs then Some(TabClosed) else if !IsFunction(n) || !IsDisplayName(label_) then Some(Invalid) else None
    case SetFunctionHidden(k, n, hidden) =>
      if k !in p.cabs then Some(TabClosed)
      else if !IsFunction(n) then Some(Invalid)
      else if hidden && p.cabs[k].held[n] then Some(StillHeld)
      else None
    case Station(cmd) => if !InRange(cmd) then Some(Invalid) else None
    case TogglePower(track) =>
      if track == All then Some(Invalid)
      else if !p.attached || RolePowerOf(p, track) == Unreported then Some(PowerUnknown)
      else None
    case _ => None
  }

  function RefusalOfIntent(intent: UserIntent): Option<Failure> {
    match intent
    case MoveSpeed(speed) => if 0 <= speed <= 126 then None else Some(Invalid)
    case SetDirection(dir, _) => if dir == 0 || dir == 1 then None else Some(Invalid)
    case Press(n, _) => if IsFunction(n) then None else Some(Invalid)
    case SetToggle(n, _) => if IsFunction(n) then None else Some(Invalid)
    case FlipToggle(n) => if IsFunction(n) then None else Some(Invalid)
    case _ => None
  }

  /** The operations that fail without a connection if they have anything to send. */
  predicate NeedsConnection(op: Op) {
    IsCommand(op) || op.Station?
  }

  /** What an operation reports. */
  ghost function Failing(p: Panel, op: Op, answers: Answers): Option<Failure>
    requires p.focus in p.cabs && IsOrdered(p)
  {
    if Refusal(p, op).Some? then Refusal(p, op)
    else if CanSpeak(p, op) then
      if AllAnswered(Wanted(p, op), |p.log| + |Farewell(p, op)|, answers) then None else Some(SendFailed)
    else if NeedsConnection(op) && Wanted(p, op) != [] then Some(NotConnected)
    else None
  }

  /** A failure that is no refusal. */
  predicate IsTransportError(err: Option<Failure>) {
    err == None || err == Some(SendFailed) || err == Some(NotConnected)
  }

  lemma {:induction false} OffFromFails(p: Panel, k: int, on: Flags, n: nat, answers: Answers)
    requires k in p.cabs && IsCab(k) && n <= FUNCTIONS
    ensures var err := OffFrom(p, k, on, n, answers).err;
            if p.attached then err == None || err == Some(SendFailed)
            else err == if Offs(k, on, n) == [] then None else Some(NotConnected)
    decreases FUNCTIONS - n
  {
    if n < FUNCTIONS {
      if !on[n] {
        OffFromFails(p, k, on, n + 1, answers);
      } else {
        var s := Issue(p, Function(k, n, 0), answers);
        if s.err == None {
          OffFromFails(WithFunction(s.panel, k, n, false), k, on, n + 1, answers);
        }
      }
    }
  }

  lemma {:induction false} TickFails(p: Panel, tabs: seq<int>, now: int, answers: Answers)
    requires CanTick(p, tabs)
    ensures var err := TickAll(p, tabs, now, answers).err;
            err == None || (p.attached && err == Some(SendFailed))
    decreases |tabs|
  {
    if tabs != [] {
      var r := Ticked(p, tabs[0], now, answers);
      assert Good(p.cabs[tabs[0]], p.attached, false) && IsEntry(tabs[0], p.cabs[tabs[0]]);
      if r.err == None {
        RestOfTick(p, tabs, now, answers);
        TickFails(r.panel, tabs[1..], now, answers);
      }
    }
  }

  /** The outcome of a command to one cab. */
  predicate Fails(p: Panel, r: Reply, refusal: Option<Failure>, wanted: seq<Command>) {
    if refusal.Some? then r.err == refusal && r.panel == p
    else if p.attached then r.err == None || r.err == Some(SendFailed)
    else r.err == if wanted == [] then None else Some(NotConnected)
  }

  lemma PressedFails(p: Panel, k: int, n: int, pressed: bool, answers: Answers)
    requires k in p.cabs && IsCab(k)
    ensures Fails(p, Pressed(p, k, n, pressed, answers), RefusalOfIntent(Press(n, pressed)), WantedOfPress(k, p.cabs[k], n, pressed))
  {
  }

  lemma DirectedFails(p: Panel, k: int, dir: int, now: int, answers: Answers)
    requires k in p.cabs && IsCab(k) && Good(p.cabs[k], p.attached, false)
    ensures Fails(p, Directed(p, k, dir, now, answers), RefusalOfIntent(SetDirection(dir, now)),
                  WantedOfIntent(k, p.cabs[k], SetDirection(dir, now)))
  {
  }

  lemma ObeyFails(p: Panel, k: int, intent: UserIntent, answers: Answers)
    requires k in p.cabs && IsCab(k) && Good(p.cabs[k], p.attached, false)
    ensures Fails(p, Obey(p, k, intent, answers), RefusalOfIntent(intent), WantedOfIntent(k, p.cabs[k], intent))
  {
    match intent
    case SetDirection(dir, now) => DirectedFails(p, k, dir, now, answers);
    case FlipDirection(now) => DirectedFails(p, k, 1 - p.cabs[k].state.direction, now, answers);
    case Press(n, pressed) => PressedFails(p, k, n, pressed, answers);
    case AllFunctionsOff => OffFromFails(p, k, p.cabs[k].state.functions, 0, answers);
    case _ =>
  }

  lemma CommandFails(p: Panel, op: Op, answers: Answers)
    requires Structured(p) && AllGood(p, false) && IsCommand(op)
    ensures IsOrdered(p) && Fails(p, Apply(p, op, answers), Refusal(p, op), Wanted(p, op))
  {
    OrderedPanel(p);
    if Target(p, op).Some? {
      var k := Target(p, op).value;
      assert IsEntry(k, p.cabs[k]) && Good(p.cabs[k], p.attached, false);
      ObeyFails(p, k, op.intent, answers);
    }
  }

  /** A tab operation is refused, or fails by its question to the station alone. */
  predicate FailsAsTab(p: Panel, r: Reply, refusal: Option<Failure>) {
    if refusal.Some? then r.err == refusal && r.panel == p else r.err == None || (p.attached && r.err == Some(SendFailed))
  }

  lemma TabOpFails(p: Panel, op: Op, answers: Answers)
    requires Structured(p) && (op.AddCab? || op.FocusCab? || op.SelectCab? || op.ReplaceCab?)
    ensures FailsAsTab(p, Apply(p, op, answers), Refusal(p, op))
  {
    assert op.FocusCab? && op.cab in p.cabs ==> IsEntry(op.cab, p.cabs[op.cab]);
  }

  lemma ClosingFails(p: Panel, op: Op, answers: Answers)
    requires Structured(p) && op.RemoveCab?
    ensures Apply(p, op, answers).err == Refusal(p, op)
    ensures Refusal(p, op).Some? ==> Apply(p, op, answers).panel == p
  {
    assert forall k :: k in p.order <==> k in p.cabs.Keys;
    OrderCountsCabs(p.order, p.cabs.Keys);
  }

  lemma EditFails(p: Panel, op: Op, answers: Answers)
    requires p.focus in p.cabs
    requires op.RenameCab? || op.SetFunctionLabel? || op.SetFunctionHidden? || op.SetPoll? || op.Receive? || op.Detach?
    ensures Apply(p, op, answers).err == Refusal(p, op)
    ensures Refusal(p, op).Some? ==> Apply(p, op, answers).panel == p
  {
  }

  lemma StationFails(p: Panel, op: Op, answers: Answers)
    requires p.focus in p.cabs && IsOrdered(p) && (op.Station? || op.TogglePower? || op.Poll?)
    ensures var r := Apply(p, op, answers);
            if Refusal(p, op).Some? then r.err == Refusal(p, op) && r.panel == p
            else if p.attached then r.err == None || r.err == Some(SendFailed)
            else r.err == if op.Station? then Some(NotConnected) else None
  {
  }

  lemma AttachFails(p: Panel, answers: Answers)
    ensures var r := Attached(p, answers); r.err == None || r.err == Some(SendFailed)
  {
    var q := Detached(p).(attached := true);
    var r := Send(q, TrackQuery, answers);
    if r.err == None {
      var s := Send(r.panel, Status, answers);
      if s.err == None {
        RequestsFailBySending(s.panel, q.order, answers);
      }
    }
  }

  /** Refused operations change nothing; any other either needs a connection that is not there, or
      fails by a command, or succeeds. */
  lemma RefusedOrTransport(p: Panel, op: Op, answers: Answers)
    requires Structured(p) && AllGood(p, false)
    ensures IsOrdered(p)
    ensures var r := Apply(p, op, answers);
            if Refusal(p, op).Some? then r.err == Refusal(p, op) && r.panel == p
            else if CanSpeak(p, op) then r.err == None || r.err == Some(SendFailed)
            else r.err == if NeedsConnection(op) && Wanted(p, op) != [] then Some(NotConnected) else None
  {
    OrderedPanel(p);
    if IsCommand(op) {
      CommandFails(p, op, answers);
    } else if op.Tick? {
      TickFails(p, p.order, op.now, answers);
    } else if op.Attach? {
      AttachFails(p, answers);
    } else if op.RemoveCab? {
      ClosingFails(p, op, answers);
    } else if op.Station? || op.TogglePower? || op.Poll? {
      StationFails(p, op, answers);
    } else if op.AddCab? || op.FocusCab? || op.SelectCab? || op.ReplaceCab? {
      TabOpFails(p, op, answers);
    } else {
      EditFails(p, op, answers);
    }
  }

  /** Exactly what every operation reports: its refusal, which changes nothing at all; or that there
      is no connection, for a command that has something to send; or a failed send, if and only if
      one of the commands it sends fails; or success. */
  lemma FailsExactly(p: Panel, op: Op, answers: Answers)
    requires Structured(p) && AllGood(p, false)
    ensures IsOrdered(p) && Apply(p, op, answers).err == Failing(p, op, answers)
    ensures Refusal(p, op).Some? ==> Apply(p, op, answers).panel == p
  {
    RefusedOrTransport(p, op, answers);
    if Refusal(p, op) == None && CanSpeak(p, op) {
      SendsExactly(p, op, answers);
      ConnectionEndsExactly(p, op, answers);
    }
  }

  /** So it is in every run. */
  lemma {:induction false} EveryFailureIsExplained(run: Run, i: nat)
    requires IsRun(run) && i < |run.ops|
    ensures IsOrdered(At(run, i)) && Apply(At(run, i), run.ops[i], run.answers).err == Failing(At(run, i), run.ops[i], run.answers)
    ensures Refusal(At(run, i), run.ops[i]).Some? ==> At(run, i + 1) == At(run, i)
  {
    Stepped(run, i);
    DisplayedAgreesWithSent(run, i);
    FailsExactly(At(run, i), run.ops[i], run.answers);
  }
}
