/** The throttle controller as a plain map of locomotives: the reference the register file
    of throttle/cabs.go is proved against. Every operation is a function from one panel to
    the next. The transport is an arbitrary answer to each request, numbered by the log. */
module Panel {
  import opened Results
  import opened Commands
  import opened Messages
  import opened Settings
  import opened Power
  import opened Sets

  /** 80 ms in nanoseconds. */
  const RATE_LIMIT := 80_000_000

  datatype CabState = CabState(
    cab: int, speed: int, direction: int, functions: Flags,
    name: Text, labels: Labels, toggle: Flags, hidden: Flags)

  datatype Runtime = Runtime(
    state: CabState, pending: Option<int>,
    lastSpeed: int, lastDirection: int, lastKnown: bool, lastSent: Option<int>, held: Flags)

  /** What happens at the connection: a command handed over with its outcome, or a close. */
  datatype Wire = Sent(cmd: Command, ok: bool) | Closed

  type Answers = nat -> bool

  datatype Panel = Panel(
    cabs: map<int, Runtime>, order: seq<int>, focus: int,
    attached: bool, poll: bool, defaultToggle: Flags, board: Board, log: seq<Wire>)

  datatype Failure =
    | NotConnected | SendFailed | Invalid | TabClosed | TabOpen | LastTab | StillMoving | StillHeld | PowerUnknown

  datatype Reply = Reply(panel: Panel, err: Option<Failure>)

  function NewState(cab: int, toggle: Flags): CabState {
    CabState(cab, 0, 1, NoFlags(), [], NoLabels(), toggle, NoFlags())
  }

  function Idle(state: CabState): Runtime {
    Runtime(state, None, 0, 0, false, None, NoFlags())
  }

  function New(toggle: Flags): Panel {
    Panel(map[3 := Idle(NewState(3, toggle))], [3], 3, false, true, toggle, NoBoard(), [])
  }

  // ---------------------------------------------------------------- connection

  function Quiet(r: Runtime): Runtime {
    r.(pending := None, lastKnown := false, held := NoFlags())
  }

  function Detached(p: Panel): Panel {
    p.(attached := false, board := NoBoard(),
       cabs := Each(p.cabs, Quiet),
       log := if p.attached then p.log + [Closed] else p.log)
  }

  function Send(p: Panel, cmd: Command, answers: Answers): Reply {
    if !p.attached then Reply(p, Some(NotConnected))
    else
      var sent := p.(log := p.log + [Sent(cmd, answers(|p.log|))]);
      if answers(|p.log|) then Reply(sent, None) else Reply(Detached(sent), Some(SendFailed))
  }

  /** Encode, then send. */
  function Issue(p: Panel, cmd: Command, answers: Answers): Reply {
    if !InRange(cmd) then Reply(p, Some(Invalid)) else Send(p, cmd, answers)
  }

  function RequestAll(p: Panel, tabs: seq<int>, answers: Answers): Reply
    decreases |tabs|
  {
    if tabs == [] then Reply(p, None)
    else
      var r := Send(p, LocoRequest(tabs[0]), answers);
      if r.err != None then r else RequestAll(r.panel, tabs[1..], answers)
  }

  function Attached(p: Panel, answers: Answers): Reply {
    var q := Detached(p).(attached := true);
    var r := Send(q, TrackQuery, answers);
    if r.err != None then r
    else
      var s := Send(r.panel, Status, answers);
      if s.err != None then s else RequestAll(s.panel, q.order, answers)
  }

  // ------------------------------------------------------- commands to one cab

  datatype Intent =
    | MoveSpeed(speed: int)
    | SetDirection(dir: int, now: int)
    | FlipDirection(now: int)
    | Stop(now: int)
    | Emergency
    | Press(n: int, pressed: bool)
    | AllFunctionsOff
    | SetToggle(n: int, on: bool)
    | FlipToggle(n: int)
    | TickOne(now: int)
    | Hear(speed: int, direction: int, functions: Flags)

  predicate IsFunction(n: int) {
    0 <= n < FUNCTIONS
  }

  function Update(p: Panel, k: int, r: Runtime): Panel {
    p.(cabs := p.cabs[k := r])
  }

  function Moved(p: Panel, k: int, speed: int): Reply
    requires k in p.cabs
  {
    var r := p.cabs[k];
    if !InRange(Throttle(k, speed, r.state.direction)) || speed < 0 then Reply(p, Some(Invalid))
    else Reply(Update(p, k, r.(state := r.state.(speed := speed), pending := if p.attached then Some(speed) else None)), None)
  }

  function Transmit(p: Panel, k: int, speed: int, dir: int, now: int, answers: Answers): (s: Reply)
    requires k in p.cabs
    ensures k in s.panel.cabs
  {
    var s := Issue(p, Throttle(k, speed, dir), answers);
    if s.err != None then s
    else
      var r := s.panel.cabs[k];
      Reply(Update(s.panel, k, r.(lastSpeed := speed, lastDirection := dir, lastKnown := true, lastSent := Some(now))), None)
  }

  predicate IsLimited(r: Runtime, now: int) {
    r.lastSent.Some? && now - r.lastSent.value < RATE_LIMIT
  }

  function WithoutPending(p: Panel, k: int): Panel
    requires k in p.cabs
  {
    Update(p, k, p.cabs[k].(pending := None))
  }

  function Ticked(p: Panel, k: int, now: int, answers: Answers): Reply
    requires k in p.cabs
  {
    var r := p.cabs[k];
    if r.pending == None || !p.attached then Reply(p, None)
    else if r.lastKnown && r.pending.value == r.lastSpeed && r.state.direction == r.lastDirection then
      Reply(WithoutPending(p, k), None)
    else if IsLimited(r, now) then Reply(p, None)
    else Transmit(WithoutPending(p, k), k, r.pending.value, r.state.direction, now, answers)
  }

  function Directed(p: Panel, k: int, dir: int, now: int, answers: Answers): Reply
    requires k in p.cabs
  {
    var r := p.cabs[k];
    if dir != 0 && dir != 1 then Reply(p, Some(Invalid))
    else if dir == r.state.direction then Reply(p, None)
    else
      var s := Transmit(p, k, r.state.speed, dir, now, answers);
      if s.err != None then s
      else var q := s.panel.cabs[k]; Reply(Update(s.panel, k, q.(state := q.state.(direction := dir))), None)
  }

  function Stopped(p: Panel, k: int, now: int, answers: Answers): Reply
    requires k in p.cabs
  {
    var s := Transmit(WithoutPending(p, k), k, 0, p.cabs[k].state.direction, now, answers);
    if s.err != None then s
    else var q := s.panel.cabs[k]; Reply(Update(s.panel, k, q.(state := q.state.(speed := 0))), None)
  }

  function Cancelled(r: Runtime): Runtime {
    r.(pending := None)
  }

  function Halted(r: Runtime): Runtime {
    r.(state := r.state.(speed := 0), pending := None, lastSpeed := 0)
  }

  function EmergencyStopped(p: Panel, k: int, answers: Answers): Reply
    requires k in p.cabs
  {
    var q := p.(cabs := Each(p.cabs, Cancelled));
    var s := Send(q, EmergencyStop, answers);
    if s.err != None then s
    else
      var halted := s.panel.(cabs := Each(s.panel.cabs, Halted));
      var r := halted.cabs[k];
      Reply(Update(halted, k, r.(lastDirection := r.state.direction, lastKnown := true)), None)
  }

  function WithHeld(p: Panel, k: int, n: int, held: bool): (q: Panel)
    requires k in p.cabs && IsFunction(n)
    ensures k in q.cabs
  {
    var r := p.cabs[k];
    Update(p, k, r.(held := r.held[n := held]))
  }

  function WithFunction(p: Panel, k: int, n: int, on: bool): (q: Panel)
    requires k in p.cabs && IsFunction(n)
    ensures k in q.cabs
  {
    var r := p.cabs[k];
    Update(p, k, r.(state := r.state.(functions := r.state.functions[n := on])))
  }

  /** Command function n; once sent, remember whether its button is held and, in toggle mode,
      what it now shows. */
  function Switched(p: Panel, k: int, n: int, on: bool, shown: bool, held: bool, answers: Answers): Reply
    requires k in p.cabs && IsFunction(n)
  {
    var s := Issue(p, Function(k, n, if on then 1 else 0), answers);
    if s.err != None then s
    else
      var t := WithHeld(s.panel, k, n, held);
      Reply(if shown then WithFunction(t, k, n, on) else t, None)
  }

  function Pressed(p: Panel, k: int, n: int, pressed: bool, answers: Answers): Reply
    requires k in p.cabs
  {
    if !IsFunction(n) then Reply(p, Some(Invalid))
    else
      var r := p.cabs[k];
      var toggle := r.state.toggle[n] && !(r.held[n] && !pressed);
      if toggle && !pressed then Reply(p, None)
      else
        Switched(p, k, n, if toggle then !r.state.functions[n] else pressed, toggle, pressed && !toggle, answers)
  }

  /** Turn off the functions from n on that were on at the start. */
  function OffFrom(p: Panel, k: int, on: Flags, n: nat, answers: Answers): Reply
    requires k in p.cabs && n <= FUNCTIONS
    decreases FUNCTIONS - n
  {
    if n == FUNCTIONS then Reply(p, None)
    else if !on[n] then OffFrom(p, k, on, n + 1, answers)
    else
      var s := Issue(p, Function(k, n, 0), answers);
      if s.err != None then s
      else OffFrom(WithFunction(s.panel, k, n, false), k, on, n + 1, answers)
  }

  function Toggled(p: Panel, k: int, n: int, on: bool): Reply
    requires k in p.cabs
  {
    if !IsFunction(n) then Reply(p, Some(Invalid))
    else
      var r := p.cabs[k];
      Reply(Update(p, k, r.(state := r.state.(toggle := r.state.toggle[n := on]))), None)
  }

  function HeardAt(p: Panel, k: int, speed: int, direction: int, functions: Flags): Panel
    requires k in p.cabs
  {
    var r := p.cabs[k];
    Update(p, k, r.(state := r.state.(speed := speed, direction := direction, functions := functions),
                    pending := None, lastSpeed := speed, lastDirection := direction, lastKnown := true))
  }

  function Obey(p: Panel, k: int, intent: Intent, answers: Answers): Reply
    requires k in p.cabs
  {
    match intent
    case MoveSpeed(speed) => Moved(p, k, speed)
    case SetDirection(dir, now) => Directed(p, k, dir, now, answers)
    case FlipDirection(now) => Directed(p, k, 1 - p.cabs[k].state.direction, now, answers)
    case Stop(now) => Stopped(p, k, now, answers)
    case Emergency => EmergencyStopped(p, k, answers)
    case Press(n, pressed) => Pressed(p, k, n, pressed, answers)
    case AllFunctionsOff => OffFrom(p, k, p.cabs[k].state.functions, 0, answers)
    case SetToggle(n, on) => Toggled(p, k, n, on)
    case FlipToggle(n) => if !IsFunction(n) then Reply(p, Some(Invalid)) else Toggled(p, k, n, !p.cabs[k].state.toggle[n])
    case TickOne(now) => Ticked(p, k, now, answers)
    case Hear(speed, direction, functions) => Reply(HeardAt(p, k, speed, direction, functions), None)
  }

  // ------------------------------------------------------------------------ tabs

  function WithTab(p: Panel, k: int, toggle: Flags): Panel {
    p.(cabs := p.cabs[k := Idle(NewState(k, toggle))], order := p.order + [k])
  }

  function Selected(p: Panel, k: int, preservePending: bool, answers: Answers): Reply
    requires p.focus in p.cabs
  {
    if !InRange(LocoRequest(k)) then Reply(p, Some(Invalid))
    else if k == p.focus then Reply(p, None)
    else
      var q := if preservePending then p else WithoutPending(p, p.focus);
      var r := (if k in q.cabs then q else WithTab(q, k, q.defaultToggle)).(focus := k);
      if r.attached then Send(r, LocoRequest(k), answers) else Reply(r, None)
  }

  function Focused(p: Panel, k: int, answers: Answers): Reply
    requires p.focus in p.cabs
  {
    if k !in p.cabs then Reply(p, Some(TabClosed)) else Selected(p, k, true, answers)
  }

  function Added(p: Panel, k: int, answers: Answers): Reply
    requires p.focus in p.cabs
  {
    if k in p.cabs then Reply(p, Some(TabOpen))
    else if !InRange(LocoRequest(k)) then Reply(p, Some(Invalid))
    else Focused(WithTab(p, k, p.defaultToggle), k, answers)
  }

  function Without(order: seq<int>, k: int): (s: seq<int>)
    ensures forall x :: x in s <==> x in order && x != k
  {
    if order == [] then []
    else if order[0] == k then Without(order[1..], k)
    else [order[0]] + Without(order[1..], k)
  }

  predicate IsAtRest(r: Runtime) {
    r.state.speed == 0 && r.pending == None
  }

  function Removed(p: Panel, k: int): Reply {
    if k !in p.cabs then Reply(p, Some(TabClosed))
    else if |p.cabs| == 1 then Reply(p, Some(LastTab))
    else if !IsAtRest(p.cabs[k]) then Reply(p, Some(StillMoving))
    else
      var order := Without(p.order, k);
      Reply(p.(cabs := p.cabs - {k}, order := order, focus := if p.focus == k && order != [] then order[0] else p.focus), None)
  }

  function Renumbered(order: seq<int>, gone: int, next: int): (s: seq<int>)
    ensures |s| == |order|
    ensures forall i | 0 <= i < |order| :: s[i] == if order[i] == gone then next else order[i]
  {
    seq(|order|, i requires 0 <= i < |order| => if order[i] == gone then next else order[i])
  }

  /** The new locomotive inherits the presentation of the tab and nothing else. */
  function Successor(s: CabState, next: int): Runtime {
    Idle(CabState(next, 0, 1, NoFlags(), s.name, s.labels, s.toggle, s.hidden))
  }

  function Replaced(p: Panel, gone: int, next: int, answers: Answers): Reply
    requires p.focus in p.cabs
  {
    if gone == next then Reply(p, None)
    else if !InRange(LocoRequest(next)) then Reply(p, Some(Invalid))
    else if next in p.cabs then Reply(p, Some(TabOpen))
    else if gone !in p.cabs then Reply(p, Some(TabClosed))
    else if !IsAtRest(p.cabs[gone]) then Reply(p, Some(StillMoving))
    else
      var q := p.(cabs := p.cabs[next := Successor(p.cabs[gone].state, next)], order := Renumbered(p.order, gone, next));
      var r := Focused(q, next, answers);
      Reply(r.panel.(cabs := r.panel.cabs - {gone}), r.err)
  }

  function Renamed(p: Panel, k: int, name: Text): Reply {
    if k !in p.cabs then Reply(p, Some(TabClosed))
    else if !IsDisplayName(name) then Reply(p, Some(Invalid))
    else var r := p.cabs[k]; Reply(Update(p, k, r.(state := r.state.(name := Trim(name)))), None)
  }

  function Labelled(p: Panel, k: int, n: int, label_: Text): Reply {
    if k !in p.cabs then Reply(p, Some(TabClosed))
    else if !IsFunction(n) || !IsDisplayName(label_) then Reply(p, Some(Invalid))
    else var r := p.cabs[k]; Reply(Update(p, k, r.(state := r.state.(labels := r.state.labels[n := Trim(label_)]))), None)
  }

  function Hidden(p: Panel, k: int, n: int, hidden: bool): Reply {
    if k !in p.cabs then Reply(p, Some(TabClosed))
    else if !IsFunction(n) then Reply(p, Some(Invalid))
    else if hidden && p.cabs[k].held[n] then Reply(p, Some(StillHeld))
    else var r := p.cabs[k]; Reply(Update(p, k, r.(state := r.state.(hidden := r.state.hidden[n := hidden]))), None)
  }

  // --------------------------------------------------------------- whole station

  /** One tick of the rate limiter over a list of tabs; it ends at the first failure. */
  function TickAll(p: Panel, tabs: seq<int>, now: int, answers: Answers): Reply
    decreases |tabs|
  {
    if tabs == [] then Reply(p, None)
    else if tabs[0] !in p.cabs then Reply(p, Some(TabClosed))
    else
      var r := Ticked(p, tabs[0], now, answers);
      if r.err != None then r else TickAll(r.panel, tabs[1..], now, answers)
  }

  function Pow2(n: nat): nat {
    if n == 0 then 1 else 2 * Pow2(n - 1)
  }

  lemma Pow2IsPositive(n: nat)
    ensures Pow2(n) > 0
  {
  }

  predicate MaskBit(mask: int, n: nat) {
    Pow2IsPositive(n);
    mask / Pow2(n) % 2 == 1
  }

  function MaskFlags(mask: int): Flags {
    seq(FUNCTIONS, n requires 0 <= n < FUNCTIONS => MaskBit(mask, n))
  }

  /** A station reply as the parser delivers it. */
  type Report = e: Event | IsReport(e) witness Unknown("")

  function Received(p: Panel, e: Report): Panel {
    if !p.attached then p
    else
      match e
      case LocoState(_, cab, _, _, speed, direction, _, mask) =>
        if cab in p.cabs then HeardAt(p, cab, speed, direction, MaskFlags(mask)) else p
      case _ => p.(board := Heard(p.board, e))
  }

  function RolePowerOf(p: Panel, track: Track): PowerState {
    if track == Main then p.board.main else p.board.prog
  }

  function PowerToggled(p: Panel, track: Track, answers: Answers): Reply {
    if track == All then Reply(p, Some(Invalid))
    else if !p.attached || RolePowerOf(p, track) == Unreported then Reply(p, Some(PowerUnknown))
    else Issue(p, Command.Power(RolePowerOf(p, track) == Off, track), answers)
  }

  /** The commands that leave the locomotives' bookkeeping alone. */
  type StationCommand = c: Command |
    c.Power? || c.ReadAddress? || c.WriteAddress? || c.ReadCV? || c.WriteCV? || c.ProgramOnMain? witness ReadAddress

  /** What a user asks of a cab; ticks and station replies have operations of their own. */
  type UserIntent = i: Intent | !i.TickOne? && !i.Hear? witness Emergency

  datatype Op =
    | Do(intent: UserIntent)
    | WithCab(cab: int, intent: UserIntent)
    | AddCab(cab: int)
    | FocusCab(cab: int)
    | SelectCab(cab: int)
    | RemoveCab(cab: int)
    | ReplaceCab(gone: int, next: int)
    | RenameCab(cab: int, name: Text)
    | SetFunctionLabel(cab: int, n: int, label_: Text)
    | SetFunctionHidden(cab: int, n: int, hidden: bool)
    | Tick(now: int)
    | Receive(event: Report)
    | Attach
    | Detach
    | Station(cmd: StationCommand)
    | TogglePower(track: Track)
    | SetPoll(on: bool)
    | Poll

  function Apply(p: Panel, op: Op, answers: Answers): Reply
    requires p.focus in p.cabs
  {
    match op
    case Do(intent) => Obey(p, p.focus, intent, answers)
    case WithCab(cab, intent) => if cab in p.cabs then Obey(p, cab, intent, answers) else Reply(p, Some(TabClosed))
    case AddCab(cab) => Added(p, cab, answers)
    case FocusCab(cab) => Focused(p, cab, answers)
    case SelectCab(cab) => Selected(p, cab, false, answers)
    case RemoveCab(cab) => Removed(p, cab)
    case ReplaceCab(gone, next) => Replaced(p, gone, next, answers)
    case RenameCab(cab, name) => Renamed(p, cab, name)
    case SetFunctionLabel(cab, n, label_) => Labelled(p, cab, n, label_)
    case SetFunctionHidden(cab, n, hidden) => Hidden(p, cab, n, hidden)
    case Tick(now) => TickAll(p, p.order, now, answers)
    case Receive(event) => Reply(Received(p, event), None)
    case Attach => Attached(p, answers)
    case Detach => Reply(Detached(p), None)
    case Station(cmd) => Issue(p, cmd, answers)
    case TogglePower(track) => PowerToggled(p, track, answers)
    case SetPoll(on) => Reply(p.(poll := on), None)
    case Poll => if p.poll && p.attached then Send(p, CurrentQuery, answers) else Reply(p, None)
  }
}
