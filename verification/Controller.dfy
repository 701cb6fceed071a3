/** The controller of throttle/controller.go, cabs.go, power.go and preferences.go with its
    register file: the focused cab lives in registers and its map entry goes stale until it
    is stored back. Each method is proved to do what the plain panel does. */
module Controllers {
  import opened Results
  import opened Commands
  import opened Messages
  import opened Settings
  import opened Power
  import opened Panel
  import opened Structure
  import opened Focus
  import opened Sets
  import opened Layouts
  import opened Runs
  import P = Panel

  /** The part of the shown state that this model covers. */
  datatype State = State(
    cab: int, speed: int, direction: int, functions: Flags, toggle: Flags,
    poll: bool, mainPower: PowerState, progPower: PowerState, overload: bool)

  class Controller {
    const answers: Answers
    const defaultToggle: Flags
    var cabs: map<int, Runtime>
    var order: seq<int>
    /** Shown state; cab, speed, direction, functions and toggle are registers of the focused cab. */
    var state: State
    // The other registers of the focused cab.
    var pending: Option<int>
    var lastSpeed: int
    var lastDirection: int
    var lastKnown: bool
    var lastSent: Option<int>
    // The station.
    var attached: bool
    var trackModes: Modes
    var trackPowers: Powers
    /** Everything handed to the connection so far. */
    var log: seq<Wire>

    function CurrentCab(): Runtime
      requires state.cab in cabs
      reads this
    {
      var r := cabs[state.cab];
      Runtime(CabState(state.cab, state.speed, state.direction, state.functions,
                       r.state.name, r.state.labels, state.toggle, r.state.hidden),
              pending, lastSpeed, lastDirection, lastKnown, lastSent, r.held)
    }

    /** The map of all cabs, as if the registers had been stored back. */
    ghost function Cabs(): (m: map<int, Runtime>)
      requires state.cab in cabs
      reads this
      ensures state.cab in m && m[state.cab] == CurrentCab()
    {
      cabs[state.cab := CurrentCab()]
    }

    ghost function Abs(): Panel
      requires state.cab in cabs
      reads this
    {
      Panel(Cabs(), order, state.cab, attached, state.poll, defaultToggle,
            Board(trackModes, trackPowers, state.mainPower, state.progPower, state.overload), log)
    }

    ghost predicate Valid()
      reads this
    {
      state.cab in cabs && Structured(Abs())
    }

    constructor (toggle: Flags, answers: Answers)
      ensures Valid() && Abs() == New(toggle) && this.answers == answers
    {
      this.answers, defaultToggle := answers, toggle;
      cabs, order := map[3 := Idle(NewState(3, toggle))], [3];
      state := State(3, 0, 1, NoFlags(), toggle, true, Unreported, Unreported, false);
      pending, lastSpeed, lastDirection, lastKnown, lastSent := None, 0, 0, false, None;
      attached, log := false, [];
      trackModes, trackPowers := NoModes(), NoPowers();
    }

    // ------------------------------------------------------------ register file

    method StoreCab()
      requires state.cab in cabs
      modifies `cabs
      ensures cabs == old(Cabs()) && state.cab in cabs && Cabs() == cabs
    {
      cabs := cabs[state.cab := CurrentCab()];
      Rewrite(cabs, state.cab);
    }

    method LoadCab(k: int)
      requires k in cabs && cabs[k].state.cab == k
      modifies `state, `pending, `lastSpeed, `lastDirection, `lastKnown, `lastSent
      ensures state.cab == k && Cabs() == cabs
      ensures state.poll == old(state.poll) && state.overload == old(state.overload)
      ensures state.mainPower == old(state.mainPower) && state.progPower == old(state.progPower)
    {
      var r := cabs[k];
      state := state.(cab := r.state.cab, speed := r.state.speed, direction := r.state.direction,
                      functions := r.state.functions, toggle := r.state.toggle);
      pending, lastSpeed, lastDirection, lastKnown, lastSent := r.pending, r.lastSpeed, r.lastDirection, r.lastKnown, r.lastSent;
      assert CurrentCab() == r;
      Rewrite(cabs, k);
    }

    // --------------------------------------------------------------- connection

    /** A loop over the map in any order, as in the original's range statements. */
    method ForEachCab(f: Runtime -> Runtime)
      modifies `cabs
      ensures cabs == Each(old(cabs), f)
    {
      ghost var before := cabs;
      var todo := cabs.Keys;
      NoneVisited(before, f);
      while todo != {}
        invariant todo <= before.Keys
        invariant cabs == Visited(before, todo, f)
        decreases |todo|
      {
        SomeElement(todo);
        var k :| k in todo;
        Visit(before, todo, f, k);
        cabs := cabs[k := f(cabs[k])];
        todo := todo - {k};
      }
      AllVisited(before, f);
    }

    method QuietAll()
      requires state.cab in cabs
      modifies `pending, `lastKnown, `cabs
      ensures state.cab in cabs && Cabs() == Each(old(Cabs()), Quiet)
    {
      EachUpdate(cabs, state.cab, CurrentCab(), Quiet);
      EachKeys(cabs, Quiet);
      pending := None;
      lastKnown := false;
      ForEachCab(Quiet);
      assert CurrentCab() == Quiet(old(CurrentCab()));
    }

    method Detach()
      requires state.cab in cabs
      modifies this
      ensures state.cab in cabs && Abs() == Detached(old(Abs()))
    {
      QuietAll();
      if attached {
        log := log + [Closed];
      }
      attached := false;
      ForgetPower();
    }

    method ForgetPower()
      modifies `state, `trackModes, `trackPowers
      ensures state == old(state).(mainPower := Unreported, progPower := Unreported, overload := false)
      ensures trackModes == NoModes() && trackPowers == NoPowers()
      ensures state.cab in cabs ==> Cabs() == old(Cabs())
    {
      state := state.(mainPower := Unreported, progPower := Unreported, overload := false);
      trackModes := NoModes();
      trackPowers := NoPowers();
    }

    method Send(cmd: Command) returns (err: Option<Failure>)
      requires state.cab in cabs
      modifies this
      ensures state.cab in cabs
      ensures Reply(Abs(), err) == P.Send(old(Abs()), cmd, answers)
    {
      if !attached {
        return Some(NotConnected);
      }
      var ok := answers(|log|);
      log := log + [Sent(cmd, ok)];
      if !ok {
        Detach();
        return Some(SendFailed);
      }
      return None;
    }

    /** The original's `command`: an encoding error is reported before anything is sent. */
    method Issue(cmd: Command) returns (err: Option<Failure>)
      requires state.cab in cabs
      modifies this
      ensures state.cab in cabs
      ensures Reply(Abs(), err) == P.Issue(old(Abs()), cmd, answers)
    {
      if !InRange(cmd) {
        return Some(Invalid);
      }
      err := Send(cmd);
    }

    // ----------------------------------------------------- commands to the cab

    /** After an assignment to the registers alone, the map of cabs differs at the focus alone. */
    twostate lemma RegistersOnly()
      requires state.cab in cabs && cabs == old(cabs) && state.cab == old(state.cab)
      ensures Cabs() == old(Cabs())[state.cab := CurrentCab()]
    {
      Overwrite(cabs, state.cab, old(CurrentCab()), CurrentCab());
    }

    method MoveSpeed(value: int) returns (err: Option<Failure>)
      requires state.cab in cabs
      modifies this
      ensures state.cab in cabs
      ensures Reply(Abs(), err) == Moved(old(Abs()), old(state.cab), value)
    {
      if !InRange(Throttle(state.cab, value, state.direction)) || value < 0 {
        return Some(Invalid);
      }
      state := state.(speed := value);
      if attached {
        pending := Some(value);
      } else {
        pending := None;
      }
      RegistersOnly();
      return None;
    }

    method Transmit(value: int, dir: int, now: int) returns (err: Option<Failure>)
      requires state.cab in cabs
      modifies this
      ensures state.cab in cabs
      ensures Reply(Abs(), err) == P.Transmit(old(Abs()), old(state.cab), value, dir, now, answers)
    {
      err := Issue(Throttle(state.cab, value, dir));
      if err != None {
        return;
      }
      label sent:
      lastSpeed := value;
      lastDirection := dir;
      lastKnown := true;
      lastSent := Some(now);
      RegistersOnly@sent();
    }

    method TickCurrent(now: int) returns (err: Option<Failure>)
      requires state.cab in cabs
      modifies this
      ensures state.cab in cabs
      ensures Reply(Abs(), err) == Ticked(old(Abs()), old(state.cab), now, answers)
    {
      if pending == None || !attached {
        return None;
      }
      var value := pending.value;
      if lastKnown && value == lastSpeed && state.direction == lastDirection {
        pending := None;
        RegistersOnly();
        return None;
      }
      if lastSent.Some? && now - lastSent.value < RATE_LIMIT {
        return None;
      }
      pending := None;
      RegistersOnly();
      err := Transmit(value, state.direction, now);
    }

    method SetDirection(dir: int, now: int) returns (err: Option<Failure>)
      requires state.cab in cabs
      modifies this
      ensures state.cab in cabs
      ensures Reply(Abs(), err) == Directed(old(Abs()), old(state.cab), dir, now, answers)
    {
      if dir != 0 && dir != 1 {
        return Some(Invalid);
      }
      if dir == state.direction {
        return None;
      }
      err := Transmit(state.speed, dir, now);
      if err != None {
        return;
      }
      label sent:
      state := state.(direction := dir);
      RegistersOnly@sent();
    }

    method Stop(now: int) returns (err: Option<Failure>)
      requires state.cab in cabs
      modifies this
      ensures state.cab in cabs
      ensures Reply(Abs(), err) == Stopped(old(Abs()), old(state.cab), now, answers)
    {
      pending := None;
      RegistersOnly();
      err := Transmit(0, state.direction, now);
      if err != None {
        return;
      }
      label sent:
      state := state.(speed := 0);
      RegistersOnly@sent();
    }

    method CancelAll()
      requires state.cab in cabs
      modifies `pending, `cabs
      ensures state.cab in cabs && Cabs() == Each(old(Cabs()), Cancelled)
    {
      EachUpdate(cabs, state.cab, CurrentCab(), Cancelled);
      EachKeys(cabs, Cancelled);
      pending := None;
      ForEachCab(Cancelled);
      assert CurrentCab() == Cancelled(old(CurrentCab()));
    }

    /** Nothing queued survives, whether or not the command reaches the station. */
    method Emergency() returns (err: Option<Failure>)
      requires state.cab in cabs
      modifies this
      ensures state.cab in cabs
      ensures Reply(Abs(), err) == EmergencyStopped(old(Abs()), old(state.cab), answers)
    {
      CancelAll();
      err := Send(EmergencyStop);
      if err != None {
        return;
      }
      HaltAll();
      label halted:
      lastDirection := state.direction;
      lastKnown := true;
      RegistersOnly@halted();
    }

    method HaltAll()
      requires state.cab in cabs
      modifies `state, `lastSpeed, `pending, `cabs
      ensures state.cab in cabs && Abs() == old(Abs()).(cabs := Each(old(Cabs()), Halted))
    {
      EachUpdate(cabs, state.cab, CurrentCab(), Halted);
      EachKeys(cabs, Halted);
      state := state.(speed := 0);
      ForEachCab(Halted);
      pending := None;
      lastSpeed := 0;
      assert CurrentCab() == Halted(old(CurrentCab()));
    }

    method Press(n: int, pressed: bool) returns (err: Option<Failure>)
      requires state.cab in cabs
      modifies this
      ensures state.cab in cabs
      ensures Reply(Abs(), err) == Pressed(old(Abs()), old(state.cab), n, pressed, answers)
    {
      if !IsFunction(n) {
        return Some(Invalid);
      }
      var toggled := state.toggle[n] && !(cabs[state.cab].held[n] && !pressed);
      if toggled && !pressed {
        return None;
      }
      var on := pressed;
      if toggled {
        on := !state.functions[n];
      }
      err := Switch(n, on, toggled, pressed && !toggled);
    }

    method Switch(n: int, on: bool, shown: bool, held: bool) returns (err: Option<Failure>)
      requires state.cab in cabs && IsFunction(n)
      modifies this
      ensures state.cab in cabs
      ensures Reply(Abs(), err) == Switched(old(Abs()), old(state.cab), n, on, shown, held, answers)
    {
      err := Issue(Function(state.cab, n, if on then 1 else 0));
      if err != None {
        return;
      }
      SetHeld(n, held);
      if shown {
        SetFunction(n, on);
      }
    }

    method SetHeld(n: int, held: bool)
      requires state.cab in cabs && IsFunction(n)
      modifies `cabs
      ensures state.cab in cabs
      ensures Abs() == WithHeld(old(Abs()), old(state.cab), n, held)
    {
      var r := cabs[state.cab];
      cabs := cabs[state.cab := r.(held := r.held[n := held])];
      Overwrite(old(cabs), state.cab, r.(held := r.held[n := held]), CurrentCab());
      Overwrite(old(cabs), state.cab, old(CurrentCab()), CurrentCab());
    }

    method SetFunction(n: int, on: bool)
      requires state.cab in cabs && IsFunction(n)
      modifies `state
      ensures state.cab in cabs
      ensures Abs() == WithFunction(old(Abs()), old(state.cab), n, on)
    {
      state := state.(functions := state.functions[n := on]);
      RegistersOnly();
    }

    method AllFunctionsOff() returns (err: Option<Failure>)
      requires state.cab in cabs
      modifies this
      ensures state.cab in cabs
      ensures Reply(Abs(), err) == OffFrom(old(Abs()), old(state.cab), old(state.functions), 0, answers)
    {
      ghost var p := Abs();
      var on, k := state.functions, state.cab;
      err := None;
      for n := 0 to FUNCTIONS
        invariant state.cab == k && state.cab in cabs && err == None
        invariant OffFrom(p, k, on, 0, answers) == OffFrom(Abs(), k, on, n, answers)
      {
        if on[n] {
          err := Issue(Function(state.cab, n, 0));
          if err != None {
            return;
          }
          SetFunction(n, false);
        }
      }
    }

    method SetToggle(n: int, on: bool) returns (err: Option<Failure>)
      requires state.cab in cabs
      modifies this
      ensures state.cab in cabs
      ensures Reply(Abs(), err) == Toggled(old(Abs()), old(state.cab), n, on)
    {
      if !IsFunction(n) {
        return Some(Invalid);
      }
      state := state.(toggle := state.toggle[n := on]);
      RegistersOnly();
      return None;
    }

    method Hear(value: int, dir: int, flags: Flags)
      requires state.cab in cabs
      modifies this
      ensures state.cab in cabs
      ensures Abs() == HeardAt(old(Abs()), old(state.cab), value, dir, flags)
    {
      state := state.(speed := value, direction := dir);
      pending := None;
      lastSpeed := value;
      lastDirection := dir;
      lastKnown := true;
      var functions := state.functions;
      for n := 0 to FUNCTIONS
        invariant forall i | 0 <= i < n :: functions[i] == flags[i]
      {
        functions := functions[n := flags[n]];
      }
      assert functions == flags;
      state := state.(functions := functions);
      RegistersOnly();
    }

    /** One command to the cab in the registers. */
    method Obey(intent: Intent) returns (err: Option<Failure>)
      requires Valid()
      modifies this
      ensures Valid()
      ensures Reply(Abs(), err) == P.Obey(old(Abs()), old(state.cab), intent, answers)
    {
      ObeyStructured(Abs(), state.cab, intent, answers);
      match intent
      case MoveSpeed(value) => err := MoveSpeed(value);
      case SetDirection(dir, now) => err := SetDirection(dir, now);
      case FlipDirection(now) => err := SetDirection(1 - state.direction, now);
      case Stop(now) => err := Stop(now);
      case Emergency => err := Emergency();
      case Press(n, pressed) => err := Press(n, pressed);
      case AllFunctionsOff => err := AllFunctionsOff();
      case SetToggle(n, on) => err := SetToggle(n, on);
      case FlipToggle(n) =>
        if !IsFunction(n) {
          err := Some(Invalid);
        } else {
          err := SetToggle(n, !state.toggle[n]);
        }
      case TickOne(now) => err := TickCurrent(now);
      case Hear(value, dir, flags) =>
        Hear(value, dir, flags);
        err := None;
    }

    /** Swap the registers to another cab, command it, and swap back. */
    method WithCab(k: int, intent: Intent) returns (err: Option<Failure>)
      requires Valid()
      modifies this
      ensures Valid() && state.cab == old(state.cab)
      ensures Reply(Abs(), err) ==
              if k in old(cabs) then P.Obey(old(Abs()), k, intent, answers) else Reply(old(Abs()), Some(TabClosed))
    {
      if k !in cabs {
        return Some(TabClosed);
      }
      ghost var p := Abs();
      ThereAndBack(p, k, intent, answers);
      RefocusedStructured(p, k);
      var active := state.cab;
      Swap(k);
      err := Obey(intent);
      Swap(active);
    }

    /** Any sequence of commands inside one swap, up to the first that fails. */
    method WithCabAll(k: int, intents: seq<Intent>) returns (err: Option<Failure>)
      requires Valid()
      modifies this
      ensures Valid() && state.cab == old(state.cab)
      ensures Reply(Abs(), err) ==
              if k in old(cabs) then ObeyAll(old(Abs()), k, intents, answers) else Reply(old(Abs()), Some(TabClosed))
    {
      if k !in cabs {
        return Some(TabClosed);
      }
      ghost var p := Abs();
      var active := state.cab;
      ObeyAllIgnoresFocus(p, k, intents, k, answers);
      EntriesMatch(p);
      Swap(k);
      err := ObeyEach(intents);
      ghost var q := ObeyAll(p, k, intents, answers).panel;
      assert active in q.cabs.Keys;
      EntriesMatch(q);
      Swap(active);
      assert q.(focus := active) == q;
    }

    method ObeyEach(intents: seq<Intent>) returns (err: Option<Failure>)
      requires Valid()
      modifies this
      ensures Valid()
      ensures Reply(Abs(), err) == ObeyAll(old(Abs()), old(state.cab), intents, answers)
    {
      ghost var p, k := Abs(), state.cab;
      err := None;
      for i := 0 to |intents|
        invariant Valid() && state.cab == k && err == None
        invariant ObeyAll(p, k, intents, answers) == ObeyAll(Abs(), k, intents[i..], answers)
      {
        assert intents[i..][1..] == intents[i + 1..];
        ObeyStructured(Abs(), k, intents[i], answers);
        err := Obey(intents[i]);
        if err != None {
          return;
        }
      }
    }

    method Swap(k: int)
      requires state.cab in cabs && k in cabs && Cabs()[k].state.cab == k
      modifies this
      ensures state.cab in cabs && Abs() == old(Abs()).(focus := k)
    {
      StoreCab();
      LoadCab(k);
    }

    // ------------------------------------------------------------------------ tabs

    method SelectCab(k: int, preservePending: bool) returns (err: Option<Failure>)
      requires state.cab in cabs && (k in Cabs() ==> Cabs()[k].state.cab == k)
      modifies this
      ensures state.cab in cabs
      ensures Reply(Abs(), err) == Selected(old(Abs()), k, preservePending, answers)
    {
      if !InRange(LocoRequest(k)) {
        return Some(Invalid);
      }
      if k == state.cab {
        return None;
      }
      if !preservePending {
        pending := None;
        RegistersOnly();
      }
      OpenCab(k);
      if attached {
        err := Send(LocoRequest(k));
        return;
      }
      return None;
    }

    method OpenCab(k: int)
      requires state.cab in cabs && k != state.cab && (k in Cabs() ==> Cabs()[k].state.cab == k)
      modifies this
      ensures state.cab in cabs
      ensures var p := old(Abs()); Abs() == (if k in p.cabs then p else WithTab(p, k, p.defaultToggle)).(focus := k)
    {
      StoreCab();
      if k !in cabs {
        InsertCab(k, Idle(NewState(k, defaultToggle)));
        order := order + [k];
      }
      Swap(k);
    }

    method FocusCab(k: int) returns (err: Option<Failure>)
      requires state.cab in cabs && (k in Cabs() ==> Cabs()[k].state.cab == k)
      modifies this
      ensures state.cab in cabs
      ensures Reply(Abs(), err) == Focused(old(Abs()), k, answers)
    {
      if k !in cabs {
        return Some(TabClosed);
      }
      err := SelectCab(k, true);
    }

    method AddCab(k: int) returns (err: Option<Failure>)
      requires state.cab in cabs
      modifies this
      ensures state.cab in cabs
      ensures Reply(Abs(), err) == Added(old(Abs()), k, answers)
    {
      if k in cabs {
        return Some(TabOpen);
      }
      if !InRange(LocoRequest(k)) {
        return Some(Invalid);
      }
      InsertCab(k, Idle(NewState(k, defaultToggle)));
      order := order + [k];
      err := FocusCab(k);
    }

    method InsertCab(k: int, r: Runtime)
      requires state.cab in cabs && k != state.cab
      modifies `cabs
      ensures cabs == old(cabs)[k := r] && state.cab in cabs && Cabs() == old(Cabs())[k := r]
    {
      cabs := cabs[k := r];
    }

    method RemoveCab(k: int) returns (err: Option<Failure>)
      requires Valid()
      modifies this
      ensures state.cab in cabs
      ensures Reply(Abs(), err) == Removed(old(Abs()), k)
    {
      ghost var p := Abs();
      StoreCab();
      if k !in cabs {
        return Some(TabClosed);
      }
      if |cabs| == 1 {
        return Some(LastTab);
      }
      var r := cabs[k];
      if r.state.speed != 0 || r.pending != None {
        return Some(StillMoving);
      }
      ghost var q := Removed(p, k).panel;
      RemovedStructured(p, k);
      cabs := cabs - {k};
      order := Without(order, k);
      assert cabs == q.cabs && order == q.order;
      if state.cab == k {
        assert q.focus in q.order;
        LoadCab(order[0]);
      } else {
        Rewrite(cabs, state.cab);
      }
      return None;
    }

    method RenumberTab(gone: int, next: int)
      modifies `order
      ensures order == Renumbered(old(order), gone, next)
    {
      ghost var before := order;
      for i := 0 to |order|
        invariant |order| == |before|
        invariant forall j | 0 <= j < |order| :: order[j] == if j < i && before[j] == gone then next else before[j]
      {
        if order[i] == gone {
          order := order[i := next];
        }
      }
      assert order == Renumbered(before, gone, next);
    }

    method ReplaceCab(gone: int, next: int) returns (err: Option<Failure>)
      requires Valid()
      modifies this
      ensures state.cab in cabs
      ensures Reply(Abs(), err) == Replaced(old(Abs()), gone, next, answers)
    {
      if gone == next {
        return None;
      }
      if !InRange(LocoRequest(next)) {
        return Some(Invalid);
      }
      if next in cabs {
        return Some(TabOpen);
      }
      ghost var p := Abs();
      StoreCab();
      if gone !in cabs {
        return Some(TabClosed);
      }
      var r := cabs[gone];
      if r.state.speed != 0 || r.pending != None {
        return Some(StillMoving);
      }
      InsertCab(next, Successor(r.state, next));
      RenumberTab(gone, next);
      FocusedElsewhere(Abs(), next, gone, answers);
      err := FocusCab(next);
      DropCab(gone);
    }

    method DropCab(k: int)
      requires state.cab in cabs && k != state.cab
      modifies `cabs
      ensures state.cab in cabs && Abs() == old(Abs()).(cabs := old(Cabs()) - {k})
    {
      cabs := cabs - {k};
      DropOther(old(cabs), state.cab, k, CurrentCab());
    }

    // ----------------------------------------------------------------- preferences

    method RenameCab(k: int, name: Text) returns (err: Option<Failure>)
      requires state.cab in cabs
      modifies this
      ensures state.cab in cabs
      ensures Reply(Abs(), err) == Renamed(old(Abs()), k, name)
    {
      if k !in cabs {
        return Some(TabClosed);
      }
      var valid := ValidateDisplayName(name);
      if !valid {
        return Some(Invalid);
      }
      var r := cabs[k];
      cabs := cabs[k := r.(state := r.state.(name := Trim(name)))];
      EntryOnly(k);
      return None;
    }

    method SetFunctionLabel(k: int, n: int, label_: Text) returns (err: Option<Failure>)
      requires state.cab in cabs
      modifies this
      ensures state.cab in cabs
      ensures Reply(Abs(), err) == Labelled(old(Abs()), k, n, label_)
    {
      if k !in cabs {
        return Some(TabClosed);
      }
      if !IsFunction(n) {
        return Some(Invalid);
      }
      var valid := ValidateDisplayName(label_);
      if !valid {
        return Some(Invalid);
      }
      var r := cabs[k];
      cabs := cabs[k := r.(state := r.state.(labels := r.state.labels[n := Trim(label_)]))];
      EntryOnly(k);
      return None;
    }

    method SetFunctionHidden(k: int, n: int, hidden: bool) returns (err: Option<Failure>)
      requires state.cab in cabs
      modifies this
      ensures state.cab in cabs
      ensures Reply(Abs(), err) == Hidden(old(Abs()), k, n, hidden)
    {
      if k !in cabs {
        return Some(TabClosed);
      }
      if !IsFunction(n) {
        return Some(Invalid);
      }
      var r := cabs[k];
      if hidden && r.held[n] {
        return Some(StillHeld);
      }
      cabs := cabs[k := r.(state := r.state.(hidden := r.state.hidden[n := hidden]))];
      EntryOnly(k);
      return None;
    }

    /** After an edit of one map entry, the map of cabs differs there alone, and at the focus
        the edit shows through the registers. */
    twostate lemma EntryOnly(k: int)
      requires old(state.cab in cabs) && state == old(state) && k in old(cabs)
      requires pending == old(pending) && lastSpeed == old(lastSpeed) && lastDirection == old(lastDirection)
      requires lastKnown == old(lastKnown) && lastSent == old(lastSent)
      requires k in cabs && cabs == old(cabs)[k := cabs[k]]
      ensures state.cab in cabs
      ensures Cabs() == old(Cabs())[k := if k == state.cab then CurrentCab() else cabs[k]]
    {
      if k == state.cab {
        Overwrite(old(cabs), k, cabs[k], CurrentCab());
        Overwrite(old(cabs), k, old(CurrentCab()), CurrentCab());
      }
    }

    /** Restores stored tabs over a panel that has just been created. */
    method RestoreTabs(settings: ThrottleSettings) returns (ok: bool)
      requires Valid()
      modifies this
      ensures Valid() && (ok <==> IsLayout(settings))
      ensures Abs() == if ok then Restored(old(Abs()), settings) else old(Abs())
    {
      ok := Validate(settings);
      if !ok {
        return;
      }
      RestoredStructured(Abs(), settings);
      RestoredSelected(settings, defaultToggle);
      RestoreEntries(settings.tabs);
      LoadCab(settings.selected);
      assert Abs() == Restored(old(Abs()), settings);
    }

    method RestoreEntries(tabs: seq<Tab>)
      modifies `cabs, `order
      ensures cabs == RestoredCabs(tabs, defaultToggle) && order == Addresses(tabs)
    {
      cabs, order := map[], [];
      for i := 0 to |tabs|
        invariant cabs == RestoredCabs(tabs[..i], defaultToggle)
        invariant order == Addresses(tabs[..i])
      {
        var tab := tabs[i];
        cabs := cabs[tab.address := FromTab(tab, defaultToggle)];
        order := order + [tab.address];
        assert tabs[..i + 1][..i] == tabs[..i];
      }
      assert tabs[..|tabs|] == tabs;
    }

    /** The stored form of the tabs; the focused one is read from the registers. */
    method StoredTabs() returns (settings: ThrottleSettings)
      requires Valid()
      ensures Lists(Abs(), order) && settings == TabSettings(Abs())
    {
      StructuredLists(Abs());
      var tabs: seq<Tab> := [];
      for i := 0 to |order|
        invariant tabs == TabsOf(Abs(), order[..i])
      {
        var k := order[i];
        assert k in order && k in Cabs();
        var r := cabs[k];
        if k == state.cab {
          r := CurrentCab();
        }
        tabs := tabs + [TabOf(r.state)];
      }
      assert order[..|order|] == order;
      settings := ThrottleSettings(1, tabs, state.cab);
    }

    // --------------------------------------------------------------- whole station

    method Attach() returns (err: Option<Failure>)
      requires state.cab in cabs
      modifies this
      ensures state.cab in cabs
      ensures Reply(Abs(), err) == Attached(old(Abs()), answers)
    {
      ghost var before := Abs();
      Detach();
      attached := true;
      ghost var q := Detached(before).(attached := true);
      assert Abs() == q;
      err := Send(TrackQuery);
      if err != None {
        return;
      }
      err := Send(Status);
      if err != None {
        return;
      }
      var tabs := order;
      for i := 0 to |tabs|
        invariant state.cab in cabs && err == None
        invariant Attached(before, answers) == RequestAll(Abs(), tabs[i..], answers)
      {
        assert tabs[i..][1..] == tabs[i + 1..];
        err := Send(LocoRequest(tabs[i]));
        if err != None {
          return;
        }
      }
    }

    method Tick(now: int) returns (err: Option<Failure>)
      requires Valid()
      modifies this
      ensures Valid()
      ensures Reply(Abs(), err) == TickAll(old(Abs()), old(order), now, answers)
    {
      ghost var before := Abs();
      var tabs := order;
      err := None;
      for i := 0 to |tabs|
        invariant Valid() && err == None
        invariant TickAll(before, tabs, now, answers) == TickAll(Abs(), tabs[i..], now, answers)
      {
        assert tabs[i..][1..] == tabs[i + 1..];
        err := WithCab(tabs[i], TickOne(now));
        if err != None {
          return;
        }
      }
    }

    method ShowPower(main: PowerState, prog: PowerState, overload: bool)
      requires state.cab in cabs
      modifies `state
      ensures state.cab in cabs
      ensures Abs() == old(Abs()).(board := old(Abs()).board.(main := main, prog := prog, overload := overload))
    {
      state := state.(mainPower := main, progPower := prog, overload := overload);
      RegistersOnly();
      Rewrite(old(Cabs()), state.cab);
    }

    method UpdateTrackPower()
      requires state.cab in cabs
      modifies `state
      ensures state.cab in cabs && Abs() == old(Abs()).(board := Updated(old(Abs()).board))
    {
      var main := CountGroup(trackModes, trackPowers, "MAIN", state.mainPower);
      var prog := CountGroup(trackModes, trackPowers, "PROG", state.progPower);
      ShowPower(main, prog, main == Overload || prog == Overload);
    }

    method RecordPower(power: PowerState, track: string)
      requires state.cab in cabs
      modifies `state, `trackPowers
      ensures state.cab in cabs && Abs() == old(Abs()).(board := Recorded(old(Abs()).board, power, track))
    {
      if track == "MAIN" {
        ShowPower(power, state.progPower, state.overload);
      } else if track == "PROG" {
        ShowPower(state.mainPower, power, state.overload);
      } else if track == "ALL" || track == "JOIN" {
        ShowPower(power, power, state.overload);
      } else if IsOutput(track) {
        trackPowers := trackPowers[OutputIndex(track) := power];
      }
    }

    method ReceivePower(power: PowerState, track: string)
      requires state.cab in cabs
      modifies `state, `trackPowers
      ensures state.cab in cabs && Abs() == old(Abs()).(board := Powered(old(Abs()).board, power, track))
    {
      RecordPower(power, track);
      UpdateTrackPower();
    }

    method ReceiveMode(track: string, mode: string)
      requires state.cab in cabs
      modifies `state, `trackModes
      ensures state.cab in cabs && Abs() == old(Abs()).(board := Moded(old(Abs()).board, track, mode))
    {
      if IsOutput(track) {
        trackModes := trackModes[OutputIndex(track) := mode];
        ShowPower(Unreported, Unreported, state.overload);
        UpdateTrackPower();
      }
    }

    method Receive(e: Report)
      requires Valid()
      modifies this
      ensures Valid()
      ensures Abs() == Received(old(Abs()), e)
    {
      ReceivedStructured(Abs(), e);
      if !attached {
        return;
      }
      match e
      case LocoState(_, k, _, _, value, dir, _, mask) =>
        if k != state.cab {
          if k in cabs {
            var _ := WithCab(k, Intent.Hear(value, dir, MaskFlags(mask)));
          }
        } else {
          Hear(value, dir, MaskFlags(mask));
        }
      case TrackPower(_, power, track) => ReceivePower(power, track);
      case TrackMode(_, track, mode) => ReceiveMode(track, mode);
      case _ =>
    }

    method TogglePower(track: Track) returns (err: Option<Failure>)
      requires state.cab in cabs
      modifies this
      ensures state.cab in cabs
      ensures Reply(Abs(), err) == PowerToggled(old(Abs()), track, answers)
    {
      var power: PowerState;
      match track {
        case Main => power := state.mainPower;
        case Prog => power := state.progPower;
        case All => return Some(Invalid);
      }
      if !attached || power == Unreported {
        return Some(PowerUnknown);
      }
      err := Issue(Command.Power(power == Messages.Off, track));
    }

    method Poll() returns (err: Option<Failure>)
      requires state.cab in cabs
      modifies this
      ensures state.cab in cabs
      ensures Reply(Abs(), err) == Apply(old(Abs()), Op.Poll, answers)
    {
      if state.poll && attached {
        err := Send(CurrentQuery);
        return;
      }
      return None;
    }

    method SetPoll(on: bool)
      requires state.cab in cabs
      modifies `state
      ensures state.cab in cabs && Abs() == old(Abs()).(poll := on)
    {
      state := state.(poll := on);
      RegistersOnly();
      Rewrite(old(Cabs()), state.cab);
    }

    /** Every operation of the register file does what the plain panel does. */
    method Do(op: Op) returns (err: Option<Failure>)
      requires Valid()
      modifies this
      ensures Valid()
      ensures Reply(Abs(), err) == Apply(old(Abs()), op, answers)
    {
      StructureKept(Abs(), op, answers);
      EntriesMatch(Abs());
      err := None;
      match op
      case Do(intent) => err := Obey(intent);
      case WithCab(k, intent) => err := WithCab(k, intent);
      case AddCab(k) => err := AddCab(k);
      case FocusCab(k) => err := FocusCab(k);
      case SelectCab(k) => err := SelectCab(k, false);
      case RemoveCab(k) => err := RemoveCab(k);
      case ReplaceCab(gone, next) => err := ReplaceCab(gone, next);
      case RenameCab(k, name) => err := RenameCab(k, name);
      case SetFunctionLabel(k, n, label_) => err := SetFunctionLabel(k, n, label_);
      case SetFunctionHidden(k, n, hidden) => err := SetFunctionHidden(k, n, hidden);
      case Tick(now) => err := Tick(now);
      case Receive(event) => Receive(event);
      case Attach => err := Attach();
      case Detach => Detach();
      case Station(cmd) => err := Issue(cmd);
      case TogglePower(track) => err := TogglePower(track);
      case SetPoll(on) => SetPoll(on);
      case Poll => err := Poll();
    }

    /** Any operations one after the other: the register file goes through the states of the
        run, so whatever holds in every run of the plain panel holds of the registers. */
    method Execute(ops: seq<Op>)
      requires Valid() && Launched(Abs())
      modifies this
      ensures Valid()
      ensures Abs() == At(Run(old(Abs()), ops, answers), |ops|)
    {
      ghost var run := Run(Abs(), ops, answers);
      for i := 0 to |ops|
        invariant Valid() && IsRun(run)
        invariant Abs() == At(run, i)
      {
        Stepped(run, i);
        var _ := Do(ops[i]);
      }
    }
  }

  lemma EntriesMatch(p: Panel)
    requires Structured(p)
    ensures forall k | k in p.cabs :: p.cabs[k].state.cab == k
  {
    assert forall k | k in p.cabs :: IsEntry(k, p.cabs[k]);
  }

  lemma DropOther(m: map<int, Runtime>, k: int, gone: int, r: Runtime)
    requires k != gone
    ensures (m - {gone})[k := r] == m[k := r] - {gone}
  {
  }

  /** Focusing an open cab leaves the focus there, so another one may then be dropped. */
  lemma FocusedElsewhere(p: Panel, k: int, gone: int, answers: Answers)
    requires p.focus in p.cabs && k in p.cabs && IsCab(k) && gone != k
    ensures Focused(p, k, answers).panel.focus == k
  {
  }
}
