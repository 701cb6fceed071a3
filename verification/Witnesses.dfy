/** Concrete runs that show what the general results leave open does happen. */
module Witnesses {
  import opened Results
  import opened Commands
  import opened Settings
  import opened Panel
  import opened Runs
  import opened Movement
  import opened Speeds

  /** Every command reaches the station. */
  function Always(): Answers {
    (n: nat) => true
  }

  /** The panel is attached with the one tab 3, whose locomotive is r. */
  predicate HasOnly(p: Panel, r: Runtime) {
    p.attached && p.focus == 3 && p.order == [3] && p.cabs == map[3 := r]
  }

  lemma AttachedFresh()
    ensures HasOnly(Attached(New(NoFlags()), Always()).panel, Idle(NewState(3, NoFlags())))
  {
    var a := Always();
    var q := Detached(New(NoFlags())).(attached := true);
    assert Quiet(Idle(NewState(3, NoFlags()))) == Idle(NewState(3, NoFlags()));
    assert q.cabs == map[3 := Idle(NewState(3, NoFlags()))];
    var s := Send(Send(q, TrackQuery, a).panel, Status, a).panel;
    assert s.order == [3] && [3][1..] == [];
    assert RequestAll(s, [3], a) == RequestAll(Send(s, LocoRequest(3), a).panel, [], a);
  }

  lemma MovedOnly(p: Panel, r: Runtime, speed: int)
    requires HasOnly(p, r) && 0 <= speed <= 126 && r.state.direction == 1
    ensures HasOnly(Apply(p, Do(MoveSpeed(speed)), Always()).panel,
                    r.(state := r.state.(speed := speed), pending := Some(speed)))
  {
  }

  lemma TickedOnly(p: Panel, r: Runtime, now: int)
    requires HasOnly(p, r) && r.pending.Some? && 0 <= r.pending.value <= 126 && r.state.direction == 1
    requires !r.lastKnown && r.lastSent == None
    ensures HasOnly(Apply(p, Tick(now), Always()).panel,
                    r.(pending := None, lastSpeed := r.pending.value, lastDirection := 1, lastKnown := true, lastSent := Some(now)))
  {
    assert [3][1..] == [];
    var t := Ticked(p, 3, now, Always());
    assert TickAll(p, [3], now, Always()) == TickAll(t.panel, [], now, Always());
  }

  /** Cab 3 is driven at 50, asked to stop, left by SelectCab before the stop is sent, and closed. */
  function ClosingOps(): seq<Op> {
    [Attach, Do(MoveSpeed(50)), Tick(0), Do(MoveSpeed(0)), SelectCab(4), RemoveCab(3)]
  }

  function ClosingRun(): Run {
    Run(New(NoFlags()), ClosingOps(), Always())
  }

  /** Cab 3 after it was driven at 50 and asked to stop: it shows 0, and the station was told 50. */
  function StillMoving(): Runtime {
    var r := Idle(NewState(3, NoFlags()));
    r.(pending := Some(0), lastSpeed := 50, lastDirection := 1, lastKnown := true, lastSent := Some(0))
  }

  lemma ClosingStep(i: nat)
    requires i < 6 && IsRun(ClosingRun())
    ensures At(ClosingRun(), i + 1) == Apply(At(ClosingRun(), i), ClosingOps()[i], Always()).panel
  {
    Stepped(ClosingRun(), i);
  }

  lemma AskedToDrive()
    ensures IsRun(ClosingRun())
    ensures var r := Idle(NewState(3, NoFlags()));
            HasOnly(At(ClosingRun(), 2), r.(state := r.state.(speed := 50), pending := Some(50)))
  {
    LaunchesAreLaunched(NoFlags(), DEFAULT_THROTTLES);
    ClosingStep(0);
    AttachedFresh();
    ClosingStep(1);
    MovedOnly(At(ClosingRun(), 1), Idle(NewState(3, NoFlags())), 50);
  }

  lemma AskedToStop()
    ensures IsRun(ClosingRun()) && HasOnly(At(ClosingRun(), 4), StillMoving())
  {
    var r := Idle(NewState(3, NoFlags()));
    AskedToDrive();
    ClosingStep(2);
    TickedOnly(At(ClosingRun(), 2), r.(state := r.state.(speed := 50), pending := Some(50)), 0);
    ClosingStep(3);
    MovedOnly(At(ClosingRun(), 3), StillMoving().(state := r.state.(speed := 50), pending := None), 0);
  }

  lemma LeftBehind()
    ensures IsRun(ClosingRun())
    ensures HasLeft(At(ClosingRun(), 5), StillMoving().(pending := None))
  {
    AskedToStop();
    ClosingStep(4);
    SelectedAway(At(ClosingRun(), 4), StillMoving());
  }

  /** A locomotive that still moves may show 0 and have its tab closed: at the close the station's
      last word about cab 3 is the speed 50. */
  lemma MovingCabIsClosed()
    ensures IsRun(ClosingRun())
    ensures var p, q := At(ClosingRun(), 5), At(ClosingRun(), 6);
            && 3 in p.cabs && p.attached && PaceOf(p.cabs[3]) == Pace(0, None, Some(50))
            && 3 !in q.cabs
  {
    LeftBehind();
    ClosingStep(5);
    ClosedOther(At(ClosingRun(), 5), StillMoving().(pending := None));
  }

  /** The panel is attached, its focus has gone on to tab 4, and the locomotive of tab 3 is r. */
  predicate HasLeft(p: Panel, r: Runtime) {
    p.attached && p.focus == 4 && p.cabs.Keys == {3, 4} && p.cabs[3] == r
  }

  lemma SelectedAway(p: Panel, r: Runtime)
    requires HasOnly(p, r)
    ensures HasLeft(Apply(p, SelectCab(4), Always()).panel, r.(pending := None))
  {
    var q := Apply(p, SelectCab(4), Always()).panel;
    assert q.cabs.Keys == {3, 4};
  }

  lemma ClosedOther(p: Panel, r: Runtime)
    requires HasLeft(p, r) && r.state.speed == 0 && r.pending == None
    ensures 3 !in Apply(p, RemoveCab(3), Always()).panel.cabs
  {
    assert |p.cabs| == |p.cabs.Keys| == |{3, 4}| == 2;
  }

  // -------------------------------------------------------------- the extra off command

  /** Function 0 is pressed in toggle mode and released in momentary mode. */
  function ModeChangeOps(): seq<Op> {
    [Attach, Do(SetToggle(0, true)), Do(Press(0, true)), Do(SetToggle(0, false)), Do(Press(0, false))]
  }

  lemma ModeOnly(p: Panel, r: Runtime, on: bool)
    requires HasOnly(p, r)
    ensures HasOnly(Apply(p, Do(SetToggle(0, on)), Always()).panel, r.(state := r.state.(toggle := r.state.toggle[0 := on])))
  {
  }

  lemma PressedOnly(p: Panel, r: Runtime)
    requires HasOnly(p, r) && r.state.toggle[0] && !r.state.functions[0]
    ensures var q := Apply(p, Do(Press(0, true)), Always()).panel;
            && HasOnly(q, r.(held := r.held[0 := false], state := r.state.(functions := r.state.functions[0 := true])))
            && NewWire(p, q) == [Sent(Function(3, 0, 1), true)]
  {
  }

  lemma ReleasedOnly(p: Panel, r: Runtime)
    requires HasOnly(p, r) && !r.state.toggle[0]
    ensures NewWire(p, Apply(p, Do(Press(0, false)), Always()).panel) == [Sent(Function(3, 0, 0), true)]
  {
  }

  /** One press and its release send two commands when the mode changes in between, and the second
      turns off what the first has turned on. */
  lemma ModeChangeSendsExtraOff()
    ensures var run := ModeChangeRun();
            && IsRun(run)
            && NewLog(run, 2) == [Sent(Function(3, 0, 1), true)]
            && NewLog(run, 4) == [Sent(Function(3, 0, 0), true)]
  {
    var run := ModeChangeRun();
    InToggleMode();
    Stepped(run, 2);
    var r := WithMode(true);
    PressedOnly(At(run, 2), r);
    var pressed := r.(held := r.held[0 := false], state := r.state.(functions := r.state.functions[0 := true]));
    Stepped(run, 3);
    ModeOnly(At(run, 3), pressed, false);
    Stepped(run, 4);
    ReleasedOnly(At(run, 4), pressed.(state := pressed.state.(toggle := pressed.state.toggle[0 := false])));
  }

  function WithMode(on: bool): Runtime {
    var r := Idle(NewState(3, NoFlags()));
    r.(state := r.state.(toggle := r.state.toggle[0 := on]))
  }

  function ModeChangeRun(): Run {
    Run(New(NoFlags()), ModeChangeOps(), Always())
  }

  lemma JustAttached()
    ensures IsRun(ModeChangeRun()) && HasOnly(At(ModeChangeRun(), 1), Idle(NewState(3, NoFlags())))
  {
    LaunchesAreLaunched(NoFlags(), DEFAULT_THROTTLES);
    Stepped(ModeChangeRun(), 0);
    AttachedFresh();
  }

  lemma InToggleMode()
    ensures IsRun(ModeChangeRun()) && HasOnly(At(ModeChangeRun(), 2), WithMode(true))
  {
    JustAttached();
    Stepped(ModeChangeRun(), 1);
    ModeOnly(At(ModeChangeRun(), 1), Idle(NewState(3, NoFlags())), true);
  }
}
