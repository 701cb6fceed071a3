/** The power indicators over whole runs: they are what the replies since attaching imply. */
module Indicators {
  import opened Results
  import opened Commands
  import opened Messages
  import opened Settings
  import opened Power
  import opened Panel
  import opened Runs

  /** While the connection lasts the board stays what it was; without one it is blank. */
  predicate SameBoard(p: Panel, q: Panel) {
    if q.attached then p.attached && q.board == p.board else q.board == NoBoard()
  }

  predicate IsBlankOffline(p: Panel) {
    p.attached || p.board == NoBoard()
  }

  lemma {:induction false} OffFromBoard(p: Panel, k: int, on: Flags, n: nat, answers: Answers)
    requires k in p.cabs && n <= FUNCTIONS && IsBlankOffline(p)
    ensures SameBoard(p, OffFrom(p, k, on, n, answers).panel)
    decreases FUNCTIONS - n
  {
    if n < FUNCTIONS {
      if !on[n] {
        OffFromBoard(p, k, on, n + 1, answers);
      } else {
        var s := Issue(p, Function(k, n, 0), answers);
        if s.err == None {
          OffFromBoard(WithFunction(s.panel, k, n, false), k, on, n + 1, answers);
        }
      }
    }
  }

  lemma {:induction false} TickAllBoard(p: Panel, tabs: seq<int>, now: int, answers: Answers)
    requires IsBlankOffline(p)
    ensures SameBoard(p, TickAll(p, tabs, now, answers).panel)
    decreases |tabs|
  {
    if tabs != [] && tabs[0] in p.cabs {
      var r := Ticked(p, tabs[0], now, answers);
      if r.err == None {
        TickAllBoard(r.panel, tabs[1..], now, answers);
      }
    }
  }

  lemma {:induction false} RequestAllBoard(p: Panel, tabs: seq<int>, answers: Answers)
    requires p.board == NoBoard()
    ensures RequestAll(p, tabs, answers).panel.board == NoBoard()
    decreases |tabs|
  {
    if tabs != [] {
      var r := Send(p, LocoRequest(tabs[0]), answers);
      if r.err == None {
        RequestAllBoard(r.panel, tabs[1..], answers);
      }
    }
  }

  lemma AttachBlanks(p: Panel, answers: Answers)
    ensures Attached(p, answers).panel.board == NoBoard()
  {
    var r := Send(Detached(p).(attached := true), TrackQuery, answers);
    if r.err == None {
      var s := Send(r.panel, Status, answers);
      if s.err == None {
        RequestAllBoard(s.panel, p.order, answers);
      }
    }
  }

  lemma TransmitBoard(p: Panel, k: int, speed: int, dir: int, now: int, answers: Answers)
    requires k in p.cabs && IsBlankOffline(p)
    ensures SameBoard(p, Transmit(p, k, speed, dir, now, answers).panel)
  {
  }

  lemma DirectedBoard(p: Panel, k: int, dir: int, now: int, answers: Answers)
    requires k in p.cabs && IsBlankOffline(p)
    ensures SameBoard(p, Directed(p, k, dir, now, answers).panel)
  {
    TransmitBoard(p, k, p.cabs[k].state.speed, dir, now, answers);
  }

  lemma PressedBoard(p: Panel, k: int, n: int, pressed: bool, answers: Answers)
    requires k in p.cabs && IsBlankOffline(p)
    ensures SameBoard(p, Pressed(p, k, n, pressed, answers).panel)
  {
  }

  lemma ObeyBoard(p: Panel, k: int, intent: UserIntent, answers: Answers)
    requires k in p.cabs && IsBlankOffline(p)
    ensures SameBoard(p, Obey(p, k, intent, answers).panel)
  {
    match intent
    case AllFunctionsOff => OffFromBoard(p, k, p.cabs[k].state.functions, 0, answers);
    case SetDirection(dir, now) => DirectedBoard(p, k, dir, now, answers);
    case FlipDirection(now) => DirectedBoard(p, k, 1 - p.cabs[k].state.direction, now, answers);
    case Stop(now) => TransmitBoard(WithoutPending(p, k), k, 0, p.cabs[k].state.direction, now, answers);
    case Press(n, pressed) => PressedBoard(p, k, n, pressed, answers);
    case _ =>
  }

  lemma SelectedBoard(p: Panel, k: int, preservePending: bool, answers: Answers)
    requires p.focus in p.cabs && IsBlankOffline(p)
    ensures SameBoard(p, Selected(p, k, preservePending, answers).panel)
  {
  }

  lemma ReplacedBoard(p: Panel, gone: int, next: int, answers: Answers)
    requires p.focus in p.cabs && IsBlankOffline(p)
    ensures SameBoard(p, Replaced(p, gone, next, answers).panel)
  {
    if gone in p.cabs {
      var q := p.(cabs := p.cabs[next := Successor(p.cabs[gone].state, next)], order := Renumbered(p.order, gone, next));
      SelectedBoard(q, next, true, answers);
    }
  }

  lemma BoardStep(p: Panel, op: Op, answers: Answers)
    requires p.focus in p.cabs && IsBlankOffline(p)
    ensures var q := Apply(p, op, answers).panel;
            if op.Attach? then q.board == NoBoard()
            else if op.Receive? then
              q.attached == p.attached && q.board == if p.attached then Heard(p.board, op.event) else NoBoard()
            else SameBoard(p, q)
  {
    match op
    case Do(intent) => ObeyBoard(p, p.focus, intent, answers);
    case WithCab(k, intent) => if k in p.cabs { ObeyBoard(p, k, intent, answers); }
    case Tick(now) => TickAllBoard(p, p.order, now, answers);
    case Attach => AttachBlanks(p, answers);
    case AddCab(k) => SelectedBoard(WithTab(p, k, p.defaultToggle), k, true, answers);
    case FocusCab(k) => SelectedBoard(p, k, true, answers);
    case SelectCab(k) => SelectedBoard(p, k, false, answers);
    case ReplaceCab(gone, next) => ReplacedBoard(p, gone, next, answers);
    case _ =>
  }

  /** The replies heard since the connection was last made, after one more operation. */
  function RepliesAfter(h: seq<Event>, op: Op, q: Panel): seq<Event> {
    if !q.attached || op.Attach? then [] else if op.Receive? then h + [op.event] else h
  }

  predicate Explains(h: seq<Event>, p: Panel) {
    AreReports(h) && p.board == BoardAfter(h) && (!p.attached ==> h == [])
  }

  lemma HeardSnoc(h: seq<Event>, e: Report)
    requires AreReports(h)
    ensures BoardAfter(h + [e]) == Heard(BoardAfter(h), e) && AreReports(h + [e])
  {
    assert (h + [e])[..|h|] == h;
  }

  lemma StillExplains(h: seq<Event>, p: Panel, op: Op, answers: Answers)
    requires p.focus in p.cabs && Explains(h, p)
    ensures var q := Apply(p, op, answers).panel; Explains(RepliesAfter(h, op, q), q)
  {
    BoardStep(p, op, answers);
    if op.Receive? {
      HeardSnoc(h, op.event);
    }
  }

  /** The station's replies since the connection was last made; none without a connection. */
  ghost function Replies(run: Run, i: nat): seq<Event>
    requires IsRun(run) && i <= |run.ops|
  {
    if i == 0 then [] else RepliesAfter(Replies(run, i - 1), run.ops[i - 1], At(run, i))
  }

  lemma {:induction false} BoardIsReplies(run: Run, i: nat)
    requires IsRun(run) && i <= |run.ops|
    ensures Explains(Replies(run, i), At(run, i))
  {
    if i > 0 {
      BoardIsReplies(run, i - 1);
      Stepped(run, i - 1);
      StillExplains(Replies(run, i - 1), At(run, i - 1), run.ops[i - 1], run.answers);
    }
  }

  /** In every reachable state the indicators of both roles are what the replies since
      attaching say, and the alarm is raised exactly for a fault of either. */
  lemma {:induction false} IndicatorsAreReplies(run: Run, i: nat)
    requires IsRun(run) && i <= |run.ops|
    ensures var b, h := At(run, i).board, Replies(run, i);
            && b.main == RolePower(h, "MAIN") && b.prog == RolePower(h, "PROG")
            && (b.overload <==> RolePower(h, "MAIN") == Overload || RolePower(h, "PROG") == Overload)
  {
    BoardIsReplies(run, i);
    PowerIsHistory(Replies(run, i));
  }

  function RoleOf(track: Track): string {
    if track == Main then "MAIN" else "PROG"
  }

  lemma ToggleSends(p: Panel, track: Track, answers: Answers)
    ensures var power, ok := RolePowerOf(p, track), answers(|p.log|);
            PowerToggled(p, track, answers).panel.log == p.log +
              if track == All || !p.attached || power == Unreported then []
              else [Sent(Command.Power(power == Off, track), ok)] + if ok then [] else [Closed]
  {
    assert p.log + [] == p.log;
  }

  /** Toggling a track sends nothing while its power is not known, turns it on only when the
      replies say that it is off, and turns it off in every other case, faults included. */
  lemma {:induction false} ToggleFollowsReplies(run: Run, i: nat)
    requires IsRun(run) && i < |run.ops| && run.ops[i].TogglePower?
    ensures var track, p := run.ops[i].track, At(run, i);
            var power, ok := RolePower(Replies(run, i), RoleOf(track)), run.answers(|p.log|);
            At(run, i + 1).log == p.log +
              if track == All || !p.attached || power == Unreported then []
              else [Sent(Command.Power(power == Off, track), ok)] + if ok then [] else [Closed]
  {
    Stepped(run, i);
    var track, p := run.ops[i].track, At(run, i);
    IndicatorsAreReplies(run, i);
    assert track != All ==> RolePowerOf(p, track) == RolePower(Replies(run, i), RoleOf(track));
    ToggleSends(p, track, run.answers);
  }
}
