/** No stale movement, and the rate limit, for every run. */
module Movement {
  import opened Results
  import opened Commands
  import opened Panel
  import opened Structure
  import opened Runs
  import opened Agreement
  import opened Motion
  import opened History

  function OpTime(op: Op): Option<int> {
    match op
    case Do(intent) => TimeOf(intent)
    case WithCab(_, intent) => TimeOf(intent)
    case Tick(now) => Some(now)
    case _ => None
  }

  /** The cab an operation commands, if it commands one that is open. */
  function Target(p: Panel, op: Op): Option<int> {
    match op
    case Do(_) => Some(p.focus)
    case WithCab(cab, _) => if cab in p.cabs then Some(cab) else None
    case _ => None
  }

  predicate IsCommand(op: Op) {
    op.Do? || op.WithCab?
  }

  /** The operation queues a speed for cab k. */
  predicate Queues(p: Panel, op: Op, k: int, speed: int) {
    p.attached && Target(p, op) == Some(k) && IsCommand(op) && op.intent == MoveSpeed(speed)
  }

  /** The operation asks for a new speed of cab k, one that the cab can take. */
  predicate Asks(p: Panel, op: Op, k: int) {
    IsCommand(op) && Target(p, op) == Some(k) && op.intent.MoveSpeed? && 0 <= op.intent.speed <= 126
  }

  /** The operation revokes whatever speed is queued for cab k: a stop of that cab, an emergency
      stop from any cab whether or not it reaches the station, a report of that cab, a selection
      away from it, and any attaching or detaching. */
  predicate Revokes(p: Panel, op: Op, k: int) {
    || op.Attach? || op.Detach?
    || (IsCommand(op) && Target(p, op) == Some(k) && op.intent.Stop?)
    || (IsCommand(op) && Target(p, op).Some? && op.intent.Emergency?)
    || (op.Receive? && p.attached && op.event.LocoState? && op.event.cab == k)
    || (op.SelectCab? && p.focus == k && op.cab != k && IsCab(op.cab))
  }

  lemma MovedStep(p: Panel, k: int, speed: int)
    requires k in p.cabs
    ensures var q := Moved(p, k, speed).panel;
            && q.log == p.log && q.cabs.Keys == p.cabs.Keys
            && (forall c | c in p.cabs && c != k :: q.cabs[c] == p.cabs[c])
            && q.cabs[k].lastSent == p.cabs[k].lastSent
            && (q.cabs[k].pending == p.cabs[k].pending || q.cabs[k].pending == None
                || (p.attached && q.cabs[k].pending == Some(speed)))
  {
  }

  lemma ReceivedFollows(p: Panel, e: Report)
    ensures Follows(p, Received(p, e), None)
  {
    FollowsSelf(p, None);
    assert p.log + [] == p.log;
    assert FollowsBy(p, Received(p, e), [], None);
  }

  lemma EditedFollows(p: Panel, op: Op, answers: Answers)
    requires p.focus in p.cabs && (op.RenameCab? || op.SetFunctionLabel? || op.SetFunctionHidden? || op.SetPoll?)
    ensures Follows(p, Apply(p, op, answers).panel, None)
  {
    assert p.log + [] == p.log;
    assert FollowsBy(p, Apply(p, op, answers).panel, [], None);
  }

  lemma RemovedFollows(p: Panel, k: int)
    ensures Follows(p, Removed(p, k).panel, None)
  {
    assert p.log + [] == p.log;
    assert FollowsBy(p, Removed(p, k).panel, [], None);
  }

  lemma TabOpFollows(p: Panel, op: Op, answers: Answers)
    requires p.focus in p.cabs && IsTabOp(op)
    ensures Follows(p, Apply(p, op, answers).panel, None)
  {
    FollowsSelf(p, None);
    match op
    case AddCab(k) => AddedFollows(p, k, answers);
    case FocusCab(k) => SelectedFollows(p, k, true, answers);
    case SelectCab(k) => SelectedFollows(p, k, false, answers);
    case RemoveCab(k) => RemovedFollows(p, k);
    case ReplaceCab(gone, next) => ReplacedFollows(p, gone, next, answers);
  }

  lemma StationOpFollows(p: Panel, op: Op, answers: Answers)
    requires p.focus in p.cabs && (op.Attach? || op.Detach? || op.Station? || op.TogglePower? || op.Poll?)
    ensures Follows(p, Apply(p, op, answers).panel, None)
  {
    FollowsSelf(p, None);
    match op
    case Attach => AttachedFollows(p, answers);
    case Detach => DetachedFollows(p, None);
    case Station(cmd) => SendFollows(p, cmd, None, answers);
    case TogglePower(track) => SendFollows(p, Command.Power(RolePowerOf(p, track) == Messages.Off, track), None, answers);
    case Poll => SendFollows(p, CurrentQuery, None, answers);
  }

  lemma ApplyFollows(p: Panel, op: Op, answers: Answers)
    requires p.focus in p.cabs && !(IsCommand(op) && op.intent.MoveSpeed?)
    ensures Follows(p, Apply(p, op, answers).panel, OpTime(op))
  {
    if IsTabOp(op) {
      TabOpFollows(p, op, answers);
    } else if IsCommand(op) {
      FollowsSelf(p, OpTime(op));
      if Target(p, op).Some? {
        ObeyFollows(p, Target(p, op).value, op.intent, answers);
      }
    } else if op.Tick? {
      TickAllFollows(p, p.order, op.now, answers);
    } else if op.Receive? {
      ReceivedFollows(p, op.event);
    } else if op.RenameCab? || op.SetFunctionLabel? || op.SetFunctionHidden? || op.SetPoll? {
      EditedFollows(p, op, answers);
    } else {
      StationOpFollows(p, op, answers);
    }
  }

  lemma RevokedStep(p: Panel, op: Op, k: int, answers: Answers)
    requires Structured(p) && Revokes(p, op, k) && k in Apply(p, op, answers).panel.cabs
    ensures Apply(p, op, answers).panel.cabs[k].pending == None
  {
    if op.Attach? {
      AttachedFollows(p, answers);
    } else if IsCommand(op) {
      var t := Target(p, op).value;
      if op.intent.Stop? {
        StoppedFollows(p, t, op.intent.now, answers);
      } else {
        EmergencyFollows(p, t, None, answers);
      }
    } else if op.SelectCab? {
      SelectedFollows(p, op.cab, false, answers);
    }
  }

  lemma LogStep(p: Panel, op: Op, answers: Answers)
    requires Structured(p)
    ensures var q := Apply(p, op, answers).panel; |p.log| <= |q.log| && q.log[..|p.log|] == p.log
  {
    if IsCommand(op) && op.intent.MoveSpeed? {
      if Target(p, op).Some? {
        MovedStep(p, Target(p, op).value, op.intent.speed);
      }
    } else {
      ApplyFollows(p, op, answers);
      var seg :| FollowsBy(p, Apply(p, op, answers).panel, seg, OpTime(op));
    }
  }

  /** What a step from p to q added to the log. */
  function NewWire(p: Panel, q: Panel): seq<Wire> {
    if |p.log| <= |q.log| then q.log[|p.log|..] else []
  }

  /** What operation number i of a run put on the connection. */
  ghost function NewLog(run: Run, i: nat): seq<Wire>
    requires IsRun(run) && i < |run.ops|
  {
    NewWire(At(run, i), At(run, i + 1))
  }

  lemma LastSentStep(p: Panel, op: Op, k: int, answers: Answers)
    requires Structured(p) && k in Apply(p, op, answers).panel.cabs
    ensures var q := Apply(p, op, answers).panel;
            && |p.log| <= |q.log|
            && q.cabs[k].lastSent == if k !in p.cabs then None
                                     else if Transmits(q.log[|p.log|..], k) then OpTime(op)
                                     else p.cabs[k].lastSent
  {
    var q := Apply(p, op, answers).panel;
    if IsCommand(op) && op.intent.MoveSpeed? {
      if Target(p, op).Some? {
        MovedStep(p, Target(p, op).value, op.intent.speed);
        assert k in q.cabs.Keys;
      }
      assert q.log[|p.log|..] == [];
    } else {
      ApplyFollows(p, op, answers);
      var seg :| FollowsBy(p, q, seg, OpTime(op));
      assert CabFollows(p, q, seg, k, OpTime(op));
      assert q.log[|p.log|..] == seg;
    }
  }

  // --------------------------------------------------------- what a tick sends

  predicate IsDue(p: Panel, k: int, now: int)
    requires k in p.cabs
  {
    var r := p.cabs[k];
    && p.attached && r.pending.Some? && !IsLimited(r, now)
    && !(r.lastKnown && r.pending.value == r.lastSpeed && r.state.direction == r.lastDirection)
  }

  /** What a tick puts on the connection, from the panel before it and the answers alone: one
      command for each due tab in order, up to the first that fails. */
  function TickLog(p: Panel, tabs: seq<int>, now: int, n: nat, answers: Answers): seq<Wire>
    requires forall i | 0 <= i < |tabs| :: tabs[i] in p.cabs
  {
    if tabs == [] then []
    else if !IsDue(p, tabs[0], now) then TickLog(p, tabs[1..], now, n, answers)
    else
      var r := p.cabs[tabs[0]];
      var cmd := Throttle(tabs[0], r.pending.value, r.state.direction);
      if answers(n) then [Sent(cmd, true)] + TickLog(p, tabs[1..], now, n + 1, answers)
      else [Sent(cmd, false), Closed]
  }

  lemma {:induction false} TickLogDepends(p: Panel, q: Panel, tabs: seq<int>, now: int, n: nat, answers: Answers)
    requires forall i | 0 <= i < |tabs| :: tabs[i] in p.cabs && tabs[i] in q.cabs && q.cabs[tabs[i]] == p.cabs[tabs[i]]
    requires q.attached == p.attached
    ensures TickLog(q, tabs, now, n, answers) == TickLog(p, tabs, now, n, answers)
  {
    if tabs != [] {
      TickLogDepends(p, q, tabs[1..], now, n, answers);
      TickLogDepends(p, q, tabs[1..], now, n + 1, answers);
    }
  }

  lemma TickedAlone(p: Panel, k: int, now: int, answers: Answers)
    requires k in p.cabs && Good(p.cabs[k], p.attached, false) && IsCab(k)
    ensures var s := Ticked(p, k, now, answers);
            if !IsDue(p, k, now) then
              && s.err == None && s.panel.log == p.log && s.panel.attached == p.attached
              && s.panel.cabs.Keys == p.cabs.Keys
              && (forall c | c in p.cabs && c != k :: s.panel.cabs[c] == p.cabs[c])
              && (!IsLimited(p.cabs[k], now) ==> s.panel.cabs[k].pending == None)
            else
              var cmd := Throttle(k, p.cabs[k].pending.value, p.cabs[k].state.direction);
              if answers(|p.log|) then
                && s.err == None && s.panel.log == p.log + [Sent(cmd, true)] && s.panel.attached
                && s.panel.cabs.Keys == p.cabs.Keys
                && (forall c | c in p.cabs && c != k :: s.panel.cabs[c] == p.cabs[c])
                && s.panel.cabs[k].pending == None
              else s.err != None && s.panel.log == p.log + [Sent(cmd, false), Closed]
  {
    var r := p.cabs[k];
    if IsDue(p, k, now) {
      var cmd := Throttle(k, r.pending.value, r.state.direction);
      assert InRange(cmd);
      if !answers(|p.log|) {
        assert p.log + [Sent(cmd, false)] + [Closed] == p.log + [Sent(cmd, false), Closed];
      }
    } else if r.pending.Some? {
      assert p.attached;
    }
  }

  ghost predicate CanTick(p: Panel, tabs: seq<int>) {
    Structured(p) && AllGood(p, false) && Distinct(tabs) && forall i | 0 <= i < |tabs| :: tabs[i] in p.cabs
  }

  /** After the first tab, the rest of the tick finds its own tabs as they were. */
  lemma RestOfTick(p: Panel, tabs: seq<int>, now: int, answers: Answers)
    requires CanTick(p, tabs) && tabs != [] && Ticked(p, tabs[0], now, answers).err == None
    ensures var q := Ticked(p, tabs[0], now, answers).panel;
            && CanTick(q, tabs[1..]) && q.attached == p.attached && tabs[0] !in tabs[1..]
            && forall i | 0 <= i < |tabs[1..]| :: tabs[1..][i] in p.cabs && q.cabs[tabs[1..][i]] == p.cabs[tabs[1..][i]]
  {
    var k, rest := tabs[0], tabs[1..];
    assert Good(p.cabs[k], p.attached, false) && IsEntry(k, p.cabs[k]);
    var q := Ticked(p, k, now, answers).panel;
    TickedAlone(p, k, now, answers);
    TickedGood(p, k, now, false, answers);
    TickedSameTabs(p, k, now, answers);
    SameTabsStructured(p, q);
    forall i | 0 <= i < |rest| ensures rest[i] in p.cabs && rest[i] in q.cabs && rest[i] != k {
      assert rest[i] == tabs[i + 1];
      assert rest[i] in q.cabs.Keys;
    }
  }

  /** A tick sends exactly its tick log. */
  lemma {:induction false} TickSends(p: Panel, tabs: seq<int>, now: int, answers: Answers)
    requires CanTick(p, tabs)
    ensures TickAll(p, tabs, now, answers).panel.log == p.log + TickLog(p, tabs, now, |p.log|, answers)
    decreases |tabs|
  {
    if tabs == [] {
      assert p.log + [] == p.log;
    } else {
      var k, rest := tabs[0], tabs[1..];
      assert Good(p.cabs[k], p.attached, false) && IsEntry(k, p.cabs[k]);
      var r := Ticked(p, k, now, answers);
      TickedAlone(p, k, now, answers);
      if r.err == None {
        RestOfTick(p, tabs, now, answers);
        TickSends(r.panel, rest, now, answers);
        TickLogDepends(p, r.panel, rest, now, |r.panel.log|, answers);
      }
    }
  }

  /** A tick whose sends succeed leaves nothing queued except where the rate limit holds. */
  lemma {:induction false} TickSettles(p: Panel, tabs: seq<int>, now: int, answers: Answers)
    requires CanTick(p, tabs) && TickAll(p, tabs, now, answers).err == None
    ensures var q := TickAll(p, tabs, now, answers).panel;
            && q.cabs.Keys == p.cabs.Keys
            && (forall c | c in p.cabs && c !in tabs :: q.cabs[c] == p.cabs[c])
            && forall i | 0 <= i < |tabs| :: IsLimited(p.cabs[tabs[i]], now) || q.cabs[tabs[i]].pending == None
    decreases |tabs|
  {
    if tabs != [] {
      var k, rest := tabs[0], tabs[1..];
      assert Good(p.cabs[k], p.attached, false) && IsEntry(k, p.cabs[k]);
      var r := Ticked(p, k, now, answers).panel;
      TickedAlone(p, k, now, answers);
      RestOfTick(p, tabs, now, answers);
      TickSettles(r, rest, now, answers);
      var q := TickAll(p, tabs, now, answers).panel;
      assert forall c | c in p.cabs && c !in tabs :: c !in rest && c in r.cabs.Keys;
      assert k in r.cabs.Keys && q.cabs[k] == r.cabs[k];
      forall i | 0 <= i < |tabs| ensures IsLimited(p.cabs[tabs[i]], now) || q.cabs[tabs[i]].pending == None {
        if i > 0 {
          assert tabs[i] == rest[i - 1];
        }
      }
    }
  }

  /** Every command of a tick is for a due tab and carries its queued speed and its direction;
      no tab gets two. */
  lemma {:induction false} TickLogIsSound(p: Panel, tabs: seq<int>, now: int, n: nat, j: nat, answers: Answers)
    requires forall i | 0 <= i < |tabs| :: tabs[i] in p.cabs
    requires Distinct(tabs)
    requires j < |TickLog(p, tabs, now, n, answers)|
    ensures var log := TickLog(p, tabs, now, n, answers); var w := log[j];
            w == Closed
            || (&& w.Sent? && w.cmd.Throttle? && w.cmd.cab in tabs && IsDue(p, w.cmd.cab, now)
                && w.cmd.speed == p.cabs[w.cmd.cab].pending.value && w.cmd.dir == p.cabs[w.cmd.cab].state.direction
                && forall i | j < i < |log| && log[i].Sent? :: log[i].cmd.Throttle? && log[i].cmd.cab != w.cmd.cab)
  {
    var k, rest := tabs[0], tabs[1..];
    if !IsDue(p, k, now) {
      TickLogIsSound(p, rest, now, n, j, answers);
    } else if answers(n) {
      var tail := TickLog(p, rest, now, n + 1, answers);
      var log := TickLog(p, tabs, now, n, answers);
      if j == 0 {
        forall i | 0 < i < |log| && log[i].Sent? ensures log[i].cmd.Throttle? && log[i].cmd.cab != k {
          assert log[i] == tail[i - 1];
          TickLogIsSound(p, rest, now, n + 1, i - 1, answers);
          assert k !in rest;
        }
      } else {
        TickLogIsSound(p, rest, now, n + 1, j - 1, answers);
        assert log[j] == tail[j - 1];
        if log[j].Sent? {
          forall i | j < i < |log| && log[i].Sent? ensures log[i].cmd.Throttle? && log[i].cmd.cab != log[j].cmd.cab {
            assert log[i] == tail[i - 1];
          }
        }
      }
    }
  }

  ghost predicate IsBefore(tabs: seq<int>, a: int, b: int) {
    exists x, y | 0 <= x < y < |tabs| :: tabs[x] == a && tabs[y] == b
  }

  lemma BeforeInMore(k: int, rest: seq<int>, a: int, b: int)
    ensures a == k && b in rest ==> IsBefore([k] + rest, a, b)
    ensures IsBefore(rest, a, b) ==> IsBefore([k] + rest, a, b)
  {
    var tabs := [k] + rest;
    if a == k && b in rest {
      var y :| 0 <= y < |rest| && rest[y] == b;
      assert tabs[0] == a && tabs[y + 1] == b;
    }
    if IsBefore(rest, a, b) {
      var x, y :| 0 <= x < y < |rest| && rest[x] == a && rest[y] == b;
      assert tabs[x + 1] == a && tabs[y + 1] == b;
    }
  }

  /** The commands of a tick come in the order of the tabs. */
  lemma {:induction false} TickLogIsOrdered(p: Panel, tabs: seq<int>, now: int, n: nat, i: nat, j: nat, answers: Answers)
    requires Distinct(tabs) && forall x | 0 <= x < |tabs| :: tabs[x] in p.cabs
    requires i < j < |TickLog(p, tabs, now, n, answers)|
    requires TickLog(p, tabs, now, n, answers)[j].Sent?
    ensures var log := TickLog(p, tabs, now, n, answers);
            log[i].Sent? && log[i].cmd.Throttle? && log[j].cmd.Throttle? && IsBefore(tabs, log[i].cmd.cab, log[j].cmd.cab)
    decreases |tabs|
  {
    var k, rest := tabs[0], tabs[1..];
    assert tabs == [k] + rest;
    var log := TickLog(p, tabs, now, n, answers);
    if !IsDue(p, k, now) {
      TickLogIsOrdered(p, rest, now, n, i, j, answers);
      BeforeInMore(k, rest, log[i].cmd.cab, log[j].cmd.cab);
    } else if answers(n) {
      var tail := TickLog(p, rest, now, n + 1, answers);
      assert log == [log[0]] + tail && log[j] == tail[j - 1];
      TickLogIsSound(p, rest, now, n + 1, j - 1, answers);
      if i > 0 {
        assert log[i] == tail[i - 1];
        TickLogIsOrdered(p, rest, now, n + 1, i - 1, j - 1, answers);
      }
      BeforeInMore(k, rest, log[i].cmd.cab, log[j].cmd.cab);
    }
  }

  // ------------------------------------------------------------- what stays queued

  /** The step neither revokes nor replaces nor sends what is queued for cab k. */
  ghost predicate LeavesQueued(p: Panel, op: Op, q: Panel, k: int) {
    p.attached && !Revokes(p, op, k) && !Asks(p, op, k) && !(op.Tick? && Transmits(NewWire(p, q), k))
  }

  lemma MovedIsQueued(p: Panel, op: Op, k: int, answers: Answers)
    requires Structured(p) && AllGood(p, false) && IsCommand(op) && op.intent.MoveSpeed?
    requires k in Apply(p, op, answers).panel.cabs
    ensures var q := Apply(p, op, answers).panel;
            k in p.cabs && q.cabs[k].pending == if !Asks(p, op, k) then p.cabs[k].pending
                                                else if p.attached then Some(op.intent.speed) else None
  {
    if Target(p, op).Some? {
      var t := Target(p, op).value;
      assert Good(p.cabs[t], p.attached, false) && IsEntry(t, p.cabs[t]);
      MovedStep(p, t, op.intent.speed);
      assert k in p.cabs.Keys;
    }
  }

  /** A tick that leaves a speed queued has not sent it. */
  lemma TickLeavesUnsent(p: Panel, now: int, k: int, answers: Answers)
    requires Structured(p) && AllGood(p, false)
    requires var q := TickAll(p, p.order, now, answers).panel; k in q.cabs && q.cabs[k].pending.Some?
    ensures !Transmits(NewWire(p, TickAll(p, p.order, now, answers).panel), k)
  {
    var r := TickAll(p, p.order, now, answers);
    assert forall x | 0 <= x < |p.order| :: p.order[x] in p.order;
    TickAllGood(p, p.order, now, false, answers);
    assert Good(r.panel.cabs[k], r.panel.attached, false);
    TickSends(p, p.order, now, answers);
    var log := TickLog(p, p.order, now, |p.log|, answers);
    assert NewWire(p, r.panel) == log;
    FailedTickDetaches(p, p.order, now, answers);
    TickSettles(p, p.order, now, answers);
    assert k in p.cabs.Keys && k in p.order;
    var x :| 0 <= x < |p.order| && p.order[x] == k;
    assert IsLimited(p.cabs[k], now);
    if j :| 0 <= j < |log| && IsTransmit(log[j], k) {
      TickLogIsSound(p, p.order, now, |p.log|, j, answers);
    }
  }

  lemma {:induction false} FailedTickDetaches(p: Panel, tabs: seq<int>, now: int, answers: Answers)
    requires CanTick(p, tabs)
    ensures var r := TickAll(p, tabs, now, answers); r.err == None || !r.panel.attached
    decreases |tabs|
  {
    if tabs != [] {
      var k := tabs[0];
      assert Good(p.cabs[k], p.attached, false) && IsEntry(k, p.cabs[k]);
      TickedAlone(p, k, now, answers);
      var r := Ticked(p, k, now, answers);
      if r.err == None {
        RestOfTick(p, tabs, now, answers);
        FailedTickDetaches(r.panel, tabs[1..], now, answers);
      }
    }
  }

  /** A speed is queued after a step only if this step queued it, or it was queued before and
      the step did not revoke, replace or send it. */
  lemma PendingStep(p: Panel, op: Op, k: int, speed: int, answers: Answers)
    requires Structured(p) && AllGood(p, false)
    requires var q := Apply(p, op, answers).panel; k in q.cabs && q.cabs[k].pending == Some(speed)
    ensures Queues(p, op, k, speed)
            || (k in p.cabs && p.cabs[k].pending == Some(speed) && LeavesQueued(p, op, Apply(p, op, answers).panel, k))
  {
    var q := Apply(p, op, answers).panel;
    if k in p.cabs {
      assert Good(p.cabs[k], p.attached, false);
    }
    if IsCommand(op) && op.intent.MoveSpeed? {
      MovedIsQueued(p, op, k, answers);
    } else {
      NotRevoked(p, op, k, answers);
      ApplyFollows(p, op, answers);
      var seg :| FollowsBy(p, q, seg, OpTime(op));
      assert CabFollows(p, q, seg, k, OpTime(op));
      if op.Tick? {
        TickLeavesUnsent(p, op.now, k, answers);
      }
    }
  }

  lemma NotRevoked(p: Panel, op: Op, k: int, answers: Answers)
    requires Structured(p) && k in Apply(p, op, answers).panel.cabs && Apply(p, op, answers).panel.cabs[k].pending.Some?
    ensures !Revokes(p, op, k)
  {
    if Revokes(p, op, k) {
      RevokedStep(p, op, k, answers);
      assert false;
    }
  }

  // ----------------------------------------------------------- whole-run theorems

  /** Operation m finds the panel attached and neither revokes nor replaces nor sends what is
      queued for cab k. */
  ghost predicate Undisturbed(run: Run, m: nat, k: int)
    requires IsRun(run) && m < |run.ops|
  {
    LeavesQueued(At(run, m), run.ops[m], At(run, m + 1), k)
  }

  ghost predicate QueuedAt(run: Run, m: nat, k: int, speed: int)
    requires IsRun(run) && m < |run.ops|
  {
    Queues(At(run, m), run.ops[m], k, speed)
  }

  ghost predicate PendingAt(run: Run, m: nat, k: int, speed: int)
    requires IsRun(run) && m <= |run.ops|
  {
    k in At(run, m).cabs && At(run, m).cabs[k].pending == Some(speed)
  }

  /** Operation j queued this speed for cab k, and from then on until operation i the panel
      stayed attached, nothing revoked it, no other speed was asked for and no tick sent it. */
  ghost predicate Originates(run: Run, j: nat, i: nat, k: int, speed: int)
    requires IsRun(run) && i <= |run.ops|
  {
    j < i && QueuedAt(run, j, k, speed) && forall m | j < m < i :: Undisturbed(run, m, k)
  }

  /** What a run has queued after a step it had queued before, or this step queued it. */
  lemma PendingInRun(run: Run, i: nat, k: int, speed: int)
    requires IsRun(run) && i < |run.ops| && PendingAt(run, i + 1, k, speed)
    ensures QueuedAt(run, i, k, speed) || (Undisturbed(run, i, k) && PendingAt(run, i, k, speed))
  {
    DisplayedAgreesWithSent(run, i);
    Stepped(run, i);
    PendingStep(At(run, i), run.ops[i], k, speed, run.answers);
  }

  lemma NothingQueuedAtLaunch(run: Run, k: int, speed: int)
    requires IsRun(run)
    ensures !PendingAt(run, 0, k, speed)
  {
    if k in run.start.cabs {
      assert Layouts.AtRest(run.start.cabs[k]);
    }
  }

  lemma PendingSteps(run: Run, i: nat, k: int, speed: int, holds: nat -> bool, starts: nat -> bool, keeps: nat -> bool)
    requires IsRun(run) && i <= |run.ops|
    requires forall m: nat | m <= i :: holds(m) == PendingAt(run, m, k, speed)
    requires forall m: nat | m < i :: starts(m) == QueuedAt(run, m, k, speed) && keeps(m) == Undisturbed(run, m, k)
    ensures forall m: nat | m < i && holds(m + 1) :: starts(m) || (holds(m) && keeps(m))
  {
    forall m: nat | m < i && holds(m + 1) ensures starts(m) || (holds(m) && keeps(m)) {
      PendingInRun(run, m, k, speed);
    }
  }

  /** Every queued speed has an origin, and it is the speed last asked for. */
  lemma {:induction false} PendingHasOrigin(run: Run, i: nat, k: int, speed: int)
    requires IsRun(run) && i <= |run.ops| && PendingAt(run, i, k, speed)
    ensures exists j: nat :: Originates(run, j, i, k, speed)
  {
    var holds := (m: nat) => m <= |run.ops| && PendingAt(run, m, k, speed);
    var starts := (m: nat) => m < |run.ops| && QueuedAt(run, m, k, speed);
    var keeps := (m: nat) => m < |run.ops| && Undisturbed(run, m, k);
    NothingQueuedAtLaunch(run, k, speed);
    PendingSteps(run, i, k, speed, holds, starts, keeps);
    HasOrigin(holds, starts, keeps, i);
    var j: nat :| Since(starts, keeps, j, i);
    assert starts(j) && QueuedAt(run, j, k, speed);
    forall m | j < m < i ensures Undisturbed(run, m, k) {
      assert keeps(m);
    }
    assert Originates(run, j, i, k, speed);
  }

  /** A throttle command sent by a tick always comes from a MoveSpeed on that cab with no stop
      of it, no emergency stop, no report of it, no selection away from it and no break of the
      connection since; no other speed was asked for since and no tick sent anything to the cab
      since, so it is the latest request, sent for the first time. It carries the direction the
      cab has when it is sent. */
  lemma NoStaleMovement(run: Run, i: nat, n: nat)
    requires IsRun(run) && i < |run.ops| && run.ops[i].Tick?
    requires n < |NewLog(run, i)| && NewLog(run, i)[n].Sent?
    ensures var cmd := NewLog(run, i)[n].cmd;
            && cmd.Throttle? && cmd.cab in At(run, i).cabs
            && cmd.dir == At(run, i).cabs[cmd.cab].state.direction
            && exists j: nat :: Originates(run, j, i, cmd.cab, cmd.speed)
  {
    Stepped(run, i);
    var p, now := At(run, i), run.ops[i].now;
    DisplayedAgreesWithSent(run, i);
    assert forall x | 0 <= x < |p.order| :: p.order[x] in p.order;
    TickSends(p, p.order, now, run.answers);
    assert NewLog(run, i) == TickLog(p, p.order, now, |p.log|, run.answers);
    TickLogIsSound(p, p.order, now, |p.log|, n, run.answers);
    var cmd := NewLog(run, i)[n].cmd;
    PendingHasOrigin(run, i, cmd.cab, cmd.speed);
  }

  /** The time of the last successful transmission to cab k since its tab was opened, read off
      the connection. */
  ghost function LastTransmit(run: Run, i: nat, k: int): Option<int>
    requires IsRun(run) && i <= |run.ops|
  {
    if i == 0 || k !in At(run, i - 1).cabs then None
    else if Transmits(NewLog(run, i - 1), k) then OpTime(run.ops[i - 1])
    else LastTransmit(run, i - 1, k)
  }

  lemma ClockStep(run: Run, m: nat, k: int)
    requires IsRun(run) && m < |run.ops| && k in At(run, m + 1).cabs
    ensures At(run, m + 1).cabs[k].lastSent ==
              if k !in At(run, m).cabs then None
              else if Transmits(NewLog(run, m), k) then OpTime(run.ops[m])
              else At(run, m).cabs[k].lastSent
  {
    Stepped(run, m);
    LastSentStep(At(run, m), run.ops[m], k, run.answers);
  }

  ghost predicate ClockAgrees(run: Run, i: nat, k: int)
    requires IsRun(run) && i <= |run.ops|
  {
    k in At(run, i).cabs ==> At(run, i).cabs[k].lastSent == LastTransmit(run, i, k)
  }

  lemma ClockAgreesNext(run: Run, m: nat, k: int)
    requires IsRun(run) && m < |run.ops| && ClockAgrees(run, m, k)
    ensures ClockAgrees(run, m + 1, k)
  {
    if k in At(run, m + 1).cabs {
      ClockStep(run, m, k);
    }
  }

  lemma ClockPersists(run: Run, i: nat, k: int, agrees: nat -> bool)
    requires IsRun(run) && i <= |run.ops| && agrees(0)
    requires forall m: nat | m <= |run.ops| :: agrees(m) == ClockAgrees(run, m, k)
    ensures agrees(i)
  {
    forall m: nat | m < i && agrees(m) ensures agrees(m + 1) {
      ClockAgreesNext(run, m, k);
    }
    Persists(agrees, 0, i);
  }

  lemma ClockAlwaysAgrees(run: Run, i: nat, k: int)
    requires IsRun(run) && i <= |run.ops|
    ensures ClockAgrees(run, i, k)
  {
    var agrees := (m: nat) => m <= |run.ops| && ClockAgrees(run, m, k);
    ClockAgreesAtFirst(run, k);
    ClockPersists(run, i, k, agrees);
    assert agrees(i);
  }

  lemma ClockAgreesAtFirst(run: Run, k: int)
    requires IsRun(run)
    ensures ClockAgrees(run, 0, k)
  {
    if k in run.start.cabs {
      assert Layouts.AtRest(run.start.cabs[k]);
    }
  }

  /** The time kept for an open tab is that of its last successful transmission. */
  lemma {:induction false} ClockIsHistory(run: Run, i: nat, k: int)
    requires IsRun(run) && i <= |run.ops| && k in At(run, i).cabs
    ensures At(run, i).cabs[k].lastSent == LastTransmit(run, i, k)
  {
    ClockAlwaysAgrees(run, i, k);
  }

  /** A tick transmits to a cab at least 80 ms after the last transmission of any kind to it,
      across any changes of focus, and at most once. */
  lemma RateLimited(run: Run, i: nat, n: nat)
    requires IsRun(run) && i < |run.ops| && run.ops[i].Tick?
    requires n < |NewLog(run, i)| && NewLog(run, i)[n].Sent?
    ensures var log := NewLog(run, i);
            && log[n].cmd.Throttle?
            && (forall m | n < m < |log| && log[m].Sent? :: log[m].cmd.Throttle? && log[m].cmd.cab != log[n].cmd.cab)
            && var last := LastTransmit(run, i, log[n].cmd.cab);
               last.Some? ==> run.ops[i].now - last.value >= 80_000_000
  {
    Stepped(run, i);
    var p, now := At(run, i), run.ops[i].now;
    DisplayedAgreesWithSent(run, i);
    assert forall x | 0 <= x < |p.order| :: p.order[x] in p.order;
    TickSends(p, p.order, now, run.answers);
    assert NewLog(run, i) == TickLog(p, p.order, now, |p.log|, run.answers);
    TickLogIsSound(p, p.order, now, |p.log|, n, run.answers);
    ClockIsHistory(run, i, NewLog(run, i)[n].cmd.cab);
  }

  /** A tick serves the cabs in the order of their tabs. */
  lemma TickFollowsTabOrder(run: Run, i: nat, m: nat, n: nat)
    requires IsRun(run) && i < |run.ops| && run.ops[i].Tick?
    requires m < n < |NewLog(run, i)| && NewLog(run, i)[n].Sent?
    ensures var log := NewLog(run, i);
            && log[m].Sent? && log[m].cmd.Throttle? && log[n].cmd.Throttle?
            && IsBefore(At(run, i).order, log[m].cmd.cab, log[n].cmd.cab)
  {
    Stepped(run, i);
    var p, now := At(run, i), run.ops[i].now;
    DisplayedAgreesWithSent(run, i);
    assert forall x | 0 <= x < |p.order| :: p.order[x] in p.order;
    TickSends(p, p.order, now, run.answers);
    assert NewLog(run, i) == TickLog(p, p.order, now, |p.log|, run.answers);
    TickLogIsOrdered(p, p.order, now, |p.log|, m, n, run.answers);
  }

  ghost predicate NothingQueued(p: Panel) {
    forall k | k in p.cabs :: p.cabs[k].pending == None
  }

  /** Every cab with a queued speed was last transmitted to at least 80 ms before. */
  ghost predicate IsLate(run: Run, i: nat, now: int)
    requires IsRun(run) && i <= |run.ops|
  {
    var p := At(run, i);
    forall k | k in p.cabs && p.cabs[k].pending.Some? ::
      LastTransmit(run, i, k) == None || now - LastTransmit(run, i, k).value >= 80_000_000
  }

  /** A tick that is late enough for every cab with a queued speed, and whose sends succeed,
      leaves nothing queued. */
  lemma LateTickConverges(run: Run, i: nat)
    requires IsRun(run) && i < |run.ops| && run.ops[i].Tick?
    requires Apply(At(run, i), run.ops[i], run.answers).err == None
    requires IsLate(run, i, run.ops[i].now)
    ensures NothingQueued(At(run, i + 1))
  {
    Stepped(run, i);
    var p, now := At(run, i), run.ops[i].now;
    DisplayedAgreesWithSent(run, i);
    assert forall x | 0 <= x < |p.order| :: p.order[x] in p.order;
    TickSettles(p, p.order, now, run.answers);
    var q := At(run, i + 1);
    forall k | k in q.cabs ensures q.cabs[k].pending == None {
      assert k in p.cabs.Keys && k in p.order;
      var x :| 0 <= x < |p.order| && p.order[x] == k;
      ClockIsHistory(run, i, k);
      assert IsLimited(p.cabs[k], now) || q.cabs[k].pending == None;
      if q.cabs[k].pending.Some? {
        PendingStep(p, run.ops[i], k, q.cabs[k].pending.value, run.answers);
        assert false;
      }
    }
  }

  // ------------------------------------------------------- the limit of the guarantee

  /** Requests leave the shown state of every cab alone and queue nothing. */
  ghost predicate SameStates(p: Panel, q: Panel) {
    && q.cabs.Keys == p.cabs.Keys
    && forall c | c in p.cabs :: q.cabs[c].state == p.cabs[c].state && (p.cabs[c].pending == None ==> q.cabs[c].pending == None)
  }

  lemma SendSameStates(p: Panel, cmd: Command, answers: Answers)
    ensures SameStates(p, Send(p, cmd, answers).panel)
  {
    assert Send(p, cmd, answers).panel.cabs.Keys == p.cabs.Keys;
  }

  lemma {:induction false} RequestAllSameStates(p: Panel, tabs: seq<int>, answers: Answers)
    ensures SameStates(p, RequestAll(p, tabs, answers).panel)
    decreases |tabs|
  {
    if tabs != [] {
      SendSameStates(p, LocoRequest(tabs[0]), answers);
      var r := Send(p, LocoRequest(tabs[0]), answers);
      if r.err == None {
        RequestAllSameStates(r.panel, tabs[1..], answers);
      }
    }
  }

  lemma AttachKeepsStates(p: Panel, answers: Answers)
    ensures var q := Attached(p, answers).panel;
            && q.cabs.Keys == p.cabs.Keys
            && forall c | c in p.cabs :: q.cabs[c].state == p.cabs[c].state && q.cabs[c].pending == None
  {
    var q := Detached(p).(attached := true);
    assert q.cabs.Keys == p.cabs.Keys;
    var r := Send(q, TrackQuery, answers);
    SendSameStates(q, TrackQuery, answers);
    if r.err == None {
      var s := Send(r.panel, Status, answers);
      SendSameStates(r.panel, Status, answers);
      if s.err == None {
        RequestAllSameStates(s.panel, q.order, answers);
      }
    }
  }

  /** The guarantee is about ticks alone: a speed chosen without a connection is never queued,
      yet it stays on show, and reversing the cab after attaching sends it. */
  lemma DirectionSendsOfflineSpeed(p: Panel, k: int, speed: int, dir: int, now: int, answers: Answers)
    requires Structured(p) && AllGood(p, false) && !p.attached && k in p.cabs
    requires 0 <= speed <= 126 && dir == 1 - p.cabs[k].state.direction
    requires Attached(Moved(p, k, speed).panel, answers).panel.attached
    ensures var q := Attached(Moved(p, k, speed).panel, answers).panel;
            && k in q.cabs && q.cabs[k].pending == None
            && q.log + [Sent(Throttle(k, speed, dir), answers(|q.log|))] <= Directed(q, k, dir, now, answers).panel.log
  {
    assert Good(p.cabs[k], p.attached, false) && IsEntry(k, p.cabs[k]);
    var m := Moved(p, k, speed).panel;
    assert m == Update(p, k, m.cabs[k]) && m.cabs[k].state.speed == speed;
    AttachKeepsStates(m, answers);
    assert k in m.cabs.Keys;
  }
}
