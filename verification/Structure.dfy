/** The structural invariant of a panel: its tabs are exactly its cabs, and always a valid layout. */
module Structure {
  import opened Results
  import opened Commands
  import opened Settings
  import opened Panel
  import opened Sets

  predicate Distinct(order: seq<int>) {
    forall i, j | 0 <= i < j < |order| :: order[i] != order[j]
  }

  predicate IsWellNamed(s: CabState) {
    IsDisplayName(s.name) && forall n | 0 <= n < FUNCTIONS :: IsDisplayName(s.labels[n])
  }

  ghost predicate IsEntry(k: int, r: Runtime) {
    IsCab(k) && r.state.cab == k && IsWellNamed(r.state)
  }

  ghost predicate Structured(p: Panel) {
    && p.focus in p.cabs
    && Distinct(p.order)
    && (forall k :: k in p.order <==> k in p.cabs)
    && forall k | k in p.cabs :: IsEntry(k, p.cabs[k])
  }

  /** What an operation that only commands locomotives leaves alone: everything but their
      motion and functions, and the connection. */
  ghost predicate SameTabs(p: Panel, q: Panel) {
    && q.focus == p.focus && q.order == p.order && q.poll == p.poll && q.defaultToggle == p.defaultToggle
    && q.cabs.Keys == p.cabs.Keys
    && forall k | k in p.cabs :: SameIdentity(p.cabs[k].state, q.cabs[k].state)
  }

  predicate SameIdentity(s: CabState, t: CabState) {
    t.cab == s.cab && t.name == s.name && t.labels == s.labels && t.toggle == s.toggle && t.hidden == s.hidden
  }

  lemma SameTabsIsTransitive(p: Panel, q: Panel, r: Panel)
    requires SameTabs(p, q) && SameTabs(q, r)
    ensures SameTabs(p, r)
  {
    forall k | k in p.cabs ensures SameIdentity(p.cabs[k].state, r.cabs[k].state) {
      assert k in q.cabs;
    }
  }

  lemma SameTabsStructured(p: Panel, q: Panel)
    requires Structured(p) && SameTabs(p, q)
    ensures Structured(q)
  {
    forall k | k in q.cabs ensures IsEntry(k, q.cabs[k]) {
      assert k in p.cabs.Keys;
    }
    assert forall k :: k in q.cabs <==> k in p.cabs.Keys;
  }

  lemma DetachedSameTabs(p: Panel)
    ensures SameTabs(p, Detached(p))
  {
    assert Detached(p).cabs.Keys == p.cabs.Keys;
  }

  lemma SendSameTabs(p: Panel, cmd: Command, answers: Answers)
    ensures SameTabs(p, Send(p, cmd, answers).panel)
  {
    if p.attached && !answers(|p.log|) {
      DetachedSameTabs(p.(log := p.log + [Sent(cmd, false)]));
    }
  }

  lemma UpdateSameTabs(p: Panel, k: int, r: Runtime)
    requires k in p.cabs && SameIdentity(p.cabs[k].state, r.state)
    ensures SameTabs(p, Update(p, k, r))
  {
    assert Update(p, k, r).cabs.Keys == p.cabs.Keys;
  }

  lemma TransmitSameTabs(p: Panel, k: int, speed: int, dir: int, now: int, answers: Answers)
    requires k in p.cabs
    ensures SameTabs(p, Transmit(p, k, speed, dir, now, answers).panel)
  {
    SendSameTabs(p, Throttle(k, speed, dir), answers);
    var s := Issue(p, Throttle(k, speed, dir), answers);
    if s.err == None {
      var t := Transmit(p, k, speed, dir, now, answers).panel;
      UpdateSameTabs(s.panel, k, t.cabs[k]);
      SameTabsIsTransitive(p, s.panel, t);
    }
  }

  lemma {:induction false} OffFromSameTabs(p: Panel, k: int, on: Flags, n: nat, answers: Answers)
    requires k in p.cabs && n <= FUNCTIONS
    ensures SameTabs(p, OffFrom(p, k, on, n, answers).panel)
    decreases FUNCTIONS - n
  {
    if n < FUNCTIONS {
      if !on[n] {
        OffFromSameTabs(p, k, on, n + 1, answers);
      } else {
        SendSameTabs(p, Function(k, n, 0), answers);
        var s := Issue(p, Function(k, n, 0), answers);
        if s.err == None {
          var t := WithFunction(s.panel, k, n, false);
          UpdateSameTabs(s.panel, k, t.cabs[k]);
          SameTabsIsTransitive(p, s.panel, t);
          OffFromSameTabs(t, k, on, n + 1, answers);
          SameTabsIsTransitive(p, t, OffFrom(t, k, on, n + 1, answers).panel);
        }
      }
    }
  }

  lemma DirectedSameTabs(p: Panel, k: int, dir: int, now: int, answers: Answers)
    requires k in p.cabs
    ensures SameTabs(p, Directed(p, k, dir, now, answers).panel)
  {
    var s := Transmit(p, k, p.cabs[k].state.speed, dir, now, answers);
    TransmitSameTabs(p, k, p.cabs[k].state.speed, dir, now, answers);
    var q := s.panel.cabs[k];
    UpdateSameTabs(s.panel, k, q.(state := q.state.(direction := dir)));
    SameTabsIsTransitive(p, s.panel, Update(s.panel, k, q.(state := q.state.(direction := dir))));
  }

  lemma StoppedSameTabs(p: Panel, k: int, now: int, answers: Answers)
    requires k in p.cabs
    ensures SameTabs(p, Stopped(p, k, now, answers).panel)
  {
    var w := WithoutPending(p, k);
    var s := Transmit(w, k, 0, p.cabs[k].state.direction, now, answers);
    UpdateSameTabs(p, k, p.cabs[k].(pending := None));
    TransmitSameTabs(w, k, 0, p.cabs[k].state.direction, now, answers);
    SameTabsIsTransitive(p, w, s.panel);
    var q := s.panel.cabs[k];
    UpdateSameTabs(s.panel, k, q.(state := q.state.(speed := 0)));
    SameTabsIsTransitive(p, s.panel, Update(s.panel, k, q.(state := q.state.(speed := 0))));
  }

  lemma EmergencySameTabs(p: Panel, k: int, answers: Answers)
    requires k in p.cabs
    ensures SameTabs(p, EmergencyStopped(p, k, answers).panel)
  {
    var q := p.(cabs := Each(p.cabs, Cancelled));
    assert q.cabs.Keys == p.cabs.Keys;
    assert SameTabs(p, q);
    var s := Send(q, EmergencyStop, answers);
    SendSameTabs(q, EmergencyStop, answers);
    SameTabsIsTransitive(p, q, s.panel);
    if s.err == None {
      var halted := s.panel.(cabs := Each(s.panel.cabs, Halted));
      assert halted.cabs.Keys == p.cabs.Keys;
      var r := halted.cabs[k];
      UpdateSameTabs(halted, k, r.(lastDirection := r.state.direction, lastKnown := true));
      SameTabsIsTransitive(p, halted, EmergencyStopped(p, k, answers).panel);
    }
  }

  lemma TickedSameTabs(p: Panel, k: int, now: int, answers: Answers)
    requires k in p.cabs
    ensures SameTabs(p, Ticked(p, k, now, answers).panel)
  {
    var w, r := WithoutPending(p, k), p.cabs[k];
    UpdateSameTabs(p, k, r.(pending := None));
    if r.pending.Some? {
      TransmitSameTabs(w, k, r.pending.value, r.state.direction, now, answers);
      SameTabsIsTransitive(p, w, Transmit(w, k, r.pending.value, r.state.direction, now, answers).panel);
    }
  }

  lemma SwitchedSameTabs(p: Panel, k: int, n: int, on: bool, shown: bool, held: bool, answers: Answers)
    requires k in p.cabs && IsFunction(n)
    ensures SameTabs(p, Switched(p, k, n, on, shown, held, answers).panel)
  {
    SendSameTabs(p, Function(k, n, if on then 1 else 0), answers);
    assert Switched(p, k, n, on, shown, held, answers).panel.cabs.Keys == p.cabs.Keys;
  }

  lemma PressedSameTabs(p: Panel, k: int, n: int, pressed: bool, answers: Answers)
    requires k in p.cabs
    ensures SameTabs(p, Pressed(p, k, n, pressed, answers).panel)
  {
    if IsFunction(n) {
      var r := p.cabs[k];
      var toggle := r.state.toggle[n] && !(r.held[n] && !pressed);
      SwitchedSameTabs(p, k, n, if toggle then !r.state.functions[n] else pressed, toggle, pressed && !toggle, answers);
    }
  }

  predicate EditsMode(intent: Intent) {
    intent.SetToggle? || intent.FlipToggle?
  }

  /** A command to one cab never opens, closes, renames, reorders or refocuses a tab. */
  lemma ObeySameTabs(p: Panel, k: int, intent: Intent, answers: Answers)
    requires k in p.cabs && !EditsMode(intent)
    ensures SameTabs(p, Obey(p, k, intent, answers).panel)
  {
    match intent
    case MoveSpeed(_) => assert Obey(p, k, intent, answers).panel.cabs.Keys == p.cabs.Keys;
    case SetDirection(dir, now) => DirectedSameTabs(p, k, dir, now, answers);
    case FlipDirection(now) => DirectedSameTabs(p, k, 1 - p.cabs[k].state.direction, now, answers);
    case Stop(now) => StoppedSameTabs(p, k, now, answers);
    case Emergency => EmergencySameTabs(p, k, answers);
    case Press(n, pressed) => PressedSameTabs(p, k, n, pressed, answers);
    case AllFunctionsOff => OffFromSameTabs(p, k, p.cabs[k].state.functions, 0, answers);
    case TickOne(now) => TickedSameTabs(p, k, now, answers);
    case Hear(_, _, _) => assert Obey(p, k, intent, answers).panel.cabs.Keys == p.cabs.Keys;
  }

  lemma EntryUpdated(p: Panel, k: int, r: Runtime)
    requires Structured(p) && k in p.cabs && IsEntry(k, r)
    ensures Structured(Update(p, k, r))
  {
    var q := Update(p, k, r);
    forall c | c in q.cabs ensures IsEntry(c, q.cabs[c]) {
      assert c in p.cabs;
    }
    assert forall c :: c in q.cabs <==> c in p.cabs;
  }

  lemma ToggledStructured(p: Panel, k: int, n: int, on: bool)
    requires Structured(p) && k in p.cabs
    ensures Structured(Toggled(p, k, n, on).panel)
  {
    if IsFunction(n) {
      var r := p.cabs[k];
      assert IsEntry(k, r);
      EntryUpdated(p, k, r.(state := r.state.(toggle := r.state.toggle[n := on])));
    }
  }

  /** Commands to one cab keep the structure, the focus and the set of open cabs. */
  lemma ObeyStructured(p: Panel, k: int, intent: Intent, answers: Answers)
    requires Structured(p) && k in p.cabs
    ensures var q := Obey(p, k, intent, answers).panel;
            Structured(q) && q.focus == p.focus && q.order == p.order && q.cabs.Keys == p.cabs.Keys
  {
    var q := Obey(p, k, intent, answers).panel;
    if EditsMode(intent) {
      var n := if IsFunction(intent.n) then intent.n else 0;
      ToggledStructured(p, k, intent.n, if intent.SetToggle? then intent.on else q.cabs[k].state.toggle[n]);
      assert q.cabs.Keys == p.cabs.Keys;
    } else {
      ObeySameTabs(p, k, intent, answers);
      SameTabsStructured(p, q);
    }
  }

  lemma {:induction false} TickAllSameTabs(p: Panel, tabs: seq<int>, now: int, answers: Answers)
    ensures SameTabs(p, TickAll(p, tabs, now, answers).panel)
    decreases |tabs|
  {
    if tabs != [] && tabs[0] in p.cabs {
      var r := Ticked(p, tabs[0], now, answers);
      TickedSameTabs(p, tabs[0], now, answers);
      if r.err == None {
        TickAllSameTabs(r.panel, tabs[1..], now, answers);
        SameTabsIsTransitive(p, r.panel, TickAll(r.panel, tabs[1..], now, answers).panel);
      }
    }
  }

  lemma {:induction false} RequestAllSameTabs(p: Panel, tabs: seq<int>, answers: Answers)
    ensures SameTabs(p, RequestAll(p, tabs, answers).panel)
    decreases |tabs|
  {
    if tabs != [] {
      var r := Send(p, LocoRequest(tabs[0]), answers);
      SendSameTabs(p, LocoRequest(tabs[0]), answers);
      if r.err == None {
        RequestAllSameTabs(r.panel, tabs[1..], answers);
        SameTabsIsTransitive(p, r.panel, RequestAll(r.panel, tabs[1..], answers).panel);
      }
    }
  }

  lemma AttachedSameTabs(p: Panel, answers: Answers)
    ensures SameTabs(p, Attached(p, answers).panel)
  {
    var q := Detached(p).(attached := true);
    DetachedSameTabs(p);
    assert SameTabs(p, q);
    var r := Send(q, TrackQuery, answers);
    SendSameTabs(q, TrackQuery, answers);
    SameTabsIsTransitive(p, q, r.panel);
    if r.err == None {
      var s := Send(r.panel, Status, answers);
      SendSameTabs(r.panel, Status, answers);
      SameTabsIsTransitive(p, r.panel, s.panel);
      RequestAllSameTabs(s.panel, q.order, answers);
      SameTabsIsTransitive(p, s.panel, RequestAll(s.panel, q.order, answers).panel);
    }
  }

  lemma ReceivedSameTabs(p: Panel, e: Report)
    ensures SameTabs(p, Received(p, e))
  {
    assert Received(p, e).cabs.Keys == p.cabs.Keys;
  }

  lemma ReceivedStructured(p: Panel, e: Report)
    requires Structured(p)
    ensures Structured(Received(p, e))
  {
    ReceivedSameTabs(p, e);
    SameTabsStructured(p, Received(p, e));
  }

  // ------------------------------------------------------------------ layout edits

  lemma WithTabStructured(p: Panel, k: int, toggle: Flags)
    requires Structured(p) && k !in p.cabs && IsCab(k)
    ensures Structured(WithTab(p, k, toggle))
  {
    var q := WithTab(p, k, toggle);
    assert forall c :: c in q.order <==> c in p.order || c == k;
  }

  lemma SelectedStructured(p: Panel, k: int, preservePending: bool, answers: Answers)
    requires Structured(p)
    ensures Structured(Selected(p, k, preservePending, answers).panel)
  {
    if IsCab(k) && k != p.focus {
      UpdateSameTabs(p, p.focus, p.cabs[p.focus].(pending := None));
      SameTabsStructured(p, WithoutPending(p, p.focus));
      var q := if preservePending then p else WithoutPending(p, p.focus);
      if k !in q.cabs {
        WithTabStructured(q, k, q.defaultToggle);
      }
      var r := (if k in q.cabs then q else WithTab(q, k, q.defaultToggle)).(focus := k);
      SendSameTabs(r, LocoRequest(k), answers);
      SameTabsStructured(r, Send(r, LocoRequest(k), answers).panel);
    }
  }

  lemma AddedStructured(p: Panel, k: int, answers: Answers)
    requires Structured(p)
    ensures Structured(Added(p, k, answers).panel)
  {
    if k !in p.cabs && IsCab(k) {
      WithTabStructured(p, k, p.defaultToggle);
      SelectedStructured(WithTab(p, k, p.defaultToggle), k, true, answers);
    }
  }

  lemma {:induction false} WithoutDistinct(order: seq<int>, k: int)
    requires Distinct(order)
    ensures Distinct(Without(order, k))
  {
    if order != [] {
      assert Distinct(order[1..]);
      WithoutDistinct(order[1..], k);
      var rest := Without(order[1..], k);
      forall j | 0 <= j < |rest| ensures rest[j] != order[0] {
        assert rest[j] in order[1..];
      }
    }
  }

  lemma OnlyElement(s: set<int>, k: int)
    requires k in s && forall x | x in s :: x == k
    ensures |s| == 1
  {
    forall x ensures x in s <==> x in {k} {
    }
    assert s == {k};
  }

  lemma Another(s: set<int>, k: int) returns (c: int)
    requires k in s && |s| > 1
    ensures c in s && c != k
  {
    if forall x | x in s :: x == k {
      OnlyElement(s, k);
      assert false;
    }
    c :| c in s && c != k;
  }

  lemma RemovedStructured(p: Panel, k: int)
    requires Structured(p)
    ensures Structured(Removed(p, k).panel)
  {
    if k in p.cabs && |p.cabs| != 1 && IsAtRest(p.cabs[k]) {
      var q := Removed(p, k).panel;
      WithoutDistinct(p.order, k);
      assert k in p.cabs.Keys && |p.cabs.Keys| == |p.cabs| > 0;
      var c := Another(p.cabs.Keys, k);
      assert c in q.order;
      assert forall x :: x in q.order <==> x in q.cabs;
    }
  }

  lemma {:induction false} ReplacedStructured(p: Panel, gone: int, next: int, answers: Answers)
    requires Structured(p)
    ensures Structured(Replaced(p, gone, next, answers).panel)
  {
    if gone != next && IsCab(next) && next !in p.cabs && gone in p.cabs && IsAtRest(p.cabs[gone]) {
      var order := Renumbered(p.order, gone, next);
      var q := p.(cabs := p.cabs[next := Successor(p.cabs[gone].state, next)], order := order);
      var f := q.(focus := next);
      var r := Focused(q, next, answers).panel;
      assert SameTabs(f, r) by {
        SendSameTabs(f, LocoRequest(next), answers);
      }
      assert IsEntry(gone, p.cabs[gone]);
      assert Distinct(order) by {
        forall i, j | 0 <= i < j < |order| ensures order[i] != order[j] {
          assert p.order[i] != p.order[j] && p.order[i] in p.order && p.order[j] in p.order;
        }
      }
      forall k ensures k in order <==> k in r.cabs - {gone} {
        RenumberedContents(p.order, gone, next, k);
        assert k in r.cabs <==> k in q.cabs.Keys;
      }
      forall k | k in r.cabs - {gone} ensures IsEntry(k, r.cabs[k]) {
        assert k in q.cabs.Keys;
        assert SameIdentity(q.cabs[k].state, r.cabs[k].state);
      }
    }
  }

  lemma RenumberedContents(order: seq<int>, gone: int, next: int, k: int)
    requires gone in order && gone != next && next !in order
    ensures k in Renumbered(order, gone, next) <==> k == next || (k in order && k != gone)
  {
    var s := Renumbered(order, gone, next);
    if k in order && k != gone {
      var i :| 0 <= i < |order| && order[i] == k;
      assert s[i] == k;
    }
    var g :| 0 <= g < |order| && order[g] == gone;
    assert s[g] == next;
  }

  lemma EditedStructured(p: Panel, op: Op, answers: Answers)
    requires Structured(p) && (op.RenameCab? || op.SetFunctionLabel? || op.SetFunctionHidden?)
    ensures Structured(Apply(p, op, answers).panel)
  {
    if op.cab in p.cabs {
      var r := p.cabs[op.cab];
      assert IsEntry(op.cab, r);
      match op
      case RenameCab(_, name) =>
        if IsDisplayName(name) {
          TrimKeepsNames(name);
          EntryUpdated(p, op.cab, r.(state := r.state.(name := Trim(name))));
        }
      case SetFunctionLabel(_, n, label_) =>
        if IsFunction(n) && IsDisplayName(label_) {
          TrimKeepsNames(label_);
          EntryUpdated(p, op.cab, r.(state := r.state.(labels := r.state.labels[n := Trim(label_)])));
        }
      case SetFunctionHidden(_, n, hidden) =>
        if IsFunction(n) {
          EntryUpdated(p, op.cab, r.(state := r.state.(hidden := r.state.hidden[n := hidden])));
        }
    }
  }

  predicate EditsTabs(op: Op) {
    || op.AddCab? || op.FocusCab? || op.SelectCab? || op.RemoveCab? || op.ReplaceCab?
    || op.RenameCab? || op.SetFunctionLabel? || op.SetFunctionHidden? || op.SetPoll?
    || (op.Do? && EditsMode(op.intent)) || (op.WithCab? && EditsMode(op.intent))
  }

  lemma ApplySameTabs(p: Panel, op: Op, answers: Answers)
    requires p.focus in p.cabs && !EditsTabs(op)
    ensures SameTabs(p, Apply(p, op, answers).panel)
  {
    match op
    case Do(intent) => ObeySameTabs(p, p.focus, intent, answers);
    case WithCab(cab, intent) => if cab in p.cabs { ObeySameTabs(p, cab, intent, answers); }
    case Tick(now) => TickAllSameTabs(p, p.order, now, answers);
    case Receive(event) => ReceivedSameTabs(p, event);
    case Attach => AttachedSameTabs(p, answers);
    case Detach => DetachedSameTabs(p);
    case Station(cmd) => SendSameTabs(p, cmd, answers);
    case TogglePower(track) => SendSameTabs(p, Command.Power(RolePowerOf(p, track) == Messages.Off, track), answers);
    case Poll => SendSameTabs(p, CurrentQuery, answers);
  }

  /** Every operation keeps the structure, whatever the transport answers. */
  lemma StructureKept(p: Panel, op: Op, answers: Answers)
    requires Structured(p)
    ensures Structured(Apply(p, op, answers).panel)
  {
    match op
    case AddCab(cab) => AddedStructured(p, cab, answers);
    case FocusCab(cab) => if cab in p.cabs { SelectedStructured(p, cab, true, answers); }
    case SelectCab(cab) => SelectedStructured(p, cab, false, answers);
    case RemoveCab(cab) => RemovedStructured(p, cab);
    case ReplaceCab(gone, next) => ReplacedStructured(p, gone, next, answers);
    case RenameCab(_, _) => EditedStructured(p, op, answers);
    case SetFunctionLabel(_, _, _) => EditedStructured(p, op, answers);
    case SetFunctionHidden(_, _, _) => EditedStructured(p, op, answers);
    case SetPoll(_) =>
    case Do(intent) => ObeyStructured(p, p.focus, intent, answers);
    case WithCab(cab, intent) => if cab in p.cabs { ObeyStructured(p, cab, intent, answers); }
    case _ =>
      ApplySameTabs(p, op, answers);
      SameTabsStructured(p, Apply(p, op, answers).panel);
  }
}
