/** Where queued speeds come from and when they are sent, over whole runs. */
module Motion {
  import opened Results
  import opened Commands
  import opened Settings
  import opened Panel
  import opened Structure
  import opened Sets

  // ------------------------------------------------ what one operation can do

  predicate IsTransmit(w: Wire, k: int) {
    w.Sent? && w.ok && w.cmd.Throttle? && w.cmd.cab == k
  }

  ghost predicate Transmits(seg: seq<Wire>, k: int) {
    exists j | 0 <= j < |seg| :: IsTransmit(seg[j], k)
  }

  lemma TransmitsConcat(a: seq<Wire>, b: seq<Wire>, k: int)
    ensures Transmits(a + b, k) <==> Transmits(a, k) || Transmits(b, k)
  {
    if Transmits(a, k) {
      var j :| 0 <= j < |a| && IsTransmit(a[j], k);
      assert (a + b)[j] == a[j];
    }
    if Transmits(b, k) {
      var j :| 0 <= j < |b| && IsTransmit(b[j], k);
      assert (a + b)[|a| + j] == b[j];
    }
  }

  /** No speed is queued that was not queued before, and the time of the last transmission is
      that of this operation exactly for the cabs it successfully transmitted to. */
  ghost predicate CabFollows(p: Panel, q: Panel, seg: seq<Wire>, c: int, now: Option<int>)
    requires c in q.cabs
  {
    if c in p.cabs then
      && (q.cabs[c].pending == None || q.cabs[c].pending == p.cabs[c].pending)
      && q.cabs[c].lastSent == (if Transmits(seg, c) then now else p.cabs[c].lastSent)
    else q.cabs[c].pending == None && q.cabs[c].lastSent == None
  }

  ghost predicate FollowsBy(p: Panel, q: Panel, seg: seq<Wire>, now: Option<int>) {
    && q.log == p.log + seg
    && forall c | c in q.cabs :: CabFollows(p, q, seg, c, now)
  }

  ghost predicate Follows(p: Panel, q: Panel, now: Option<int>) {
    exists seg :: FollowsBy(p, q, seg, now)
  }

  lemma FollowsSelf(p: Panel, now: Option<int>)
    ensures Follows(p, p, now)
  {
    assert p.log + [] == p.log;
    assert FollowsBy(p, p, [], now);
  }

  lemma FollowsTrans(p: Panel, q: Panel, r: Panel, now: Option<int>)
    requires Follows(p, q, now) && Follows(q, r, now)
    requires forall c | c in r.cabs && c in p.cabs :: c in q.cabs
    requires forall c | c in q.cabs && c !in p.cabs && c in r.cabs :: r.cabs[c].lastSent == None
    ensures Follows(p, r, now)
  {
    var a :| FollowsBy(p, q, a, now);
    var b :| FollowsBy(q, r, b, now);
    assert r.log == p.log + (a + b);
    forall c | c in r.cabs ensures CabFollows(p, r, a + b, c, now) {
      TransmitsConcat(a, b, c);
      assert CabFollows(q, r, b, c, now);
      if c in q.cabs {
        assert CabFollows(p, q, a, c, now);
      }
    }
    assert FollowsBy(p, r, a + b, now);
  }

  lemma FollowsTransSameKeys(p: Panel, q: Panel, r: Panel, now: Option<int>)
    requires Follows(p, q, now) && Follows(q, r, now) && q.cabs.Keys == p.cabs.Keys
    ensures Follows(p, r, now)
  {
    assert forall c :: c in q.cabs <==> c in p.cabs.Keys;
    FollowsTrans(p, q, r, now);
  }

  /** A change of one cab that queues nothing and leaves the clock alone. */
  lemma UpdateFollows(p: Panel, k: int, r: Runtime, now: Option<int>)
    requires k in p.cabs && (r.pending == None || r.pending == p.cabs[k].pending) && r.lastSent == p.cabs[k].lastSent
    ensures Follows(p, Update(p, k, r), now)
  {
    assert p.log + [] == p.log;
    assert FollowsBy(p, Update(p, k, r), [], now);
  }

  lemma DetachedFollows(p: Panel, now: Option<int>)
    ensures Follows(p, Detached(p), now)
  {
    var seg := if p.attached then [Closed] else [];
    assert p.log + [] == p.log;
    assert forall c :: !Transmits(seg, c);
    assert FollowsBy(p, Detached(p), seg, now);
  }

  lemma SendFollows(p: Panel, cmd: Command, now: Option<int>, answers: Answers)
    requires !cmd.Throttle?
    ensures Follows(p, Send(p, cmd, answers).panel, now)
  {
    if !p.attached {
      FollowsSelf(p, now);
    } else {
      var ok := answers(|p.log|);
      var seg := [Sent(cmd, ok)];
      var q := p.(log := p.log + seg);
      assert forall c :: !Transmits(seg, c);
      assert FollowsBy(p, q, seg, now);
      if !ok {
        DetachedFollows(q, now);
        FollowsTransSameKeys(p, q, Detached(q), now);
      }
    }
  }

  lemma TransmitFollows(p: Panel, k: int, speed: int, dir: int, now: int, answers: Answers)
    requires k in p.cabs
    ensures Follows(p, Transmit(p, k, speed, dir, now, answers).panel, Some(now))
  {
    var cmd := Throttle(k, speed, dir);
    if !InRange(cmd) || !p.attached {
      FollowsSelf(p, Some(now));
    } else {
      var ok := answers(|p.log|);
      var seg := [Sent(cmd, ok)];
      var q := p.(log := p.log + seg);
      if ok {
        var t := Transmit(p, k, speed, dir, now, answers).panel;
        assert IsTransmit(seg[0], k);
        assert forall c | c != k :: !Transmits(seg, c);
        assert FollowsBy(p, t, seg, Some(now));
      } else {
        assert forall c :: !Transmits(seg, c);
        assert FollowsBy(p, q, seg, Some(now));
        DetachedFollows(q, Some(now));
        FollowsTransSameKeys(p, q, Detached(q), Some(now));
      }
    }
  }

  lemma EachFollows(p: Panel, f: Runtime -> Runtime, now: Option<int>)
    requires forall r :: (f(r).pending == None || f(r).pending == r.pending) && f(r).lastSent == r.lastSent
    ensures Follows(p, p.(cabs := Each(p.cabs, f)), now)
  {
    assert p.log + [] == p.log;
    assert FollowsBy(p, p.(cabs := Each(p.cabs, f)), [], now);
  }

  lemma DirectedFollows(p: Panel, k: int, dir: int, now: int, answers: Answers)
    requires k in p.cabs
    ensures Follows(p, Directed(p, k, dir, now, answers).panel, Some(now))
  {
    FollowsSelf(p, Some(now));
    var s := Transmit(p, k, p.cabs[k].state.speed, dir, now, answers);
    TransmitFollows(p, k, p.cabs[k].state.speed, dir, now, answers);
    TransmitSameTabs(p, k, p.cabs[k].state.speed, dir, now, answers);
    var r := s.panel.cabs[k];
    UpdateFollows(s.panel, k, r.(state := r.state.(direction := dir)), Some(now));
    FollowsTransSameKeys(p, s.panel, Update(s.panel, k, r.(state := r.state.(direction := dir))), Some(now));
  }

  lemma StoppedFollows(p: Panel, k: int, now: int, answers: Answers)
    requires k in p.cabs
    ensures Follows(p, Stopped(p, k, now, answers).panel, Some(now))
    ensures Stopped(p, k, now, answers).panel.cabs[k].pending == None
  {
    var w := WithoutPending(p, k);
    UpdateFollows(p, k, p.cabs[k].(pending := None), Some(now));
    UpdateSameTabs(p, k, p.cabs[k].(pending := None));
    var dir := p.cabs[k].state.direction;
    var s := Transmit(w, k, 0, dir, now, answers);
    TransmitFollows(w, k, 0, dir, now, answers);
    TransmitSameTabs(w, k, 0, dir, now, answers);
    FollowsTransSameKeys(p, w, s.panel, Some(now));
    var r := s.panel.cabs[k];
    UpdateFollows(s.panel, k, r.(state := r.state.(speed := 0)), Some(now));
    assert s.panel.cabs.Keys == p.cabs.Keys;
    FollowsTransSameKeys(p, s.panel, Update(s.panel, k, r.(state := r.state.(speed := 0))), Some(now));
  }

  lemma TickedFollows(p: Panel, k: int, now: int, answers: Answers)
    requires k in p.cabs
    ensures Follows(p, Ticked(p, k, now, answers).panel, Some(now))
  {
    FollowsSelf(p, Some(now));
    var w, r := WithoutPending(p, k), p.cabs[k];
    UpdateFollows(p, k, r.(pending := None), Some(now));
    if r.pending.Some? {
      UpdateSameTabs(p, k, r.(pending := None));
      TransmitFollows(w, k, r.pending.value, r.state.direction, now, answers);
      FollowsTransSameKeys(p, w, Transmit(w, k, r.pending.value, r.state.direction, now, answers).panel, Some(now));
    }
  }

  lemma EmergencyFollows(p: Panel, k: int, now: Option<int>, answers: Answers)
    requires k in p.cabs
    ensures Follows(p, EmergencyStopped(p, k, answers).panel, now)
    ensures var q := EmergencyStopped(p, k, answers).panel; forall c | c in q.cabs :: q.cabs[c].pending == None
  {
    var q := p.(cabs := Each(p.cabs, Cancelled));
    EachFollows(p, Cancelled, now);
    assert q.cabs.Keys == p.cabs.Keys;
    var s := Send(q, EmergencyStop, answers);
    SendFollows(q, EmergencyStop, now, answers);
    SendSameTabs(q, EmergencyStop, answers);
    FollowsTransSameKeys(p, q, s.panel, now);
    if s.err == None {
      var h := s.panel.(cabs := Each(s.panel.cabs, Halted));
      EachFollows(s.panel, Halted, now);
      assert h.cabs.Keys == s.panel.cabs.Keys;
      FollowsTransSameKeys(p, s.panel, h, now);
      var r := h.cabs[k];
      UpdateFollows(h, k, r.(lastDirection := r.state.direction, lastKnown := true), now);
      FollowsTransSameKeys(p, h, EmergencyStopped(p, k, answers).panel, now);
    }
  }

  lemma SwitchedFollows(p: Panel, k: int, n: int, on: bool, shown: bool, held: bool, now: Option<int>, answers: Answers)
    requires k in p.cabs && IsFunction(n)
    ensures Follows(p, Switched(p, k, n, on, shown, held, answers).panel, now)
  {
    var cmd := Function(k, n, if on then 1 else 0);
    var s := Issue(p, cmd, answers);
    FollowsSelf(p, now);
    SendFollows(p, cmd, now, answers);
    SendSameTabs(p, cmd, answers);
    if s.err == None {
      var t := WithHeld(s.panel, k, n, held);
      UpdateFollows(s.panel, k, t.cabs[k], now);
      FollowsTransSameKeys(p, s.panel, t, now);
      assert t.cabs.Keys == p.cabs.Keys;
      var u := WithFunction(t, k, n, on);
      UpdateFollows(t, k, u.cabs[k], now);
      FollowsTransSameKeys(p, t, u, now);
    }
  }

  lemma PressedFollows(p: Panel, k: int, n: int, pressed: bool, now: Option<int>, answers: Answers)
    requires k in p.cabs
    ensures Follows(p, Pressed(p, k, n, pressed, answers).panel, now)
  {
    FollowsSelf(p, now);
    if IsFunction(n) {
      var r := p.cabs[k];
      var toggle := r.state.toggle[n] && !(r.held[n] && !pressed);
      SwitchedFollows(p, k, n, if toggle then !r.state.functions[n] else pressed, toggle, pressed && !toggle, now, answers);
    }
  }

  lemma {:induction false} OffFromFollows(p: Panel, k: int, on: Flags, n: nat, now: Option<int>, answers: Answers)
    requires k in p.cabs && n <= FUNCTIONS
    ensures Follows(p, OffFrom(p, k, on, n, answers).panel, now)
    decreases FUNCTIONS - n
  {
    FollowsSelf(p, now);
    if n < FUNCTIONS {
      if !on[n] {
        OffFromFollows(p, k, on, n + 1, now, answers);
      } else {
        var s := Issue(p, Function(k, n, 0), answers);
        SendFollows(p, Function(k, n, 0), now, answers);
        SendSameTabs(p, Function(k, n, 0), answers);
        if s.err == None {
          var t := WithFunction(s.panel, k, n, false);
          UpdateFollows(s.panel, k, t.cabs[k], now);
          FollowsTransSameKeys(p, s.panel, t, now);
          assert t.cabs.Keys == p.cabs.Keys;
          OffFromFollows(t, k, on, n + 1, now, answers);
          FollowsTransSameKeys(p, t, OffFrom(t, k, on, n + 1, answers).panel, now);
        }
      }
    }
  }

  /** The time that an intent carries, if it does. */
  function TimeOf(intent: Intent): Option<int> {
    match intent
    case SetDirection(_, now) => Some(now)
    case FlipDirection(now) => Some(now)
    case Stop(now) => Some(now)
    case TickOne(now) => Some(now)
    case _ => None
  }

  lemma ObeyFollows(p: Panel, k: int, intent: UserIntent, answers: Answers)
    requires k in p.cabs && !intent.MoveSpeed?
    ensures Follows(p, Obey(p, k, intent, answers).panel, TimeOf(intent))
  {
    if EditsMode(intent) {
      var q := Obey(p, k, intent, answers).panel;
      FollowsSelf(p, None);
      if q != p {
        UpdateFollows(p, k, q.cabs[k], None);
        assert q == Update(p, k, q.cabs[k]);
      }
    }
    match intent
    case SetDirection(dir, now) => DirectedFollows(p, k, dir, now, answers);
    case FlipDirection(now) => DirectedFollows(p, k, 1 - p.cabs[k].state.direction, now, answers);
    case Stop(now) => StoppedFollows(p, k, now, answers);
    case Emergency => EmergencyFollows(p, k, None, answers);
    case Press(n, pressed) => PressedFollows(p, k, n, pressed, None, answers);
    case AllFunctionsOff => OffFromFollows(p, k, p.cabs[k].state.functions, 0, None, answers);
    case _ =>
  }

  lemma {:induction false} TickAllFollows(p: Panel, tabs: seq<int>, now: int, answers: Answers)
    ensures Follows(p, TickAll(p, tabs, now, answers).panel, Some(now))
    decreases |tabs|
  {
    FollowsSelf(p, Some(now));
    if tabs != [] && tabs[0] in p.cabs {
      var r := Ticked(p, tabs[0], now, answers);
      TickedFollows(p, tabs[0], now, answers);
      TickedSameTabs(p, tabs[0], now, answers);
      if r.err == None {
        TickAllFollows(r.panel, tabs[1..], now, answers);
        FollowsTransSameKeys(p, r.panel, TickAll(r.panel, tabs[1..], now, answers).panel, Some(now));
      }
    }
  }

  lemma {:induction false} RequestAllFollows(p: Panel, tabs: seq<int>, answers: Answers)
    ensures Follows(p, RequestAll(p, tabs, answers).panel, None)
    decreases |tabs|
  {
    FollowsSelf(p, None);
    if tabs != [] {
      var cmd := LocoRequest(tabs[0]);
      var r := Send(p, cmd, answers);
      SendFollows(p, cmd, None, answers);
      SendSameTabs(p, cmd, answers);
      if r.err == None {
        RequestAllFollows(r.panel, tabs[1..], answers);
        FollowsTransSameKeys(p, r.panel, RequestAll(r.panel, tabs[1..], answers).panel, None);
      }
    }
  }

  lemma AttachedFollows(p: Panel, answers: Answers)
    ensures Follows(p, Attached(p, answers).panel, None)
    ensures forall c | c in Attached(p, answers).panel.cabs :: Attached(p, answers).panel.cabs[c].pending == None
  {
    var d := Detached(p);
    DetachedFollows(p, None);
    DetachedSameTabs(p);
    var q := d.(attached := true);
    assert Follows(p, q, None) by {
      var seg :| FollowsBy(p, d, seg, None);
      forall c | c in q.cabs ensures CabFollows(p, q, seg, c, None) {
        assert CabFollows(p, d, seg, c, None);
      }
      assert FollowsBy(p, q, seg, None);
    }
    var t := Attached(p, answers).panel;
    assert Follows(q, t, None) && t.cabs.Keys == q.cabs.Keys by {
      var r := Send(q, TrackQuery, answers);
      SendFollows(q, TrackQuery, None, answers);
      SendSameTabs(q, TrackQuery, answers);
      if r.err == None {
        var s := Send(r.panel, Status, answers);
        SendFollows(r.panel, Status, None, answers);
        SendSameTabs(r.panel, Status, answers);
        FollowsTransSameKeys(q, r.panel, s.panel, None);
        if s.err == None {
          RequestAllFollows(s.panel, q.order, answers);
          RequestAllSameTabs(s.panel, q.order, answers);
          FollowsTransSameKeys(q, s.panel, t, None);
        }
      }
    }
    FollowsTransSameKeys(p, q, t, None);
    var seg :| FollowsBy(q, t, seg, None);
    forall c | c in t.cabs ensures t.cabs[c].pending == None {
      assert c in q.cabs.Keys;
      assert CabFollows(q, t, seg, c, None);
      assert q.cabs[c].pending == None;
    }
  }

  lemma SelectedFollows(p: Panel, k: int, preservePending: bool, answers: Answers)
    requires p.focus in p.cabs
    ensures Follows(p, Selected(p, k, preservePending, answers).panel, None)
    ensures !preservePending && IsCab(k) && k != p.focus ==>
              p.focus in Selected(p, k, preservePending, answers).panel.cabs
              && Selected(p, k, preservePending, answers).panel.cabs[p.focus].pending == None
    ensures p.cabs.Keys <= Selected(p, k, preservePending, answers).panel.cabs.Keys
  {
    FollowsSelf(p, None);
    if IsCab(k) && k != p.focus {
      var q := if preservePending then p else WithoutPending(p, p.focus);
      var r := (if k in q.cabs then q else WithTab(q, k, q.defaultToggle)).(focus := k);
      assert r.log == p.log + [];
      assert FollowsBy(p, r, [], None);
      SendFollows(r, LocoRequest(k), None, answers);
      SendSameTabs(r, LocoRequest(k), answers);
      var t := Selected(p, k, preservePending, answers).panel;
      assert t.cabs.Keys == r.cabs.Keys;
      NewTabsUnsent(r, t);
      FollowsTrans(p, r, t, None);
    }
  }

  lemma NewTabsUnsent(r: Panel, t: Panel)
    requires Follows(r, t, None)
    ensures forall c | c in t.cabs && c in r.cabs && r.cabs[c].lastSent == None :: t.cabs[c].lastSent == None
  {
    var seg :| FollowsBy(r, t, seg, None);
    forall c | c in t.cabs && c in r.cabs && r.cabs[c].lastSent == None ensures t.cabs[c].lastSent == None {
      assert CabFollows(r, t, seg, c, None);
    }
  }

  lemma AddedFollows(p: Panel, k: int, answers: Answers)
    requires p.focus in p.cabs
    ensures Follows(p, Added(p, k, answers).panel, None)
  {
    FollowsSelf(p, None);
    if k !in p.cabs && IsCab(k) {
      var w := WithTab(p, k, p.defaultToggle);
      assert w.log == p.log + [];
      assert FollowsBy(p, w, [], None);
      SelectedFollows(w, k, true, answers);
      var t := Selected(w, k, true, answers).panel;
      NewTabsUnsent(w, t);
      assert forall c | c in p.cabs :: c in w.cabs;
      FollowsTrans(p, w, t, None);
    }
  }

  lemma DropFollows(p: Panel, gone: int)
    ensures Follows(p, p.(cabs := p.cabs - {gone}), None)
  {
    assert p.log + [] == p.log;
    assert FollowsBy(p, p.(cabs := p.cabs - {gone}), [], None);
  }

  lemma ReplacedFollows(p: Panel, gone: int, next: int, answers: Answers)
    requires p.focus in p.cabs
    ensures Follows(p, Replaced(p, gone, next, answers).panel, None)
  {
    FollowsSelf(p, None);
    if gone != next && IsCab(next) && next !in p.cabs && gone in p.cabs && IsAtRest(p.cabs[gone]) {
      var q := p.(cabs := p.cabs[next := Successor(p.cabs[gone].state, next)], order := Renumbered(p.order, gone, next));
      assert q.log == p.log + [];
      assert FollowsBy(p, q, [], None);
      SelectedFollows(q, next, true, answers);
      var t := Selected(q, next, true, answers).panel;
      NewTabsUnsent(q, t);
      assert forall c | c in p.cabs :: c in q.cabs;
      FollowsTrans(p, q, t, None);
      var u := t.(cabs := t.cabs - {gone});
      DropFollows(t, gone);
      assert p.cabs.Keys <= t.cabs.Keys;
      NewTabsUnsent(t, u);
      FollowsIntoTabs(p, t, u);
    }
  }

  lemma FollowsIntoTabs(p: Panel, t: Panel, u: Panel)
    requires Follows(p, t, None) && u.log == t.log && forall c | c in u.cabs :: c in t.cabs && u.cabs[c] == t.cabs[c]
    ensures Follows(p, u, None)
  {
    var seg :| FollowsBy(p, t, seg, None);
    forall c | c in u.cabs ensures CabFollows(p, u, seg, c, None) {
      assert CabFollows(p, t, seg, c, None);
    }
    assert FollowsBy(p, u, seg, None);
  }
}
