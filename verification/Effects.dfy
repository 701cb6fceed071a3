/** What single operations promise beyond keeping the invariants: what closing, reassigning,
    switching off and stopping everything do to all tabs, and when the connection ends. */
module Effects {
  import opened Results
  import opened Commands
  import opened Settings
  import opened Panel
  import opened Structure
  import opened Layouts
  import opened Sets

  // ------------------------------------------------------------------------ tabs

  lemma {:induction false} WithoutCutsOut(order: seq<int>, i: nat)
    requires i < |order| && Distinct(order)
    ensures Without(order, order[i]) == order[..i] + order[i + 1..]
  {
    var k, rest := order[i], order[1..];
    if i == 0 {
      WithoutNothing(rest, k);
      assert order[..0] + rest == rest;
    } else {
      WithoutCutsOut(rest, i - 1);
      assert rest[i - 1] == k;
      assert [order[0]] + (rest[..i - 1] + rest[i..]) == order[..i] + order[i + 1..];
    }
  }

  lemma {:induction false} WithoutNothing(order: seq<int>, k: int)
    requires k !in order
    ensures Without(order, k) == order
  {
    if order != [] {
      WithoutNothing(order[1..], k);
    }
  }

  /** Closing a tab is refused exactly for a tab that is not open, the only one, or a cab that is
      not at rest. Otherwise it cuts that tab out, moves the focus only if it was there, and then
      to the first tab, and changes and sends nothing else. */
  lemma ClosingCutsOneTabOut(p: Panel, k: int)
    requires Structured(p)
    ensures var r := Removed(p, k);
            && (r.err == None <==> k in p.cabs && |p.order| > 1 && IsAtRest(p.cabs[k]))
            && (r.err != None ==> r.panel == p)
            && (r.err == None ==>
                  && r.panel.cabs == p.cabs - {k}
                  && (exists i :: 0 <= i < |p.order| && p.order[i] == k && r.panel.order == p.order[..i] + p.order[i + 1..])
                  && r.panel.focus == (if p.focus == k then r.panel.order[0] else p.focus)
                  && r.panel.log == p.log && r.panel.attached == p.attached)
  {
    OrderCountsCabs(p.order, p.cabs.Keys);
    if k in p.cabs && |p.cabs| > 1 && IsAtRest(p.cabs[k]) {
      assert k in p.order;
      var i :| 0 <= i < |p.order| && p.order[i] == k;
      WithoutCutsOut(p.order, i);
    }
  }

  lemma {:induction false} OrderCountsCabs(order: seq<int>, keys: set<int>)
    requires Distinct(order) && forall k :: k in order <==> k in keys
    ensures |order| == |keys|
  {
    if order == [] {
      NoElement(keys);
    } else {
      var rest := order[1..];
      assert order[0] !in rest;
      forall k ensures k in rest <==> k in keys - {order[0]} {
        assert k in rest ==> k in order;
        assert k in order ==> k == order[0] || k in rest;
      }
      OrderCountsCabs(rest, keys - {order[0]});
    }
  }

  /** Reassigning a tab, once allowed, keeps its place and its presentation, forgets everything
      else about the old cab, focuses the new one and leaves the other tabs alone, even when the
      request to the station fails. */
  lemma ReassigningKeepsThePlace(p: Panel, gone: int, next: int, answers: Answers)
    requires Structured(p) && gone in p.cabs && next !in p.cabs && IsCab(next) && IsAtRest(p.cabs[gone])
    ensures var q := Replaced(p, gone, next, answers).panel;
            && q.focus == next && |q.order| == |p.order|
            && (forall i | 0 <= i < |p.order| :: q.order[i] == if p.order[i] == gone then next else p.order[i])
            && gone !in q.cabs && next in q.cabs
            && TabOf(q.cabs[next].state) == TabOf(p.cabs[gone].state).(address := next)
            && AtRest(q.cabs[next])
            && (q.attached == p.attached ==> forall c | c in p.cabs && c != gone :: c in q.cabs && q.cabs[c] == p.cabs[c])
  {
    var m := p.(cabs := p.cabs[next := Successor(p.cabs[gone].state, next)],
                order := Renumbered(p.order, gone, next), focus := next);
    var s := Send(m, LocoRequest(next), answers);
    assert next in m.cabs && next in s.panel.cabs;
    assert s.panel.cabs[next] == m.cabs[next];
  }

  // -------------------------------------------------------------------- functions

  /** The off commands for the functions from n on that are on, in ascending order. */
  function OffCommands(k: int, on: Flags, n: nat): seq<Wire>
    requires n <= FUNCTIONS
    decreases FUNCTIONS - n
  {
    if n == FUNCTIONS then []
    else (if on[n] then [Sent(Function(k, n, 0), true)] else []) + OffCommands(k, on, n + 1)
  }

  /** Switching all functions off, when every send succeeds, sends one off command for each
      function that was on and none for any other, and leaves none on; hidden ones count. */
  lemma AllFunctionsGoOff(p: Panel, k: int, answers: Answers)
    requires k in p.cabs && IsCab(k)
    ensures var r := Obey(p, k, AllFunctionsOff, answers);
            r.err == None ==>
              && k in r.panel.cabs && r.panel.cabs[k].state.functions == NoFlags()
              && r.panel.log == p.log + OffCommands(k, p.cabs[k].state.functions, 0)
  {
    OffFromSwitchesOff(p, k, p.cabs[k].state.functions, 0, answers);
  }

  lemma LogMore(log: seq<Wire>, w: Wire, more: seq<Wire>)
    ensures (log + [w]) + more == log + ([w] + more)
  {
  }

  lemma {:induction false} OffFromSwitchesOff(p: Panel, k: int, on: Flags, n: nat, answers: Answers)
    requires k in p.cabs && IsCab(k) && n <= FUNCTIONS
    requires forall i | 0 <= i < FUNCTIONS :: p.cabs[k].state.functions[i] == (i >= n && on[i])
    ensures var r := OffFrom(p, k, on, n, answers);
            r.err == None ==>
              && k in r.panel.cabs && r.panel.cabs[k].state.functions == NoFlags()
              && r.panel.log == p.log + OffCommands(k, on, n)
    decreases FUNCTIONS - n
  {
    if n == FUNCTIONS {
      assert p.log + [] == p.log;
    } else if !on[n] {
      OffFromSwitchesOff(p, k, on, n + 1, answers);
      assert [] + OffCommands(k, on, n + 1) == OffCommands(k, on, n + 1);
    } else {
      var s := Issue(p, Function(k, n, 0), answers);
      if s.err == None {
        var t := WithFunction(s.panel, k, n, false);
        var off := Sent(Function(k, n, 0), true);
        assert t.log == p.log + [off];
        OffFromSwitchesOff(t, k, on, n + 1, answers);
        LogMore(p.log, off, OffCommands(k, on, n + 1));
      }
    }
  }

  // --------------------------------------------------------------- emergency stop

  /** An emergency stop leaves nothing queued for any cab, whether or not it reaches the station;
      once it does, every cab shows speed 0 and nobody else's direction or functions change. */
  lemma EmergencyHaltsAll(p: Panel, k: int, answers: Answers)
    requires k in p.cabs
    ensures var r := Obey(p, k, Emergency, answers);
            && r.panel.cabs.Keys == p.cabs.Keys
            && (forall c | c in p.cabs :: r.panel.cabs[c].pending == None)
            && (r.err == None ==>
                  && r.panel.log == p.log + [Sent(EmergencyStop, true)]
                  && forall c | c in p.cabs ::
                       r.panel.cabs[c].state == p.cabs[c].state.(speed := 0) && r.panel.cabs[c].lastSpeed == 0)
  {
    var q := p.(cabs := Each(p.cabs, Cancelled));
    var s := Send(q, EmergencyStop, answers);
    assert s.panel.cabs.Keys == p.cabs.Keys;
    var t := EmergencyStopped(p, k, answers).panel;
    assert t.cabs.Keys == p.cabs.Keys;
  }

  // ------------------------------------------------------------------- connection

  /** A standing connection ends exactly when a send fails. */
  predicate EndsOnFailure(p: Panel, r: Reply) {
    if p.attached then !r.panel.attached <==> r.err == Some(SendFailed)
    else !r.panel.attached && r.err != Some(SendFailed)
  }

  lemma {:induction false} OffFromEnds(p: Panel, k: int, on: Flags, n: nat, answers: Answers)
    requires k in p.cabs && n <= FUNCTIONS
    ensures EndsOnFailure(p, OffFrom(p, k, on, n, answers))
    decreases FUNCTIONS - n
  {
    if n < FUNCTIONS {
      if !on[n] {
        OffFromEnds(p, k, on, n + 1, answers);
      } else {
        var s := Issue(p, Function(k, n, 0), answers);
        if s.err == None {
          OffFromEnds(WithFunction(s.panel, k, n, false), k, on, n + 1, answers);
        }
      }
    }
  }

  lemma {:induction false} TickAllEnds(p: Panel, tabs: seq<int>, now: int, answers: Answers)
    ensures EndsOnFailure(p, TickAll(p, tabs, now, answers))
    decreases |tabs|
  {
    if tabs != [] && tabs[0] in p.cabs {
      var r := Ticked(p, tabs[0], now, answers);
      if r.err == None {
        TickAllEnds(r.panel, tabs[1..], now, answers);
      }
    }
  }

  lemma {:induction false} RequestAllEnds(p: Panel, tabs: seq<int>, answers: Answers)
    ensures EndsOnFailure(p, RequestAll(p, tabs, answers))
    decreases |tabs|
  {
    if tabs != [] {
      var r := Send(p, LocoRequest(tabs[0]), answers);
      if r.err == None {
        RequestAllEnds(r.panel, tabs[1..], answers);
      }
    }
  }

  lemma DirectedEnds(p: Panel, k: int, dir: int, now: int, answers: Answers)
    requires k in p.cabs
    ensures EndsOnFailure(p, Directed(p, k, dir, now, answers))
  {
  }

  lemma PressedEnds(p: Panel, k: int, n: int, pressed: bool, answers: Answers)
    requires k in p.cabs
    ensures EndsOnFailure(p, Pressed(p, k, n, pressed, answers))
  {
  }

  lemma ObeyEnds(p: Panel, k: int, intent: UserIntent, answers: Answers)
    requires k in p.cabs
    ensures EndsOnFailure(p, Obey(p, k, intent, answers))
  {
    match intent
    case AllFunctionsOff => OffFromEnds(p, k, p.cabs[k].state.functions, 0, answers);
    case SetDirection(dir, now) => DirectedEnds(p, k, dir, now, answers);
    case FlipDirection(now) => DirectedEnds(p, k, 1 - p.cabs[k].state.direction, now, answers);
    case Press(n, pressed) => PressedEnds(p, k, n, pressed, answers);
    case _ =>
  }

  lemma SelectedEnds(p: Panel, k: int, preservePending: bool, answers: Answers)
    requires p.focus in p.cabs
    ensures EndsOnFailure(p, Selected(p, k, preservePending, answers))
  {
  }

  lemma ReplacedEnds(p: Panel, gone: int, next: int, answers: Answers)
    requires p.focus in p.cabs
    ensures EndsOnFailure(p, Replaced(p, gone, next, answers))
  {
    if gone in p.cabs {
      var q := p.(cabs := p.cabs[next := Successor(p.cabs[gone].state, next)], order := Renumbered(p.order, gone, next));
      SelectedEnds(q, next, true, answers);
    }
  }

  lemma AttachEnds(p: Panel, answers: Answers)
    ensures Attached(p, answers).panel.attached <==> Attached(p, answers).err == None
  {
    var q := Detached(p).(attached := true);
    var r := Send(q, TrackQuery, answers);
    if r.err == None {
      var s := Send(r.panel, Status, answers);
      if s.err == None {
        RequestAllEnds(s.panel, q.order, answers);
        RequestsFailBySending(s.panel, q.order, answers);
      }
    }
  }

  lemma {:induction false} RequestsFailBySending(p: Panel, tabs: seq<int>, answers: Answers)
    requires p.attached
    ensures RequestAll(p, tabs, answers).err == None || RequestAll(p, tabs, answers).err == Some(SendFailed)
    decreases |tabs|
  {
    if tabs != [] {
      var r := Send(p, LocoRequest(tabs[0]), answers);
      if r.err == None {
        RequestsFailBySending(r.panel, tabs[1..], answers);
      }
    }
  }

  /** The connection comes about only by a successful attach, and ends only by a detach or by a
      failed send: no other operation and no other error touches it. */
  lemma ConnectionEndsExactly(p: Panel, op: Op, answers: Answers)
    requires p.focus in p.cabs
    ensures var r := Apply(p, op, answers);
            match op
            case Attach => r.panel.attached <==> r.err == None
            case Detach => !r.panel.attached
            case _ => EndsOnFailure(p, r)
  {
    match op
    case Do(intent) => ObeyEnds(p, p.focus, intent, answers);
    case WithCab(k, intent) => if k in p.cabs { ObeyEnds(p, k, intent, answers); }
    case AddCab(k) => SelectedEnds(WithTab(p, k, p.defaultToggle), k, true, answers);
    case FocusCab(k) => SelectedEnds(p, k, true, answers);
    case SelectCab(k) => SelectedEnds(p, k, false, answers);
    case ReplaceCab(gone, next) => ReplacedEnds(p, gone, next, answers);
    case Tick(now) => TickAllEnds(p, p.order, now, answers);
    case Attach => AttachEnds(p, answers);
    case _ =>
  }
}
