/** The part of a panel that is stored between launches (throttle/preferences.go). */
module Layouts {
  import opened Results
  import opened Settings
  import opened Panel
  import opened Structure

  function TabOf(s: CabState): Tab {
    Tab(s.cab, s.name, s.labels, Some(s.toggle), s.hidden)
  }

  predicate Lists(p: Panel, order: seq<int>) {
    forall i | 0 <= i < |order| :: order[i] in p.cabs
  }

  /** The tabs in order; a panel with the structural invariant lists only open cabs. */
  function TabsOf(p: Panel, order: seq<int>): (tabs: seq<Tab>)
    requires Lists(p, order)
    ensures |tabs| == |order|
    ensures forall i | 0 <= i < |order| :: tabs[i] == TabOf(p.cabs[order[i]].state)
  {
    seq(|order|, i requires 0 <= i < |order| => TabOf(p.cabs[order[i]].state))
  }

  function TabSettings(p: Panel): ThrottleSettings
    requires Lists(p, p.order)
  {
    ThrottleSettings(1, TabsOf(p, p.order), p.focus)
  }

  lemma StructuredLists(p: Panel)
    requires Structured(p)
    ensures Lists(p, p.order)
  {
    assert forall i | 0 <= i < |p.order| :: p.order[i] in p.order;
  }

  function FromTab(t: Tab, defaultToggle: Flags): Runtime {
    Idle(CabState(t.address, 0, 1, NoFlags(), t.name, t.labels,
                  if t.toggle.Some? then t.toggle.value else defaultToggle, t.hidden))
  }

  function Addresses(tabs: seq<Tab>): (order: seq<int>)
    ensures |order| == |tabs| && forall i | 0 <= i < |tabs| :: order[i] == tabs[i].address
  {
    seq(|tabs|, i requires 0 <= i < |tabs| => tabs[i].address)
  }

  function RestoredCabs(tabs: seq<Tab>, defaultToggle: Flags): map<int, Runtime> {
    if tabs == [] then map[]
    else
      var t := tabs[|tabs| - 1];
      RestoredCabs(tabs[..|tabs| - 1], defaultToggle)[t.address := FromTab(t, defaultToggle)]
  }

  /** A panel whose tabs are replaced by stored ones. */
  function Restored(p: Panel, s: ThrottleSettings): Panel {
    p.(cabs := RestoredCabs(s.tabs, p.defaultToggle), order := Addresses(s.tabs), focus := s.selected)
  }

  lemma {:induction false} RestoredEntries(tabs: seq<Tab>, defaultToggle: Flags)
    requires DistinctAddresses(tabs)
    ensures var m := RestoredCabs(tabs, defaultToggle);
            && (forall i | 0 <= i < |tabs| :: tabs[i].address in m && m[tabs[i].address] == FromTab(tabs[i], defaultToggle))
            && forall k | k in m :: exists i :: 0 <= i < |tabs| && tabs[i].address == k
  {
    if tabs != [] {
      var n := |tabs| - 1;
      RestoredEntries(tabs[..n], defaultToggle);
      var m := RestoredCabs(tabs, defaultToggle);
      forall i | 0 <= i < |tabs| ensures tabs[i].address in m && m[tabs[i].address] == FromTab(tabs[i], defaultToggle) {
        if i < n {
          assert tabs[..n][i] == tabs[i];
        }
      }
      forall k | k in m ensures exists i :: 0 <= i < |tabs| && tabs[i].address == k {
        if k != tabs[n].address {
          assert k in RestoredCabs(tabs[..n], defaultToggle);
          var i :| 0 <= i < n && tabs[..n][i].address == k;
          assert tabs[i].address == k;
        }
      }
    }
  }

  lemma RestoredSelected(s: ThrottleSettings, defaultToggle: Flags)
    requires IsLayout(s)
    ensures var m := RestoredCabs(s.tabs, defaultToggle); s.selected in m && m[s.selected].state.cab == s.selected
  {
    RestoredEntries(s.tabs, defaultToggle);
    var j :| 0 <= j < |s.tabs| && s.tabs[j].address == s.selected;
  }

  lemma RestoredStructured(p: Panel, s: ThrottleSettings)
    requires IsLayout(s)
    ensures Structured(Restored(p, s))
  {
    RestoredEntries(s.tabs, p.defaultToggle);
    var q := Restored(p, s);
    var j :| 0 <= j < |s.tabs| && s.tabs[j].address == s.selected;
    forall k | k in q.order ensures k in q.cabs {
      var i :| 0 <= i < |q.order| && q.order[i] == k;
    }
    forall k | k in q.cabs ensures k in q.order && IsEntry(k, q.cabs[k]) {
      var i :| 0 <= i < |s.tabs| && s.tabs[i].address == k;
      assert q.order[i] == k && IsTab(s.tabs[i]);
    }
  }

  /** Whatever a panel went through, what it stores is a layout that a launch accepts. */
  lemma {:induction false} StructuredIsLayout(p: Panel)
    requires Structured(p)
    ensures Lists(p, p.order)
    ensures IsLayout(TabSettings(p))
  {
    StructuredLists(p);
    var s := TabSettings(p);
    forall i | 0 <= i < |s.tabs| ensures IsTab(s.tabs[i]) && s.tabs[i].address == p.order[i] {
      assert p.order[i] in p.order;
      assert IsEntry(p.order[i], p.cabs[p.order[i]]);
    }
    assert p.focus in p.order;
    var f :| 0 <= f < |p.order| && p.order[f] == p.focus;
    assert s.tabs[f].address == s.selected;
  }

  ghost predicate AtRest(r: Runtime) {
    r == Idle(r.state) && r.state.speed == 0 && r.state.direction == 1 && r.state.functions == NoFlags()
  }

  /** Restoring what a panel stores gives the same tabs with the same names, labels, modes and
      visibility in the same order and focus, and nothing that moves a train. */
  lemma RestoreReproduces(p: Panel, fresh_: Panel)
    requires Structured(p)
    ensures Lists(p, p.order)
    ensures var q := Restored(fresh_, TabSettings(p));
            && Structured(q) && Lists(q, q.order)
            && q.order == p.order && q.focus == p.focus && q.cabs.Keys == p.cabs.Keys
            && forall k | k in p.cabs :: TabOf(q.cabs[k].state) == TabOf(p.cabs[k].state) && AtRest(q.cabs[k])
    ensures TabSettings(Restored(fresh_, TabSettings(p))) == TabSettings(p)
  {
    StructuredLists(p);
    var s := TabSettings(p);
    var q := Restored(fresh_, s);
    StructuredIsLayout(p);
    RestoredStructured(fresh_, s);
    StructuredLists(q);
    RestoredEntries(s.tabs, fresh_.defaultToggle);
    forall i | 0 <= i < |p.order| ensures s.tabs[i] == TabOf(p.cabs[p.order[i]].state) && s.tabs[i].address == p.order[i] {
      assert p.order[i] in p.order;
      assert IsEntry(p.order[i], p.cabs[p.order[i]]);
    }
    assert q.order == p.order;
    forall k ensures k in q.cabs <==> k in p.cabs {
      assert k in q.order <==> k in p.order;
    }
    assert q.cabs.Keys == p.cabs.Keys;
    forall k | k in p.cabs ensures TabOf(q.cabs[k].state) == TabOf(p.cabs[k].state) && AtRest(q.cabs[k]) {
      assert k in p.order;
      var i :| 0 <= i < |p.order| && p.order[i] == k;
      assert s.tabs[i].address == k && q.cabs[k] == FromTab(s.tabs[i], fresh_.defaultToggle);
    }
  }

  /** The panel shows a layout: its tabs in its order, with their names, labels, visibility and
      modes, or the default modes where the layout has none, and every cab at rest. */
  ghost predicate ShowsLayout(p: Panel, s: ThrottleSettings, toggle: Flags) {
    && |p.order| == |s.tabs| && p.focus == s.selected
    && (forall k | k in p.cabs :: k in p.order)
    && forall i | 0 <= i < |s.tabs| ::
         && p.order[i] == s.tabs[i].address && p.order[i] in p.cabs && AtRest(p.cabs[p.order[i]])
         && var t, v := s.tabs[i], p.cabs[p.order[i]].state;
            && v.cab == t.address && v.name == t.name && v.labels == t.labels && v.hidden == t.hidden
            && v.toggle == if t.toggle.Some? then t.toggle.value else toggle
  }

  /** Restoring any valid layout shows it, and touches nothing but the tabs. */
  lemma RestoringShows(p: Panel, s: ThrottleSettings)
    requires IsLayout(s)
    ensures ShowsLayout(Restored(p, s), s, p.defaultToggle)
    ensures Restored(p, s) == p.(cabs := Restored(p, s).cabs, order := Restored(p, s).order, focus := s.selected)
  {
    RestoredEntries(s.tabs, p.defaultToggle);
    RestoredStructured(p, s);
    var q := Restored(p, s);
    forall i | 0 <= i < |s.tabs|
      ensures q.order[i] == s.tabs[i].address && q.order[i] in q.cabs && q.cabs[q.order[i]] == FromTab(s.tabs[i], p.defaultToggle)
    {
    }
  }

  /** What the layout consists of is what commands and replies leave alone. */
  lemma SameTabsSameLayout(p: Panel, q: Panel)
    requires Structured(p) && Structured(q) && SameTabs(p, q)
    ensures Lists(p, p.order) && Lists(q, q.order) && TabSettings(q) == TabSettings(p)
  {
    StructuredLists(p);
    StructuredLists(q);
    assert TabsOf(q, q.order) == TabsOf(p, p.order);
  }

  /** A first launch, for which storage yields the default layout, and a launch without storage
      give the same panel. */
  lemma DefaultRestoresFresh(toggle: Flags)
    ensures IsLayout(DEFAULT_THROTTLES) && Restored(New(toggle), DEFAULT_THROTTLES) == New(toggle)
  {
    var tabs := DEFAULT_THROTTLES.tabs;
    assert tabs[0].address == 3;
    assert tabs[..0] == [] && RestoredCabs(tabs, toggle) == map[3 := FromTab(tabs[0], toggle)];
    assert Addresses(tabs) == [3];
  }
}
