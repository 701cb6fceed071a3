/** What every operation does to the tabs: which are open and in which order, which one has the
    focus, what a new one starts with, and what is edited. */
module Tabs {
  import opened Results
  import opened Commands
  import opened Settings
  import opened Panel
  import opened Structure
  import opened Runs
  import opened Effects
  import opened Movement
  import opened Transcripts

  // ---------------------------------------------------------------- presentation

  predicate Renames(op: Op, k: int) {
    op.RenameCab? && op.cab == k && IsDisplayName(op.name)
  }

  predicate Relabels(op: Op, k: int, n: int) {
    op.SetFunctionLabel? && op.cab == k && op.n == n && IsDisplayName(op.label_)
  }

  /** A function cannot be hidden while its button is held. */
  predicate Hides(p: Panel, op: Op, k: int, n: int)
    requires k in p.cabs && IsFunction(n)
  {
    op.SetFunctionHidden? && op.cab == k && op.n == n && !(op.hidden && p.cabs[k].held[n])
  }

  /** The mode that an operation gives to function n of cab k, if it does. */
  function NewMode(p: Panel, op: Op, k: int, n: int): Option<bool>
    requires k in p.cabs && IsFunction(n)
  {
    if !IsCommand(op) || Target(p, op) != Some(k) then None
    else
      match op.intent
      case SetToggle(m, on) => if m == n then Some(on) else None
      case FlipToggle(m) => if m == n then Some(!p.cabs[k].state.toggle[n]) else None
      case _ => None
  }

  /** The name, labels, modes and visibility of an open cab change only when edited, and then to
      what was asked for, trimmed if it is a text. */
  ghost predicate IsPresented(p: Panel, op: Op, q: Panel, k: int)
    requires k in p.cabs && k in q.cabs
  {
    var s, t := p.cabs[k].state, q.cabs[k].state;
    && t.cab == s.cab
    && t.name == (if Renames(op, k) then Trim(op.name) else s.name)
    && forall n | 0 <= n < FUNCTIONS ::
         && t.labels[n] == (if Relabels(op, k, n) then Trim(op.label_) else s.labels[n])
         && t.hidden[n] == (if Hides(p, op, k, n) then op.hidden else s.hidden[n])
         && t.toggle[n] == (if NewMode(p, op, k, n).Some? then NewMode(p, op, k, n).value else s.toggle[n])
  }

  lemma SameIsPresented(p: Panel, op: Op, q: Panel, k: int)
    requires k in p.cabs && k in q.cabs && SameIdentity(p.cabs[k].state, q.cabs[k].state)
    requires !EditsTabs(op) || op.AddCab? || op.FocusCab? || op.SelectCab? || op.RemoveCab? || op.ReplaceCab? || op.SetPoll?
    ensures IsPresented(p, op, q, k)
  {
  }

  lemma RenamedIsPresented(p: Panel, op: Op, k: int)
    requires op.RenameCab? && k in p.cabs
    ensures var q := Renamed(p, op.cab, op.name).panel; k in q.cabs && IsPresented(p, op, q, k)
  {
  }

  lemma LabelledIsPresented(p: Panel, op: Op, k: int)
    requires op.SetFunctionLabel? && k in p.cabs
    ensures var q := Labelled(p, op.cab, op.n, op.label_).panel; k in q.cabs && IsPresented(p, op, q, k)
  {
  }

  lemma HiddenIsPresented(p: Panel, op: Op, k: int)
    requires op.SetFunctionHidden? && k in p.cabs
    ensures var q := Hidden(p, op.cab, op.n, op.hidden).panel; k in q.cabs && IsPresented(p, op, q, k)
  {
  }

  lemma EditIsPresented(p: Panel, op: Op, k: int, answers: Answers)
    requires p.focus in p.cabs && (op.RenameCab? || op.SetFunctionLabel? || op.SetFunctionHidden?)
    requires k in p.cabs
    ensures k in Apply(p, op, answers).panel.cabs && IsPresented(p, op, Apply(p, op, answers).panel, k)
  {
    match op
    case RenameCab(_, _) => RenamedIsPresented(p, op, k);
    case SetFunctionLabel(_, _, _) => LabelledIsPresented(p, op, k);
    case SetFunctionHidden(_, _, _) => HiddenIsPresented(p, op, k);
  }

  lemma ToggledIsPresented(p: Panel, op: Op, t: int, n: int, on: bool, k: int)
    requires IsCommand(op) && Target(p, op) == Some(t) && t in p.cabs && k in p.cabs
    requires op.intent == SetToggle(n, on) || (op.intent == FlipToggle(n) && IsFunction(n) && on == !p.cabs[t].state.toggle[n])
    ensures var q := Toggled(p, t, n, on).panel; k in q.cabs && IsPresented(p, op, q, k)
  {
    var q := Toggled(p, t, n, on).panel;
    var r, u := p.cabs[k].state, q.cabs[k].state;
    assert u == if k == t && IsFunction(n) then r.(toggle := r.toggle[n := on]) else r;
    forall m | 0 <= m < FUNCTIONS
      ensures u.toggle[m] == if NewMode(p, op, k, m).Some? then NewMode(p, op, k, m).value else r.toggle[m]
    {
    }
  }

  lemma ModeIsPresented(p: Panel, op: Op, k: int, answers: Answers)
    requires p.focus in p.cabs && IsCommand(op) && EditsMode(op.intent) && k in p.cabs
    ensures k in Apply(p, op, answers).panel.cabs && IsPresented(p, op, Apply(p, op, answers).panel, k)
  {
    if Target(p, op).Some? {
      var t := Target(p, op).value;
      match op.intent
      case SetToggle(n, on) => ToggledIsPresented(p, op, t, n, on, k);
      case FlipToggle(n) => if IsFunction(n) { ToggledIsPresented(p, op, t, n, !p.cabs[t].state.toggle[n], k); }
    }
  }

  // ------------------------------------------------------------ opening and focusing

  /** The state of a cab as far as the loss of the connection leaves it. */
  ghost predicate KeepsStates(p: Panel, q: Panel) {
    forall k | k in p.cabs :: k in q.cabs && q.cabs[k].state == p.cabs[k].state
  }

  /** A tab like a fresh one. */
  predicate IsNew(r: Runtime, k: int, toggle: Flags) {
    r == Idle(NewState(k, toggle))
  }

  /** A question to the station leaves the tabs alone, and a new tab has nothing to lose. */
  lemma SentTabs(r: Panel, k: int, answers: Answers)
    requires k in r.cabs
    ensures var q := Send(r, LocoRequest(k), answers).panel;
            && KeepsStates(r, q) && q.cabs.Keys == r.cabs.Keys
            && q.focus == r.focus && q.order == r.order && q.poll == r.poll && q.defaultToggle == r.defaultToggle
            && (IsNew(r.cabs[k], k, r.defaultToggle) ==> q.cabs[k] == r.cabs[k])
  {
    SendSameTabs(r, LocoRequest(k), answers);
  }

  lemma SelectedTabs(p: Panel, k: int, preservePending: bool, answers: Answers)
    requires p.focus in p.cabs
    ensures var q := Selected(p, k, preservePending, answers).panel;
            && KeepsStates(p, q) && q.poll == p.poll && q.defaultToggle == p.defaultToggle
            && if IsCab(k) && k != p.focus then
                 && q.focus == k && q.cabs.Keys == p.cabs.Keys + {k}
                 && (if k in p.cabs then q.order == p.order
                     else q.order == p.order + [k] && IsNew(q.cabs[k], k, p.defaultToggle))
               else q == p
  {
    if IsCab(k) && k != p.focus {
      var w := if preservePending then p else WithoutPending(p, p.focus);
      assert w.cabs.Keys == p.cabs.Keys;
      var r := (if k in w.cabs then w else WithTab(w, k, w.defaultToggle)).(focus := k);
      assert r.cabs.Keys == p.cabs.Keys + {k};
      assert KeepsStates(p, r);
      SentTabs(r, k, answers);
    }
  }

  lemma ReplacedTabs(p: Panel, gone: int, next: int, answers: Answers)
    requires Structured(p)
    ensures var op, q := ReplaceCab(gone, next), Replaced(p, gone, next, answers).panel;
            if NewFocus(p, op).Some? then
              && q.focus == next && q.order == Renumbered(p.order, gone, next) && gone !in q.cabs
              && q.poll == p.poll && q.defaultToggle == p.defaultToggle
              && next in q.cabs && q.cabs[next].state == Successor(p.cabs[gone].state, next).state
              && forall k | k in p.cabs && k != gone :: k in q.cabs && q.cabs[k].state == p.cabs[k].state
            else q == p
  {
    if NewFocus(p, ReplaceCab(gone, next)).Some? {
      var m := p.(cabs := p.cabs[next := Successor(p.cabs[gone].state, next)], order := Renumbered(p.order, gone, next));
      SelectedTabs(m, next, true, answers);
      assert KeepsStates(m, Selected(m, next, true, answers).panel);
      assert gone in p.cabs && next != gone;
    }
  }

  /** The tab that an operation opens anew, with nothing to inherit. */
  function Opened(p: Panel, op: Op): Option<int> {
    if (op.AddCab? || op.SelectCab?) && NewFocus(p, op).Some? && NewFocus(p, op).value !in p.cabs then NewFocus(p, op) else None
  }

  predicate Closes(p: Panel, op: Op) {
    op.RemoveCab? && op.cab in p.cabs && |p.order| > 1 && IsAtRest(p.cabs[op.cab])
  }

  predicate Reassigns(p: Panel, op: Op) {
    op.ReplaceCab? && NewFocus(p, op).Some?
  }

  ghost predicate IsCutOut(order: seq<int>, k: int, rest: seq<int>) {
    exists i :: 0 <= i < |order| && order[i] == k && rest == order[..i] + order[i + 1..]
  }

  /** The new order of the tabs: an opened one comes last, a reassigned one keeps its place, a
      closed one is cut out, and nothing else moves. */
  ghost predicate IsOrderAfter(p: Panel, op: Op, order: seq<int>) {
    if Opened(p, op).Some? then order == p.order + [Opened(p, op).value]
    else if Reassigns(p, op) then
      |order| == |p.order| && forall i | 0 <= i < |order| :: order[i] == if p.order[i] == op.gone then op.next else p.order[i]
    else if Closes(p, op) then IsCutOut(p.order, op.cab, order)
    else order == p.order
  }

  /** The focus moves only to where an operation asks, or to the first tab when its own closes. */
  predicate IsFocusAfter(p: Panel, op: Op, q: Panel) {
    if NewFocus(p, op).Some? then q.focus == NewFocus(p, op).value
    else if Closes(p, op) && op.cab == p.focus then q.order != [] && q.focus == q.order[0]
    else q.focus == p.focus
  }

  ghost predicate TabsFollow(p: Panel, op: Op, q: Panel) {
    && q.defaultToggle == p.defaultToggle && q.poll == (if op.SetPoll? then op.on else p.poll)
    && IsOrderAfter(p, op, q.order) && IsFocusAfter(p, op, q)
    && (Opened(p, op).Some? ==>
          var k := Opened(p, op).value; k in q.cabs && IsNew(q.cabs[k], k, p.defaultToggle))
  }

  lemma SelectionFollows(p: Panel, op: Op, answers: Answers)
    requires Structured(p) && (op.AddCab? || op.FocusCab? || op.SelectCab?)
    ensures var q := Apply(p, op, answers).panel; TabsFollow(p, op, q) && KeepsStates(p, q)
  {
    var k := op.cab;
    assert k in p.cabs ==> IsEntry(k, p.cabs[k]);
    if op.AddCab? && k !in p.cabs && IsCab(k) {
      var w := WithTab(p, k, p.defaultToggle);
      SelectedTabs(w, k, true, answers);
      assert KeepsStates(p, w);
      var q := Selected(w, k, true, answers).panel;
      assert q == Apply(p, op, answers).panel;
      OnlySent(w, k, answers);
    } else if op.SelectCab? {
      SelectedTabs(p, k, false, answers);
    } else if op.FocusCab? {
      SelectedTabs(p, k, true, answers);
    }
  }

  /** Selecting an open tab changes its cab only if the connection is lost. */
  lemma OnlySent(p: Panel, k: int, answers: Answers)
    requires p.focus in p.cabs && k in p.cabs && IsNew(p.cabs[k], k, p.defaultToggle)
    ensures var q := Selected(p, k, true, answers).panel; k in q.cabs && IsNew(q.cabs[k], k, p.defaultToggle)
  {
  }

  lemma ClosingFollows(p: Panel, op: Op, answers: Answers)
    requires Structured(p) && op.RemoveCab?
    ensures TabsFollow(p, op, Apply(p, op, answers).panel)
    ensures forall k | k in p.cabs && k in Apply(p, op, answers).panel.cabs :: Apply(p, op, answers).panel.cabs[k] == p.cabs[k]
  {
    ClosingCutsOneTabOut(p, op.cab);
    if Closes(p, op) {
      var q := Apply(p, op, answers).panel;
      assert |q.order| == |p.order| - 1;
    }
  }

  lemma ReassigningFollows(p: Panel, op: Op, answers: Answers)
    requires Structured(p) && op.ReplaceCab?
    ensures TabsFollow(p, op, Apply(p, op, answers).panel)
    ensures forall k | k in p.cabs && k in Apply(p, op, answers).panel.cabs ::
              Apply(p, op, answers).panel.cabs[k].state == p.cabs[k].state
  {
    ReplacedTabs(p, op.gone, op.next, answers);
    if NewFocus(p, op).Some? {
      var q := Apply(p, op, answers).panel;
      assert q.order == Renumbered(p.order, op.gone, op.next);
    }
  }

  lemma EditFollows(p: Panel, op: Op, answers: Answers)
    requires p.focus in p.cabs
    requires op.RenameCab? || op.SetFunctionLabel? || op.SetFunctionHidden? || op.SetPoll? || (IsCommand(op) && EditsMode(op.intent))
    ensures TabsFollow(p, op, Apply(p, op, answers).panel)
  {
  }

  /** What every operation does to the tabs. */
  lemma TabsStep(p: Panel, op: Op, answers: Answers)
    requires Structured(p)
    ensures TabsFollow(p, op, Apply(p, op, answers).panel)
  {
    if op.AddCab? || op.FocusCab? || op.SelectCab? {
      SelectionFollows(p, op, answers);
    } else if op.RemoveCab? {
      ClosingFollows(p, op, answers);
    } else if op.ReplaceCab? {
      ReassigningFollows(p, op, answers);
    } else if EditsTabs(op) {
      EditFollows(p, op, answers);
    } else {
      ApplySameTabs(p, op, answers);
    }
  }

  lemma OtherIsPresented(p: Panel, op: Op, k: int, answers: Answers)
    requires p.focus in p.cabs && !EditsTabs(op) && k in p.cabs
    ensures var q := Apply(p, op, answers).panel; k in q.cabs && IsPresented(p, op, q, k)
  {
    ApplySameTabs(p, op, answers);
    var q := Apply(p, op, answers).panel;
    assert k in q.cabs.Keys;
    SameIsPresented(p, op, q, k);
  }

  lemma TabOpIsPresented(p: Panel, op: Op, k: int, answers: Answers)
    requires Structured(p) && k in p.cabs && (op.AddCab? || op.FocusCab? || op.SelectCab? || op.RemoveCab? || op.ReplaceCab?)
    ensures var q := Apply(p, op, answers).panel; k in q.cabs ==> IsPresented(p, op, q, k)
  {
    var q := Apply(p, op, answers).panel;
    if op.RemoveCab? {
      ClosingFollows(p, op, answers);
    } else if op.ReplaceCab? {
      ReassigningFollows(p, op, answers);
    } else {
      SelectionFollows(p, op, answers);
    }
    if k in q.cabs {
      SameIsPresented(p, op, q, k);
    }
  }

  /** What every operation does to the presentation of a cab that stays open. */
  lemma PresentationStep(p: Panel, op: Op, k: int, answers: Answers)
    requires Structured(p) && k in p.cabs
    ensures var q := Apply(p, op, answers).panel; k in q.cabs ==> IsPresented(p, op, q, k)
  {
    if op.AddCab? || op.FocusCab? || op.SelectCab? || op.RemoveCab? || op.ReplaceCab? {
      TabOpIsPresented(p, op, k, answers);
    } else if op.RenameCab? || op.SetFunctionLabel? || op.SetFunctionHidden? {
      EditIsPresented(p, op, k, answers);
    } else if IsCommand(op) && EditsMode(op.intent) {
      ModeIsPresented(p, op, k, answers);
    } else if op.SetPoll? {
      SameIsPresented(p, op, Apply(p, op, answers).panel, k);
    } else {
      OtherIsPresented(p, op, k, answers);
    }
  }

  /** In a run only these operations change the tabs and their presentation, and they change them
      to just this. */
  lemma {:induction false} TabsAreAsAsked(run: Run, i: nat)
    requires IsRun(run) && i < |run.ops|
    ensures TabsFollow(At(run, i), run.ops[i], At(run, i + 1))
    ensures forall k | k in At(run, i).cabs && k in At(run, i + 1).cabs :: IsPresented(At(run, i), run.ops[i], At(run, i + 1), k)
  {
    Stepped(run, i);
    TabsStep(At(run, i), run.ops[i], run.answers);
    forall k | k in At(run, i).cabs && k in At(run, i + 1).cabs
      ensures IsPresented(At(run, i), run.ops[i], At(run, i + 1), k)
    {
      PresentationStep(At(run, i), run.ops[i], k, run.answers);
    }
  }
}
