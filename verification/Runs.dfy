/** Whole runs of the controller: any operations in any order over any transport. */
module Runs {
  import opened Settings
  import opened Power
  import opened Panel
  import opened Structure
  import opened Layouts

  datatype Run = Run(start: Panel, ops: seq<Op>, answers: Answers)

  /** The state after a launch: structured, disconnected, every locomotive at rest. */
  ghost predicate Launched(p: Panel) {
    && Structured(p)
    && !p.attached && p.board == NoBoard() && p.log == []
    && forall k | k in p.cabs :: AtRest(p.cabs[k])
  }

  ghost predicate IsRun(run: Run) {
    Launched(run.start)
  }

  /** Operation number i leads from panel number i of the trace to the next. */
  ghost predicate IsStep(run: Run, trace: seq<Panel>, i: nat)
    requires i < |run.ops| && |trace| == |run.ops| + 1
  {
    && trace[i].focus in trace[i].cabs
    && trace[i + 1] == Apply(trace[i], run.ops[i], run.answers).panel
  }

  /** The panels of a run, one before each operation and one after the last. */
  ghost predicate IsTrace(run: Run, trace: seq<Panel>) {
    && |trace| == |run.ops| + 1 && trace[0] == run.start
    && (forall i | 0 <= i <= |run.ops| :: Structured(trace[i]))
    && forall i: nat | i < |run.ops| :: IsStep(run, trace, i)
  }

  lemma {:induction false} HasTrace(run: Run)
    requires IsRun(run)
    ensures exists trace :: IsTrace(run, trace)
    decreases |run.ops|
  {
    if run.ops == [] {
      assert IsTrace(run, [run.start]);
    } else {
      var n := |run.ops| - 1;
      var shorter := run.(ops := run.ops[..n]);
      HasTrace(shorter);
      var some :| IsTrace(shorter, some);
      StructureKept(some[n], run.ops[n], run.answers);
      var trace := some + [Apply(some[n], run.ops[n], run.answers).panel];
      forall i: nat | i < |run.ops| ensures IsStep(run, trace, i) {
        assert i < n ==> IsStep(shorter, some, i);
      }
      assert IsTrace(run, trace);
    }
  }

  ghost function Trace(run: Run): (trace: seq<Panel>)
    requires IsRun(run)
    ensures IsTrace(run, trace)
  {
    HasTrace(run);
    var trace :| IsTrace(run, trace);
    trace
  }

  /** The panel before operation number i, or after the last one. */
  ghost function At(run: Run, i: nat): (p: Panel)
    requires IsRun(run) && i <= |run.ops|
    ensures Structured(p) && (i == 0 ==> p == run.start)
  {
    Trace(run)[i]
  }

  /** The panels of a run follow each other by its operations. */
  lemma Stepped(run: Run, i: nat)
    requires IsRun(run) && i < |run.ops|
    ensures At(run, i + 1) == Apply(At(run, i), run.ops[i], run.answers).panel
  {
    assert IsStep(run, Trace(run), i);
  }

  /** The two ways to launch: afresh, or with a stored layout that validates. */
  lemma LaunchesAreLaunched(toggle: Flags, s: ThrottleSettings)
    ensures Launched(New(toggle))
    ensures IsLayout(s) ==> Launched(Restored(New(toggle), s))
  {
    var p := New(toggle);
    assert forall k :: k in p.order <==> k == 3;
    if IsLayout(s) {
      RestoredStructured(p, s);
      RestoredEntries(s.tabs, toggle);
    }
  }

  /** In every reachable state the stored form of the tabs passes validation. */
  lemma {:induction false} ReachableLayout(run: Run, i: nat)
    requires IsRun(run) && i <= |run.ops|
    ensures Lists(At(run, i), At(run, i).order) && IsLayout(TabSettings(At(run, i)))
  {
    StructuredIsLayout(At(run, i));
  }
}
