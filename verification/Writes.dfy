/** Serialized command writes of dccex/client/client.go, as an interleaving of any number of
    callers of Send and Close with the goroutine that Send starts for each line. The connection
    takes as many bytes of each write as it likes, at any time, and may fail after any of them. */
module Writes {
  import opened Results
  import opened Framing
  import opened Commands

  datatype Fate = Running | Delivered | Failed

  /** One call of Send that got the write lock, in lock order: Delivered once it returns nil. */
  datatype Entry = Entry(text: string, fate: Fate)

  /** Where a caller of Send is. All but Outside hold the write lock. */
  datatype Caller = Outside | Entered(entry: nat) | Waiting(entry: nat) | Closing(entry: nat) | Leaving

  /** The goroutine that writes the line of an entry, and how much the connection has taken. */
  datatype Writer = Resting | Writing(entry: nat, written: nat) | Reported(entry: nat, written: nat, ok: bool)

  datatype State = State(
    done: bool, lock: Option<int>, callers: map<int, Caller>, writer: Writer, entries: seq<Entry>, wire: string)

  datatype Step =
    | Refuse(caller: int, text: string)  // a text that is not ASCII is turned away before the lock
    | Enter(caller: int, text: string)   // take the lock
    | Look(caller: int)                  // give up if the client is closed, else start the writer
    | Write(count: nat, ok: bool)        // the connection takes some bytes; ok unless it fails or takes none
    | Report                             // all is written
    | Hear(caller: int)                  // the caller receives the report
    | TimeOut(caller: int)               // or the timer fires
    | SeeDone(caller: int)               // or the client is closed meanwhile
    | CloseFailed(caller: int)           // after a failure the caller closes the client
    | Leave(caller: int)                 // and every caller gives the lock back
    | Close                              // anybody else closes the client

  const START := State(false, None, map[], Resting, [], "")

  function Pc(s: State, c: int): Caller {
    if c in s.callers then s.callers[c] else Outside
  }

  function Goes(s: State, c: int, pc: Caller): State {
    s.(callers := s.callers[c := pc])
  }

  function Line(e: Entry): string {
    e.text + "\n"
  }

  predicate IsWriting(s: State) {
    s.writer.Writing? && s.writer.entry < |s.entries| && s.writer.written <= |Line(s.entries[s.writer.entry])|
  }

  function Left(s: State): string
    requires IsWriting(s)
  {
    Line(s.entries[s.writer.entry])[s.writer.written..]
  }

  predicate Enabled(s: State, step: Step) {
    match step
    case Refuse(_, text) => !IsAscii(text)
    case Enter(_, text) => s.lock == None && IsAscii(text)
    case Look(c) => Pc(s, c).Entered? && Pc(s, c).entry < |s.entries|
    case Write(count, ok) => IsWriting(s) && Left(s) != "" && count <= |Left(s)| && (ok ==> count > 0)
    case Report => IsWriting(s) && Left(s) == ""
    case Hear(c) => Pc(s, c).Waiting? && Pc(s, c).entry < |s.entries| && s.writer.Reported?
    case TimeOut(c) => Pc(s, c).Waiting?
    case SeeDone(c) => Pc(s, c).Waiting? && Pc(s, c).entry < |s.entries| && s.done
    case CloseFailed(c) => Pc(s, c).Closing? && Pc(s, c).entry < |s.entries|
    case Leave(c) => Pc(s, c).Leaving?
    case Close => true
  }

  function Decided(s: State, i: nat, fate: Fate): State
    requires i < |s.entries|
  {
    s.(entries := s.entries[i := s.entries[i].(fate := fate)])
  }

  function Do(s: State, step: Step): State
    requires Enabled(s, step)
  {
    match step
    case Refuse(_, _) => s
    case Enter(c, text) => Goes(s, c, Entered(|s.entries|)).(lock := Some(c), entries := s.entries + [Entry(text, Running)])
    case Look(c) =>
      var i := Pc(s, c).entry;
      if s.done then Goes(Decided(s, i, Failed), c, Leaving) else Goes(s, c, Waiting(i)).(writer := Writing(i, 0))
    case Write(count, ok) =>
      var w := s.writer;
      s.(wire := s.wire + Left(s)[..count],
         writer := if ok then Writing(w.entry, w.written + count) else Reported(w.entry, w.written + count, false))
    case Report => s.(writer := Reported(s.writer.entry, s.writer.written, true))
    case Hear(c) =>
      var i := Pc(s, c).entry;
      if s.writer.ok then Goes(Decided(s, i, Delivered), c, Leaving) else Goes(s, c, Closing(i))
    case TimeOut(c) => Goes(s, c, Closing(Pc(s, c).entry))
    case SeeDone(c) => Goes(Decided(s, Pc(s, c).entry, Failed), c, Leaving)
    case CloseFailed(c) => Goes(Decided(s, Pc(s, c).entry, Failed), c, Leaving).(done := true)
    case Leave(c) => Goes(s, c, Outside).(lock := None)
    case Close => s.(done := true)
  }

  predicate IsExecution(steps: seq<Step>)
    decreases |steps|, 0
  {
    steps == [] || (IsExecution(steps[..|steps| - 1]) && Enabled(After(steps[..|steps| - 1]), steps[|steps| - 1]))
  }

  function After(steps: seq<Step>): State
    requires IsExecution(steps)
    decreases |steps|, 1
  {
    if steps == [] then START else Do(After(steps[..|steps| - 1]), steps[|steps| - 1])
  }

  // ----------------------------------------------------------------- invariant

  /** The texts of the sends that returned nil, in lock order. */
  function DeliveredTexts(entries: seq<Entry>): seq<string> {
    if entries == [] then []
    else
      var last := entries[|entries| - 1];
      DeliveredTexts(entries[..|entries| - 1]) + if last.fate == Delivered then [last.text] else []
  }

  /** The writer's line is accounted for: there is none, or its send returned nil. */
  predicate IsClean(s: State) {
    s.writer.Resting? || (s.writer.entry < |s.entries| && s.entries[s.writer.entry].fate == Delivered)
  }

  /** What the connection took of the one line whose send has not returned nil. */
  function Tail(s: State): string {
    if IsClean(s) || s.writer.entry >= |s.entries| then ""
    else
      var line := Line(s.entries[s.writer.entry]);
      if s.writer.written <= |line| then line[..s.writer.written] else line
  }

  function EntryOf(pc: Caller): Option<nat> {
    if pc.Entered? || pc.Waiting? || pc.Closing? then Some(pc.entry) else None
  }

  /** Who is inside holds the lock and owns the last entry, which alone is undecided; past the
      first look it waits for its own writer. */
  predicate IsInOrder(s: State, c: int) {
    && (Pc(s, c) != Outside <==> s.lock == Some(c))
    && match EntryOf(Pc(s, c))
       case None => true
       case Some(i) =>
         && i + 1 == |s.entries| && s.entries[i].fate == Running
         && (!Pc(s, c).Entered? ==> !s.writer.Resting? && s.writer.entry == i)
  }

  ghost predicate IsLocked(s: State) {
    forall c :: IsInOrder(s, c)
  }

  /** While the client is open, a writer whose line is not accounted for is waited for. */
  predicate IsAwaited(s: State) {
    || s.done || IsClean(s)
    || (s.lock.Some? && (Pc(s, s.lock.value).Waiting? || Pc(s, s.lock.value).Closing?))
  }

  predicate IsWritten(s: State) {
    !s.writer.Resting? ==>
      && s.writer.entry < |s.entries|
      && s.writer.written <= |Line(s.entries[s.writer.entry])|
      && (s.writer.Reported? && s.writer.ok ==> s.writer.written == |Line(s.entries[s.writer.entry])|)
      && (s.entries[s.writer.entry].fate == Delivered ==> s.writer.Reported? && s.writer.ok)
      && forall j | s.writer.entry < j < |s.entries| :: s.entries[j].fate != Delivered
  }

  predicate IsWhole(s: State) {
    s.wire == Lines(DeliveredTexts(s.entries)) + Tail(s)
  }

  ghost predicate Inv(s: State) {
    IsLocked(s) && IsAwaited(s) && IsWritten(s) && IsWhole(s)
  }

  function CallerOf(step: Step): Option<int> {
    match step
    case Write(_, _) => None
    case Report => None
    case Close => None
    case _ => Some(step.caller)
  }

  lemma OrderKept(s: State, step: Step, c: int)
    requires Enabled(s, step) && IsInOrder(s, c)
    requires CallerOf(step).Some? ==> IsInOrder(s, CallerOf(step).value)
    ensures IsInOrder(Do(s, step), c)
  {
  }

  lemma LockKept(s: State, step: Step)
    requires Inv(s) && Enabled(s, step)
    ensures IsLocked(Do(s, step))
  {
    forall c ensures IsInOrder(Do(s, step), c) {
      assert IsInOrder(s, c);
      OrderKept(s, step, c);
    }
  }

  /** What the caller of a step owns. */
  lemma CallerInOrder(s: State, step: Step)
    requires IsLocked(s)
    ensures CallerOf(step).Some? ==> IsInOrder(s, CallerOf(step).value)
    ensures s.lock.Some? ==> IsInOrder(s, s.lock.value)
  {
  }

  lemma AwaitedKept(s: State, step: Step)
    requires Inv(s) && Enabled(s, step)
    ensures IsAwaited(Do(s, step))
  {
    CallerInOrder(s, step);
  }

  lemma WrittenKept(s: State, step: Step)
    requires Inv(s) && Enabled(s, step)
    ensures IsWritten(Do(s, step))
  {
    CallerInOrder(s, step);
  }

  lemma DeliveredSnoc(entries: seq<Entry>, e: Entry)
    ensures DeliveredTexts(entries + [e]) == DeliveredTexts(entries) + if e.fate == Delivered then [e.text] else []
  {
    assert (entries + [e])[..|entries|] == entries;
  }

  /** Deciding the last entry adds its text exactly when it is delivered. */
  lemma LastDecided(entries: seq<Entry>, fate: Fate)
    requires entries != [] && entries[|entries| - 1].fate == Running
    ensures var i := |entries| - 1;
            DeliveredTexts(entries[i := entries[i].(fate := fate)]) ==
              DeliveredTexts(entries) + if fate == Delivered then [entries[i].text] else []
  {
    var i := |entries| - 1;
    assert entries == entries[..i] + [entries[i]];
    assert entries[i := entries[i].(fate := fate)] == entries[..i] + [entries[i].(fate := fate)];
    DeliveredSnoc(entries[..i], entries[i]);
    DeliveredSnoc(entries[..i], entries[i].(fate := fate));
  }

  lemma EnterKeepsWhole(s: State, step: Step)
    requires Inv(s) && Enabled(s, step) && step.Enter?
    ensures IsWhole(Do(s, step))
  {
    DeliveredSnoc(s.entries, Entry(step.text, Running));
    assert DeliveredTexts(s.entries) + [] == DeliveredTexts(s.entries);
    assert Tail(Do(s, step)) == Tail(s);
  }

  /** A send that fails leaves what it wrote in the tail. */
  lemma FailureKeepsWhole(s: State, step: Step)
    requires Inv(s) && Enabled(s, step)
    requires (step.Look? && s.done) || step.SeeDone? || step.CloseFailed?
    ensures IsWhole(Do(s, step))
  {
    CallerInOrder(s, step);
    LastDecided(s.entries, Failed);
    assert DeliveredTexts(s.entries) + [] == DeliveredTexts(s.entries);
    assert Tail(Do(s, step)) == Tail(s);
  }

  /** A writer starts only when no other line is unaccounted for. */
  lemma LookKeepsWhole(s: State, step: Step)
    requires Inv(s) && Enabled(s, step) && step.Look? && !s.done
    ensures IsWhole(Do(s, step))
  {
    CallerInOrder(s, step);
    assert Tail(s) == "" && Tail(Do(s, step)) == "";
  }

  /** A send that succeeds turns its line from the tail into a delivered one. */
  lemma HearKeepsWhole(s: State, step: Step)
    requires Inv(s) && Enabled(s, step) && step.Hear? && s.writer.ok
    ensures IsWhole(Do(s, step))
  {
    CallerInOrder(s, step);
    LastDecided(s.entries, Delivered);
    var e, texts := s.entries[|s.entries| - 1], DeliveredTexts(s.entries);
    assert Tail(s) == Line(e) && Tail(Do(s, step)) == "";
    assert (texts + [e.text])[..|texts|] == texts;
    Assoc(Lines(texts), e.text, "\n");
  }

  lemma WholeKept(s: State, step: Step)
    requires Inv(s) && Enabled(s, step)
    ensures IsWhole(Do(s, step))
  {
    match step
    case Enter(_, _) => EnterKeepsWhole(s, step);
    case Look(_) => if s.done { FailureKeepsWhole(s, step); } else { LookKeepsWhole(s, step); }
    case Write(_, _) => WriteKeepsWhole(s, step);
    case Hear(_) => if s.writer.ok { HearKeepsWhole(s, step); }
    case SeeDone(_) => FailureKeepsWhole(s, step);
    case CloseFailed(_) => FailureKeepsWhole(s, step);
    case _ =>
  }

  lemma WriteKeepsWhole(s: State, step: Step)
    requires Inv(s) && Enabled(s, step) && step.Write?
    ensures IsWhole(Do(s, step))
  {
    var line := Line(s.entries[s.writer.entry]);
    var n := s.writer.written;
    assert line[..n] + line[n..][..step.count] == line[..n + step.count];
    Assoc(Lines(DeliveredTexts(s.entries)), line[..n], line[n..][..step.count]);
  }

  lemma InvKept(s: State, step: Step)
    requires Inv(s) && Enabled(s, step)
    ensures Inv(Do(s, step))
  {
    LockKept(s, step);
    AwaitedKept(s, step);
    WrittenKept(s, step);
    WholeKept(s, step);
  }

  lemma {:induction false} Reachable(steps: seq<Step>)
    requires IsExecution(steps)
    ensures Inv(After(steps))
  {
    if steps != [] {
      Reachable(steps[..|steps| - 1]);
      InvKept(After(steps[..|steps| - 1]), steps[|steps| - 1]);
    }
  }

  // --------------------------------------------------------------- main results

  /** The one entry whose line may be cut short: it is not delivered and none after it is. */
  ghost predicate IsCutShort(s: State, i: nat) {
    && i < |s.entries| && s.entries[i].fate != Delivered && Tail(s) <= Line(s.entries[i])
    && forall j | i < j < |s.entries| :: s.entries[j].fate != Delivered
  }

  /** In every reachable state the bytes that the connection has taken are the lines of the sends
      that returned nil, in lock order, and after them at most a prefix of one further line. */
  lemma {:induction false} WireIntegrity(steps: seq<Step>)
    requires IsExecution(steps)
    ensures var s := After(steps);
            && s.wire == Lines(DeliveredTexts(s.entries)) + Tail(s)
            && (Tail(s) == "" || exists i: nat :: IsCutShort(s, i))
  {
    Reachable(steps);
    var s := After(steps);
    if Tail(s) != "" {
      assert IsCutShort(s, s.writer.entry);
    }
  }

  /** While the client is open and nobody is sending, no line has been cut short. */
  lemma OnlyWholeLinesWhileOpen(steps: seq<Step>)
    requires IsExecution(steps) && !After(steps).done && After(steps).lock == None
    ensures After(steps).wire == Lines(DeliveredTexts(After(steps).entries))
  {
    Reachable(steps);
    var s := After(steps);
    assert Tail(s) == "";
  }

  /** Once the client is closed it stays closed and no line is begun any more. */
  lemma {:induction false} NothingBegunOnceClosed(s: State, step: Step)
    requires Inv(s) && Enabled(s, step) && s.done
    ensures Do(s, step).done
    ensures s.writer.Resting? <==> Do(s, step).writer.Resting?
    ensures !s.writer.Resting? ==> Do(s, step).writer.entry == s.writer.entry
  {
  }

  lemma {:induction false} DeliveredAreEntries(entries: seq<Entry>, k: nat)
    requires k < |DeliveredTexts(entries)|
    ensures exists i :: 0 <= i < |entries| && entries[i].text == DeliveredTexts(entries)[k]
  {
    var most := entries[..|entries| - 1];
    if k < |DeliveredTexts(most)| {
      DeliveredAreEntries(most, k);
      var i :| 0 <= i < |most| && most[i].text == DeliveredTexts(most)[k];
      assert entries[i].text == most[i].text;
    }
  }

  /** The complete frame in the tail, if the connection took it all. */
  function TailFrames(s: State): seq<string> {
    if IsClean(s) || s.writer.entry >= |s.entries| then []
    else if s.writer.written < |s.entries[s.writer.entry].text| then []
    else [s.entries[s.writer.entry].text]
  }

  lemma TailOfFrame(before: string, f: string, n: nat)
    requires Unfinished(before) == "" && IsFrame(f, 0, |f|) && n <= |f| + 1
    ensures Items(before + (f + "\n")[..n]) == Items(before) + if n < |f| then [] else [Framed(f)]
  {
    var cut := (f + "\n")[..n];
    if n == 0 {
      assert before + cut == before;
    } else if n < |f| {
      assert cut == f[..n];
      FrameInProgress(before, f, n);
    } else if n == |f| {
      assert cut == f;
      WholeFrame(before, f);
    } else {
      assert cut == f + ['\n'];
      LineOfFrame(before, f);
    }
  }

  lemma LineOfFrame(before: string, f: string)
    requires Unfinished(before) == "" && IsFrame(f, 0, |f|)
    ensures Items(before + (f + ['\n'])) == Items(before) + [Framed(f)]
  {
    WholeFrame(before, f);
    Snoc(before + f, '\n');
    Assoc(before, f, ['\n']);
  }

  lemma AsItemsConcat(a: seq<string>, b: seq<string>)
    ensures AsItems(a + b) == AsItems(a) + AsItems(b)
  {
  }

  ghost predicate AreFrames(entries: seq<Entry>) {
    forall i | 0 <= i < |entries| :: IsFrame(entries[i].text, 0, |entries[i].text|)
  }

  lemma DeliveredLinesComeBack(entries: seq<Entry>)
    requires AreFrames(entries)
    ensures var sent := Lines(DeliveredTexts(entries)); Items(sent) == AsItems(DeliveredTexts(entries)) && Unfinished(sent) == ""
  {
    var texts := DeliveredTexts(entries);
    forall k | 0 <= k < |texts| ensures IsFrame(texts[k], 0, |texts[k]|) {
      DeliveredAreEntries(entries, k);
    }
    LinesComeBack(texts);
  }

  lemma TailIsCut(s: State)
    requires IsWritten(s) && !IsClean(s)
    ensures s.writer.entry < |s.entries| && s.writer.written <= |s.entries[s.writer.entry].text| + 1
    ensures Tail(s) == (s.entries[s.writer.entry].text + "\n")[..s.writer.written]
  {
  }

  /** When the texts sent are frames, as every encoder's are, the receiving framer yields exactly
      the delivered commands and at most the one cut short after its last bracket: no failure
      makes the station see a command that was not sent. */
  lemma {:induction false} StationSeesWholeCommands(steps: seq<Step>)
    requires IsExecution(steps) && AreFrames(After(steps).entries)
    ensures var s := After(steps); Items(s.wire) == AsItems(DeliveredTexts(s.entries) + TailFrames(s))
  {
    Reachable(steps);
    WholeCommands(After(steps));
  }

  lemma WholeCommands(s: State)
    requires IsWritten(s) && IsWhole(s) && AreFrames(s.entries)
    ensures Items(s.wire) == AsItems(DeliveredTexts(s.entries) + TailFrames(s))
  {
    var texts := DeliveredTexts(s.entries);
    DeliveredLinesComeBack(s.entries);
    AsItemsConcat(texts, TailFrames(s));
    if IsClean(s) {
      assert Lines(texts) + Tail(s) == Lines(texts) && AsItems(texts) + [] == AsItems(texts);
    } else {
      TailIsCut(s);
      TailOfFrame(Lines(texts), s.entries[s.writer.entry].text, s.writer.written);
    }
  }

  // ---------------------------------------------------------------- failed sends

  /** The connection took the whole text of a line whose send has not returned nil. */
  predicate IsSentAnyway(s: State) {
    && !s.writer.Resting? && s.writer.entry < |s.entries|
    && s.entries[s.writer.entry].fate != Delivered && s.writer.written >= |s.entries[s.writer.entry].text|
  }

  lemma TailFramesExactly(s: State)
    requires IsWritten(s)
    ensures TailFrames(s) == if IsSentAnyway(s) then [s.entries[s.writer.entry].text] else []
  {
  }

  /** The station sees a command whose send did not return nil if and only if the connection took
      at least its whole text, however the send failed; and then it sees that one, after all the
      delivered ones. */
  lemma {:induction false} FailedSendReachesStationExactly(steps: seq<Step>)
    requires IsExecution(steps) && AreFrames(After(steps).entries)
    ensures var s := After(steps); var seen := Items(s.wire);
            && (|seen| > |DeliveredTexts(s.entries)| <==> IsSentAnyway(s))
            && (IsSentAnyway(s) ==> seen == AsItems(DeliveredTexts(s.entries)) + [Framed(s.entries[s.writer.entry].text)])
  {
    Reachable(steps);
    var s := After(steps);
    WholeCommands(s);
    TailFramesExactly(s);
    AsItemsConcat(DeliveredTexts(s.entries), TailFrames(s));
  }

  lemma Extended(steps: seq<Step>, step: Step)
    requires IsExecution(steps) && Enabled(After(steps), step)
    ensures IsExecution(steps + [step]) && After(steps + [step]) == Do(After(steps), step)
  {
    assert (steps + [step])[..|steps|] == steps;
  }

  /** The state after a text was entered and all but its outcome is written. */
  lemma BeingWritten(text: string)
    requires IsAscii(text)
    ensures var steps := [Enter(1, text), Look(1)];
            && IsExecution(steps)
            && After(steps) == State(false, Some(1), map[1 := Waiting(0)], Writing(0, 0), [Entry(text, Running)], "")
  {
    Extended([], Enter(1, text));
    assert [] + [Enter(1, text)] == [Enter(1, text)];
    Extended([Enter(1, text)], Look(1));
    assert [Enter(1, text)] + [Look(1)] == [Enter(1, text), Look(1)];
    assert map[1 := Entered(0)][1 := Waiting(0)] == map[1 := Waiting(0)];
  }

  /** The write reports an error although it took everything; nobody closes, no timer fires. */
  function FailingSteps(): seq<Step> {
    [Enter(1, "<!>"), Look(1), Write(4, false), Hear(1), CloseFailed(1)]
  }

  /** Everything is written, and the client is closed before the caller hears of it. */
  function ClosingSteps(): seq<Step> {
    [Enter(1, "<!>"), Look(1), Write(4, true), Report, Close, SeeDone(1)]
  }

  /** Everything is written, and the timer fires before the caller hears of it. */
  function LateSteps(): seq<Step> {
    [Enter(1, "<!>"), Look(1), Write(4, true), Report, TimeOut(1), CloseFailed(1)]
  }

  /** A send may return an error although its whole line was written: because the write failed
      after its last byte, because its time was up, or because the client was closed meanwhile. */
  lemma FailedSendsMayBeWhole()
    ensures IsExecution(FailingSteps()) && IsExecution(LateSteps()) && IsExecution(ClosingSteps())
    ensures After(LateSteps()).entries == [Entry("<!>", Failed)] && After(LateSteps()).wire == "<!>\n"
    ensures After(FailingSteps()).entries == [Entry("<!>", Failed)] && After(FailingSteps()).wire == "<!>\n"
    ensures After(ClosingSteps()).entries == [Entry("<!>", Failed)] && After(ClosingSteps()).wire == "<!>\n"
  {
    FailingWitness();
    LateWitness();
    ClosingWitness();
  }

  lemma FailingWitness()
    ensures IsExecution(FailingSteps())
    ensures After(FailingSteps()).entries == [Entry("<!>", Failed)] && After(FailingSteps()).wire == "<!>\n"
  {
    BeingWritten("<!>");
    var s2 := [Enter(1, "<!>"), Look(1)];
    var s3, s4 := s2 + [Write(4, false)], s2 + [Write(4, false)] + [Hear(1)];
    Extended(s2, Write(4, false));
    Extended(s3, Hear(1));
    Extended(s4, CloseFailed(1));
    assert s4 + [CloseFailed(1)] == FailingSteps();
  }

  lemma AllWritten()
    ensures var steps := ClosingSteps()[..4];
            && IsExecution(steps)
            && After(steps) == State(false, Some(1), map[1 := Waiting(0)], Reported(0, 4, true), [Entry("<!>", Running)], "<!>\n")
  {
    BeingWritten("<!>");
    var s2 := [Enter(1, "<!>"), Look(1)];
    var s3 := s2 + [Write(4, true)];
    Extended(s2, Write(4, true));
    Extended(s3, Report);
    assert s3 + [Report] == ClosingSteps()[..4];
  }

  lemma LateWitness()
    ensures IsExecution(LateSteps())
    ensures After(LateSteps()).entries == [Entry("<!>", Failed)] && After(LateSteps()).wire == "<!>\n"
  {
    AllWritten();
    var s4 := ClosingSteps()[..4];
    Extended(s4, TimeOut(1));
    Extended(s4 + [TimeOut(1)], CloseFailed(1));
    assert s4 + [TimeOut(1)] + [CloseFailed(1)] == LateSteps();
  }

  lemma ClosingWitness()
    ensures IsExecution(ClosingSteps())
    ensures After(ClosingSteps()).entries == [Entry("<!>", Failed)] && After(ClosingSteps()).wire == "<!>\n"
  {
    AllWritten();
    var s4 := ClosingSteps()[..4];
    Extended(s4, Close);
    Extended(s4 + [Close], SeeDone(1));
    assert s4 + [Close] + [SeeDone(1)] == ClosingSteps();
  }
}
