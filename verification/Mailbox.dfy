/** The one-slot mailbox of throttle/session.go: the session goroutine publishes snapshots and a
    view receives them, interleaved in any way. A snapshot is the number of its publication. */
module Mailbox {
  import opened Results

  /** Where the publisher is in its two nested selects. */
  datatype Publisher = Idle | Sending | Draining | Retrying

  datatype State = State(published: nat, slot: Option<int>, publisher: Publisher, received: seq<int>, dropped: nat)

  datatype Step = Publish | Select | Receive

  const START := State(0, None, Idle, [], 0)

  predicate Enabled(s: State, step: Step) {
    match step
    case Publish => s.publisher.Idle?
    case Select => !s.publisher.Idle?
    case Receive => s.slot.Some?
  }

  /** Each select is atomic; its default branch is taken when the channel is not ready. */
  function Selected(s: State): State
    requires !s.publisher.Idle?
  {
    var newest := s.published - 1;
    match s.publisher
    case Sending => if s.slot == None then s.(slot := Some(newest), publisher := Idle) else s.(publisher := Draining)
    case Draining => s.(slot := None, publisher := Retrying)
    case Retrying =>
      if s.slot == None then s.(slot := Some(newest), publisher := Idle)
      else s.(publisher := Idle, dropped := s.dropped + 1)
  }

  function Do(s: State, step: Step): State
    requires Enabled(s, step)
  {
    match step
    case Publish => s.(published := s.published + 1, publisher := Sending)
    case Select => Selected(s)
    case Receive => s.(slot := None, received := s.received + [s.slot.value])
  }

  /** How many publications have reached the slot. */
  function Offered(s: State): int {
    if s.publisher.Idle? then s.published else s.published - 1
  }

  predicate IsNewest(s: State, n: int) {
    || s.slot == Some(n)
    || (s.slot == None && s.received != [] && s.received[|s.received| - 1] == n)
  }

  predicate Inv(s: State) {
    && s.dropped == 0
    && (s.publisher.Idle? || s.published > 0)
    && (s.publisher.Retrying? ==> s.slot == None)
    && (forall i, j | 0 <= i < j < |s.received| :: s.received[i] < s.received[j])
    && (forall i | 0 <= i < |s.received| :: s.received[i] < Offered(s))
    && (s.slot.Some? ==> s.slot.value < Offered(s))
    && (s.slot.Some? ==> forall i | 0 <= i < |s.received| :: s.received[i] < s.slot.value)
    && (!s.publisher.Retrying? && Offered(s) > 0 ==> IsNewest(s, Offered(s) - 1))
  }

  lemma InvKept(s: State, step: Step)
    requires Inv(s) && Enabled(s, step)
    ensures Inv(Do(s, step))
  {
  }

  predicate IsExecution(steps: seq<Step>)
    decreases |steps|, 0
  {
    steps == [] || (IsExecution(steps[..|steps| - 1]) && Enabled(After(steps[..|steps| - 1]), steps[|steps| - 1]))
  }

  function After(steps: seq<Step>): State
    requires IsExecution(steps)
    decreases |steps|, 1
  {
    if steps == [] then START else Do(After(steps[..|steps| - 1]), steps[|steps| - 1])
  }

  lemma {:induction false} Reachable(steps: seq<Step>)
    requires IsExecution(steps)
    ensures Inv(After(steps))
  {
    if steps != [] {
      Reachable(steps[..|steps| - 1]);
      InvKept(After(steps[..|steps| - 1]), steps[|steps| - 1]);
    }
  }

  /** The last branch of publish, which would lose the snapshot in hand, is never taken. */
  lemma {:induction false} NothingIsDropped(steps: seq<Step>)
    requires IsExecution(steps)
    ensures After(steps).dropped == 0
    ensures After(steps).publisher.Retrying? ==> After(steps).slot == None
  {
    Reachable(steps);
  }

  /** A view receives snapshots in the order of publication and none twice. */
  lemma ReceivedInOrder(steps: seq<Step>, i: nat, j: nat)
    requires IsExecution(steps) && i < j < |After(steps).received|
    ensures After(steps).received[i] < After(steps).received[j] < After(steps).published
  {
    Reachable(steps);
  }

  /** Between publications the newest snapshot is in the slot or is the one received last; so a
      view that has emptied the slot shows the newest. */
  lemma {:induction false} NewestIsAvailable(steps: seq<Step>)
    requires IsExecution(steps) && After(steps).publisher.Idle? && After(steps).published > 0
    ensures var s := After(steps);
            if s.slot.Some? then s.slot.value == s.published - 1
            else s.received != [] && s.received[|s.received| - 1] == s.published - 1
  {
    Reachable(steps);
  }

  /** Publishing takes at most three selects, whatever the view does in between. */
  function SelectsLeft(s: State): nat {
    match s.publisher
    case Idle => 0
    case Sending => 3
    case Draining => 2
    case Retrying => 1
  }

  lemma {:induction false} PublishNeverWaits(s: State, step: Step)
    requires Inv(s) && Enabled(s, step) && !s.publisher.Idle?
    ensures Enabled(s, Select)
    ensures step.Select? ==> SelectsLeft(Do(s, step)) < SelectsLeft(s)
    ensures !step.Select? ==> SelectsLeft(Do(s, step)) == SelectsLeft(s)
  {
  }
}
