/** The outcome of every discovery attempt, told by the calls alone: which call started the attempt
    that counts, which one ended it, and what it makes of the capabilities. */
module Attempts {
  import opened Results
  import opened Catalogs
  import opened Discoveries

  /** Call i starts an attempt: it asks for one with time to wait, and none is waiting. */
  predicate Starts(calls: seq<Call>, i: nat)
    requires i < |calls|
    decreases i, 2
  {
    calls[i].Begin? && calls[i].timeout > 0 && !IsWaiting(calls, i)
  }

  /** The call that started the attempt that counts after i calls; a reset forgets it. */
  function Current(calls: seq<Call>, i: nat): (a: Option<nat>)
    requires i <= |calls|
    ensures a.Some? ==> a.value < i && calls[a.value].Begin?
    decreases i, 0
  {
    if i == 0 || calls[i - 1].Reset? then None
    else if Starts(calls, i - 1) then Some(i - 1)
    else Current(calls, i - 1)
  }

  /** The call that has ended that attempt, if one has. */
  function End(calls: seq<Call>, i: nat): (m: Option<nat>)
    requires i <= |calls|
    ensures m.Some? ==> m.value < i && !calls[m.value].Begin? && !calls[m.value].Reset?
    decreases i, 0
  {
    if i == 0 || calls[i - 1].Reset? || Starts(calls, i - 1) then None
    else if End(calls, i - 1).Some? then End(calls, i - 1)
    else if Current(calls, i - 1).Some? && Ends(calls, Current(calls, i - 1).value, i - 1) then Some(i - 1)
    else None
  }

  predicate IsWaiting(calls: seq<Call>, i: nat)
    requires i <= |calls|
    decreases i, 1
  {
    Current(calls, i).Some? && End(calls, i) == None
  }

  /** How many attempts the first i calls have started. */
  function Started(calls: seq<Call>, i: nat): nat
    requires i <= |calls|
    decreases i, 0
  {
    if i == 0 then 0 else Started(calls, i - 1) + if Starts(calls, i - 1) then 1 else 0
  }

  function Deadline(calls: seq<Call>, a: nat): int
    requires a < |calls| && calls[a].Begin?
  {
    calls[a].now + calls[a].timeout
  }

  /** Whether call m ends the attempt that call a started: a response with its number, in time or
      not, or the expiry of its time. */
  predicate Ends(calls: seq<Call>, a: nat, m: nat)
    requires a < m < |calls| && calls[a].Begin?
    decreases m, 1
  {
    match calls[m]
    case Accept(token, _, _) => token == Started(calls, a + 1) % 0x1_0000_0000_0000_0000
    case Reject(token, _) => token == Started(calls, a + 1) % 0x1_0000_0000_0000_0000
    case Expire(now) => now >= Deadline(calls, a)
    case _ => false
  }

  /** What the call that ended the attempt makes of it. */
  predicate IsLate(calls: seq<Call>, a: nat, m: nat)
    requires a < m < |calls| && calls[a].Begin? && !calls[m].Begin? && !calls[m].Reset?
  {
    calls[m].now >= Deadline(calls, a)
  }

  function Verdict(calls: seq<Call>, a: nat, m: nat): Status
    requires a < m < |calls| && calls[a].Begin? && !calls[m].Begin? && !calls[m].Reset?
  {
    if IsLate(calls, a, m) then Inconclusive
    else
      match calls[m]
      case Accept(_, l, _) => if IsListing(l) then Available else InvalidResponse
      case Reject(_, _) => Unsupported
      case Expire(_) => Inconclusive
  }

  lemma {:induction false} EndIsLater(calls: seq<Call>, i: nat)
    requires i <= |calls| && End(calls, i).Some?
    ensures Current(calls, i).Some? && Current(calls, i).value < End(calls, i).value
    ensures Ends(calls, Current(calls, i).value, End(calls, i).value)
  {
    if End(calls, i - 1).Some? {
      EndIsLater(calls, i - 1);
    }
  }

  /** The capabilities after i calls. */
  function Outcome(calls: seq<Call>, i: nat): View
    requires i <= |calls|
  {
    var token := Started(calls, i) % 0x1_0000_0000_0000_0000;
    match Current(calls, i)
    case None => View(NotRequested, NO_LISTING, token, None)
    case Some(a) =>
      match End(calls, i)
      case None => View(Pending, NO_LISTING, token, Some(Deadline(calls, a)))
      case Some(m) =>
        EndIsLater(calls, i);
        var verdict := Verdict(calls, a, m);
        View(verdict, if verdict == Available then calls[m].listing else NO_LISTING, token, Some(Deadline(calls, a)))
  }

  /** The attempt that counts is the last one started. */
  lemma {:induction false} CurrentIsLast(calls: seq<Call>, i: nat)
    requires i <= |calls| && Current(calls, i).Some?
    ensures Started(calls, Current(calls, i).value + 1) == Started(calls, i)
  {
    if !Starts(calls, i - 1) {
      CurrentIsLast(calls, i - 1);
    }
  }

  lemma OutcomeStep(calls: seq<Call>, i: nat)
    requires i < |calls|
    ensures Outcome(calls, i + 1) == Do(Outcome(calls, i), calls[i])
  {
    var v := Outcome(calls, i);
    if Current(calls, i).Some? {
      CurrentIsLast(calls, i);
      if End(calls, i).Some? {
        EndIsLater(calls, i);
      }
    }
    assert v.status == Pending <==> IsWaiting(calls, i);
    NextToken(Started(calls, i));
    if calls[i].Reset? {
      assert Current(calls, i + 1) == None && Started(calls, i + 1) == Started(calls, i);
    } else if Starts(calls, i) {
      assert Current(calls, i + 1) == Some(i) && End(calls, i + 1) == None;
    } else {
      assert Started(calls, i + 1) == Started(calls, i) && Current(calls, i + 1) == Current(calls, i);
      if !IsWaiting(calls, i) {
        assert End(calls, i + 1) == End(calls, i);
      } else {
        var a := Current(calls, i).value;
        assert End(calls, i + 1) == if Ends(calls, a, i) then Some(i) else None;
      }
    }
  }

  /** After any calls the status, the listing, the attempt number and the deadline are those of the
      outcome: an attempt starts exactly when one is asked for with time to wait and none is
      waiting, and its verdict is that of the first response with its number, unless its time is
      up before. */
  lemma {:induction false} OutcomesExactly(calls: seq<Call>, i: nat)
    requires i <= |calls|
    ensures At(calls, i) == Outcome(calls, i)
  {
    if i > 0 {
      OutcomesExactly(calls, i - 1);
      OutcomeStep(calls, i - 1);
    }
  }
}
