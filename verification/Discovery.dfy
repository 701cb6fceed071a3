/** Capability discovery of dccex/capabilities/discovery.go: a token for each attempt, a deadline,
    and snapshots that share nothing with the state they are taken from. */
module Discoveries {
  import opened Results
  import opened Settings
  import opened Catalogs

  const TOKENS: nat := 0x1_0000_0000_0000_0000

  /** An unsigned 64-bit attempt number; it wraps around. */
  type Token = n: nat | n < TOKENS

  datatype Status = NotRequested | Pending | Available | Unsupported | Inconclusive | InvalidResponse

  /** The state as a value. The deadline is None for the zero time. */
  datatype View = View(status: Status, listing: Listing, attempt: Token, deadline: Option<int>)

  const UNASKED := View(NotRequested, NO_LISTING, 0, None)

  predicate CanBegin(v: View, timeout: int) {
    timeout > 0 && v.status != Pending
  }

  function Began(v: View, now: int, timeout: int): View {
    if CanBegin(v, timeout) then View(Pending, NO_LISTING, (v.attempt + 1) % TOKENS, Some(now + timeout)) else v
  }

  predicate IsDue(v: View, now: int) {
    v.status == Pending && !(v.deadline.Some? && now < v.deadline.value)
  }

  function Expired(v: View, now: int): View {
    if IsDue(v, now) then v.(status := Inconclusive, listing := NO_LISTING) else v
  }

  /** Whether a response to this attempt is in time. */
  predicate IsOpen(v: View, token: Token, now: int) {
    v.status == Pending && token == v.attempt && !IsDue(v, now)
  }

  /** A late response to the pending attempt ends it. */
  function Missed(v: View, token: Token, now: int): View {
    if token == v.attempt then Expired(v, now) else v
  }

  function Accepted(v: View, token: Token, l: Listing, now: int): View {
    if !IsOpen(v, token, now) then Missed(v, token, now)
    else if IsListing(l) then v.(status := Available, listing := l)
    else v.(status := InvalidResponse, listing := NO_LISTING)
  }

  function Rejected(v: View, token: Token, now: int): View {
    if IsOpen(v, token, now) then v.(status := Unsupported, listing := NO_LISTING) else Missed(v, token, now)
  }

  function Cleared(v: View): View {
    View(NotRequested, NO_LISTING, v.attempt, None)
  }

  class Discovery {
    var status: Status
    var catalog: Catalog
    var attempt: Token
    var deadline: Option<int>
    /** Every object that others can reach through a catalog they passed in or got out. */
    ghost var shared: set<object>

    ghost predicate Valid()
      reads this, catalog.features, Footprint(catalog)
    {
      this !in shared && this !in Footprint(catalog) && Footprint(catalog) !! shared
    }

    ghost function Abs(): View
      reads this, catalog.features, Footprint(catalog)
    {
      View(status, ListingOf(catalog), attempt, deadline)
    }

    constructor ()
      ensures Valid() && Abs() == UNASKED && shared == {}
    {
      status, catalog, attempt, deadline, shared := NotRequested, NO_CATALOG, 0, None, {};
    }

    method Snapshot() returns (s: Status, c: Catalog)
      requires Valid()
      modifies `shared
      ensures Valid() && Abs() == old(Abs())
      ensures s == status && ListingOf(c) == Abs().listing
      ensures fresh(Footprint(c)) && shared == old(shared) + Footprint(c)
    {
      c := Clone(catalog);
      s := status;
      shared := shared + Footprint(c);
    }

    method Begin(now: int, timeout: int) returns (token: Option<Token>)
      requires Valid()
      modifies this
      ensures Valid() && Abs() == Began(old(Abs()), now, timeout) && shared == old(shared)
      ensures token == if CanBegin(old(Abs()), timeout) then Some(attempt) else None
    {
      if timeout <= 0 || status == Pending {
        return None;
      }
      attempt := (attempt + 1) % TOKENS;
      deadline := Some(now + timeout);
      status, catalog := Pending, NO_CATALOG;
      return Some(attempt);
    }

    method Expire(now: int) returns (expired: bool)
      requires Valid()
      modifies `status, `catalog
      ensures Valid() && Abs() == Expired(old(Abs()), now)
      ensures expired <==> IsDue(old(Abs()), now)
      ensures catalog == if expired then NO_CATALOG else old(catalog)
    {
      if status != Pending || (deadline.Some? && now < deadline.value) {
        return false;
      }
      status, catalog := Inconclusive, NO_CATALOG;
      return true;
    }

    method IsPending(token: Token, now: int) returns (open: bool)
      requires Valid()
      modifies `status, `catalog
      ensures Valid() && Abs() == Missed(old(Abs()), token, now)
      ensures open <==> IsOpen(old(Abs()), token, now)
      ensures open ==> Abs() == old(Abs())
      ensures catalog == old(catalog) || catalog == NO_CATALOG
    {
      if status != Pending || token != attempt {
        return false;
      }
      var expired := Expire(now);
      return !expired;
    }

    /** The catalog passed in is anybody's but the private one. */
    method Accept(token: Token, c: Catalog, now: int) returns (consumed: bool, ok: bool)
      requires Valid() && this !in Footprint(c) && Footprint(c) !! Footprint(catalog)
      modifies this
      ensures Valid() && Abs() == Accepted(old(Abs()), token, old(ListingOf(c)), now)
      ensures consumed <==> IsOpen(old(Abs()), token, now)
      ensures ok <==> !consumed || IsListing(old(ListingOf(c)))
      ensures shared == old(shared) + old(Footprint(c))
    {
      Share(c);
      label shared_:
      ghost var l := ListingOf(c);
      var open := IsPending(token, now);
      if !open {
        return false, true;
      }
      assert ListingOf(c) == l by {
        ListingUnchanged@shared_(c);
      }
      ok := Keep(c);
      return true, ok;
    }

    ghost method Share(c: Catalog)
      requires Valid() && this !in Footprint(c) && Footprint(c) !! Footprint(catalog)
      modifies `shared
      ensures Valid() && Abs() == old(Abs()) && shared == old(shared) + Footprint(c)
      ensures Footprint(c) == old(Footprint(c)) && ListingOf(c) == old(ListingOf(c))
    {
      shared := shared + Footprint(c);
      ListingUnchanged(c);
    }

    /** Keeps a copy of a valid catalog and nothing of any other. */
    method Keep(c: Catalog) returns (ok: bool)
      requires Valid()
      modifies `status, `catalog
      ensures Valid() && ok == IsListing(old(ListingOf(c)))
      ensures Abs() == if ok then old(Abs()).(status := Available, listing := old(ListingOf(c)))
                       else old(Abs()).(status := InvalidResponse, listing := NO_LISTING)
    {
      ok := Catalogs.Validate(c);
      ListingUnchanged(c);
      if !ok {
        Hold(InvalidResponse, NO_CATALOG);
        return;
      }
      var copy := Clone(c);
      ListingUnchanged(c);
      Hold(Available, copy);
    }

    method Hold(s: Status, c: Catalog)
      requires this !in shared && this !in Footprint(c) && Footprint(c) !! shared
      modifies `status, `catalog
      ensures Valid() && status == s && catalog == c && ListingOf(catalog) == old(ListingOf(c))
    {
      status, catalog := s, c;
    }

    method Reject(token: Token, now: int) returns (consumed: bool)
      requires Valid()
      modifies this
      ensures Valid() && Abs() == Rejected(old(Abs()), token, now) && shared == old(shared)
      ensures consumed <==> IsOpen(old(Abs()), token, now)
    {
      consumed := IsPending(token, now);
      if consumed {
        status, catalog := Unsupported, NO_CATALOG;
      }
    }

    method Reset()
      requires Valid()
      modifies this
      ensures Valid() && Abs() == Cleared(old(Abs())) && shared == old(shared)
    {
      status, catalog, deadline := NotRequested, NO_CATALOG, None;
    }

    /** Whatever others do to catalogs they passed in or got out, or to objects made since, the
        state says what it said and stays out of their reach. */
    twostate lemma SnapshotsAreIsolated()
      requires old(Valid())
      requires forall o: object | old(allocated(o)) && o !in old(shared) :: unchanged(o)
      ensures Valid() && Abs() == old(Abs())
    {
    }
  }

  /** A snapshot supports a feature only while it is available. */
  method SnapshotSupports(s: Status, c: Catalog, schema: nat, id: Text, version: nat) returns (ok: bool)
    ensures ok <==> s == Available && IsSupported(ListingOf(c), schema, id, version)
  {
    if s != Available {
      return false;
    }
    ok := Supports(c, schema, id, version);
  }

  // ------------------------------------------------------------------- whole runs

  datatype Call =
    | Begin(now: int, timeout: int)
    | Accept(token: Token, listing: Listing, now: int)
    | Reject(token: Token, now: int)
    | Expire(now: int)
    | Reset

  function Do(v: View, call: Call): View {
    match call
    case Begin(now, timeout) => Began(v, now, timeout)
    case Accept(token, listing, now) => Accepted(v, token, listing, now)
    case Reject(token, now) => Rejected(v, token, now)
    case Expire(now) => Expired(v, now)
    case Reset => Cleared(v)
  }

  function At(calls: seq<Call>, i: nat): View
    requires i <= |calls|
  {
    if i == 0 then UNASKED else Do(At(calls, i - 1), calls[i - 1])
  }

  /** Call i is a Begin that starts an attempt. */
  predicate Begins(calls: seq<Call>, i: nat)
    requires i < |calls|
  {
    calls[i].Begin? && CanBegin(At(calls, i), calls[i].timeout)
  }

  /** Call i reports that it consumed its token. */
  predicate Consumes(calls: seq<Call>, i: nat)
    requires i < |calls|
  {
    (calls[i].Accept? || calls[i].Reject?) && IsOpen(At(calls, i), calls[i].token, calls[i].now)
  }

  /** The tokens handed out so far. */
  function Issued(calls: seq<Call>, i: nat): seq<Token>
    requires i <= |calls|
  {
    if i == 0 then []
    else Issued(calls, i - 1) + if Begins(calls, i - 1) then [At(calls, i).attempt] else []
  }

  function Consumed(calls: seq<Call>, i: nat): seq<Token>
    requires i <= |calls|
  {
    if i == 0 then []
    else Consumed(calls, i - 1) + if Consumes(calls, i - 1) then [calls[i - 1].token] else []
  }

  predicate Increasing(tokens: seq<Token>) {
    forall j, k | 0 <= j < k < |tokens| :: tokens[j] < tokens[k]
  }

  /** The k-th attempt has the token k, modulo the width of the counter; Reset does not matter. */
  lemma {:induction false} TokensCount(calls: seq<Call>, i: nat)
    requires i <= |calls|
    ensures At(calls, i).attempt == |Issued(calls, i)| % TOKENS
    ensures forall k | 0 <= k < |Issued(calls, i)| :: Issued(calls, i)[k] == (k + 1) % TOKENS
  {
    if i > 0 {
      TokensCount(calls, i - 1);
      NextToken(|Issued(calls, i - 1)|);
    }
  }

  lemma NextToken(n: nat)
    ensures (n % TOKENS + 1) % TOKENS == (n + 1) % TOKENS
  {
  }

  /** Tokens strictly increase, across resets too, exactly as long as the counter does not wrap. */
  lemma TokensIncrease(calls: seq<Call>, i: nat)
    requires i <= |calls|
    ensures Increasing(Issued(calls, i)) <==> |Issued(calls, i)| < TOKENS
  {
    TokensCount(calls, i);
    var n := |Issued(calls, i)|;
    if n < TOKENS {
      forall k | 0 <= k < n ensures Issued(calls, i)[k] == k + 1 {
      }
    } else {
      assert Issued(calls, i)[TOKENS - 1] == 0 && Issued(calls, i)[0] == 1;
    }
  }

  /** While the counter does not wrap, each token is consumed at most once, in order. */
  lemma {:induction false} TokensAreConsumedOnce(calls: seq<Call>, i: nat)
    requires i <= |calls| && |Issued(calls, i)| < TOKENS
    ensures Increasing(Consumed(calls, i))
    ensures forall k | 0 <= k < |Consumed(calls, i)| :: Consumed(calls, i)[k] <= At(calls, i).attempt
    ensures At(calls, i).status == Pending ==>
              forall k | 0 <= k < |Consumed(calls, i)| :: Consumed(calls, i)[k] < At(calls, i).attempt
  {
    if i > 0 {
      TokensAreConsumedOnce(calls, i - 1);
      TokensCount(calls, i - 1);
    }
  }

  /** Call a started the attempt that call i finds pending: nothing reset it in between, and what
      it finds is that attempt's token and deadline. */
  ghost predicate IsAttempt(calls: seq<Call>, a: nat, i: nat)
    requires i <= |calls|
  {
    && a < i && Begins(calls, a)
    && At(calls, i).attempt == At(calls, a + 1).attempt
    && At(calls, i).deadline == Some(calls[a].now + calls[a].timeout)
    && forall m | a < m < i :: !calls[m].Reset? && !Begins(calls, m)
  }

  lemma {:induction false} PendingHasAttempt(calls: seq<Call>, i: nat)
    requires i <= |calls| && At(calls, i).status == Pending
    ensures exists a: nat :: IsAttempt(calls, a, i)
  {
    if Begins(calls, i - 1) {
      assert IsAttempt(calls, i - 1, i);
    } else {
      PendingHasAttempt(calls, i - 1);
      var a: nat :| IsAttempt(calls, a, i - 1);
      assert IsAttempt(calls, a, i);
    }
  }

  /** Call b accepted this listing in time for the attempt that call a started, the last one that
      was started, and no call has reset the discovery since. */
  ghost predicate IsGranted(calls: seq<Call>, a: nat, b: nat, i: nat, l: Listing)
    requires i <= |calls|
  {
    && a < b < i
    && Begins(calls, a)
    && calls[b].Accept? && calls[b].token == At(calls, a + 1).attempt && calls[b].listing == l
    && At(calls, b).status == Pending
    && calls[b].now < calls[a].now + calls[a].timeout
    && IsListing(l)
    && forall m | a < m < i :: !calls[m].Reset? && !Begins(calls, m)
  }

  lemma GrantLasts(calls: seq<Call>, a: nat, b: nat, i: nat, l: Listing)
    requires i < |calls| && IsGranted(calls, a, b, i, l) && !calls[i].Reset? && !Begins(calls, i)
    ensures IsGranted(calls, a, b, i + 1, l)
  {
  }

  lemma AcceptGrants(calls: seq<Call>, a: nat, b: nat)
    requires b < |calls| && IsAttempt(calls, a, b) && At(calls, b).status == Pending
    requires At(calls, b + 1).status == Available
    ensures IsGranted(calls, a, b, b + 1, At(calls, b + 1).listing)
  {
  }

  lemma {:induction false} AvailableHasGrant(calls: seq<Call>, i: nat)
    requires i <= |calls| && At(calls, i).status == Available
    ensures exists a: nat, b: nat :: IsGranted(calls, a, b, i, At(calls, i).listing)
  {
    var b := i - 1;
    if At(calls, b).status == Available {
      AvailableHasGrant(calls, b);
      var a: nat, c: nat :| IsGranted(calls, a, c, b, At(calls, b).listing);
      GrantLasts(calls, a, c, b, At(calls, b).listing);
    } else {
      PendingHasAttempt(calls, b);
      var a: nat :| IsAttempt(calls, a, b);
      AcceptGrants(calls, a, b);
    }
  }

  lemma {:induction false} GrantIsAvailable(calls: seq<Call>, a: nat, b: nat, i: nat, l: Listing)
    requires i <= |calls| && IsGranted(calls, a, b, i, l)
    ensures At(calls, i).status == Available && At(calls, i).listing == l
  {
    if b + 1 < i {
      GrantIsAvailable(calls, a, b, i - 1, l);
      assert !calls[i - 1].Reset? && !Begins(calls, i - 1);
    } else {
      PendingHasAttempt(calls, b);
      var c: nat :| IsAttempt(calls, c, b);
      SameAttempt(calls, a, c, b);
    }
  }

  lemma SameAttempt(calls: seq<Call>, a: nat, c: nat, b: nat)
    requires b <= |calls| && a < b && Begins(calls, a) && IsAttempt(calls, c, b)
    requires forall m | a < m < b :: !Begins(calls, m)
    ensures a == c
  {
  }

  /** A catalog is available exactly when it was accepted, valid and strictly before the deadline,
      with the token of the last attempt, and nothing has reset the discovery since. */
  lemma {:induction false} AvailableExactlyWhenGranted(calls: seq<Call>, i: nat, l: Listing)
    requires i <= |calls|
    ensures At(calls, i).status == Available && At(calls, i).listing == l
            <==> exists a: nat, b: nat :: IsGranted(calls, a, b, i, l)
  {
    if At(calls, i).status == Available && At(calls, i).listing == l {
      AvailableHasGrant(calls, i);
    }
    if a: nat, b: nat :| IsGranted(calls, a, b, i, l) {
      GrantIsAvailable(calls, a, b, i, l);
    }
  }

  /** In every other state the catalog is empty and nothing is supported. */
  lemma {:induction false} OtherwiseNothingIsSupported(calls: seq<Call>, i: nat, schema: nat, id: Text, version: nat)
    requires i <= |calls| && At(calls, i).status != Available
    ensures At(calls, i).listing == NO_LISTING && !IsSupported(At(calls, i).listing, schema, id, version)
  {
    if i > 0 && At(calls, i - 1).status != Available {
      OtherwiseNothingIsSupported(calls, i - 1, schema, id, version);
    }
  }
}
