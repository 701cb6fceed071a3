/** Where a property that persists comes from. */
module History {

  /** Step j brings the property about and no step from then on up to i disturbs it. */
  ghost predicate Since(starts: nat -> bool, keeps: nat -> bool, j: nat, i: nat) {
    j < i && starts(j) && forall m | j < m < i :: keeps(m)
  }

  /** If the property holds after a step only because the step brought it about or kept it, and
      does not hold at first, then whenever it holds it has been kept since some step that
      brought it about. */
  lemma {:induction false} HasOrigin(holds: nat -> bool, starts: nat -> bool, keeps: nat -> bool, i: nat)
    requires !holds(0) && holds(i)
    requires forall m: nat | m < i && holds(m + 1) :: starts(m) || (holds(m) && keeps(m))
    ensures exists j: nat :: Since(starts, keeps, j, i)
  {
    assert holds(i - 1 + 1);
    if starts(i - 1) {
      assert Since(starts, keeps, i - 1, i);
    } else {
      HasOrigin(holds, starts, keeps, i - 1);
      var j: nat :| Since(starts, keeps, j, i - 1);
      assert Since(starts, keeps, j, i);
    }
  }

  /** Conversely, a property that is brought about and kept holds. */
  lemma {:induction false} OriginHolds(holds: nat -> bool, starts: nat -> bool, keeps: nat -> bool, j: nat, i: nat)
    requires Since(starts, keeps, j, i)
    requires forall m: nat | m < i && (starts(m) || (holds(m) && keeps(m))) :: holds(m + 1)
    ensures holds(i)
  {
    if j + 1 < i {
      OriginHolds(holds, starts, keeps, j, i - 1);
    }
    assert i - 1 + 1 == i;
  }

  /** What no step changes is the same at the end. */
  lemma {:induction false} Steady(holds: nat -> bool, i: nat, m: nat)
    requires i <= m
    requires forall x: nat | i <= x < m :: holds(x + 1) == holds(x)
    ensures holds(m) == holds(i)
  {
    if i < m {
      Steady(holds, i, m - 1);
      assert holds(m - 1 + 1) == holds(m - 1);
    }
  }

  /** What every step keeps still holds at the end. */
  lemma {:induction false} Persists(holds: nat -> bool, i: nat, m: nat)
    requires i <= m && holds(i)
    requires forall x: nat | i <= x < m && holds(x) :: holds(x + 1)
    ensures holds(m)
  {
    if i < m {
      Persists(holds, i, m - 1);
      assert holds(m - 1 + 1);
    }
  }
}
