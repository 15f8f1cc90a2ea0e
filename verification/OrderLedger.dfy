/** How a list of order legs is read: grouping, position lifecycle and first-in-first-out netting
    (`domain/order_lifecycle.py`, `infrastructure/db/live_orders.py`). */
module OrderLedger {
  import opened Numeric
  import opened Ranking

  /** The broker's status texts. `Other` is a text outside the documented five, stored as it came. */
  datatype Status = Complete | Pending | Unknown | Rejected | Cancelled | Other(text: string) {
    predicate IsTerminalFailure() {
      this == Rejected || this == Cancelled
    }
  }

  datatype Purpose = Cash | Primary | Hedge

  datatype Leg = Leg(basketId: string, symbol: string, purpose: Purpose, tradingsymbol: string, isBuy: bool,
                     quantity: Quantity, orderId: string, status: Status, placedAt: int, averagePrice: Option<real>,
                     intentId: string)

  /** The table refuses quantities that are not positive. */
  type Quantity = q: int | q > 0 witness 1

  datatype Lifecycle = NoPosition | Opening | Active | ExitPending | Closed | ReconciliationRequired

  datatype LedgerError = NotLongOnly | InvalidStatus

  datatype Result<T> = Ok(value: T) | Err(error: LedgerError)

  // ---------- order in time ----------

  function Earliness(leg: Leg): real {
    -(leg.placedAt as real)
  }

  /** The legs by `placedAt`, equal times in their given order. */
  function ByTime(legs: seq<Leg>): (r: seq<Leg>)
    ensures multiset(r) == multiset(legs) && |r| == |legs|
  {
    RankingIsStableSort(Earliness, legs, 0.0);
    assert |multiset(SortDescending(Earliness, legs))| == |multiset(legs)|;
    SortDescending(Earliness, legs)
  }

  predicate DistinctTimes(legs: seq<Leg>) {
    forall i, j :: 0 <= i < j < |legs| ==> legs[i].placedAt != legs[j].placedAt
  }

  ghost predicate InTime(legs: seq<Leg>) {
    forall i, j :: 0 <= i < j < |legs| ==> legs[i].placedAt < legs[j].placedAt
  }

  lemma FirstIsEarliest(xs: seq<Leg>, ys: seq<Leg>)
    requires InTime(xs) && InTime(ys) && multiset(xs) == multiset(ys) && xs != []
    ensures ys != [] && xs[0] == ys[0]
  {
    assert xs[0] in multiset(ys);
    assert ys[0] in multiset(xs);
    var i :| 0 <= i < |ys| && ys[i] == xs[0];
    var j :| 0 <= j < |xs| && xs[j] == ys[0];
  }

  lemma WithoutFirst(legs: seq<Leg>)
    requires legs != []
    ensures multiset(legs[1..]) == multiset(legs) - multiset{legs[0]}
  {
    assert legs == [legs[0]] + legs[1..];
  }

  /** Legs in strict time order are determined by which legs there are. */
  lemma {:induction false} TimeOrderIsUnique(xs: seq<Leg>, ys: seq<Leg>)
    requires InTime(xs) && InTime(ys) && multiset(xs) == multiset(ys)
    ensures xs == ys
  {
    if xs == [] {
      assert |multiset(ys)| == 0;
    } else {
      FirstIsEarliest(xs, ys);
      WithoutFirst(xs);
      WithoutFirst(ys);
      TimeOrderIsUnique(xs[1..], ys[1..]);
      assert xs == [xs[0]] + xs[1..] && ys == [ys[0]] + ys[1..];
    }
  }

  /** Legs already in time order stay as they are. */
  lemma InTimeIsSorted(legs: seq<Leg>)
    requires InTime(legs)
    ensures ByTime(legs) == legs
  {
    RankingIsStableSort(Earliness, legs, 0.0);
    DistinctKept(legs, ByTime(legs));
    forall i, j | 0 <= i < j < |legs|
      ensures ByTime(legs)[i].placedAt < ByTime(legs)[j].placedAt
    {
      assert Earliness(ByTime(legs)[i]) >= Earliness(ByTime(legs)[j]);
    }
    TimeOrderIsUnique(ByTime(legs), legs);
  }

  lemma {:induction false} DistinctKept(xs: seq<Leg>, ys: seq<Leg>)
    requires DistinctTimes(xs) && multiset(xs) == multiset(ys)
    ensures DistinctTimes(ys)
  {
    forall i, j | 0 <= i < j < |ys|
      ensures ys[i].placedAt != ys[j].placedAt
    {
      assert ys == ys[..i] + [ys[i]] + ys[i + 1..j] + [ys[j]] + ys[j + 1..];
      if ys[i] == ys[j] {
        assert multiset(ys)[ys[i]] >= 2;
        OccursOnce(xs, ys[i]);
      } else {
        assert ys[i] in multiset(xs) && ys[j] in multiset(xs);
      }
    }
  }

  lemma {:induction false} OccursOnce(xs: seq<Leg>, leg: Leg)
    requires DistinctTimes(xs)
    ensures multiset(xs)[leg] <= 1
  {
    if xs != [] {
      OccursOnce(xs[1..], leg);
      assert xs == [xs[0]] + xs[1..];
      if xs[0] == leg && leg in xs[1..] {
        assert false;
      }
    }
  }

  lemma ByTimeIsUnique(xs: seq<Leg>, ys: seq<Leg>)
    requires DistinctTimes(xs) && multiset(xs) == multiset(ys)
    ensures ByTime(xs) == ByTime(ys)
  {
    RankingIsStableSort(Earliness, xs, 0.0);
    RankingIsStableSort(Earliness, ys, 0.0);
    DistinctKept(xs, ByTime(xs));
    DistinctKept(xs, ByTime(ys));
    forall i, j | 0 <= i < j < |xs|
      ensures ByTime(xs)[i].placedAt < ByTime(xs)[j].placedAt && ByTime(ys)[i].placedAt < ByTime(ys)[j].placedAt
    {
      assert |ByTime(ys)| == |multiset(ys)| == |xs|;
      assert Earliness(ByTime(xs)[i]) >= Earliness(ByTime(xs)[j]);
      assert Earliness(ByTime(ys)[i]) >= Earliness(ByTime(ys)[j]);
    }
    TimeOrderIsUnique(ByTime(xs), ByTime(ys));
  }

  // ---------- quantities ----------

  /** The total quantity of one side in the given statuses. */
  function Total(legs: seq<Leg>, isBuy: bool, statuses: set<Status>): (r: nat)
    ensures r > 0 <==> exists i :: 0 <= i < |legs| && legs[i].isBuy == isBuy && legs[i].status in statuses
  {
    if legs == [] then 0
    else
      var leg := legs[|legs| - 1];
      Total(legs[..|legs| - 1], isBuy, statuses)
          + (if leg.isBuy == isBuy && leg.status in statuses then leg.quantity else 0)
  }

  lemma {:induction false} TotalOfParts(xs: seq<Leg>, ys: seq<Leg>, isBuy: bool, statuses: set<Status>)
    ensures Total(xs + ys, isBuy, statuses) == Total(xs, isBuy, statuses) + Total(ys, isBuy, statuses)
  {
    if ys == [] {
      assert xs + ys == xs;
    } else {
      TotalOfParts(xs, ys[..|ys| - 1], isBuy, statuses);
      assert (xs + ys)[..|xs + ys| - 1] == xs + ys[..|ys| - 1];
    }
  }

  function Without(legs: seq<Leg>, k: nat): (r: seq<Leg>)
    requires k < |legs|
    ensures |r| == |legs| - 1
  {
    legs[..k] + legs[k + 1..]
  }

  /** Totals do not depend on the order of the legs. */
  lemma {:induction false} TotalIgnoresOrder(xs: seq<Leg>, ys: seq<Leg>, isBuy: bool, statuses: set<Status>)
    requires multiset(xs) == multiset(ys)
    ensures Total(xs, isBuy, statuses) == Total(ys, isBuy, statuses)
    decreases |xs|
  {
    hide Total, Without;
    if xs == [] {
      assert |multiset(ys)| == 0;
    } else {
      var k := Where(xs, ys);
      WithoutOne(ys, k);
      WithoutOne(xs, 0);
      TotalIgnoresOrder(Without(xs, 0), Without(ys, k), isBuy, statuses);
      TotalWithoutOne(xs, 0, isBuy, statuses);
      TotalWithoutOne(ys, k, isBuy, statuses);
    }
  }

  lemma Where(xs: seq<Leg>, ys: seq<Leg>) returns (k: nat)
    requires xs != [] && multiset(xs) == multiset(ys)
    ensures k < |ys| && ys[k] == xs[0]
  {
    assert xs[0] in multiset(ys);
    k :| 0 <= k < |ys| && ys[k] == xs[0];
  }

  lemma WithoutOne(legs: seq<Leg>, k: nat)
    requires k < |legs|
    ensures multiset(Without(legs, k)) == multiset(legs) - multiset{legs[k]}
  {
    assert legs == legs[..k] + ([legs[k]] + legs[k + 1..]);
  }

  lemma TotalOfOne(leg: Leg, isBuy: bool, statuses: set<Status>)
    ensures Total([leg], isBuy, statuses) == if leg.isBuy == isBuy && leg.status in statuses then leg.quantity else 0
  {
    assert [leg][..0] == [];
  }

  lemma TotalWithoutOne(legs: seq<Leg>, k: nat, isBuy: bool, statuses: set<Status>)
    requires k < |legs|
    ensures Total(legs, isBuy, statuses)
         == Total(Without(legs, k), isBuy, statuses)
            + (if legs[k].isBuy == isBuy && legs[k].status in statuses then legs[k].quantity else 0)
  {
    hide Total;
    assert legs == legs[..k] + ([legs[k]] + legs[k + 1..]);
    TotalOfParts(legs[..k], legs[k + 1..], isBuy, statuses);
    TotalOfParts(legs[..k], [legs[k]] + legs[k + 1..], isBuy, statuses);
    TotalOfParts([legs[k]], legs[k + 1..], isBuy, statuses);
    TotalOfOne(legs[k], isBuy, statuses);
  }

  // ---------- the lifecycle of one position ----------

  /** The status the scan for uncertainty stops at. */
  function FirstDoubt(legs: seq<Leg>): Option<Status> {
    if legs == [] then None
    else if legs[0].status.Unknown? || legs[0].status.Other? then Some(legs[0].status)
    else FirstDoubt(legs[1..])
  }

  const REAL: set<Status> := {Complete, Pending, Unknown}

  function Classify(ordered: seq<Leg>): Lifecycle {
    if Total(ordered, true, REAL) == 0 then NoPosition
    else if Total(ordered, true, {Complete}) - Total(ordered, false, {Complete}) > 0 then
      if Total(ordered, false, {Pending}) > 0 then ExitPending else Active
    else if Total(ordered, true, {Pending}) > 0 then Opening
    else Closed
  }

  function DeriveLifecycle(legs: seq<Leg>): Result<Lifecycle> {
    if legs == [] then Ok(NoPosition)
    else
      var ordered := ByTime(legs);
      if !ordered[0].isBuy then Err(NotLongOnly)
      else
        match FirstDoubt(ordered)
        case Some(Unknown) => Ok(ReconciliationRequired)
        case Some(_) => Err(InvalidStatus)
        case None => Ok(Classify(ordered))
  }

  /** Main result. With distinct timestamps the lifecycle depends on which legs there are, not on how they are
      listed. */
  lemma LifecycleIgnoresInputOrder(xs: seq<Leg>, ys: seq<Leg>)
    requires DistinctTimes(xs) && multiset(xs) == multiset(ys)
    ensures DeriveLifecycle(xs) == DeriveLifecycle(ys)
  {
    assert |multiset(xs)| == |xs| && |multiset(ys)| == |ys|;
    ByTimeIsUnique(xs, ys);
  }

  predicate HasStatus(legs: seq<Leg>, status: Status) {
    exists i :: 0 <= i < |legs| && legs[i].status == status
  }

  /** Every stored status is one of the documented five. */
  predicate Documented(legs: seq<Leg>) {
    forall i :: 0 <= i < |legs| ==> !legs[i].status.Other?
  }

  predicate Opens(legs: seq<Leg>) {
    legs != [] && ByTime(legs)[0].isBuy
  }

  function NetComplete(legs: seq<Leg>): int {
    Total(legs, true, {Complete}) - Total(legs, false, {Complete})
  }

  lemma {:induction false} FirstDoubtMeaning(legs: seq<Leg>)
    requires Documented(legs)
    ensures FirstDoubt(legs) == if HasStatus(legs, Unknown) then Some(Unknown) else None
  {
    if legs != [] {
      FirstDoubtMeaning(legs[1..]);
      assert HasStatus(legs, Unknown) == (legs[0].status == Unknown || HasStatus(legs[1..], Unknown));
    }
  }

  /** Main result. What each answer means, in terms of the legs as given. */
  lemma LifecycleMeaning(legs: seq<Leg>)
    requires Opens(legs) && Documented(legs)
    ensures var known := !HasStatus(legs, Unknown);
            match DeriveLifecycle(legs)
            case Err(_) => false
            case Ok(ReconciliationRequired) => !known
            case Ok(NoPosition) => known && Total(legs, true, REAL) == 0
            case Ok(Active) => known && NetComplete(legs) > 0 && Total(legs, false, {Pending}) == 0
            case Ok(ExitPending) => known && NetComplete(legs) > 0 && Total(legs, false, {Pending}) > 0
            case Ok(Opening) => known && NetComplete(legs) <= 0 && Total(legs, true, {Pending}) > 0
            case Ok(Closed) =>
              known && NetComplete(legs) <= 0 && Total(legs, true, {Pending}) == 0 && Total(legs, true, REAL) > 0
  {
    hide Total, FirstDoubt, ByTime, HasStatus;
    var ordered := ByTime(legs);
    SameStatuses(legs);
    FirstDoubtMeaning(ordered);
    TotalIgnoresOrder(ordered, legs, true, REAL);
    TotalIgnoresOrder(ordered, legs, true, {Complete});
    TotalIgnoresOrder(ordered, legs, false, {Complete});
    TotalIgnoresOrder(ordered, legs, true, {Pending});
    TotalIgnoresOrder(ordered, legs, false, {Pending});
    NetImpliesReal(legs);
  }

  lemma SameStatuses(legs: seq<Leg>)
    requires Documented(legs)
    ensures Documented(ByTime(legs)) && HasStatus(ByTime(legs), Unknown) == HasStatus(legs, Unknown)
  {
    hide ByTime;
    var ordered := ByTime(legs);
    forall i | 0 <= i < |ordered|
      ensures ordered[i] in legs
    {
      assert ordered[i] in multiset(legs);
    }
    if HasStatus(legs, Unknown) {
      var i :| 0 <= i < |legs| && legs[i].status == Unknown;
      assert legs[i] in multiset(ordered);
    }
  }

  lemma NetImpliesReal(legs: seq<Leg>)
    ensures Total(legs, true, REAL) == 0 ==> NetComplete(legs) <= 0 && Total(legs, true, {Pending}) == 0
  {
    if Total(legs, true, REAL) == 0 {
      assert Total(legs, true, {Complete}) == 0 && Total(legs, true, {Pending}) == 0;
    }
  }

  /** Leg `i` has a status outside the five, and no leg before it is `Unknown`. */
  predicate OddBeforeUnknown(legs: seq<Leg>, i: nat)
    requires i < |legs|
  {
    legs[i].status.Other? && forall k :: 0 <= k < i ==> !legs[k].status.Unknown?
  }

  /** Main result. The lifecycle raises over a status exactly when, in time order, one outside the five is met before
      any `Unknown` leg. */
  lemma UndocumentedStatusRaises(legs: seq<Leg>)
    requires Opens(legs)
    ensures DeriveLifecycle(legs) == Err(InvalidStatus)
       <==> exists i: nat :: i < |legs| && OddBeforeUnknown(ByTime(legs), i)
  {
    DoubtExactly(ByTime(legs));
    hide FirstDoubt, ByTime, OddBeforeUnknown;
  }

  lemma {:induction false} DoubtExactly(legs: seq<Leg>)
    ensures FirstDoubt(legs).Some? && FirstDoubt(legs).value.Other?
       <==> exists i: nat :: i < |legs| && OddBeforeUnknown(legs, i)
    ensures FirstDoubt(legs).Some? ==> FirstDoubt(legs).value.Unknown? || FirstDoubt(legs).value.Other?
  {
    if legs != [] {
      DoubtExactly(legs[1..]);
      if legs[0].status.Other? {
        assert OddBeforeUnknown(legs, 0);
      } else if !legs[0].status.Unknown? {
        if i: nat :| i < |legs| && OddBeforeUnknown(legs, i) {
          assert OddBeforeUnknown(legs[1..], i - 1);
        }
        if i: nat :| i < |legs[1..]| && OddBeforeUnknown(legs[1..], i) {
          assert forall k :: 1 <= k < i + 1 ==> legs[k] == legs[1..][k - 1];
          assert OddBeforeUnknown(legs, i + 1);
        }
      }
    }
  }

  /** Such a ledger: one order the broker still holds back. */
  lemma TriggerPendingRaises()
    ensures DeriveLifecycle([Leg("b", "X", Cash, "X", true, 5, "1", Other("TRIGGER PENDING"), 1, None, "i")])
         == Err(InvalidStatus)
  {
    var legs := [Leg("b", "X", Cash, "X", true, 5, "1", Other("TRIGGER PENDING"), 1, None, "i")];
    assert legs[1..] == [] && SortDescending(Earliness, []) == [];
    assert SortDescending(Earliness, legs) == Insert(Earliness, legs[0], []) == legs;
  }

  // ---------- failed legs ----------

  function Erase(legs: seq<Leg>): seq<Leg> {
    if legs == [] then []
    else if legs[0].status.IsTerminalFailure() then Erase(legs[1..])
    else [legs[0]] + Erase(legs[1..])
  }

  lemma {:induction false} EraseKeeps(legs: seq<Leg>, leg: Leg)
    ensures leg in Erase(legs) <==> leg in legs && !leg.status.IsTerminalFailure()
  {
    if legs != [] {
      EraseKeeps(legs[1..], leg);
    }
  }

  lemma EraseStep(leg: Leg, legs: seq<Leg>)
    ensures Erase([leg] + legs) == (if leg.status.IsTerminalFailure() then [] else [leg]) + Erase(legs)
  {
    assert ([leg] + legs)[1..] == legs;
  }

  lemma {:induction false} EraseInsert(leg: Leg, sorted: seq<Leg>)
    requires Descending(Earliness, sorted)
    ensures Erase(Insert(Earliness, leg, sorted))
         == if leg.status.IsTerminalFailure() then Erase(sorted) else Insert(Earliness, leg, Erase(sorted))
  {
    if sorted != [] && Earliness(sorted[0]) > Earliness(leg) {
      EraseInsert(leg, sorted[1..]);
      EraseStep(sorted[0], Insert(Earliness, leg, sorted[1..]));
      EraseStep(sorted[0], sorted[1..]);
      assert ([sorted[0]] + Erase(sorted[1..]))[1..] == Erase(sorted[1..]);
    } else {
      assert Insert(Earliness, leg, sorted) == [leg] + sorted;
      EraseStep(leg, sorted);
      if !leg.status.IsTerminalFailure() && Erase(sorted) != [] {
        EraseKeeps(sorted, Erase(sorted)[0]);
        assert Earliness(Erase(sorted)[0]) <= Earliness(leg);
      }
    }
  }

  lemma {:induction false} EraseSorts(legs: seq<Leg>)
    ensures SortDescending(Earliness, Erase(legs)) == Erase(SortDescending(Earliness, legs))
  {
    if legs != [] {
      EraseSorts(legs[1..]);
      RankingIsStableSort(Earliness, legs[1..], 0.0);
      EraseInsert(legs[0], SortDescending(Earliness, legs[1..]));
      assert ([legs[0]] + Erase(legs[1..]))[1..] == Erase(legs[1..]);
    }
  }

  lemma {:induction false} EraseKeepsTotals(legs: seq<Leg>, isBuy: bool, statuses: set<Status>)
    requires Rejected !in statuses && Cancelled !in statuses
    ensures Total(Erase(legs), isBuy, statuses) == Total(legs, isBuy, statuses)
  {
    if legs != [] {
      EraseKeepsTotals(legs[1..], isBuy, statuses);
      TotalOfParts([legs[0]], legs[1..], isBuy, statuses);
      TotalOfParts([legs[0]], Erase(legs[1..]), isBuy, statuses);
      assert legs == [legs[0]] + legs[1..];
      assert [legs[0]][..0] == [];
    }
  }

  lemma {:induction false} EraseKeepsDoubt(legs: seq<Leg>)
    ensures FirstDoubt(Erase(legs)) == FirstDoubt(legs)
  {
    if legs != [] {
      EraseKeepsDoubt(legs[1..]);
      assert ([legs[0]] + Erase(legs[1..]))[1..] == Erase(legs[1..]);
    }
  }

  lemma EraseKeepsClass(ordered: seq<Leg>)
    ensures Classify(Erase(ordered)) == Classify(ordered)
  {
    EraseKeepsTotals(ordered, true, REAL);
    EraseKeepsTotals(ordered, true, {Complete});
    EraseKeepsTotals(ordered, false, {Complete});
    EraseKeepsTotals(ordered, true, {Pending});
    EraseKeepsTotals(ordered, false, {Pending});
  }

  /** Main result. For a position opened by a BUY, dropping the failed legs changes nothing exactly when what remains is
      empty or still opens with a BUY. */
  lemma FailedLegsDoNotMatterExactly(legs: seq<Leg>)
    requires Opens(legs)
    ensures DeriveLifecycle(Erase(legs)) == DeriveLifecycle(legs) <==> Erase(legs) == [] || Opens(Erase(legs))
  {
    hide Total, Insert;
    EraseSorts(legs);
    EraseKeepsDoubt(ByTime(legs));
    EraseKeepsClass(ByTime(legs));
    NothingIsNoPosition();
    if Erase(legs) == [] {
      assert Erase(ByTime(legs)) == [];
    }
  }

  lemma NothingIsNoPosition()
    ensures Classify([]) == NoPosition && FirstDoubt([]) == None && SortDescending(Earliness, []) == []
  {
  }
}
