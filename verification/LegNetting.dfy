/** Grouping legs into baskets and netting opening against closing quantity
    (`domain/order_lifecycle.py`, `infrastructure/db/live_orders.py`). */
module LegNetting {
  import opened Numeric
  import opened Ranking
  import opened OrderLedger

  // ---------- grouping by a key ----------

  /** The keys in the order their first leg appears. */
  function FirstSeen(key: Leg -> string, legs: seq<Leg>): seq<string> {
    if legs == [] then []
    else
      var seen := FirstSeen(key, legs[..|legs| - 1]);
      var k := key(legs[|legs| - 1]);
      if k in seen then seen else seen + [k]
  }

  /** The legs with one key, in order. */
  function WithKey(key: Leg -> string, legs: seq<Leg>, k: string): seq<Leg> {
    if legs == [] then []
    else
      var leg := legs[|legs| - 1];
      WithKey(key, legs[..|legs| - 1], k) + (if key(leg) == k then [leg] else [])
  }

  ghost predicate Grouped(key: Leg -> string, legs: seq<Leg>, order: seq<string>, groups: map<string, seq<Leg>>) {
    && order == FirstSeen(key, legs)
    && (forall k :: k in groups <==> k in order)
    && (forall k :: (if k in groups then groups[k] else []) == WithKey(key, legs, k))
  }

  method Group(key: Leg -> string, legs: seq<Leg>) returns (order: seq<string>, groups: map<string, seq<Leg>>)
    ensures Grouped(key, legs, order, groups)
  {
    hide Grouped;
    order, groups := [], map[];
    NothingGrouped(key);
    for i := 0 to |legs|
      invariant Grouped(key, legs[..i], order, groups)
    {
      var k := key(legs[i]);
      assert legs[..i + 1] == legs[..i] + [legs[i]];
      LegJoins(key, legs[..i], order, groups, legs[i]);
      if k !in groups {
        order := order + [k];
        groups := groups[k := []];
        assert groups[k] + [legs[i]] == [legs[i]];
      }
      groups := groups[k := groups[k] + [legs[i]]];
    }
    assert legs[..|legs|] == legs;
  }

  lemma NothingGrouped(key: Leg -> string)
    ensures Grouped(key, [], [], map[])
  {
  }

  lemma KeyGrows(key: Leg -> string, legs: seq<Leg>, leg: Leg, k: string)
    ensures WithKey(key, legs + [leg], k) == WithKey(key, legs, k) + (if key(leg) == k then [leg] else [])
  {
    assert (legs + [leg])[..|legs|] == legs;
  }

  lemma SeenGrows(key: Leg -> string, legs: seq<Leg>, leg: Leg)
    ensures FirstSeen(key, legs + [leg])
         == FirstSeen(key, legs) + (if key(leg) in FirstSeen(key, legs) then [] else [key(leg)])
  {
    assert (legs + [leg])[..|legs|] == legs;
  }

  lemma LegJoins(key: Leg -> string, legs: seq<Leg>, order: seq<string>, groups: map<string, seq<Leg>>, leg: Leg)
    requires Grouped(key, legs, order, groups)
    ensures var k := key(leg);
            if k in groups then Grouped(key, legs + [leg], order, groups[k := groups[k] + [leg]])
            else Grouped(key, legs + [leg], order + [k], groups[k := []][k := [leg]])
  {
    hide WithKey, FirstSeen;
    var k := key(leg);
    SeenGrows(key, legs, leg);
    var known := if k in groups then groups[k] else [];
    var next := groups[k := known + [leg]];
    assert groups[k := []][k := [leg]] == groups[k := [leg]];
    forall other
      ensures (if other in next then next[other] else []) == WithKey(key, legs + [leg], other)
    {
      KeyGrows(key, legs, leg, other);
      assert (if other in groups then groups[other] else []) == WithKey(key, legs, other);
    }
  }

  datatype Basket = Basket(basketId: string, legs: seq<Leg>)

  const BASKET_ID := (leg: Leg) => leg.basketId
  const TRADINGSYMBOL := (leg: Leg) => leg.tradingsymbol
  const SYMBOL := (leg: Leg) => leg.symbol

  function Baskets(legs: seq<Leg>): (r: seq<Basket>)
    ensures |r| == |FirstSeen(BASKET_ID, legs)|
  {
    var order := FirstSeen(BASKET_ID, legs);
    seq(|order|, i requires 0 <= i < |order| => Basket(order[i], WithKey(BASKET_ID, legs, order[i])))
  }

  method GroupIntoBaskets(legs: seq<Leg>) returns (baskets: seq<Basket>)
    ensures baskets == Baskets(legs)
  {
    var order, groups := Group(BASKET_ID, legs);
    forall i | 0 <= i < |order|
      ensures order[i] in groups && groups[order[i]] == WithKey(BASKET_ID, legs, order[i])
    {
    }
    baskets := seq(|order|, i requires 0 <= i < |order| && order[i] in groups => Basket(order[i], groups[order[i]]));
  }

  predicate DistinctKeys(ks: seq<string>) {
    forall i, j :: 0 <= i < j < |ks| ==> ks[i] != ks[j]
  }

  lemma {:induction false} SeenOnce(key: Leg -> string, legs: seq<Leg>)
    ensures DistinctKeys(FirstSeen(key, legs))
  {
    if legs != [] {
      SeenOnce(key, legs[..|legs| - 1]);
    }
  }

  lemma {:induction false} SeenExactly(key: Leg -> string, legs: seq<Leg>, k: string)
    ensures k in FirstSeen(key, legs) <==> WithKey(key, legs, k) != []
  {
    if legs != [] {
      SeenExactly(key, legs[..|legs| - 1], k);
    }
  }

  lemma {:induction false} EveryLegSeen(key: Leg -> string, legs: seq<Leg>, leg: Leg)
    requires leg in legs
    ensures key(leg) in FirstSeen(key, legs)
  {
    if legs[|legs| - 1] != leg {
      EveryLegSeen(key, legs[..|legs| - 1], leg);
    }
  }

  lemma {:induction false} WithKeyMeaning(key: Leg -> string, legs: seq<Leg>, k: string, leg: Leg)
    ensures multiset(WithKey(key, legs, k))[leg] == if key(leg) == k then multiset(legs)[leg] else 0
  {
    if legs != [] {
      WithKeyMeaning(key, legs[..|legs| - 1], k, leg);
      assert legs == legs[..|legs| - 1] + [legs[|legs| - 1]];
    }
  }

  /** The legs of the baskets, one basket after the other. */
  function Flatten(baskets: seq<Basket>): seq<Leg> {
    if baskets == [] then [] else Flatten(baskets[..|baskets| - 1]) + baskets[|baskets| - 1].legs
  }

  ghost predicate Named(baskets: seq<Basket>, id: string) {
    exists i :: 0 <= i < |baskets| && baskets[i].basketId == id
  }

  lemma NamedStep(baskets: seq<Basket>, id: string)
    requires baskets != []
    ensures Named(baskets, id) <==> Named(baskets[..|baskets| - 1], id) || baskets[|baskets| - 1].basketId == id
  {
    if Named(baskets[..|baskets| - 1], id) {
      var i :| 0 <= i < |baskets| - 1 && baskets[..|baskets| - 1][i].basketId == id;
      assert baskets[i].basketId == id;
    }
    if Named(baskets, id) && baskets[|baskets| - 1].basketId != id {
      var i :| 0 <= i < |baskets| && baskets[i].basketId == id;
      assert baskets[..|baskets| - 1][i].basketId == id;
    }
  }

  lemma {:induction false} FlattenCounts(legs: seq<Leg>, baskets: seq<Basket>, leg: Leg)
    requires forall i :: 0 <= i < |baskets| ==> baskets[i].legs == WithKey(BASKET_ID, legs, baskets[i].basketId)
    requires forall i, j :: 0 <= i < j < |baskets| ==> baskets[i].basketId != baskets[j].basketId
    ensures multiset(Flatten(baskets))[leg] == if Named(baskets, leg.basketId) then multiset(legs)[leg] else 0
  {
    hide WithKey;
    if baskets != [] {
      var before := baskets[..|baskets| - 1];
      var last := baskets[|baskets| - 1];
      FlattenCounts(legs, before, leg);
      WithKeyMeaning(BASKET_ID, legs, last.basketId, leg);
      NamedStep(baskets, leg.basketId);
      assert last.basketId == leg.basketId ==> !Named(before, leg.basketId);
    }
  }

  /** Main result. Every leg lands in exactly one basket, no basket is empty or repeated, and each keeps the legs'
      order. */
  lemma BasketsPartition(legs: seq<Leg>)
    ensures multiset(Flatten(Baskets(legs))) == multiset(legs)
    ensures forall i, j :: 0 <= i < j < |Baskets(legs)| ==> Baskets(legs)[i].basketId != Baskets(legs)[j].basketId
    ensures forall i :: 0 <= i < |Baskets(legs)| ==> Baskets(legs)[i].legs != []
  {
    hide Flatten, WithKey;
    SeenOnce(BASKET_ID, legs);
    var order := FirstSeen(BASKET_ID, legs);
    forall leg
      ensures multiset(Flatten(Baskets(legs)))[leg] == multiset(legs)[leg]
    {
      FlattenCounts(legs, Baskets(legs), leg);
      if leg in legs {
        EveryLegSeen(BASKET_ID, legs, leg);
        var i :| 0 <= i < |order| && order[i] == leg.basketId;
        assert Baskets(legs)[i].basketId == leg.basketId;
      }
    }
    forall i | 0 <= i < |order|
      ensures Baskets(legs)[i].legs != []
    {
      SeenExactly(BASKET_ID, legs, order[i]);
    }
  }

  lemma {:induction false} WithKeyKeepsOrder(key: Leg -> string, xs: seq<Leg>, ys: seq<Leg>, k: string)
    ensures WithKey(key, xs + ys, k) == WithKey(key, xs, k) + WithKey(key, ys, k)
  {
    if ys == [] {
      assert xs + ys == xs;
    } else {
      WithKeyKeepsOrder(key, xs, ys[..|ys| - 1], k);
      assert (xs + ys)[..|xs + ys| - 1] == xs + ys[..|ys| - 1];
    }
  }

  // ---------- the outcome of one basket ----------

  /** The position of the last leg that is not a failure, or -1; undocumented statuses met on the way raise. */
  function LastReal(legs: seq<Leg>): (r: Result<int>)
    ensures r.Ok? ==> -1 <= r.value < |legs|
  {
    if legs == [] then Ok(-1)
    else if legs[|legs| - 1].status.Other? then Err(InvalidStatus)
    else if !legs[|legs| - 1].status.IsTerminalFailure() then Ok(|legs| - 1)
    else LastReal(legs[..|legs| - 1])
  }

  method Outcome(legs: seq<Leg>) returns (r: Result<Status>)
    requires legs != []
    ensures r == match LastReal(legs)
                 case Err(e) => Err(e)
                 case Ok(i) => Ok(legs[if i < 0 then |legs| - 1 else i].status)
  {
    var i := |legs|;
    assert legs[..i] == legs;
    while i > 0
      invariant 0 <= i <= |legs|
      invariant LastReal(legs) == LastReal(legs[..i])
    {
      i := i - 1;
      assert legs[..i + 1][..i] == legs[..i];
      if legs[i].status.Other? {
        return Err(InvalidStatus);
      }
      if !legs[i].status.IsTerminalFailure() {
        return Ok(legs[i].status);
      }
    }
    return Ok(legs[|legs| - 1].status);
  }

  /** A basket reports a failure exactly when every attempt failed, and otherwise the last attempt that did not. */
  lemma {:induction false} LastRealMeaning(legs: seq<Leg>, i: nat)
    requires Documented(legs) && i < |legs|
    ensures LastReal(legs) == Ok(i) <==> !legs[i].status.IsTerminalFailure()
                                         && forall j :: i < j < |legs| ==> legs[j].status.IsTerminalFailure()
    ensures LastReal(legs) == Ok(-1) <==> forall j :: 0 <= j < |legs| ==> legs[j].status.IsTerminalFailure()
  {
    var n := |legs| - 1;
    if legs[n].status.IsTerminalFailure() {
      if n == 0 {
        assert LastReal(legs[..0]) == Ok(-1);
      } else {
        LastRealMeaning(legs[..n], if i < n then i else 0);
      }
    }
  }

  // ---------- first-in-first-out netting ----------

  function Remainder(leg: Leg, quantity: int, adjust: bool): (r: Leg)
    requires quantity > 0
    ensures r.(quantity := leg.quantity) == leg && (adjust ==> r.quantity == quantity) && (!adjust ==> r == leg)
  {
    if adjust then leg.(quantity := quantity) else leg
  }

  /** The opening legs `toClose` does not cover, the first of them possibly in part. */
  function NetOpeners(openers: seq<Leg>, toClose: nat, adjust: bool): seq<Leg> {
    if openers == [] then []
    else if toClose >= openers[0].quantity then NetOpeners(openers[1..], toClose - openers[0].quantity, adjust)
    else [Remainder(openers[0], openers[0].quantity - toClose, adjust)] + NetOpeners(openers[1..], 0, adjust)
  }

  function Openers(legs: seq<Leg>, isBuy: bool, statuses: set<Status>): (r: seq<Leg>)
    ensures QuantityOf(r) == Total(legs, isBuy, statuses)
  {
    if legs == [] then []
    else
      var leg := legs[|legs| - 1];
      var earlier := Openers(legs[..|legs| - 1], isBuy, statuses);
      if leg.isBuy == isBuy && leg.status in statuses then earlier + [leg] else earlier
  }

  function QuantityOf(legs: seq<Leg>): nat {
    if legs == [] then 0 else QuantityOf(legs[..|legs| - 1]) + legs[|legs| - 1].quantity
  }

  /** The netting of one tradingsymbol's legs; whichever side came first opens. */
  function NetOneSymbol(legs: seq<Leg>, openerStatuses: set<Status>, adjust: bool): seq<Leg>
    requires legs != []
  {
    var ordered := ByTime(legs);
    var side := ordered[0].isBuy;
    NetOpeners(Openers(ordered, side, openerStatuses), Total(ordered, !side, {Complete}), adjust)
  }

  lemma {:induction false} QuantityOfParts(xs: seq<Leg>, ys: seq<Leg>)
    ensures QuantityOf(xs + ys) == QuantityOf(xs) + QuantityOf(ys)
  {
    if ys == [] {
      assert xs + ys == xs;
    } else {
      QuantityOfParts(xs, ys[..|ys| - 1]);
      assert (xs + ys)[..|xs + ys| - 1] == xs + ys[..|ys| - 1];
    }
  }

  lemma QuantityOfOne(leg: Leg)
    ensures QuantityOf([leg]) == leg.quantity
  {
    assert [leg][..0] == [];
  }

  /** Main result. With partial quantities adjusted, what stays open is exactly what was opened less what was closed,
      and nothing stays open exactly when the closing quantity covers it. */
  lemma {:induction false} NettingConserves(openers: seq<Leg>, toClose: nat)
    ensures QuantityOf(NetOpeners(openers, toClose, true))
         == if QuantityOf(openers) > toClose then QuantityOf(openers) - toClose else 0
  {
    if openers != [] {
      var first := openers[0];
      assert openers == [first] + openers[1..];
      QuantityOfParts([first], openers[1..]);
      QuantityOfOne(first);
      if toClose >= first.quantity {
        NettingConserves(openers[1..], toClose - first.quantity);
      } else {
        NettingConserves(openers[1..], 0);
        var rest := Remainder(first, first.quantity - toClose, true);
        QuantityOfParts([rest], NetOpeners(openers[1..], 0, true));
        QuantityOfOne(rest);
      }
    }
  }

  lemma {:induction false} NetEmptyExactly(openers: seq<Leg>, toClose: nat, adjust: bool)
    ensures NetOpeners(openers, toClose, adjust) == [] <==> QuantityOf(openers) <= toClose
  {
    if openers != [] {
      assert openers == [openers[0]] + openers[1..];
      QuantityOfParts([openers[0]], openers[1..]);
      QuantityOfOne(openers[0]);
      if toClose >= openers[0].quantity {
        NetEmptyExactly(openers[1..], toClose - openers[0].quantity, adjust);
      }
    }
  }

  /** The opening legs that are covered in full. */
  function Covered(openers: seq<Leg>, toClose: nat): (r: nat)
    ensures r <= |openers|
  {
    if openers == [] || toClose < openers[0].quantity then 0
    else 1 + Covered(openers[1..], toClose - openers[0].quantity)
  }

  lemma {:induction false} NothingToClose(openers: seq<Leg>)
    ensures NetOpeners(openers, 0, false) == openers
  {
    if openers != [] {
      NothingToClose(openers[1..]);
    }
  }

  /** Main result. Without adjustment the open legs are the last ones, from the first that is not covered in full. */
  lemma {:induction false} NetIsSuffix(openers: seq<Leg>, toClose: nat)
    ensures NetOpeners(openers, toClose, false) == openers[Covered(openers, toClose)..]
  {
    if openers != [] {
      if toClose >= openers[0].quantity {
        NetIsSuffix(openers[1..], toClose - openers[0].quantity);
      } else {
        NothingToClose(openers[1..]);
      }
    }
  }

  lemma {:induction false} CoveredIsCovered(openers: seq<Leg>, toClose: nat, k: nat)
    requires k <= |openers|
    ensures k <= Covered(openers, toClose) <==> QuantityOf(openers[..k]) <= toClose
  {
    if k > 0 {
      var first := openers[0];
      assert openers[..k] == [first] + openers[1..][..k - 1];
      QuantityOfParts([first], openers[1..][..k - 1]);
      QuantityOfOne(first);
      if toClose >= first.quantity {
        CoveredIsCovered(openers[1..], toClose - first.quantity, k - 1);
      }
    }
  }

  /** An exit sells the whole quantity of the first open leg. Once that sale completes the leg is gone from the list,
      and the sale exceeds what was open exactly when more of the leg was already closed than later legs hold. */
  lemma ExitOfFirstOpenLeg(openers: seq<Leg>, closed: nat)
    requires Covered(openers, closed) < |openers|
    ensures var k := Covered(openers, closed);
            && Covered(openers, closed + openers[k].quantity) > k
            && (openers[k].quantity > QuantityOf(openers) - closed
                <==> closed - QuantityOf(openers[..k]) > QuantityOf(openers[k + 1..]))
  {
    hide Covered, QuantityOf;
    var k := Covered(openers, closed);
    CoveredIsCovered(openers, closed, k);
    CoveredIsCovered(openers, closed + openers[k].quantity, k + 1);
    assert openers[..k + 1] == openers[..k] + [openers[k]];
    assert openers == openers[..k + 1] + openers[k + 1..];
    QuantityOfParts(openers[..k], [openers[k]]);
    QuantityOfOne(openers[k]);
    QuantityOfParts(openers[..k + 1], openers[k + 1..]);
  }

  /** The loop that consumes the closed quantity. */
  method NetInOrder(openers: seq<Leg>, closedQuantity: nat, adjust: bool) returns (unclosed: seq<Leg>)
    ensures unclosed == NetOpeners(openers, closedQuantity, adjust)
  {
    hide NetOpeners, Remainder;
    unclosed := [];
    var remainingToClose := closedQuantity;
    for i := 0 to |openers|
      invariant remainingToClose >= 0
      invariant NetOpeners(openers, closedQuantity, adjust)
           == unclosed + NetOpeners(openers[i..], remainingToClose, adjust)
    {
      var leg := openers[i];
      NetNext(openers, i, remainingToClose, adjust);
      if remainingToClose >= leg.quantity {
        remainingToClose := remainingToClose - leg.quantity;
      } else {
        unclosed := unclosed + [Remainder(leg, leg.quantity - remainingToClose, adjust)];
        remainingToClose := 0;
      }
    }
    NetNothing(openers[|openers|..], remainingToClose, adjust);
  }

  lemma NetNext(openers: seq<Leg>, i: nat, toClose: nat, adjust: bool)
    requires i < |openers|
    ensures NetOpeners(openers[i..], toClose, adjust)
         == if toClose >= openers[i].quantity then NetOpeners(openers[i + 1..], toClose - openers[i].quantity, adjust)
            else
              [Remainder(openers[i], openers[i].quantity - toClose, adjust)] + NetOpeners(openers[i + 1..], 0, adjust)
  {
    assert openers[i..][1..] == openers[i + 1..];
  }

  lemma NetNothing(openers: seq<Leg>, toClose: nat, adjust: bool)
    requires openers == []
    ensures NetOpeners(openers, toClose, adjust) == []
  {
  }

  /** The open legs of every tradingsymbol, in order of first appearance. */
  function NetUnclosed(legs: seq<Leg>, symbols: seq<string>, openerStatuses: set<Status>, adjust: bool): seq<Leg> {
    if symbols == [] then []
    else
      var own := WithKey(TRADINGSYMBOL, legs, symbols[|symbols| - 1]);
      NetUnclosed(legs, symbols[..|symbols| - 1], openerStatuses, adjust)
      + (if own == [] then [] else NetOneSymbol(own, openerStatuses, adjust))
  }

  method NetSymbolLegs(legs: seq<Leg>, openerStatuses: set<Status>, adjust: bool) returns (unclosed: seq<Leg>)
    requires legs != []
    ensures unclosed == NetOneSymbol(legs, openerStatuses, adjust)
  {
    hide Total, Openers, NetOpeners, ByTime;
    var ordered := ByTime(legs);
    var side := ordered[0].isBuy;
    unclosed := NetInOrder(Openers(ordered, side, openerStatuses), Total(ordered, !side, {Complete}), adjust);
  }

  method NetUnclosedLegs(legs: seq<Leg>, openerStatuses: set<Status>, adjust: bool) returns (unclosed: seq<Leg>)
    ensures unclosed == NetUnclosed(legs, FirstSeen(TRADINGSYMBOL, legs), openerStatuses, adjust)
  {
    hide NetOneSymbol, WithKey, FirstSeen;
    var order, groups := Group(TRADINGSYMBOL, legs);
    unclosed := [];
    for i := 0 to |order|
      invariant unclosed == NetUnclosed(legs, order[..i], openerStatuses, adjust)
    {
      assert order[..i + 1][..i] == order[..i];
      SeenExactly(TRADINGSYMBOL, legs, order[i]);
      var net := NetSymbolLegs(groups[order[i]], openerStatuses, adjust);
      unclosed := unclosed + net;
    }
    assert order[..|order|] == order;
  }

  /** A symbol has an open leg exactly when its opening quantity exceeds its completed closing quantity. */
  lemma OpenExactly(legs: seq<Leg>, statuses: set<Status>, adjust: bool)
    requires legs != []
    ensures NetOneSymbol(legs, statuses, adjust) != []
       <==> Total(legs, ByTime(legs)[0].isBuy, statuses) > Total(legs, !ByTime(legs)[0].isBuy, {Complete})
  {
    var ordered := ByTime(legs);
    var side := ordered[0].isBuy;
    TotalIgnoresOrder(ordered, legs, side, statuses);
    TotalIgnoresOrder(ordered, legs, !side, {Complete});
    NetEmptyExactly(Openers(ordered, side, statuses), Total(ordered, !side, {Complete}), adjust);
  }

  // ---------- the two readings of one ledger ----------

  /** Main result. The lifecycle calls a position active exactly when netting completed fills leaves an open leg. */
  lemma LifecycleAgreesWithNetting(legs: seq<Leg>)
    requires Opens(legs) && Documented(legs) && !HasStatus(legs, Unknown)
    ensures DeriveLifecycle(legs) in {Ok(Active), Ok(ExitPending)} <==> NetOneSymbol(legs, {Complete}, false) != []
  {
    LifecycleMeaning(legs);
    OpenExactly(legs, {Complete}, false);
  }

  lemma {:induction false} RealIsCompleteAndPending(legs: seq<Leg>)
    requires !HasStatus(legs, Unknown)
    ensures Total(legs, true, REAL) == Total(legs, true, {Complete}) + Total(legs, true, {Pending})
  {
    if legs != [] {
      var before := legs[..|legs| - 1];
      assert legs[|legs| - 1].status != Unknown;
      assert forall i :: 0 <= i < |before| ==> before[i] == legs[i];
      RealIsCompleteAndPending(before);
    }
  }

  /** Main result. The broad set of unclosed legs is empty just when the lifecycle calls the position absent or closed,
      except in one case, exactly: an entry is in flight and no larger than what was sold beyond what was bought. */
  lemma UnclosedAgreesExactly(legs: seq<Leg>)
    requires Opens(legs) && Documented(legs) && !HasStatus(legs, Unknown)
    ensures (NetOneSymbol(legs, REAL, false) == [] <==> DeriveLifecycle(legs) in {Ok(NoPosition), Ok(Closed)})
       <==> !(0 < Total(legs, true, {Pending}) <= -NetComplete(legs))
  {
    hide NetOneSymbol, DeriveLifecycle, Total;
    LifecycleMeaning(legs);
    OpenExactly(legs, REAL, false);
    RealIsCompleteAndPending(legs);
  }

  /** Such a ledger: five bought, eight sold, two more on their way. */
  lemma OversoldHidesAnEntry()
    ensures var leg := Leg("b", "X", Cash, "X", true, 5, "1", Complete, 1, None, "i");
            var legs := [leg, leg.(isBuy := false, quantity := 8, placedAt := 2),
                         leg.(quantity := 2, status := Pending, placedAt := 3)];
            DeriveLifecycle(legs) == Ok(Opening) && NetOneSymbol(legs, REAL, false) == []
  {
    var leg := Leg("b", "X", Cash, "X", true, 5, "1", Complete, 1, None, "i");
    var sell := leg.(isBuy := false, quantity := 8, placedAt := 2);
    var pending := leg.(quantity := 2, status := Pending, placedAt := 3);
    var legs := [leg, sell, pending];
    SortedAlready(leg, sell, pending);
    TotalOfThree(leg, sell, pending, true, REAL);
    TotalOfThree(leg, sell, pending, true, {Complete});
    TotalOfThree(leg, sell, pending, false, {Complete});
    TotalOfThree(leg, sell, pending, true, {Pending});
    hide Total, ByTime, NetOneSymbol, DeriveLifecycle;
    assert Opens(legs) && Documented(legs) && !HasStatus(legs, Unknown);
    LifecycleMeaning(legs);
    OpenExactly(legs, REAL, false);
  }

  lemma TotalOfThree(x: Leg, y: Leg, z: Leg, isBuy: bool, statuses: set<Status>)
    ensures Total([x, y, z], isBuy, statuses)
         == (if x.isBuy == isBuy && x.status in statuses then x.quantity else 0)
            + (if y.isBuy == isBuy && y.status in statuses then y.quantity else 0)
            + (if z.isBuy == isBuy && z.status in statuses then z.quantity else 0)
  {
    assert [x, y, z][..2] == [x, y] && [x, y][..1] == [x] && [x][..0] == [];
    assert Total([x], isBuy, statuses)
         == Total([x][..0], isBuy, statuses) + (if x.isBuy == isBuy && x.status in statuses then x.quantity else 0);
    assert Total([x, y], isBuy, statuses)
         == Total([x], isBuy, statuses) + (if y.isBuy == isBuy && y.status in statuses then y.quantity else 0);
  }

  lemma SortedAlready(x: Leg, y: Leg, z: Leg)
    requires x.placedAt < y.placedAt < z.placedAt
    ensures ByTime([x, y, z]) == [x, y, z]
  {
    assert [x, y, z][1..] == [y, z] && [y, z][1..] == [z] && [z][1..] == [];
    assert SortDescending(Earliness, [z]) == Insert(Earliness, z, []) == [z];
    assert SortDescending(Earliness, [y, z]) == Insert(Earliness, y, [z]) == [y, z];
    assert SortDescending(Earliness, [x, y, z]) == Insert(Earliness, x, [y, z]) == [x, y, z];
  }

  /** An `Unknown` leg is never resolved by recording more legs: the answer stays with the whole history. */
  lemma UnknownLegNeverResolves(legs: seq<Leg>, more: seq<Leg>)
    requires HasStatus(legs, Unknown) && Opens(legs + more) && Documented(legs + more)
    ensures DeriveLifecycle(legs + more) == Ok(ReconciliationRequired)
  {
    var i :| 0 <= i < |legs| && legs[i].status == Unknown;
    assert (legs + more)[i].status == Unknown;
    LifecycleMeaning(legs + more);
  }
}
