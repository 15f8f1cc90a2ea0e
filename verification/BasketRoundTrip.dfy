/** Whether a completed exit undoes a completed entry of `BasketExecution`. The exit acts on what the ledger nets to,
    so the answer depends on the earlier legs of the same contract. */
module BasketRoundTrip {
  import opened Numeric
  import opened OrderLedger
  import opened LegNetting
  import opened BasketExecution

  // ---------- filters keep the time order ----------

  lemma {:induction false} WithKeyInTime(key: Leg -> string, legs: seq<Leg>, k: string)
    requires InTime(legs)
    ensures InTime(WithKey(key, legs, k))
    ensures forall i :: 0 <= i < |WithKey(key, legs, k)|
              ==> WithKey(key, legs, k)[i] in legs && key(WithKey(key, legs, k)[i]) == k
  {
    if legs != [] {
      WithKeyInTime(key, legs[..|legs| - 1], k);
    }
  }

  lemma {:induction false} OfPurposeInTime(ledger: seq<Leg>, purpose: Purpose)
    requires InTime(ledger)
    ensures InTime(OfPurpose(ledger, purpose))
    ensures forall i :: 0 <= i < |OfPurpose(ledger, purpose)| ==> OfPurpose(ledger, purpose)[i] in ledger
  {
    if ledger != [] {
      OfPurposeInTime(ledger[..|ledger| - 1], purpose);
    }
  }

  lemma NextIsLater(ledger: seq<Leg>, leg: Leg)
    requires InTime(ledger) && leg.placedAt >= NextTime(ledger)
    ensures InTime(ledger + [leg])
  {
  }

  // ---------- one contract among the netted ones ----------

  function OwnNet(legs: seq<Leg>, contract: string, adjust: bool): seq<Leg> {
    var own := WithKey(TRADINGSYMBOL, legs, contract);
    if own == [] then [] else NetOneSymbol(own, REAL, adjust)
  }

  lemma {:induction false} NetIsEmptyExactly(legs: seq<Leg>, symbols: seq<string>, adjust: bool)
    ensures NetUnclosed(legs, symbols, REAL, adjust) == []
       <==> forall i :: 0 <= i < |symbols| ==> OwnNet(legs, symbols[i], adjust) == []
  {
    hide NetOneSymbol, WithKey;
    if symbols != [] {
      NetIsEmptyExactly(legs, symbols[..|symbols| - 1], adjust);
      assert NetUnclosed(legs, symbols, REAL, adjust)
          == NetUnclosed(legs, symbols[..|symbols| - 1], REAL, adjust) + OwnNet(legs, symbols[|symbols| - 1], adjust);
    }
  }

  /** When every other contract nets to nothing, the open legs are those of the one contract. */
  lemma {:induction false} NetOfOneContract(legs: seq<Leg>, symbols: seq<string>, contract: string)
    requires DistinctKeys(symbols) && contract in symbols
    requires forall i :: 0 <= i < |symbols| && symbols[i] != contract ==> OwnNet(legs, symbols[i], true) == []
    ensures NetUnclosed(legs, symbols, REAL, true) == OwnNet(legs, contract, true)
  {
    hide NetOneSymbol, WithKey;
    var before := symbols[..|symbols| - 1];
    var last := symbols[|symbols| - 1];
    assert NetUnclosed(legs, symbols, REAL, true) == NetUnclosed(legs, before, REAL, true) + OwnNet(legs, last, true);
    if last == contract {
      NetIsEmptyExactly(legs, before, true);
    } else {
      NetOfOneContract(legs, before, contract);
    }
  }

  /** No other contract of the symbol has anything open. */
  ghost predicate OthersClosed(legs: seq<Leg>, contract: string) {
    forall other :: other != contract ==> OwnNet(legs, other, true) == []
  }

  lemma OthersStayClosed(legs: seq<Leg>, leg: Leg)
    requires OthersClosed(legs, leg.tradingsymbol)
    ensures OthersClosed(legs + [leg], leg.tradingsymbol)
  {
    hide WithKey, NetOneSymbol;
    forall other | other != leg.tradingsymbol
      ensures OwnNet(legs + [leg], other, true) == []
    {
      KeyGrows(TRADINGSYMBOL, legs, leg, other);
      assert WithKey(TRADINGSYMBOL, legs + [leg], other) == WithKey(TRADINGSYMBOL, legs, other);
      assert OwnNet(legs, other, true) == [];
    }
  }

  lemma OpenIsOwnNet(legs: seq<Leg>, contract: string)
    requires OthersClosed(legs, contract) && WithKey(TRADINGSYMBOL, legs, contract) != []
    ensures NetUnclosed(legs, FirstSeen(TRADINGSYMBOL, legs), REAL, true)
         == NetOneSymbol(WithKey(TRADINGSYMBOL, legs, contract), REAL, true)
  {
    hide NetOneSymbol, WithKey, FirstSeen, NetUnclosed;
    SeenOnce(TRADINGSYMBOL, legs);
    SeenExactly(TRADINGSYMBOL, legs, contract);
    NetOfOneContract(legs, FirstSeen(TRADINGSYMBOL, legs), contract);
  }

  /** Nothing open for the symbol means nothing open for any of its contracts. */
  lemma NothingOpenAnywhere(legs: seq<Leg>, contract: string)
    requires NetUnclosed(legs, FirstSeen(TRADINGSYMBOL, legs), REAL, true) == []
    ensures OwnNet(legs, contract, true) == []
  {
    NetIsEmptyExactly(legs, FirstSeen(TRADINGSYMBOL, legs), true);
    SeenExactly(TRADINGSYMBOL, legs, contract);
  }

  // ---------- netting one contract ----------

  /** A contract's earlier legs in time order, and one more. */
  lemma {:induction false} OneMoreOpener(openers: seq<Leg>, leg: Leg, toClose: nat)
    requires QuantityOf(openers) <= toClose
    ensures NetOpeners(openers + [leg], toClose, true)
         == if toClose - QuantityOf(openers) >= leg.quantity then []
            else [leg.(quantity := leg.quantity - (toClose - QuantityOf(openers)))]
  {
    if openers == [] {
      assert openers + [leg] == [leg] && [leg][1..] == [];
    } else {
      var first := openers[0];
      assert openers == [first] + openers[1..];
      QuantityOfParts([first], openers[1..]);
      QuantityOfOne(first);
      assert (openers + [leg])[1..] == openers[1..] + [leg];
      OneMoreOpener(openers[1..], leg, toClose - first.quantity);
    }
  }

  /** The side a contract opens on, its earlier opening quantity and its earlier completed closing quantity. */
  function OpensOn(own: seq<Leg>, fallback: bool): bool {
    if own == [] then fallback else own[0].isBuy
  }

  function Surplus(own: seq<Leg>, isBuy: bool): int {
    Total(own, !isBuy, {Complete}) - Total(own, isBuy, REAL)
  }

  lemma ClosedMeansSurplus(own: seq<Leg>, fallback: bool)
    requires InTime(own) && (own != [] ==> NetOneSymbol(own, REAL, true) == [])
    ensures Surplus(own, OpensOn(own, fallback)) >= 0
  {
    if own != [] {
      InTimeIsSorted(own);
      NetEmptyExactly(Openers(own, own[0].isBuy, REAL), Total(own, !own[0].isBuy, {Complete}), true);
    }
  }

  /** On legs in time order the netting needs no sorting. */
  lemma NetInTime(own: seq<Leg>)
    requires InTime(own) && own != []
    ensures NetOneSymbol(own, REAL, true)
         == NetOpeners(Openers(own, own[0].isBuy, REAL), Total(own, !own[0].isBuy, {Complete}), true)
  {
    InTimeIsSorted(own);
  }

  lemma OpenersGrow(own: seq<Leg>, leg: Leg, isBuy: bool)
    ensures Openers(own + [leg], isBuy, REAL)
         == Openers(own, isBuy, REAL) + (if leg.isBuy == isBuy && leg.status in REAL then [leg] else [])
    ensures Total(own + [leg], isBuy, {Complete})
         == Total(own, isBuy, {Complete}) + (if leg.isBuy == isBuy && leg.status == Complete then leg.quantity else 0)
  {
    assert (own + [leg])[..|own|] == own;
  }

  lemma FrontInTime(own: seq<Leg>, leg: Leg)
    requires InTime(own + [leg])
    ensures InTime(own)
  {
    assert forall i :: 0 <= i < |own| ==> (own + [leg])[i] == own[i];
  }

  /** What a contract nets to after one completed trade when nothing was open before. */
  lemma NetAfterTrade(own: seq<Leg>, leg: Leg)
    requires InTime(own + [leg]) && leg.status == Complete
    requires own != [] ==> NetOneSymbol(own, REAL, true) == []
    ensures NetOneSymbol(own + [leg], REAL, true)
         == if OpensOn(own, leg.isBuy) != leg.isBuy || Surplus(own, leg.isBuy) >= leg.quantity then []
            else [leg.(quantity := leg.quantity - Surplus(own, leg.isBuy))]
  {
    hide InTime, NetOneSymbol, NetOpeners, Openers, Total, QuantityOf;
    var side := OpensOn(own, leg.isBuy);
    FrontInTime(own, leg);
    ClosedMeansSurplus(own, leg.isBuy);
    NetInTime(own + [leg]);
    OpenersGrow(own, leg, side);
    OpenersGrow(own, leg, !side);
    if side == leg.isBuy {
      assert Openers(own + [leg], side, REAL) == Openers(own, side, REAL) + [leg];
      OneMoreOpener(Openers(own, side, REAL), leg, Total(own, !side, {Complete}));
    } else {
      assert Openers(own + [leg], side, REAL) == Openers(own, side, REAL);
      NetEmptyExactly(Openers(own, side, REAL), Total(own, !side, {Complete}) + leg.quantity, true);
    }
  }

  /** A trade on the closing side that did not complete counts for nothing. */
  lemma FailedCloseIgnored(own: seq<Leg>, leg: Leg)
    requires InTime(own + [leg]) && own != [] && own[0].isBuy != leg.isBuy && leg.status != Complete
    ensures NetOneSymbol(own + [leg], REAL, true) == NetOneSymbol(own, REAL, true)
  {
    hide InTime, NetOneSymbol, NetOpeners, Openers, Total;
    FrontInTime(own, leg);
    NetInTime(own);
    NetInTime(own + [leg]);
    OpenersGrow(own, leg, own[0].isBuy);
    OpenersGrow(own, leg, !own[0].isBuy);
    assert Openers(own + [leg], own[0].isBuy, REAL) == Openers(own, own[0].isBuy, REAL);
  }

  // ---------- the ledger after an entry ----------

  /** A completed entry of a fresh basket on a ledger kept in time order, with nothing open for the symbol. */
  ghost predicate CleanEntry(a: Account, plan: Plan, fills: EntryFills) {
    && HonestEntry(plan, fills) && plan.option != plan.future
    && fills.option.status == Complete && fills.future.status == Complete
    && InTime(a.ledger)
    && (forall i :: 0 <= i < |a.ledger| ==> a.ledger[i].basketId != plan.basketId)
    && OpenPrimary(a.ledger, plan.symbol) == []
  }

  /** The first basket of an empty account that fills in full is one. */
  lemma FirstEntryIsClean(plan: Plan, price: Option<real>)
    requires plan.option != plan.future
    ensures var full, none := Fill(Complete, plan.quantity, price), Fill(Cancelled, 0, None);
            CleanEntry(Account(map[], []), plan, EntryFills(full, none, full, none, none))
  {
    assert OfPurpose([], Primary) == [];
  }

  /** The contract's earlier legs. */
  function Earlier(a: Account, plan: Plan): seq<Leg> {
    WithKey(TRADINGSYMBOL, PrimaryLegs(a.ledger, plan.symbol), plan.future)
  }

  function HedgeLeg(a: Account, plan: Plan, fills: EntryFills): Leg {
    Row(a.ledger, plan.basketId, plan.symbol, Hedge, plan.option, true, plan.quantity, fills.option)
  }

  function FutureLeg(a: Account, plan: Plan, fills: EntryFills): Leg {
    Row(a.ledger + [HedgeLeg(a, plan, fills)], plan.basketId, plan.symbol, Primary, plan.future, plan.side == Long,
        plan.quantity, fills.future)
  }

  lemma EntryLedger(a: Account, plan: Plan, fills: EntryFills)
    requires CleanEntry(a, plan, fills)
    ensures var end := Last(EntryTrace(a, plan, fills));
            && end.ledger == a.ledger + [HedgeLeg(a, plan, fills)] + [FutureLeg(a, plan, fills)]
            && InTime(end.ledger)
            && Net(end.positions, plan.option) == Net(a.positions, plan.option) + plan.quantity
            && Net(end.positions, plan.future)
               == Net(a.positions, plan.future)
                   + (if plan.side == Long then plan.quantity as int else -(plan.quantity as int))
  {
    hide OpenPrimary;
    NextIsLater(a.ledger, HedgeLeg(a, plan, fills));
    NextIsLater(a.ledger + [HedgeLeg(a, plan, fills)], FutureLeg(a, plan, fills));
  }

  /** Adding a hedge leg changes no primary list; adding a primary leg of the symbol extends it. */
  lemma PrimaryGrows(ledger: seq<Leg>, leg: Leg, symbol: string)
    ensures PrimaryLegs(ledger + [leg], symbol)
         == PrimaryLegs(ledger, symbol) + (if leg.purpose == Primary && leg.symbol == symbol then [leg] else [])
  {
    hide WithKey;
    assert (ledger + [leg])[..|ledger|] == ledger;
    var before := OfPurpose(ledger, Primary);
    if leg.purpose == Primary {
      assert OfPurpose(ledger + [leg], Primary) == before + [leg];
      KeyGrows(SYMBOL, before, leg, symbol);
    } else {
      assert OfPurpose(ledger + [leg], Primary) == before;
    }
  }

  lemma ContractInTime(ledger: seq<Leg>, symbol: string, contract: string)
    requires InTime(ledger)
    ensures InTime(WithKey(TRADINGSYMBOL, PrimaryLegs(ledger, symbol), contract))
  {
    OfPurposeInTime(ledger, Primary);
    WithKeyInTime(SYMBOL, OfPurpose(ledger, Primary), symbol);
    WithKeyInTime(TRADINGSYMBOL, PrimaryLegs(ledger, symbol), contract);
  }

  /** After a clean entry, the symbol's open legs are what the one contract nets to, and no other contract is open. */
  lemma OpenAfterEntry(a: Account, plan: Plan, fills: EntryFills)
    requires CleanEntry(a, plan, fills)
    ensures var end := Last(EntryTrace(a, plan, fills));
            var leg := FutureLeg(a, plan, fills);
            && WithKey(TRADINGSYMBOL, PrimaryLegs(end.ledger, plan.symbol), plan.future) == Earlier(a, plan) + [leg]
            && InTime(Earlier(a, plan) + [leg])
            && OthersClosed(PrimaryLegs(end.ledger, plan.symbol), plan.future)
            && OpenPrimary(end.ledger, plan.symbol) == NetOneSymbol(Earlier(a, plan) + [leg], REAL, true)
  {
    hide NetOneSymbol, NetUnclosed, WithKey, FirstSeen, OfPurpose, EntryTrace;
    EntryLedger(a, plan, fills);
    var end := Last(EntryTrace(a, plan, fills));
    var leg := FutureLeg(a, plan, fills);
    var legs := PrimaryLegs(a.ledger, plan.symbol);
    PrimaryGrows(a.ledger, HedgeLeg(a, plan, fills), plan.symbol);
    PrimaryGrows(a.ledger + [HedgeLeg(a, plan, fills)], leg, plan.symbol);
    assert PrimaryLegs(end.ledger, plan.symbol) == legs + [leg];
    KeyGrows(TRADINGSYMBOL, legs, leg, plan.future);
    ContractInTime(end.ledger, plan.symbol, plan.future);
    forall other | other != plan.future
      ensures OwnNet(legs, other, true) == []
    {
      NothingOpenAnywhere(legs, other);
    }
    OthersStayClosed(legs, leg);
    OpenIsOwnNet(legs + [leg], plan.future);
  }

  // ---------- the round trip ----------

  /** The contract's earlier legs opened on the same side and were closed by exactly what they opened; or there are
      none. */
  predicate Settled(own: seq<Leg>, isBuy: bool) {
    OpensOn(own, isBuy) == isBuy && Surplus(own, isBuy) == 0
  }

  lemma {:induction false} HedgeFound(ledger: seq<Leg>, leg: Leg, rest: seq<Leg>)
    requires forall i :: 0 <= i < |ledger| ==> ledger[i].basketId != leg.basketId
    requires leg.purpose == Hedge && leg.isBuy
    ensures HedgeOf(ledger + [leg] + rest, leg.basketId) == Some(leg)
  {
    if ledger != [] {
      assert (ledger + [leg] + rest)[1..] == ledger[1..] + [leg] + rest;
      HedgeFound(ledger[1..], leg, rest);
    }
  }

  /** Every order of the exit fills in full. */
  ghost predicate ExitCompletes(a: Account, plan: Plan, fills: ExitFills) {
    && fills.future.status == Complete && fills.hedge.status == Complete
    && (OpenPrimary(a.ledger, plan.symbol) != []
        ==> fills.future.filled == OpenPrimary(a.ledger, plan.symbol)[0].quantity)
    && fills.hedge.filled == plan.quantity
  }

  /** What an exit does to the two positions while the netted leg is the one the entry placed. */
  lemma ExitMoves(a: Account, plan: Plan, fills: ExitFills, exitId: string, hedge: Leg, leg: Leg, ledger: seq<Leg>,
                  rest: seq<Leg>)
    requires a.ledger == ledger + [hedge] + rest
          && forall i :: 0 <= i < |ledger| ==> ledger[i].basketId != plan.basketId
    requires hedge.basketId == plan.basketId && hedge.purpose == Hedge && hedge.isBuy
    requires hedge.tradingsymbol == plan.option && hedge.quantity == plan.quantity && plan.option != plan.future
    requires OpenPrimary(a.ledger, plan.symbol) == [leg]
    requires leg.basketId == plan.basketId && leg.tradingsymbol == plan.future
    ensures var end := Exited(a, plan.symbol, exitId, fills);
            && Net(end.positions, plan.option) == Net(a.positions, plan.option) - fills.hedge.filled
            && Net(end.positions, plan.future)
               == Net(a.positions, plan.future)
                   + (if leg.isBuy then -(fills.future.filled as int) else fills.future.filled)
            && end.ledger == FutureClosed(a, plan.symbol, exitId, fills).ledger
               + [Row(FutureClosed(a, plan.symbol, exitId, fills).ledger, exitId, plan.symbol, Hedge, plan.option,
                      false,
                      plan.quantity, fills.hedge)]
  {
    hide OpenPrimary;
    var closed := FutureClosed(a, plan.symbol, exitId, fills);
    assert closed.ledger == ledger + [hedge] + (rest + [closed.ledger[|a.ledger|]]);
    HedgeFound(ledger, hedge, rest + [closed.ledger[|a.ledger|]]);
  }

  /** Main result. A completed entry and a completed exit leave both positions as they were exactly when the futures
      contract was never traded before, or was opened on the same side and settled in full. */
  lemma RoundTripExactly(a: Account, plan: Plan, fills: EntryFills, exitFills: ExitFills, exitId: string)
    requires CleanEntry(a, plan, fills)
    requires ExitCompletes(Last(EntryTrace(a, plan, fills)), plan, exitFills)
    ensures (Net(Exited(Last(EntryTrace(a, plan, fills)), plan.symbol, exitId, exitFills).positions, plan.future)
             == Net(a.positions, plan.future)
             && Net(Exited(Last(EntryTrace(a, plan, fills)), plan.symbol, exitId, exitFills).positions, plan.option)
                 == Net(a.positions, plan.option))
       <==> Settled(Earlier(a, plan), plan.side == Long)
  {
    hide EntryTrace, NetOneSymbol, OpenPrimary, Total, WithKey, OthersClosed;
    var entered := Last(EntryTrace(a, plan, fills));
    var leg := FutureLeg(a, plan, fills);
    var own := Earlier(a, plan);
    EntryLedger(a, plan, fills);
    OpenAfterEntry(a, plan, fills);
    NoneOpenBefore(a, plan);
    NetAfterTrade(own, leg);
    ContractInTime(a.ledger, plan.symbol, plan.future);
    ClosedMeansSurplus(own, leg.isBuy);
    if OpenPrimary(entered.ledger, plan.symbol) != [] {
      var open := OpenPrimary(entered.ledger, plan.symbol)[0];
      ExitMoves(entered, plan, exitFills, exitId, HedgeLeg(a, plan, fills), open, a.ledger, [leg]);
    }
  }

  lemma NoneOpenBefore(a: Account, plan: Plan)
    requires OpenPrimary(a.ledger, plan.symbol) == []
    ensures Earlier(a, plan) != [] ==> NetOneSymbol(Earlier(a, plan), REAL, true) == []
  {
    hide NetOneSymbol, NetUnclosed, FirstSeen;
    NothingOpenAnywhere(PrimaryLegs(a.ledger, plan.symbol), plan.future);
  }

  /** A contract last traded the other way round hides the new basket: the entry fills, and the ledger shows nothing
      open. */
  lemma OppositeEntryIsInvisible(a: Account, plan: Plan, fills: EntryFills)
    requires CleanEntry(a, plan, fills)
    requires Earlier(a, plan) != [] && Earlier(a, plan)[0].isBuy != (plan.side == Long)
    ensures OpenPrimary(Last(EntryTrace(a, plan, fills)).ledger, plan.symbol) == []
    ensures FutureAdded(a, Last(EntryTrace(a, plan, fills)), plan) != 0
  {
    hide EntryTrace, NetOneSymbol, OpenPrimary, Total, WithKey, OthersClosed;
    EntryLedger(a, plan, fills);
    OpenAfterEntry(a, plan, fills);
    NoneOpenBefore(a, plan);
    NetAfterTrade(Earlier(a, plan), FutureLeg(a, plan, fills));
  }

  // ---------- an exit that has to be repeated ----------

  /** Main result. When the futures close does not complete, repeating the exit sells both legs in full once more: the
      account ends flat exactly when the first attempt filled nothing at all. */
  lemma RepeatedExitExactly(a: Account, plan: Plan, fills: EntryFills, first: ExitFills, second: ExitFills,
                            id1: string, id2: string)
    requires CleanEntry(a, plan, fills) && Settled(Earlier(a, plan), plan.side == Long)
    requires first.future.status != Complete
    requires second.future.filled == plan.quantity && second.hedge.filled == plan.quantity
    ensures var entered := Last(EntryTrace(a, plan, fills));
            var again := Exited(Exited(entered, plan.symbol, id1, first), plan.symbol, id2, second);
            && Net(again.positions, plan.option) == Net(a.positions, plan.option) - first.hedge.filled
            && Size(Net(again.positions, plan.future) - Net(a.positions, plan.future)) == first.future.filled
  {
    hide EntryTrace, NetOneSymbol, OpenPrimary, Total, WithKey, OthersClosed, Exited;
    var entered := Last(EntryTrace(a, plan, fills));
    var leg := FutureLeg(a, plan, fills);
    EntryLedger(a, plan, fills);
    OpenAfterEntry(a, plan, fills);
    NoneOpenBefore(a, plan);
    NetAfterTrade(Earlier(a, plan), leg);
    assert OpenPrimary(entered.ledger, plan.symbol) == [leg];
    ExitMoves(entered, plan, first, id1, HedgeLeg(a, plan, fills), leg, a.ledger, [leg]);
    var tried := Exited(entered, plan.symbol, id1, first);
    StillOpen(a, plan, fills, first, id1);
    ExitMoves(tried, plan, second, id2, HedgeLeg(a, plan, fills), leg, a.ledger, tried.ledger[|a.ledger| + 1..]);
  }

  /** The failed close leaves the netted leg as it was. */
  lemma StillOpen(a: Account, plan: Plan, fills: EntryFills, first: ExitFills, id1: string)
    requires CleanEntry(a, plan, fills) && first.future.status != Complete
    requires OpenPrimary(Last(EntryTrace(a, plan, fills)).ledger, plan.symbol) == [FutureLeg(a, plan, fills)]
    requires OpensOn(Earlier(a, plan), plan.side == Long) == (plan.side == Long)
    ensures var tried := Exited(Last(EntryTrace(a, plan, fills)), plan.symbol, id1, first);
            && OpenPrimary(tried.ledger, plan.symbol) == [FutureLeg(a, plan, fills)]
            && |tried.ledger| == |a.ledger| + 4
            && tried.ledger == a.ledger + [HedgeLeg(a, plan, fills)] + tried.ledger[|a.ledger| + 1..]
  {
    hide EntryTrace, NetOneSymbol, NetUnclosed, WithKey, OfPurpose, FirstSeen, OthersClosed;
    var entered := Last(EntryTrace(a, plan, fills));
    var leg := FutureLeg(a, plan, fills);
    EntryLedger(a, plan, fills);
    OpenAfterEntry(a, plan, fills);
    ExitMoves(entered, plan, first, id1, HedgeLeg(a, plan, fills), leg, a.ledger, [leg]);
    var tried := Exited(entered, plan.symbol, id1, first);
    var closing := Row(entered.ledger, id1, plan.symbol, Primary, plan.future, !leg.isBuy, leg.quantity, first.future);
    var selling := tried.ledger[|entered.ledger| + 1];
    assert tried.ledger == entered.ledger + [closing] + [selling];
    NextIsLater(entered.ledger, closing);
    PrimaryGrows(entered.ledger, closing, plan.symbol);
    PrimaryGrows(entered.ledger + [closing], selling, plan.symbol);
    var legs := PrimaryLegs(entered.ledger, plan.symbol);
    var own := Earlier(a, plan) + [leg];
    KeyGrows(TRADINGSYMBOL, legs, closing, plan.future);
    OthersStayClosed(legs, closing);
    OpenIsOwnNet(legs + [closing], plan.future);
    ContractInTime(entered.ledger + [closing], plan.symbol, plan.future);
    FailedCloseIgnored(own, closing);
    assert PrimaryLegs(tried.ledger, plan.symbol) == legs + [closing];
    assert WithKey(TRADINGSYMBOL, legs + [closing], plan.future) == own + [closing];
  }

  // ---------- the guard of the entry ----------

  lemma {:induction false} OneSymbolPerContract(legs: seq<Leg>, symbol: string, contract: string)
    requires forall i :: 0 <= i < |legs| && legs[i].tradingsymbol == contract ==> legs[i].symbol == symbol
    ensures WithKey(TRADINGSYMBOL, WithKey(SYMBOL, legs, symbol), contract) == WithKey(TRADINGSYMBOL, legs, contract)
  {
    if legs != [] {
      var before := legs[..|legs| - 1];
      var leg := legs[|legs| - 1];
      assert legs == before + [leg];
      OneSymbolPerContract(before, symbol, contract);
      KeyGrows(SYMBOL, before, leg, symbol);
      KeyGrows(TRADINGSYMBOL, before, leg, contract);
      var own := WithKey(SYMBOL, before, symbol);
      KeyGrows(TRADINGSYMBOL, own, leg, contract);
      if leg.symbol == symbol {
        assert WithKey(SYMBOL, legs, symbol) == own + [leg];
      } else {
        assert WithKey(SYMBOL, legs, symbol) == own;
        assert WithKey(TRADINGSYMBOL, legs, contract) == WithKey(TRADINGSYMBOL, before, contract);
      }
    }
  }

  lemma AdjustmentChangesNoEmptiness(own: seq<Leg>)
    requires own != []
    ensures NetOneSymbol(own, REAL, true) == [] <==> NetOneSymbol(own, REAL, false) == []
  {
    OpenExactly(own, REAL, true);
    OpenExactly(own, REAL, false);
  }

  /** A contract belongs to one symbol. */
  predicate OneSymbolEach(legs: seq<Leg>) {
    forall i, j :: 0 <= i < |legs| && 0 <= j < |legs| && legs[i].tradingsymbol == legs[j].tradingsymbol
        ==> legs[i].symbol == legs[j].symbol
  }

  /** The entry's guard reads the futures of every symbol at once; when it finds nothing, no symbol has an open
      future, as long as a contract belongs to one symbol. */
  lemma GuardCoversSymbol(ledger: seq<Leg>, symbol: string)
    requires AllUnclosedPrimary(ledger) == []
    requires OneSymbolEach(OfPurpose(ledger, Primary))
    ensures OpenPrimary(ledger, symbol) == []
  {
    hide NetOneSymbol, NetUnclosed, OfPurpose;
    var all := OfPurpose(ledger, Primary);
    var legs := PrimaryLegs(ledger, symbol);
    var order := FirstSeen(TRADINGSYMBOL, legs);
    NetIsEmptyExactly(all, FirstSeen(TRADINGSYMBOL, all), false);
    NetIsEmptyExactly(legs, order, true);
    forall i | 0 <= i < |order|
      ensures OwnNet(legs, order[i], true) == []
    {
      ContractBelongs(all, symbol, order[i]);
      OneSymbolPerContract(all, symbol, order[i]);
      SeenExactly(TRADINGSYMBOL, all, order[i]);
      SeenExactly(TRADINGSYMBOL, legs, order[i]);
      AdjustmentChangesNoEmptiness(WithKey(TRADINGSYMBOL, legs, order[i]));
    }
  }

  lemma ContractBelongs(all: seq<Leg>, symbol: string, contract: string)
    requires OneSymbolEach(all)
    requires contract in FirstSeen(TRADINGSYMBOL, WithKey(SYMBOL, all, symbol))
    ensures forall i :: 0 <= i < |all| && all[i].tradingsymbol == contract ==> all[i].symbol == symbol
  {
    var legs := WithKey(SYMBOL, all, symbol);
    SeenExactly(TRADINGSYMBOL, legs, contract);
    var leg := WithKey(TRADINGSYMBOL, legs, contract)[0];
    WithKeyMeaning(TRADINGSYMBOL, legs, contract, leg);
    WithKeyMeaning(SYMBOL, all, symbol, leg);
    assert leg in multiset(WithKey(TRADINGSYMBOL, legs, contract));
    assert leg in multiset(legs) && leg in multiset(all);
  }

  // ---------- the risk gates around an entry ----------

  /** What became of an entry: refused on quotes, not open afterwards, closed because of its fill prices, or kept. */
  datatype Decision = Refused | NotOpen | ClosedForRisk | Kept

  /** The average price of the first completed leg of a purpose in a basket. */
  function FillPrice(ledger: seq<Leg>, basketId: string, purpose: Purpose): Option<real> {
    if ledger == [] then None
    else if ledger[0].basketId == basketId && ledger[0].purpose == purpose && ledger[0].status == Complete
        then ledger[0].averagePrice
    else FillPrice(ledger[1..], basketId, purpose)
  }

  function Decide(cap: real, plan: Plan, strike: real, quotedFuture: real, quotedOption: real,
                  entered: Account): Decision {
    if DefinedMaxLoss(plan.side, quotedFuture, strike, quotedOption, plan.quantity) > cap then Refused
    else if OpenPrimary(entered.ledger, plan.symbol) == [] then NotOpen
    else
      var hedgeFill := FillPrice(entered.ledger, plan.basketId, Hedge);
      var primaryFill := FillPrice(entered.ledger, plan.basketId, Primary);
      if hedgeFill.Some? && primaryFill.Some?
         && DefinedMaxLoss(plan.side, primaryFill.value, strike, hedgeFill.value, plan.quantity) > cap
             then ClosedForRisk
      else Kept
  }

  lemma {:induction false} FillPriceSkips(ledger: seq<Leg>, rest: seq<Leg>, basketId: string, purpose: Purpose)
    requires forall i :: 0 <= i < |ledger| ==> ledger[i].basketId != basketId || ledger[i].purpose != purpose
    ensures FillPrice(ledger + rest, basketId, purpose) == FillPrice(rest, basketId, purpose)
  {
    if ledger == [] {
      assert ledger + rest == rest;
    } else {
      assert (ledger + rest)[1..] == ledger[1..] + rest;
      FillPriceSkips(ledger[1..], rest, basketId, purpose);
    }
  }

  lemma FillPricesOfEntry(a: Account, plan: Plan, fills: EntryFills)
    requires CleanEntry(a, plan, fills)
    ensures var ledger := Last(EntryTrace(a, plan, fills)).ledger;
            FillPrice(ledger, plan.basketId, Hedge) == fills.option.price
                && FillPrice(ledger, plan.basketId, Primary) == fills.future.price
  {
    hide EntryTrace, OpenPrimary, InTime;
    EntryLedger(a, plan, fills);
    var hedge := HedgeLeg(a, plan, fills);
    var future := FutureLeg(a, plan, fills);
    assert a.ledger + [hedge] + [future] == a.ledger + ([hedge] + [future]);
    FillPriceSkips(a.ledger, [hedge] + [future], plan.basketId, Hedge);
    FillPriceSkips(a.ledger + [hedge], [future], plan.basketId, Primary);
  }

  /** Main result. An entry that is kept with both fill prices reported loses no more than the cap at any expiry
      price, and with both prices reported it is kept exactly when the quotes pass, it is open and its own worst case
      is within the cap. */
  lemma KeptEntriesAreCapped(cap: real, a: Account, plan: Plan, fills: EntryFills, strike: real, quotedFuture: real,
                             quotedOption: real, price: real)
    requires CleanEntry(a, plan, fills) && fills.option.price.Some? && fills.future.price.Some?
    ensures Decide(cap, plan, strike, quotedFuture, quotedOption, Last(EntryTrace(a, plan, fills))) == Kept ==>
              LossAtExpiry(plan.side, fills.future.price.value, strike, fills.option.price.value, plan.quantity, price)
                  <= cap
    ensures Decide(cap, plan, strike, quotedFuture, quotedOption, Last(EntryTrace(a, plan, fills))) == Kept
       <==> && DefinedMaxLoss(plan.side, quotedFuture, strike, quotedOption, plan.quantity) <= cap
            && OpenPrimary(Last(EntryTrace(a, plan, fills)).ledger, plan.symbol) != []
            && DefinedMaxLoss(plan.side, fills.future.price.value, strike, fills.option.price.value, plan.quantity)
                <= cap
  {
    hide EntryTrace, OpenPrimary, DefinedMaxLoss, LossAtExpiry, FillPrice, CleanEntry;
    FillPricesOfEntry(a, plan, fills);
    LossIsBounded(plan.side, fills.future.price.value, strike, fills.option.price.value, plan.quantity, price);
  }
}
