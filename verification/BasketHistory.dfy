/** Baskets one after the other in the same futures contract: completed ones on one side never disturb each other,
    and the two histories after which the next basket does not come out even. */
module BasketHistory {
  import opened Numeric
  import opened OrderLedger
  import opened LegNetting
  import opened BasketExecution
  import opened BasketRoundTrip

  // ---------- after a completed exit ----------

  function ClosingLeg(entered: Account, plan: Plan, exitId: string, fill: Fill): Leg {
    Row(entered.ledger, exitId, plan.symbol, Primary, plan.future, plan.side != Long, plan.quantity, fill)
  }

  lemma TotalGrows(own: seq<Leg>, leg: Leg, isBuy: bool)
    ensures Total(own + [leg], isBuy, REAL)
         == Total(own, isBuy, REAL) + (if leg.isBuy == isBuy && leg.status in REAL then leg.quantity else 0)
  {
    assert (own + [leg])[..|own|] == own;
  }

  /** What an opening and a closing trade add to the two quantities of a contract. */
  lemma OpenedAndClosed(own: seq<Leg>, leg: Leg, closing: Leg)
    requires leg.status == Complete && closing.status == Complete && closing.isBuy != leg.isBuy
    ensures Total(own + [leg] + [closing], leg.isBuy, REAL) == Total(own, leg.isBuy, REAL) + leg.quantity
    ensures Total(own + [leg] + [closing], !leg.isBuy, {Complete})
         == Total(own, !leg.isBuy, {Complete}) + closing.quantity
  {
    hide Openers, Total;
    OpenersGrow(own, leg, !leg.isBuy);
    OpenersGrow(own + [leg], closing, !leg.isBuy);
    TotalGrows(own, leg, leg.isBuy);
    TotalGrows(own + [leg], closing, leg.isBuy);
  }

  /** A closing trade of the whole open quantity settles the contract again. */
  lemma ClosedAgain(own: seq<Leg>, leg: Leg, closing: Leg)
    requires InTime(own + [leg] + [closing]) && Settled(own, leg.isBuy)
    requires leg.status == Complete && closing.status == Complete
    requires closing.isBuy != leg.isBuy && closing.quantity == leg.quantity
    ensures Settled(own + [leg] + [closing], leg.isBuy)
    ensures NetOneSymbol(own + [leg] + [closing], REAL, true) == []
  {
    hide NetOneSymbol, NetOpeners, Total, InTime, Openers;
    var all := own + [leg] + [closing];
    assert all[0] == if own == [] then leg else own[0];
    OpenedAndClosed(own, leg, closing);
    NetInTime(all);
    NetEmptyExactly(Openers(all, leg.isBuy, REAL), Total(all, !leg.isBuy, {Complete}), true);
  }

  /** The exit fills completely. */
  predicate FullExit(plan: Plan, fills: ExitFills) {
    && fills.future.status == Complete && fills.future.filled == plan.quantity
    && fills.hedge.status == Complete && fills.hedge.filled == plan.quantity
  }

  /** What a completed entry and exit leave on the ledger. */
  lemma TripLedger(a: Account, plan: Plan, fills: EntryFills, exitFills: ExitFills, exitId: string)
    requires CleanEntry(a, plan, fills) && Settled(Earlier(a, plan), plan.side == Long) && FullExit(plan, exitFills)
    ensures var entered := Last(EntryTrace(a, plan, fills));
            var end := Exited(entered, plan.symbol, exitId, exitFills);
            var closing := ClosingLeg(entered, plan, exitId, exitFills.future);
            && OpenPrimary(entered.ledger, plan.symbol) == [FutureLeg(a, plan, fills)]
            && end.ledger == entered.ledger + [closing]
                             + [Row(entered.ledger + [closing], exitId, plan.symbol, Hedge, plan.option, false,
                                    plan.quantity, exitFills.hedge)]
            && InTime(end.ledger)
            && Net(end.positions, plan.option) == Net(a.positions, plan.option)
            && Net(end.positions, plan.future) == Net(a.positions, plan.future)
  {
    hide EntryTrace, NetOneSymbol, OpenPrimary, Total, WithKey, OthersClosed;
    var entered := Last(EntryTrace(a, plan, fills));
    var leg := FutureLeg(a, plan, fills);
    EntryLedger(a, plan, fills);
    OpenAfterEntry(a, plan, fills);
    NoneOpenBefore(a, plan);
    NetAfterTrade(Earlier(a, plan), leg);
    assert OpenPrimary(entered.ledger, plan.symbol) == [leg];
    ExitMoves(entered, plan, exitFills, exitId, HedgeLeg(a, plan, fills), leg, a.ledger, [leg]);
    var closing := ClosingLeg(entered, plan, exitId, exitFills.future);
    NextIsLater(entered.ledger, closing);
    NextIsLater(entered.ledger + [closing],
                Row(entered.ledger + [closing], exitId, plan.symbol, Hedge, plan.option, false, plan.quantity,
                    exitFills.hedge));
  }

  /** Main result. After a completed round trip in a settled contract the ledger shows nothing open, and the contract is
      settled on the same side again. */
  lemma SettledAgain(a: Account, plan: Plan, fills: EntryFills, exitFills: ExitFills, exitId: string)
    requires CleanEntry(a, plan, fills) && Settled(Earlier(a, plan), plan.side == Long) && FullExit(plan, exitFills)
    ensures var end := Exited(Last(EntryTrace(a, plan, fills)), plan.symbol, exitId, exitFills);
            && InTime(end.ledger) && OpenPrimary(end.ledger, plan.symbol) == []
            && Earlier(end, plan) != [] && Earlier(end, plan)[0].isBuy == (plan.side == Long)
            && Settled(Earlier(end, plan), plan.side == Long)
  {
    hide EntryTrace, NetOneSymbol, NetUnclosed, WithKey, OfPurpose, FirstSeen, OthersClosed, Exited, Total;
    var entered := Last(EntryTrace(a, plan, fills));
    var leg := FutureLeg(a, plan, fills);
    var closing := ClosingLeg(entered, plan, exitId, exitFills.future);
    var end := Exited(entered, plan.symbol, exitId, exitFills);
    TripLedger(a, plan, fills, exitFills, exitId);
    OpenAfterEntry(a, plan, fills);
    var legs, own := PrimaryLegs(entered.ledger, plan.symbol), Earlier(a, plan);
    PrimaryGrows(entered.ledger, closing, plan.symbol);
    PrimaryGrows(entered.ledger + [closing], end.ledger[|entered.ledger| + 1], plan.symbol);
    assert PrimaryLegs(end.ledger, plan.symbol) == legs + [closing];
    KeyGrows(TRADINGSYMBOL, legs, closing, plan.future);
    assert Earlier(end, plan) == own + [leg] + [closing];
    ContractInTime(end.ledger, plan.symbol, plan.future);
    OthersStayClosed(legs, closing);
    OpenIsOwnNet(legs + [closing], plan.future);
    ClosedAgain(own, leg, closing);
  }

  // ---------- any number of baskets ----------

  /** A basket that is opened and closed in full. */
  datatype Trip = Trip(plan: Plan, fills: EntryFills, exitFills: ExitFills, exitId: string)

  predicate FullTrip(t: Trip) {
    && HonestEntry(t.plan, t.fills) && t.plan.option != t.plan.future
    && t.fills.option.status == Complete && t.fills.future.status == Complete && FullExit(t.plan, t.exitFills)
  }

  /** No row carries the basket's id. */
  predicate Unused(ledger: seq<Leg>, basketId: string) {
    forall i :: 0 <= i < |ledger| ==> ledger[i].basketId != basketId
  }

  function AfterTrip(a: Account, t: Trip): Account {
    Exited(Last(EntryTrace(a, t.plan, t.fills)), t.plan.symbol, t.exitId, t.exitFills)
  }

  function AfterTrips(a: Account, trips: seq<Trip>): Account {
    if trips == [] then a else AfterTrip(AfterTrips(a, trips[..|trips| - 1]), trips[|trips| - 1])
  }

  /** Full trips in one futures contract on one side, each with an id that is new. */
  predicate OneSided(trips: seq<Trip>, symbol: string, future: string, side: Side) {
    && (forall i :: 0 <= i < |trips| ==>
          FullTrip(trips[i]) && trips[i].plan.symbol == symbol && trips[i].plan.future == future
              && trips[i].plan.side == side)
    && (forall i, j :: 0 <= i < j < |trips| ==>
          trips[j].plan.basketId != trips[i].plan.basketId && trips[j].plan.basketId != trips[i].exitId)
  }

  /** Nothing is open for the symbol, and the contract was settled on this side or never traded. */
  ghost predicate Even(a: Account, symbol: string, future: string, side: Side) {
    && InTime(a.ledger) && OpenPrimary(a.ledger, symbol) == []
    && Settled(WithKey(TRADINGSYMBOL, PrimaryLegs(a.ledger, symbol), future), side == Long)
  }

  lemma TripTouches(a: Account, t: Trip, contract: string)
    requires CleanEntry(a, t.plan, t.fills) && Settled(Earlier(a, t.plan), t.plan.side == Long)
          && FullExit(t.plan, t.exitFills)
    ensures Net(AfterTrip(a, t).positions, contract) == Net(a.positions, contract)
  {
    hide OpenPrimary, InTime, Settled, Earlier, FutureLeg;
    TripLedger(a, t.plan, t.fills, t.exitFills, t.exitId);
    FutureLegMeaning(a, t.plan, t.fills);
    if contract != t.plan.option && contract != t.plan.future {
      HedgeIsOption(a, t);
    }
  }

  lemma FutureLegMeaning(a: Account, plan: Plan, fills: EntryFills)
    ensures var leg := FutureLeg(a, plan, fills);
            leg.tradingsymbol == plan.future && leg.basketId == plan.basketId && leg.quantity == plan.quantity
  {
  }

  /** The exit trades the future and the hedge of the basket and no other contract. */
  lemma HedgeIsOption(a: Account, t: Trip)
    requires CleanEntry(a, t.plan, t.fills) && FullExit(t.plan, t.exitFills)
    requires OpenPrimary(Last(EntryTrace(a, t.plan, t.fills)).ledger, t.plan.symbol) == [FutureLeg(a, t.plan, t.fills)]
    ensures var entered := Last(EntryTrace(a, t.plan, t.fills));
            var hedge := HedgeOf(FutureClosed(entered, t.plan.symbol, t.exitId, t.exitFills).ledger, t.plan.basketId);
            hedge.Some? && hedge.value.tradingsymbol == t.plan.option
  {
    hide OpenPrimary, InTime, EntryTrace;
    EntryLedger(a, t.plan, t.fills);
    var entered := Last(EntryTrace(a, t.plan, t.fills));
    var closed := FutureClosed(entered, t.plan.symbol, t.exitId, t.exitFills);
    var hedge, leg := HedgeLeg(a, t.plan, t.fills), FutureLeg(a, t.plan, t.fills);
    assert closed.ledger == a.ledger + [hedge] + ([leg] + [closed.ledger[|entered.ledger|]]);
    HedgeFound(a.ledger, hedge, [leg] + [closed.ledger[|entered.ledger|]]);
  }

  /** A trip leaves the account even, and puts only its own two ids on the ledger. */
  lemma TripKeepsEven(a: Account, t: Trip)
    requires FullTrip(t) && Even(a, t.plan.symbol, t.plan.future, t.plan.side) && Unused(a.ledger, t.plan.basketId)
    ensures CleanEntry(a, t.plan, t.fills)
    ensures Even(AfterTrip(a, t), t.plan.symbol, t.plan.future, t.plan.side)
    ensures forall id :: Unused(a.ledger, id) && id != t.plan.basketId && id != t.exitId
              ==> Unused(AfterTrip(a, t).ledger, id)
  {
    hide EntryTrace, Exited, OpenPrimary, InTime, Settled;
    SettledAgain(a, t.plan, t.fills, t.exitFills, t.exitId);
    TripLedger(a, t.plan, t.fills, t.exitFills, t.exitId);
    EntryLedger(a, t.plan, t.fills);
  }

  /** Main result. However many baskets are opened and closed in full on one side of a contract, every position ends
      where it started, nothing stays open on the ledger, and the contract is ready for the next one. */
  lemma {:induction false} RoundTripsCompose(a: Account, trips: seq<Trip>, symbol: string, future: string, side: Side)
    requires Even(a, symbol, future, side) && OneSided(trips, symbol, future, side)
    requires forall i :: 0 <= i < |trips| ==> Unused(a.ledger, trips[i].plan.basketId)
    ensures Even(AfterTrips(a, trips), symbol, future, side)
    ensures forall contract :: Net(AfterTrips(a, trips).positions, contract) == Net(a.positions, contract)
    ensures forall id ::
              (Unused(a.ledger, id)
               && forall i :: 0 <= i < |trips| ==> id != trips[i].plan.basketId && id != trips[i].exitId)
              ==> Unused(AfterTrips(a, trips).ledger, id)
  {
    hide Even, Unused, FullTrip, AfterTrip;
    if trips != [] {
      var before, t := trips[..|trips| - 1], trips[|trips| - 1];
      RoundTripsCompose(a, before, symbol, future, side);
      var now := AfterTrips(a, before);
      assert Unused(now.ledger, t.plan.basketId);
      TripKeepsEven(now, t);
      forall contract
        ensures Net(AfterTrip(now, t).positions, contract) == Net(a.positions, contract)
      {
        EvenIsSettled(now, t);
        TripTouches(now, t, contract);
      }
    }
  }

  lemma EvenIsSettled(a: Account, t: Trip)
    requires Even(a, t.plan.symbol, t.plan.future, t.plan.side) && FullTrip(t)
    ensures Settled(Earlier(a, t.plan), t.plan.side == Long) && FullExit(t.plan, t.exitFills)
  {
  }

  // ---------- two histories that are not even ----------

  const NOBODY := Account(map[], [])

  lemma NobodyIsEven(symbol: string, future: string, side: Side)
    ensures Even(NOBODY, symbol, future, side)
  {
    assert OfPurpose([], Primary) == [];
  }

  function FullEntry(plan: Plan, price: Option<real>): EntryFills {
    EntryFills(Fill(Complete, plan.quantity, price), Fill(Cancelled, 0, None), Fill(Complete, plan.quantity, price),
               Fill(Cancelled, 0, None), Fill(Cancelled, 0, None))
  }

  /** An entry whose future is cancelled with `filled` of it filled, and which is rolled back in full. */
  function RolledBack(plan: Plan, filled: nat): EntryFills {
    EntryFills(Fill(Complete, plan.quantity, None), Fill(Cancelled, 0, None), Fill(Cancelled, filled, None),
               Fill(Complete, filled, None), Fill(Complete, plan.quantity, None))
  }

  /** The two rows the roll-back leaves in the contract. */
  lemma RolledBackLedger(plan: Plan, filled: Quantity)
    requires filled < plan.quantity && plan.option != plan.future
    ensures var a := Last(EntryTrace(NOBODY, plan, RolledBack(plan, filled)));
            var tried := Leg(plan.basketId, plan.symbol, Primary, plan.future, plan.side == Long, plan.quantity, "",
                             Cancelled, 1, None, "");
            var undone := Leg(plan.basketId, plan.symbol, Primary, plan.future, plan.side != Long, filled, "",
                              Complete, 2, None, "");
            && HonestEntry(plan, RolledBack(plan, filled))
            && Net(a.positions, plan.option) == 0 && Net(a.positions, plan.future) == 0
            && InTime(a.ledger) && |a.ledger| == 4
            && (forall i :: 0 <= i < 4 ==> a.ledger[i].basketId == plan.basketId)
            && a.ledger == [a.ledger[0]] + [tried] + [undone] + [a.ledger[3]]
            && a.ledger[0].purpose == Hedge && a.ledger[3].purpose == Hedge
  {
  }

  lemma RolledBackPrimary(ledger: seq<Leg>, hedge: Leg, tried: Leg, undone: Leg, sold: Leg, symbol: string)
    requires ledger == [hedge] + [tried] + [undone] + [sold]
    requires hedge.purpose == Hedge && sold.purpose == Hedge && tried.purpose == Primary && undone.purpose == Primary
    requires tried.symbol == symbol && undone.symbol == symbol && tried.tradingsymbol == undone.tradingsymbol
    ensures PrimaryLegs(ledger, symbol) == [tried, undone]
    ensures WithKey(TRADINGSYMBOL, PrimaryLegs(ledger, symbol), tried.tradingsymbol) == [tried, undone]
    ensures OthersClosed([tried, undone], tried.tradingsymbol)
  {
    hide OfPurpose, WithKey, NetOneSymbol, PrimaryLegs;
    NoPrimary(symbol);
    PrimaryGrows([], hedge, symbol);
    PrimaryGrows([hedge], tried, symbol);
    PrimaryGrows([hedge] + [tried], undone, symbol);
    PrimaryGrows([hedge] + [tried] + [undone], sold, symbol);
    assert [] + [hedge] == [hedge] && [] + [tried] + [undone] == [tried, undone];
    NoneWithKey(tried.tradingsymbol);
    KeyGrows(TRADINGSYMBOL, [], tried, tried.tradingsymbol);
    KeyGrows(TRADINGSYMBOL, [] + [tried], undone, tried.tradingsymbol);
    NothingElse(tried.tradingsymbol);
    OthersStayClosed([], tried);
    OthersStayClosed([] + [tried], undone);
  }

  lemma NoPrimary(symbol: string)
    ensures PrimaryLegs([], symbol) == []
  {
  }

  lemma NoneWithKey(contract: string)
    ensures WithKey(TRADINGSYMBOL, [], contract) == []
  {
  }

  lemma NothingElse(contract: string)
    ensures OthersClosed([], contract)
  {
  }

  /** A row that did not open and one that closed. */
  lemma FailedRow(tried: Leg)
    requires tried.status == Cancelled
    ensures Openers([tried], tried.isBuy, REAL) == [] && Total([tried], tried.isBuy, REAL) == 0
    ensures Total([tried], !tried.isBuy, {Complete}) == 0
  {
    assert [tried][..0] == [];
  }

  lemma TwoRows(tried: Leg, undone: Leg)
    requires tried.status == Cancelled && undone.status == Complete && tried.isBuy != undone.isBuy
    ensures var own, side := [tried, undone], tried.isBuy;
            Openers(own, side, REAL) == [] && Total(own, side, REAL) == 0
                && Total(own, !side, {Complete}) == undone.quantity
  {
    FailedRow(tried);
    hide Openers, Total;
    OpenersGrow([tried], undone, tried.isBuy);
    OpenersGrow([tried], undone, !tried.isBuy);
    TotalGrows([tried], undone, tried.isBuy);
    assert [tried, undone] == [tried] + [undone];
  }

  /** They net to nothing open, and to a closed surplus of what had been filled. */
  lemma RolledBackNets(tried: Leg, undone: Leg)
    requires tried.placedAt < undone.placedAt && tried.status == Cancelled && undone.status == Complete
          && tried.isBuy != undone.isBuy
    ensures NetOneSymbol([tried, undone], REAL, true) == []
    ensures OpensOn([tried, undone], tried.isBuy) == tried.isBuy
         && Surplus([tried, undone], tried.isBuy) == undone.quantity
  {
    hide NetOneSymbol, Openers, Total;
    TwoRows(tried, undone);
    NetInTime([tried, undone]);
  }

  /** Main result. After an entry whose future was filled in part and rolled back, every position is flat and the
      ledger shows nothing open; but the next basket in the same contract finds a closed surplus, and its own exit
      does not undo it. */
  lemma RollBackLeavesSurplus(plan: Plan, filled: Quantity, next: Plan, price: Option<real>, exitFills: ExitFills,
                              exitId: string)
    requires filled < plan.quantity && plan.option != plan.future && next.option != next.future
    requires next.symbol == plan.symbol && next.future == plan.future && next.side == plan.side
          && next.basketId != plan.basketId
    ensures var a := Last(EntryTrace(NOBODY, plan, RolledBack(plan, filled)));
            var entered := Last(EntryTrace(a, next, FullEntry(next, price)));
            && HonestEntry(plan, RolledBack(plan, filled))
            && Net(a.positions, plan.option) == 0 && Net(a.positions, plan.future) == 0
            && CleanEntry(a, next, FullEntry(next, price))
            && Surplus(Earlier(a, next), next.side == Long) == filled && !Settled(Earlier(a, next), next.side == Long)
            && (ExitCompletes(entered, next, exitFills) ==>
                  var end := Exited(entered, next.symbol, exitId, exitFills);
                  Net(end.positions, next.future) != 0
                      || Net(end.positions, next.option) != Net(a.positions, next.option))
  {
    hide EntryTrace, Exited, NetOneSymbol, OpenPrimary, WithKey, PrimaryLegs, OthersClosed, Surplus, InTime;
    var a := Last(EntryTrace(NOBODY, plan, RolledBack(plan, filled)));
    RolledBackLedger(plan, filled);
    var tried, undone := a.ledger[1], a.ledger[2];
    RolledBackPrimary(a.ledger, a.ledger[0], tried, undone, a.ledger[3], plan.symbol);
    RolledBackNets(tried, undone);
    assert OpenPrimary(a.ledger, plan.symbol) == [] by {
      OnlyContract([tried, undone], a.ledger, plan.symbol, plan.future);
    }
    assert CleanEntry(a, next, FullEntry(next, price));
    var entered := Last(EntryTrace(a, next, FullEntry(next, price)));
    if ExitCompletes(entered, next, exitFills) {
      RoundTripExactly(a, next, FullEntry(next, price), exitFills, exitId);
    }
  }

  lemma OnlyContract(legs: seq<Leg>, ledger: seq<Leg>, symbol: string, contract: string)
    requires PrimaryLegs(ledger, symbol) == legs && WithKey(TRADINGSYMBOL, legs, contract) == legs && legs != []
    requires OthersClosed(legs, contract) && NetOneSymbol(legs, REAL, true) == []
    ensures OpenPrimary(ledger, symbol) == []
  {
    hide NetUnclosed, NetOneSymbol, WithKey, FirstSeen, PrimaryLegs, OthersClosed;
    OpenIsOwnNet(legs, contract);
  }

  /** Main result. After one completed round trip, a basket the other way round in the same contract fills in full
      and the ledger shows nothing open. */
  lemma ClosedTripHidesOpposite(t: Trip, next: Plan, price: Option<real>)
    requires FullTrip(t) && next.option != next.future
    requires next.symbol == t.plan.symbol && next.future == t.plan.future && next.side != t.plan.side
    requires next.basketId != t.plan.basketId && next.basketId != t.exitId
    ensures var a := AfterTrip(NOBODY, t);
            var entered := Last(EntryTrace(a, next, FullEntry(next, price)));
            && CleanEntry(a, next, FullEntry(next, price))
            && Net(a.positions, next.future) == 0 && Size(Net(entered.positions, next.future)) == next.quantity
            && OpenPrimary(entered.ledger, next.symbol) == []
  {
    hide EntryTrace, Exited, OpenPrimary, InTime, Settled, WithKey;
    NobodyIsEven(t.plan.symbol, t.plan.future, t.plan.side);
    TripKeepsEven(NOBODY, t);
    EvenIsSettled(NOBODY, t);
    TripTouches(NOBODY, t, next.future);
    SettledAgain(NOBODY, t.plan, t.fills, t.exitFills, t.exitId);
    var a := AfterTrip(NOBODY, t);
    assert Unused(a.ledger, next.basketId);
    assert CleanEntry(a, next, FullEntry(next, price));
    EntryLedger(a, next, FullEntry(next, price));
    OppositeEntryIsInvisible(a, next, FullEntry(next, price));
  }
}
