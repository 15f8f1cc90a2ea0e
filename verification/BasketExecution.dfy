/** The hedged basket of `application/live_execution.py`: option first and future second on the way in, future first and
    option second on the way out, with partial fills and roll-backs. */
module BasketExecution {
  import opened Numeric
  import opened OrderLedger
  import opened LegNetting

  datatype Side = Long | Short

  /** What to open: the hedge contract, the futures contract, and the same quantity of both. */
  datatype Plan = Plan(basketId: string, symbol: string, side: Side, option: string, future: string, quantity: Quantity)

  /** What one order came to. */
  datatype Fill = Fill(status: Status, filled: nat, price: Option<real>)

  /** Net positions by contract, and the ledger. */
  datatype Account = Account(positions: map<string, int>, ledger: seq<Leg>)

  function Net(positions: map<string, int>, contract: string): int {
    if contract in positions then positions[contract] else 0
  }

  // ---------- one order ----------

  /** The broker's side of one order: whether it was accepted, the status when the wait ended, and what the
      cancellation of an order that was still working led to. */
  datatype Reply = Reply(accepted: bool, waited: Fill, cancelled: Option<Fill>)

  predicate Terminal(status: Status) {
    status == Complete || status.IsTerminalFailure()
  }

  function PlaceAndWait(reply: Reply): Fill {
    if !reply.accepted then Fill(Rejected, 0, None)
    else if !Terminal(reply.waited.status) && reply.cancelled.Some? then reply.cancelled.value
    else reply.waited
  }

  /** Reported quantities are final: never more than ordered, and all of it when complete. */
  predicate Honest(fill: Fill, quantity: nat) {
    fill.filled <= quantity && (fill.status == Complete ==> fill.filled == quantity)
  }

  function NextTime(ledger: seq<Leg>): int {
    if ledger == [] then 0 else ledger[|ledger| - 1].placedAt + 1
  }

  function Row(ledger: seq<Leg>, basketId: string, symbol: string, purpose: Purpose, contract: string, isBuy: bool,
               quantity: Quantity, fill: Fill): Leg {
    Leg(basketId, symbol, purpose, contract, isBuy, quantity, "", fill.status, NextTime(ledger), fill.price, "")
  }

  /** The account after one order: what was filled moves the position, the whole order is on the ledger. */
  function After(a: Account, basketId: string, symbol: string, purpose: Purpose, contract: string, isBuy: bool,
                 quantity: Quantity, fill: Fill): Account {
    Account(a.positions[contract := Net(a.positions, contract)
                        + (if isBuy then fill.filled else -(fill.filled as int))],
            a.ledger + [Row(a.ledger, basketId, symbol, purpose, contract, isBuy, quantity, fill)])
  }

  // ---------- the entry ----------

  /** The fills the orders of an entry meet, in the order they may be placed. */
  datatype EntryFills = EntryFills(option: Fill, optionUnwind: Fill, future: Fill, futureUnwind: Fill,
                                   hedgeUnwind: Fill)

  function Bought(a: Account, plan: Plan, fills: EntryFills): Account {
    After(a, plan.basketId, plan.symbol, Hedge, plan.option, true, plan.quantity, fills.option)
  }

  function Hedged(a: Account, plan: Plan, fills: EntryFills): Account {
    After(Bought(a, plan, fills), plan.basketId, plan.symbol, Primary, plan.future, plan.side == Long, plan.quantity,
          fills.future)
  }

  function Unwound(a: Account, plan: Plan, fills: EntryFills): Account {
    var hedged := Hedged(a, plan, fills);
    if fills.future.filled == 0 then hedged
    else After(hedged, plan.basketId, plan.symbol, Primary, plan.future, plan.side != Long, fills.future.filled,
               fills.futureUnwind)
  }

  /** The accounts after each order of the entry. */
  function EntryTrace(a: Account, plan: Plan, fills: EntryFills): (r: seq<Account>)
    ensures r != []
  {
    var bought := Bought(a, plan, fills);
    if fills.option.status != Complete then
      if fills.option.filled == 0 then [bought]
      else [bought, After(bought, plan.basketId, plan.symbol, Hedge, plan.option, false, fills.option.filled,
                          fills.optionUnwind)]
    else
      var hedged := Hedged(a, plan, fills);
      if fills.future.status == Complete then [bought, hedged]
      else
        var unwound := Unwound(a, plan, fills);
        var sold := After(unwound, plan.basketId, plan.symbol, Hedge, plan.option, false, plan.quantity,
                          fills.hedgeUnwind);
        [bought, hedged] + (if fills.future.filled == 0 then [] else [unwound]) + [sold]
  }

  function Last(trace: seq<Account>): Account
    requires trace != []
  {
    trace[|trace| - 1]
  }

  /** What the fills of an entry may be, given what is ordered. */
  predicate HonestEntry(plan: Plan, fills: EntryFills) {
    && Honest(fills.option, plan.quantity) && Honest(fills.optionUnwind, fills.option.filled)
    && Honest(fills.future, plan.quantity) && Honest(fills.futureUnwind, fills.future.filled)
    && Honest(fills.hedgeUnwind, plan.quantity)
  }

  /** What the entry added to the hedge and to the future. */
  function HedgeAdded(a: Account, now: Account, plan: Plan): int {
    Net(now.positions, plan.option) - Net(a.positions, plan.option)
  }

  function FutureAdded(a: Account, now: Account, plan: Plan): int {
    Net(now.positions, plan.future) - Net(a.positions, plan.future)
  }

  function Size(x: int): nat {
    if x < 0 then -x else x
  }

  /** The entry was abandoned after its future was tried: its last order sells the hedge. */
  predicate SellsHedge(fills: EntryFills) {
    fills.option.status == Complete && fills.future.status != Complete
  }

  /** Main result. For every pattern of fills, the future is never larger than the hedge until the hedge itself is
      sold. */
  lemma FutureNeverExceedsHedge(a: Account, plan: Plan, fills: EntryFills, k: nat)
    requires HonestEntry(plan, fills) && plan.option != plan.future
    requires k < |EntryTrace(a, plan, fills)|
    requires SellsHedge(fills) ==> k < |EntryTrace(a, plan, fills)| - 1
    ensures var now := EntryTrace(a, plan, fills)[k];
            0 <= Size(FutureAdded(a, now, plan)) <= HedgeAdded(a, now, plan) <= plan.quantity
  {
  }

  /** What the last account of an entry holds. */
  lemma EntryEnds(a: Account, plan: Plan, fills: EntryFills)
    requires HonestEntry(plan, fills) && plan.option != plan.future
    ensures var end := Last(EntryTrace(a, plan, fills));
            && HedgeAdded(a, end, plan)
            == (if fills.option.status != Complete then
                  fills.option.filled - (if fills.option.filled == 0 then 0 else fills.optionUnwind.filled)
                else if fills.future.status == Complete then plan.quantity
                else plan.quantity - fills.hedgeUnwind.filled)
            && Size(FutureAdded(a, end, plan))
            == (if fills.option.status != Complete then 0
                else if fills.future.status == Complete then plan.quantity
                else fills.future.filled - (if fills.future.filled == 0 then 0 else fills.futureUnwind.filled))
  {
  }

  /** Main result. If every roll-back order completes, an entry ends flat or fully hedged. */
  lemma FlatOrFullyHedged(a: Account, plan: Plan, fills: EntryFills)
    requires HonestEntry(plan, fills) && plan.option != plan.future
    requires fills.option.status != Complete && fills.option.filled > 0 ==> fills.optionUnwind.status == Complete
    requires SellsHedge(fills) ==> fills.hedgeUnwind.status == Complete
                                   && (fills.future.filled > 0 ==> fills.futureUnwind.status == Complete)
    ensures var end := Last(EntryTrace(a, plan, fills));
            if fills.option.status == Complete && fills.future.status == Complete then
              HedgeAdded(a, end, plan) == plan.quantity == Size(FutureAdded(a, end, plan))
            else
              HedgeAdded(a, end, plan) == 0 && FutureAdded(a, end, plan) == 0
  {
    EntryEnds(a, plan, fills);
    hide EntryTrace;
  }

  /** Main result. A roll-back leaves an unhedged future exactly when more of the future than of the hedge stays
      behind. */
  lemma NakedExactly(a: Account, plan: Plan, fills: EntryFills)
    requires HonestEntry(plan, fills) && plan.option != plan.future
    ensures Size(FutureAdded(a, Last(EntryTrace(a, plan, fills)), plan))
            > HedgeAdded(a, Last(EntryTrace(a, plan, fills)), plan)
       <==> SellsHedge(fills) && fills.future.filled > 0
            && fills.future.filled - fills.futureUnwind.filled > plan.quantity - fills.hedgeUnwind.filled
  {
    EntryEnds(a, plan, fills);
    hide EntryTrace;
  }

  // ---------- what is open ----------

  function OfPurpose(ledger: seq<Leg>, purpose: Purpose): seq<Leg> {
    if ledger == [] then []
    else
      var leg := ledger[|ledger| - 1];
      OfPurpose(ledger[..|ledger| - 1], purpose) + (if leg.purpose == purpose then [leg] else [])
  }

  function AllUnclosedPrimary(ledger: seq<Leg>): seq<Leg> {
    var legs := OfPurpose(ledger, Primary);
    NetUnclosed(legs, FirstSeen(TRADINGSYMBOL, legs), REAL, false)
  }

  function PrimaryLegs(ledger: seq<Leg>, symbol: string): seq<Leg> {
    WithKey(SYMBOL, OfPurpose(ledger, Primary), symbol)
  }

  function OpenPrimary(ledger: seq<Leg>, symbol: string): seq<Leg> {
    var legs := PrimaryLegs(ledger, symbol);
    NetUnclosed(legs, FirstSeen(TRADINGSYMBOL, legs), REAL, true)
  }

  /** The first hedge purchase of a basket. */
  function HedgeOf(ledger: seq<Leg>, basketId: string): Option<Leg> {
    if ledger == [] then None
    else if ledger[0].basketId == basketId && ledger[0].purpose == Hedge && ledger[0].isBuy then Some(ledger[0])
    else HedgeOf(ledger[1..], basketId)
  }

  // ---------- the exit ----------

  datatype ExitFills = ExitFills(future: Fill, hedge: Fill)

  function FutureClosed(a: Account, symbol: string, exitId: string, fills: ExitFills): Account {
    var open := OpenPrimary(a.ledger, symbol);
    if open == [] then a
    else After(a, exitId, symbol, Primary, open[0].tradingsymbol, !open[0].isBuy, open[0].quantity, fills.future)
  }

  function Exited(a: Account, symbol: string, exitId: string, fills: ExitFills): Account {
    var open := OpenPrimary(a.ledger, symbol);
    if open == [] then a
    else
      var closed := FutureClosed(a, symbol, exitId, fills);
      var hedge := HedgeOf(closed.ledger, open[0].basketId);
      if hedge.None? then closed
      else After(closed, exitId, symbol, Hedge, hedge.value.tradingsymbol, false, hedge.value.quantity, fills.hedge)
  }

  // ---------- the desk ----------

  class BasketDesk {
    var positions: map<string, int>
    var ledger: seq<Leg>

    ghost function State(): Account
      reads this
    {
      Account(positions, ledger)
    }

    constructor ()
      ensures State() == Account(map[], [])
    {
      positions, ledger := map[], [];
    }

    method Trade(basketId: string, symbol: string, purpose: Purpose, contract: string, isBuy: bool, quantity: Quantity,
                 reply: Reply)
      returns (fill: Fill)
      modifies this
      ensures fill == PlaceAndWait(reply)
      ensures State() == old(After(State(), basketId, symbol, purpose, contract, isBuy, quantity, PlaceAndWait(reply)))
    {
      if !reply.accepted {
        fill := Fill(Rejected, 0, None);
      } else {
        fill := reply.waited;
        if fill.status != Complete && fill.status != Rejected && fill.status != Cancelled && reply.cancelled.Some? {
          fill := reply.cancelled.value;
        }
      }
      var held := if contract in positions then positions[contract] else 0;
      positions := positions[contract := if isBuy then held + fill.filled else held - fill.filled];
      ledger := ledger + [Row(ledger, basketId, symbol, purpose, contract, isBuy, quantity, fill)];
    }

    method HasOpenBasket() returns (r: bool)
      ensures r == (AllUnclosedPrimary(ledger) != [])
    {
      var unclosed := NetUnclosedLegs(OfPurpose(ledger, Primary), REAL, false);
      r := unclosed != [];
    }

    /** Places the two legs and rolls back what cannot be completed; does nothing when any basket may be open. */
    method ExecuteBasketEntry(plan: Plan, gateOpen: bool, option: Reply, optionUnwind: Reply, future: Reply,
                              futureUnwind: Reply,
                              hedgeUnwind: Reply) returns (placed: bool)
      modifies this
      ensures placed == (gateOpen && old(AllUnclosedPrimary(ledger)) == [])
      ensures State() == if placed then
                           Last(old(EntryTrace(State(), plan,
                                               EntryFills(PlaceAndWait(option), PlaceAndWait(optionUnwind),
                                      PlaceAndWait(future), PlaceAndWait(futureUnwind), PlaceAndWait(hedgeUnwind)))))
                         else old(State())
    {
      hide After, PlaceAndWait, AllUnclosedPrimary;
      if !gateOpen {
        return false;
      }
      var alreadyOpen := HasOpenBasket();
      if alreadyOpen {
        return false;
      }
      placed := true;
      var optionLeg := Trade(plan.basketId, plan.symbol, Hedge, plan.option, true, plan.quantity, option);
      if optionLeg.status != Complete {
        if optionLeg.filled > 0 {
          var unwind := Trade(plan.basketId, plan.symbol, Hedge, plan.option, false, optionLeg.filled, optionUnwind);
        }
        return;
      }
      var futuresLeg := Trade(plan.basketId, plan.symbol, Primary, plan.future, plan.side == Long, plan.quantity,
                              future);
      if futuresLeg.status != Complete {
        if futuresLeg.filled > 0 {
          var unwind := Trade(plan.basketId, plan.symbol, Primary, plan.future, plan.side != Long, futuresLeg.filled,
                              futureUnwind);
        }
        var unwindLeg := Trade(plan.basketId, plan.symbol, Hedge, plan.option, false, plan.quantity, hedgeUnwind);
      }
    }

    /** Closes the first open future and then sells its hedge; exits are not gated. */
    method ExecuteBasketExit(symbol: string, exitId: string, future: Reply, hedge: Reply) returns (placed: bool)
      modifies this
      ensures placed == (old(OpenPrimary(ledger, symbol)) != [])
      ensures State() == old(Exited(State(), symbol, exitId, ExitFills(PlaceAndWait(future), PlaceAndWait(hedge))))
    {
      hide After, PlaceAndWait, NetUnclosed, HedgeOf;
      var openPrimary := NetUnclosedLegs(PrimaryLegs(ledger, symbol), REAL, true);
      if openPrimary == [] {
        return false;
      }
      placed := true;
      var primary := openPrimary[0];
      var futuresClose := Trade(exitId, symbol, Primary, primary.tradingsymbol, !primary.isBuy, primary.quantity,
                                future);
      var hedgeOpen := HedgeOf(ledger, primary.basketId);
      if hedgeOpen.Some? {
        var hedgeClose := Trade(exitId, symbol, Hedge, hedgeOpen.value.tradingsymbol, false, hedgeOpen.value.quantity,
                                hedge);
      }
    }
  }

  // ---------- the loss a basket is built to bound ----------

  function DefinedMaxLoss(side: Side, futuresPrice: real, hedgeStrike: real, hedgePremium: real, quantity: int): real {
    var gap := if side == Long then futuresPrice - hedgeStrike else hedgeStrike - futuresPrice;
    (Max(0.0, gap) + hedgePremium) * quantity as real
  }

  /** What the basket loses when the underlying expires at `price`: the future plus a put for a long, plus a call for a
      short, less the premium. */
  function LossAtExpiry(side: Side, futuresPrice: real, hedgeStrike: real, hedgePremium: real, quantity: int,
                        price: real): real {
    var futureGain := if side == Long then price - futuresPrice else futuresPrice - price;
    var optionPayoff := Max(0.0, if side == Long then hedgeStrike - price else price - hedgeStrike);
    (hedgePremium - futureGain - optionPayoff) * quantity as real
  }

  /** Main result. No expiry price loses more than the defined loss. */
  lemma LossIsBounded(side: Side, futuresPrice: real, hedgeStrike: real, hedgePremium: real, quantity: nat, price: real)
    ensures LossAtExpiry(side, futuresPrice, hedgeStrike, hedgePremium, quantity, price)
         <= DefinedMaxLoss(side, futuresPrice, hedgeStrike, hedgePremium, quantity)
  {
    var gap := if side == Long then futuresPrice - hedgeStrike else hedgeStrike - futuresPrice;
    var futureGain := if side == Long then price - futuresPrice else futuresPrice - price;
    var optionPayoff := Max(0.0, if side == Long then hedgeStrike - price else price - hedgeStrike);
    ScaleUp(hedgePremium - futureGain - optionPayoff, Max(0.0, gap) + hedgePremium, quantity as real);
  }

  lemma ScaleUp(x: real, y: real, q: real)
    requires x <= y && q >= 0.0
    ensures x * q <= y * q
  {
  }

  /** Main result. The bound is reached by some price exactly when the strike is on the protective side of the
      future. */
  lemma BoundIsTightExactly(side: Side, futuresPrice: real, hedgeStrike: real, hedgePremium: real, quantity: Quantity)
    requires hedgeStrike >= 0.0
    ensures (exists price ::
               price >= 0.0
               && LossAtExpiry(side, futuresPrice, hedgeStrike, hedgePremium, quantity, price)
                  == DefinedMaxLoss(side, futuresPrice, hedgeStrike, hedgePremium, quantity))
       <==> (if side == Long then hedgeStrike <= futuresPrice else hedgeStrike >= futuresPrice)
  {
    var protective := if side == Long then hedgeStrike <= futuresPrice else hedgeStrike >= futuresPrice;
    if protective {
      assert LossAtExpiry(side, futuresPrice, hedgeStrike, hedgePremium, quantity, hedgeStrike)
          == DefinedMaxLoss(side, futuresPrice, hedgeStrike, hedgePremium, quantity);
    } else {
      forall price: real
        ensures LossAtExpiry(side, futuresPrice, hedgeStrike, hedgePremium, quantity, price)
             != DefinedMaxLoss(side, futuresPrice, hedgeStrike, hedgePremium, quantity)
      {
        WrongSideLosesLess(side, futuresPrice, hedgeStrike, hedgePremium, quantity, price);
      }
    }
  }

  lemma WrongSideLosesLess(side: Side, futuresPrice: real, hedgeStrike: real, hedgePremium: real, quantity: Quantity,
                           price: real)
    requires if side == Long then hedgeStrike > futuresPrice else hedgeStrike < futuresPrice
    ensures LossAtExpiry(side, futuresPrice, hedgeStrike, hedgePremium, quantity, price)
          < DefinedMaxLoss(side, futuresPrice, hedgeStrike, hedgePremium, quantity)
  {
    var futureGain := if side == Long then price - futuresPrice else futuresPrice - price;
    var optionPayoff := Max(0.0, if side == Long then hedgeStrike - price else price - hedgeStrike);
    var gap := if side == Long then futuresPrice - hedgeStrike else hedgeStrike - futuresPrice;
    assert hedgePremium - futureGain - optionPayoff < Max(0.0, gap) + hedgePremium;
    assert quantity as real > 0.0;
    StrictScale(hedgePremium - futureGain - optionPayoff, Max(0.0, gap) + hedgePremium, quantity as real);
  }

  lemma StrictScale(x: real, y: real, q: real)
    requires x < y && q > 0.0
    ensures x * q < y * q
  {
  }
}
