/** When the replay of `CapitalSimulation` conserves money: an exact condition on the events of the run. */
module CapitalBooks {
  import opened CapitalSimulation
  import opened CapitalProperties

  // ---------- the condition ----------

  /** Every exit that finds a position has a price. */
  predicate ExitsSettle(config: Config, a: Account, exits: seq<Trade>) {
    exits == [] ||
    (var before := exits[..|exits| - 1];
     var t := exits[|exits| - 1];
     && ExitsSettle(config, a, before)
     && (t.symbol in Exits(config, a, before).positions ==> t.exitPrice.Some?))
  }

  /** No funded entry finds its symbol held. */
  ghost predicate OpensFresh(config: Config, a: Account, entries: seq<Trade>)
    requires config.targetSlots != 0 && Priced(entries)
  {
    entries == [] ||
    (var before := entries[..|entries| - 1];
     var t := entries[|entries| - 1];
     && OpensFresh(config, a, before)
     && (t.symbol in OpenAll(config, a, before).positions ==> !Opens(config, OpenAll(config, a, before), t)))
  }

  ghost predicate CycleKeepsBooks(config: Config, trades: seq<Trade>, a: Account, time: int)
    requires config.targetSlots != 0 && Priced(trades)
  {
    var exited := Exits(config, a, ExitsAt(trades, time));
    var candidates := EntriesAt(trades, time);
    OrderedPriced(config, exited, candidates);
    && ExitsSettle(config, a, ExitsAt(trades, time))
    && OpensFresh(config, Counted(config, exited, candidates), Ordered(config, EligibleTrades(exited, candidates)).0)
  }

  /** Every exit of the run that finds a position has a price, and no funded entry finds its symbol held. */
  ghost predicate RunKeepsBooks(config: Config, trades: seq<Trade>, times: seq<int>)
    requires config.targetSlots != 0 && Priced(trades)
  {
    times == [] ||
    (var before := times[..|times| - 1];
     && RunKeepsBooks(config, trades, before)
     && CycleKeepsBooks(config, trades, Cycles(config, trades, before), times[|times| - 1]))
  }

  // ---------- it decides whether anything is lost ----------

  /** Nothing is lost just when no position is. */
  predicate Blameless(l: Loss, kept: bool) {
    (kept <==> l.positions == 0) && (kept ==> l == NO_LOSS)
  }

  lemma NothingBlamed()
    ensures Blameless(NO_LOSS, true)
  {
  }

  lemma BothBlameless(x: Loss, keptX: bool, y: Loss, keptY: bool)
    requires Blameless(x, keptX) && Blameless(y, keptY)
    ensures Blameless(Plus(x, y), keptX && keptY)
  {
  }

  lemma DroppedBlameless(a: Account, symbol: string, loses: bool)
    ensures Blameless(Dropped(a, symbol, loses), symbol in a.positions ==> !loses)
  {
  }

  lemma {:induction false} ExitsLossExactly(config: Config, a: Account, exits: seq<Trade>)
    ensures Blameless(ExitsLoss(config, a, exits), ExitsSettle(config, a, exits))
  {
    hide Exits, Blameless, Plus, Dropped;
    if exits == [] {
      NothingBlamed();
    } else {
      var before, t := exits[..|exits| - 1], exits[|exits| - 1];
      var account := Exits(config, a, before);
      ExitsLossExactly(config, a, before);
      DroppedBlameless(account, t.symbol, t.exitPrice.None?);
      BothBlameless(ExitsLoss(config, a, before), ExitsSettle(config, a, before),
                    Dropped(account, t.symbol, t.exitPrice.None?), t.symbol in account.positions ==> t.exitPrice.Some?);
    }
  }

  lemma {:induction false} OpensLossExactly(config: Config, a: Account, entries: seq<Trade>)
    requires config.targetSlots != 0 && Priced(entries)
    ensures Blameless(OpensLoss(config, a, entries), OpensFresh(config, a, entries))
  {
    hide OpenAll, Opens, Blameless, Plus, Dropped;
    if entries == [] {
      NothingBlamed();
    } else {
      var before, t := entries[..|entries| - 1], entries[|entries| - 1];
      var account := OpenAll(config, a, before);
      OpensLossExactly(config, a, before);
      DroppedBlameless(account, t.symbol, Opens(config, account, t));
      BothBlameless(OpensLoss(config, a, before), OpensFresh(config, a, before),
                    Dropped(account, t.symbol, Opens(config, account, t)),
                    t.symbol in account.positions ==> !Opens(config, account, t));
    }
  }

  lemma CycleLossExactly(config: Config, trades: seq<Trade>, a: Account, time: int)
    requires config.targetSlots != 0 && Priced(trades)
    ensures Blameless(CycleLoss(config, trades, a, time), CycleKeepsBooks(config, trades, a, time))
  {
    hide Exits, ExitsLoss, OpensLoss, ExitsSettle, OpensFresh, EligibleTrades, Ordered, Counted, Blameless, Plus;
    var exits := ExitsAt(trades, time);
    var exited := Exits(config, a, exits);
    var candidates := EntriesAt(trades, time);
    OrderedPriced(config, exited, candidates);
    var counted, entries := Counted(config, exited, candidates), Ordered(config, EligibleTrades(exited, candidates)).0;
    ExitsLossExactly(config, a, exits);
    OpensLossExactly(config, counted, entries);
    BothBlameless(ExitsLoss(config, a, exits), ExitsSettle(config, a, exits),
                  OpensLoss(config, counted, entries), OpensFresh(config, counted, entries));
  }

  lemma {:induction false} CyclesLossExactly(config: Config, trades: seq<Trade>, times: seq<int>)
    requires config.targetSlots != 0 && Priced(trades)
    ensures Blameless(CyclesLoss(config, trades, times), RunKeepsBooks(config, trades, times))
  {
    hide Cycles, CycleLoss, CycleKeepsBooks, Blameless, Plus, Priced;
    if times == [] {
      NothingBlamed();
    } else {
      var before, time := times[..|times| - 1], times[|times| - 1];
      var a := Cycles(config, trades, before);
      CyclesLossExactly(config, trades, before);
      CycleLossExactly(config, trades, a, time);
      BothBlameless(CyclesLoss(config, trades, before), RunKeepsBooks(config, trades, before),
                    CycleLoss(config, trades, a, time), CycleKeepsBooks(config, trades, a, time));
    }
  }

  /** Main result. After any run the books balance without exception exactly when every exit that found a position had a
      price and no funded entry found its symbol held. */
  lemma BooksBalanceExactly(config: Config, trades: seq<Trade>, times: seq<int>)
    requires config.targetSlots != 0 && Priced(trades)
    ensures Balanced(config.initialCapital, Cycles(config, trades, times), NO_LOSS)
       <==> RunKeepsBooks(config, trades, times)
  {
    hide Cycles, CyclesLoss, Allocated, RunKeepsBooks;
    MoneyIsConserved(config, trades, times);
    CyclesLossExactly(config, trades, times);
  }

  // ---------- with positive prices a lost position is lost money ----------

  /** Every open position holds money. */
  ghost predicate Backed(a: Account) {
    forall s :: s in a.positions ==> a.positions[s].capitalAllocated > 0.0
  }

  /** Money is lost with every lost position and with nothing else. */
  predicate Costly(l: Loss) {
    l.capital >= 0.0 && (l.capital == 0.0 <==> l.positions == 0)
  }

  lemma {:induction false} ExitsCostly(config: Config, a: Account, exits: seq<Trade>)
    requires Backed(a)
    ensures Backed(Exits(config, a, exits)) && Costly(ExitsLoss(config, a, exits))
  {
    if exits != [] {
      ExitsCostly(config, a, exits[..|exits| - 1]);
    }
  }

  lemma OpenBacked(config: Config, a: Account, t: Trade)
    requires config.targetSlots != 0 && t.entryPrice > 0.0 && Backed(a)
    ensures Backed(Open(config, a, t))
  {
    hide PositionSize, Quantity;
    if Opens(config, a, t) {
      BoughtShares(Quantity(config, a, t.entryPrice), t.entryPrice);
    }
  }

  lemma BoughtShares(quantity: int, price: real)
    requires quantity >= 1 && price > 0.0
    ensures Value(quantity, price) > 0.0
  {
  }

  lemma {:induction false} OpensCostly(config: Config, a: Account, entries: seq<Trade>)
    requires config.targetSlots != 0 && PositiveEntries(entries) && Backed(a)
    ensures Backed(OpenAll(config, a, entries)) && Costly(OpensLoss(config, a, entries))
  {
    hide Open, Opens;
    if entries != [] {
      var before := entries[..|entries| - 1];
      OpensCostly(config, a, before);
      OpenBacked(config, OpenAll(config, a, before), entries[|entries| - 1]);
    }
  }

  lemma CycleCostly(config: Config, trades: seq<Trade>, a: Account, time: int)
    requires config.targetSlots != 0 && PositiveEntries(trades) && Backed(a)
    ensures Backed(Cycle(config, trades, a, time)) && Costly(CycleLoss(config, trades, a, time))
  {
    hide Exits, ExitsLoss, OpensLoss, OpenAll, EligibleTrades, Ordered;
    var exited := Exits(config, a, ExitsAt(trades, time));
    var candidates := EntriesAt(trades, time);
    ExitsCostly(config, a, ExitsAt(trades, time));
    OrderedPriced(config, exited, candidates);
    var entries := Ordered(config, EligibleTrades(exited, candidates)).0;
    forall i | 0 <= i < |entries|
      ensures entries[i].entryPrice > 0.0
    {
      EligibleInside(exited, candidates, entries[i]);
    }
    OpensCostly(config, Counted(config, exited, candidates), entries);
  }

  lemma {:induction false} CyclesCostly(config: Config, trades: seq<Trade>, times: seq<int>)
    requires config.targetSlots != 0 && PositiveEntries(trades)
    ensures Backed(Cycles(config, trades, times)) && Costly(CyclesLoss(config, trades, times))
  {
    hide Cycle, CycleLoss;
    if times != [] {
      var before := times[..|times| - 1];
      CyclesCostly(config, trades, before);
      CycleCostly(config, trades, Cycles(config, trades, before), times[|times| - 1]);
    }
  }

  /** Main result. With positive entry prices, equity is initial capital plus profit exactly under the same
      condition. */
  lemma EquityExactly(config: Config, trades: seq<Trade>, times: seq<int>)
    requires config.targetSlots != 0 && PositiveEntries(trades)
    ensures Equity(Cycles(config, trades, times)) == config.initialCapital + Cycles(config, trades, times).tally.pnl
       <==> RunKeepsBooks(config, trades, times)
  {
    hide Cycles, CyclesLoss, Equity, RunKeepsBooks;
    MoneyIsConserved(config, trades, times);
    CyclesLossExactly(config, trades, times);
    CyclesCostly(config, trades, times);
  }
}
