/** When a replay of `CapitalSimulation` can run out of cash: never with costs off, and with costs on exactly when
    some exit does not pay for itself. */
module CapitalSolvency {
  import opened Ranking
  import opened CapitalSimulation
  import opened CapitalProperties

  // ---------- solvency ----------

  /** Cash is not negative, and every position holds exactly what was paid for it. */
  ghost predicate Solvent(a: Account) {
    && a.cash >= 0.0
    && forall s :: s in a.positions ==> Funded(a.positions[s])
  }

  predicate Funded(p: OpenPosition) {
    p.capitalAllocated == Value(p.quantity, p.entryPrice) && p.quantity >= 1 && p.entryPrice > 0.0
  }

  predicate SanePrices(trades: seq<Trade>) {
    forall i :: 0 <= i < |trades| ==>
      trades[i].entryPrice > 0.0 && (trades[i].exitPrice.Some? ==> trades[i].exitPrice.value >= 0.0)
  }

  lemma ExitSolvent(config: Config, a: Account, t: Trade)
    requires Solvent(a) && !config.applyRealisticCosts && (t.exitPrice.Some? ==> t.exitPrice.value >= 0.0)
    ensures Solvent(Exit(config, a, t))
  {
    if t.symbol in a.positions && t.exitPrice.Some? {
      var p := a.positions[t.symbol];
      assert Funded(p);
      assert p.capitalAllocated + Pnl(config, p, t.exitPrice.value) == p.quantity as real * t.exitPrice.value;
      assert p.quantity as real * t.exitPrice.value >= 0.0;
    }
  }

  lemma {:induction false} ExitsSolvent(config: Config, a: Account, exits: seq<Trade>)
    requires Solvent(a) && !config.applyRealisticCosts && SanePrices(exits)
    ensures Solvent(Exits(config, a, exits))
  {
    hide Solvent, Exit;
    if exits != [] {
      ExitsSolvent(config, a, exits[..|exits| - 1]);
      ExitSolvent(config, Exits(config, a, exits[..|exits| - 1]), exits[|exits| - 1]);
    }
  }

  /** The whole number of shares a position size buys never costs more than the position size. */
  lemma SharesFit(size: real, price: real)
    requires price > 0.0
    ensures Truncate(size / price) >= 1 ==> Value(Truncate(size / price), price) <= size
  {
    var shares := size / price;
    assert shares * price == size;
    if Truncate(shares) >= 1 {
      assert shares >= 0.0 && (shares.Floor as real) <= shares;
      assert (shares.Floor as real) * price <= shares * price;
    }
  }

  lemma OpenSolvent(config: Config, a: Account, t: Trade)
    requires config.targetSlots != 0 && t.entryPrice > 0.0 && Solvent(a)
    ensures Solvent(Open(config, a, t))
  {
    SharesFit(PositionSize(config, a), t.entryPrice);
    hide PositionSize, Truncate, Value;
  }

  lemma {:induction false} OpensSolvent(config: Config, a: Account, entries: seq<Trade>)
    requires config.targetSlots != 0 && PositiveEntries(entries) && Solvent(a)
    ensures Solvent(OpenAll(config, a, entries))
  {
    hide Solvent, Open;
    if entries != [] {
      OpensSolvent(config, a, entries[..|entries| - 1]);
      OpenSolvent(config, OpenAll(config, a, entries[..|entries| - 1]), entries[|entries| - 1]);
    }
  }

  /** Main result. With costs off, the account never borrows. */
  lemma {:induction false} CashNeverNegative(config: Config, trades: seq<Trade>, times: seq<int>)
    requires config.targetSlots != 0 && config.initialCapital >= 0.0 && !config.applyRealisticCosts
          && SanePrices(trades)
    ensures Solvent(Cycles(config, trades, times))
  {
    hide Cycle, Solvent;
    if times != [] {
      CashNeverNegative(config, trades, times[..|times| - 1]);
      CycleSolvent(config, trades, Cycles(config, trades, times[..|times| - 1]), times[|times| - 1]);
    } else {
      FreshSolvent(config);
    }
  }

  lemma FreshSolvent(config: Config)
    requires config.initialCapital >= 0.0
    ensures Solvent(Fresh(config))
  {
  }

  lemma CycleSolvent(config: Config, trades: seq<Trade>, a: Account, time: int)
    requires config.targetSlots != 0 && !config.applyRealisticCosts && SanePrices(trades) && Solvent(a)
    ensures Solvent(Cycle(config, trades, a, time))
  {
    hide Solvent, Exits, Entries;
    ExitsSolvent(config, a, ExitsAt(trades, time));
    EntriesSolvent(config, Exits(config, a, ExitsAt(trades, time)), EntriesAt(trades, time));
  }

  lemma OnlyTallyDiffers(a: Account, b: Account)
    requires Solvent(a) && a.cash == b.cash && a.positions == b.positions
    ensures Solvent(b)
  {
  }

  // ---------- solvency, exactly ----------

  /** Cash and the proceeds of the exit cover its costs; an exit that settles nothing costs nothing. */
  predicate Pays(config: Config, a: Account, t: Trade) {
    t.symbol in a.positions && t.exitPrice.Some? ==>
      var p := a.positions[t.symbol];
      a.cash + Value(p.quantity, t.exitPrice.value) >= CostPaid(config, p, t.exitPrice.value)
  }

  lemma ExitSolventExactly(config: Config, a: Account, t: Trade)
    requires Solvent(a)
    ensures Solvent(Exit(config, a, t)) <==> Pays(config, a, t)
  {
    hide RoundTripCost;
    if t.symbol in a.positions && t.exitPrice.Some? {
      var p, price := a.positions[t.symbol], t.exitPrice.value;
      assert Funded(p);
      ProceedsSplit(p.quantity, p.entryPrice, price);
    }
  }

  lemma ProceedsSplit(quantity: int, entryPrice: real, exitPrice: real)
    ensures Value(quantity, entryPrice) + Value(quantity, exitPrice - entryPrice) == Value(quantity, exitPrice)
  {
  }

  /** The account is solvent after each of the exits. */
  ghost predicate ExitsStaySolvent(config: Config, a: Account, exits: seq<Trade>) {
    exits == [] || (ExitsStaySolvent(config, a, exits[..|exits| - 1]) && Solvent(Exits(config, a, exits)))
  }

  predicate ExitsPay(config: Config, a: Account, exits: seq<Trade>) {
    exits == [] || (ExitsPay(config, a, exits[..|exits| - 1])
                    && Pays(config, Exits(config, a, exits[..|exits| - 1]), exits[|exits| - 1]))
  }

  /** It is solvent after every exit and after every cycle of the run. */
  ghost predicate StaysSolvent(config: Config, trades: seq<Trade>, times: seq<int>)
    requires config.targetSlots != 0 && Priced(trades)
  {
    times == [] ||
    (var before := times[..|times| - 1];
     && StaysSolvent(config, trades, before)
     && ExitsStaySolvent(config, Cycles(config, trades, before), ExitsAt(trades, times[|times| - 1]))
     && Solvent(Cycles(config, trades, times)))
  }

  /** Every exit of the run pays for itself. */
  ghost predicate EveryExitPays(config: Config, trades: seq<Trade>, times: seq<int>)
    requires config.targetSlots != 0 && Priced(trades)
  {
    times == [] ||
    (var before := times[..|times| - 1];
     && EveryExitPays(config, trades, before)
     && ExitsPay(config, Cycles(config, trades, before), ExitsAt(trades, times[|times| - 1])))
  }

  lemma {:induction false} ExitsSolventExactly(config: Config, a: Account, exits: seq<Trade>)
    requires Solvent(a)
    ensures ExitsStaySolvent(config, a, exits) <==> ExitsPay(config, a, exits)
    ensures ExitsPay(config, a, exits) ==> Solvent(Exits(config, a, exits))
  {
    hide Solvent, Exit, Pays;
    if exits != [] {
      var before := exits[..|exits| - 1];
      ExitsSolventExactly(config, a, before);
      if ExitsPay(config, a, before) {
        ExitSolventExactly(config, Exits(config, a, before), exits[|exits| - 1]);
      }
    }
  }

  lemma EntriesSolvent(config: Config, a: Account, candidates: seq<Trade>)
    requires config.targetSlots != 0 && PositiveEntries(candidates) && Solvent(a)
    ensures Solvent(Entries(config, a, candidates))
  {
    hide Solvent, OpenAll, ScoreCandidate, Eligible;
    var entries := Ordered(config, EligibleTrades(a, candidates)).0;
    forall i | 0 <= i < |entries|
      ensures entries[i].entryPrice > 0.0
    {
      EligibleInside(a, candidates, entries[i]);
    }
    OnlyTallyDiffers(a, Counted(config, a, candidates));
    OpensSolvent(config, Counted(config, a, candidates), entries);
  }

  /** Main result. With costs on or off, the account is solvent throughout a run exactly when every exit of the run
      pays for itself. */
  lemma {:induction false} SolventExactly(config: Config, trades: seq<Trade>, times: seq<int>)
    requires config.targetSlots != 0 && config.initialCapital >= 0.0 && PositiveEntries(trades)
    ensures StaysSolvent(config, trades, times) <==> EveryExitPays(config, trades, times)
    ensures EveryExitPays(config, trades, times) ==> Solvent(Cycles(config, trades, times))
  {
    hide Solvent, Exits, ExitsPay, ExitsStaySolvent, Entries;
    if times == [] {
      FreshSolvent(config);
    } else {
      var before := times[..|times| - 1];
      var time := times[|times| - 1];
      SolventExactly(config, trades, before);
      if EveryExitPays(config, trades, before) {
        ExitsSolventExactly(config, Cycles(config, trades, before), ExitsAt(trades, time));
        if ExitsPay(config, Cycles(config, trades, before), ExitsAt(trades, time)) {
          EntriesSolvent(config, Exits(config, Cycles(config, trades, before), ExitsAt(trades, time)),
                         EntriesAt(trades, time));
        }
      }
    }
  }
}
