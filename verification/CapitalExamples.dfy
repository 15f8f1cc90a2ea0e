/** Replays of `CapitalSimulation` that lose money or overdraw: five wins make a symbol eligible, and the trades after
    them are funded. */
module CapitalExamples {
  import opened Numeric
  import opened CapitalSimulation
  import opened CapitalProperties
  import opened CapitalSolvency

  // ---------- the trades ----------

  /** A symbol's trade that enters at `entry` at price 1 and exits at `exit`. */
  function Example(entry: int, exit: int, exitPrice: real, pnlPercent: real): Trade {
    Trade("X", true, entry, 1.0, 0, None, None, None, Some(exit), Some(exitPrice), true, Some(pnlPercent))
  }

  function Winner(): Trade {
    Example(1, 2, 2.0, 100.0)
  }

  function Loser(): Trade {
    Example(3, 4, 0.0, -100.0)
  }

  function FiveWinners(): seq<Trade> {
    seq(5, _ => Winner())
  }

  /** Five winners, and then other trades of the symbol. */
  function FiveThen(tail: seq<Trade>): seq<Trade> {
    FiveWinners() + tail
  }

  /** Trades that enter at 3 at price 1 and exit at 4. */
  predicate Late(tail: seq<Trade>) {
    tail != [] &&
    forall i :: 0 <= i < |tail| ==>
      && tail[i].symbol == "X" && tail[i].isBuy && tail[i].entryTimestamp == 3 && tail[i].entryPrice == 1.0
      && tail[i].exitTimestamp == Some(4)
  }

  // ---------- the timeline ----------

  lemma OneMoreTrade(trades: seq<Trade>, t: Trade, time: int)
    ensures EntriesAt(trades + [t], time) == EntriesAt(trades, time) + (if t.entryTimestamp == time then [t] else [])
    ensures ExitsAt(trades + [t], time) == ExitsAt(trades, time) + (if t.exitTimestamp == Some(time) then [t] else [])
    ensures BuyTrades(trades + [t]) == BuyTrades(trades) + (if t.isBuy then [t] else [])
  {
    assert (trades + [t])[..|trades|] == trades;
  }

  lemma NoTrades(time: int)
    ensures EntriesAt([], time) == [] && ExitsAt([], time) == [] && BuyTrades([]) == []
  {
  }

  lemma {:induction false} Repeated(t: Trade, n: nat, time: int)
    ensures EntriesAt(seq(n, _ => t), time) == if t.entryTimestamp == time then seq(n, _ => t) else []
    ensures ExitsAt(seq(n, _ => t), time) == if t.exitTimestamp == Some(time) then seq(n, _ => t) else []
    ensures t.isBuy ==> BuyTrades(seq(n, _ => t)) == seq(n, _ => t)
  {
    hide EntriesAt, ExitsAt, BuyTrades;
    if n == 0 {
      NoTrades(time);
      assert seq(0, _ => t) == [];
    } else {
      Repeated(t, n - 1, time);
      OneMoreTrade(seq(n - 1, _ => t), t, time);
      assert seq(n, _ => t) == seq(n - 1, _ => t) + [t];
    }
  }

  lemma TailGrows(tail: seq<Trade>)
    requires Late(tail)
    ensures var before, last := tail[..|tail| - 1], tail[|tail| - 1];
            && (before == [] || Late(before)) && last.isBuy && last.entryTimestamp == 3 && last.exitTimestamp == Some(4)
            && FiveThen(tail) == FiveThen(before) + [last] && tail == before + [last]
  {
    hide FiveWinners;
  }

  lemma {:induction false} ExampleAt(tail: seq<Trade>, time: int)
    requires tail == [] || Late(tail)
    ensures BuyTrades(FiveThen(tail)) == FiveThen(tail)
    ensures EntriesAt(FiveThen(tail), time) == if time == 1 then FiveWinners() else if time == 3 then tail else []
    ensures ExitsAt(FiveThen(tail), time) == if time == 2 then FiveWinners() else if time == 4 then tail else []
  {
    hide EntriesAt, ExitsAt, BuyTrades, FiveThen, Late;
    if tail == [] {
      NothingAfterWinners();
      Repeated(Winner(), 5, time);
    } else {
      hide FiveWinners;
      TailGrows(tail);
      var before, last := tail[..|tail| - 1], tail[|tail| - 1];
      ExampleAt(before, time);
      OneMoreTrade(FiveThen(before), last, time);
    }
  }

  lemma NothingAfterWinners()
    ensures FiveThen([]) == FiveWinners()
  {
  }

  lemma SortedStep(times: set<int>, last: int)
    requires last in times && forall x :: x in times ==> x <= last
    ensures Sorted(times) == Sorted(times - {last}) + [last]
  {
  }

  function UpTo(n: nat): seq<int> {
    if n == 0 then [] else UpTo(n - 1) + [n]
  }

  lemma {:induction false} SortedUpTo(times: set<int>, n: nat)
    requires forall x :: x in times <==> 1 <= x <= n
    ensures Sorted(times) == UpTo(n)
  {
    if n == 0 {
      assert forall x :: x !in times;
      assert times == {};
    } else {
      assert Sorted(times - {n}) == UpTo(n - 1) by { SortedUpTo(times - {n}, n - 1); }
      assert Sorted(times) == Sorted(times - {n}) + [n] by { SortedStep(times, n); }
    }
  }

  lemma UpToFour()
    ensures UpTo(4) == [1, 2, 3, 4]
  {
    assert UpTo(0) == [] && UpTo(1) == [1] && UpTo(2) == [1, 2] && UpTo(3) == [1, 2, 3];
  }

  lemma ExampleIsPriced(tail: seq<Trade>)
    requires Late(tail)
    ensures Priced(FiveThen(tail)) && Priced(tail) && Priced(FiveWinners())
  {
  }

  /** The replay of the example goes through four timestamps. */
  lemma ExampleSimulated(config: Config, tail: seq<Trade>)
    requires config.targetSlots != 0 && Late(tail)
    ensures Priced(FiveThen(tail)) && Priced(BuyTrades(FiveThen(tail)))
    ensures Simulate(config, FiveThen(tail)) == Cycles(config, FiveThen(tail), [1, 2, 3, 4])
  {
    hide EntriesAt, ExitsAt, Times, Sorted, FiveThen, FiveWinners, BuyTrades, Cycles;
    ExampleIsPriced(tail);
    ExampleAt(tail, 1);
    forall time
      ensures time in Times(FiveThen(tail)) <==> 1 <= time <= 4
    {
      ExampleAt(tail, time);
      SomeWinners();
      TimesAreGroups(FiveThen(tail), time);
    }
    SortedUpTo(Times(FiveThen(tail)), 4);
    UpToFour();
  }

  lemma SomeWinners()
    ensures FiveWinners() != []
  {
  }

  lemma CycleStep(config: Config, trades: seq<Trade>, times: seq<int>, time: int)
    requires config.targetSlots != 0 && Priced(trades)
    ensures Priced(EntriesAt(trades, time))
    ensures Cycles(config, trades, times + [time])
         == Entries(config, Exits(config, Cycles(config, trades, times), ExitsAt(trades, time)),
                    EntriesAt(trades, time))
  {
    hide Entries, Exits;
    assert (times + [time])[..|times|] == times;
  }

  lemma NoCycle(config: Config, trades: seq<Trade>)
    requires config.targetSlots != 0 && Priced(trades)
    ensures Cycles(config, trades, []) == Fresh(config)
  {
  }

  lemma NoExits(config: Config, a: Account)
    ensures Exits(config, a, []) == a
  {
  }

  // ---------- the wins ----------

  lemma {:induction false} NobodyEligible(a: Account, trades: seq<Trade>)
    requires a.history == map[] && a.positions == map[]
    ensures EligibleTrades(a, trades) == []
  {
    if trades != [] {
      NobodyEligible(a, trades[..|trades| - 1]);
    }
  }

  lemma {:induction false} WinsAddUp(config: Config, a: Account, win: Trade, n: nat)
    requires a.positions == map[] && a.history == map[] && win.closed && win.pnlPercent == Some(100.0)
    ensures Exits(config, a, seq(n, _ => win))
         == if n == 0 then a else a.(history := map[win.symbol := seq(n, _ => 100.0)])
  {
    if n > 0 {
      WinsAddUp(config, a, win, n - 1);
      assert seq(n, _ => win)[..n - 1] == seq(n - 1, _ => win);
      var before := Exits(config, a, seq(n - 1, _ => win));
      assert HistoryOf(before, win.symbol) + [100.0] == seq(n, _ => 100.0);
      assert before.positions - {win.symbol} == map[];
      assert before.history[win.symbol := seq(n, _ => 100.0)] == map[win.symbol := seq(n, _ => 100.0)];
    }
  }

  lemma {:induction false} OnlyWins(n: nat)
    ensures Wins(seq(n, _ => 100.0)) == n
  {
    if n > 0 {
      assert seq(n, _ => 100.0)[..n - 1] == seq(n - 1, _ => 100.0);
      OnlyWins(n - 1);
    }
  }

  lemma NobodyEnters(config: Config, wins: seq<Trade>)
    requires config.targetSlots != 0 && !config.useRanking && Priced(wins)
    ensures var one := Entries(config, Fresh(config), wins);
            one.cash == config.initialCapital && one.positions == map[] && one.history == map[] && one.tally.pnl == 0.0
  {
    NobodyEligible(Fresh(config), wins);
    hide EligibleTrades, Quantity, Opens;
  }

  /** The symbol has its history, and nothing has been bought. */
  predicate Ready(config: Config, a: Account) {
    && a.cash == config.initialCapital && a.positions == map[] && a.history == map["X" := seq(5, _ => 100.0)]
    && a.tally.pnl == 0.0
  }

  lemma ExampleWins(config: Config, tail: seq<Trade>)
    requires config.targetSlots != 0 && !config.useRanking && Late(tail) && Priced(FiveThen(tail))
    ensures Ready(config, Cycles(config, FiveThen(tail), [1, 2]))
  {
    hide Entries, Exits, Exit, Cycles, EntriesAt, ExitsAt, Fresh, FiveThen;
    var trades := FiveThen(tail);
    ExampleAt(tail, 1);
    ExampleAt(tail, 2);
    assert [] + [1] == [1] && [1] + [2] == [1, 2];
    CycleStep(config, trades, [], 1);
    CycleStep(config, trades, [1], 2);
    NoCycle(config, trades);
    NoExits(config, Fresh(config));
    NobodyEnters(config, FiveWinners());
    var one := Cycles(config, trades, [1]);
    WinsAddUp(config, one, Winner(), 5);
    NoEntries(config, Exits(config, one, FiveWinners()));
  }

  /** From there on the trades enter at 3 and leave at 4. */
  lemma ExampleEnds(config: Config, tail: seq<Trade>)
    requires config.targetSlots != 0 && !config.useRanking && Late(tail)
    ensures Priced(BuyTrades(FiveThen(tail))) && Priced(tail)
    ensures exists two :: Ready(config, two)
                          && Simulate(config, FiveThen(tail)) == Exits(config, Entries(config, two, tail), tail)
  {
    hide Entries, Exits, Exit, Cycles, EntriesAt, ExitsAt, Fresh, FiveThen, Late, Ready, Simulate;
    var trades := FiveThen(tail);
    ExampleSimulated(config, tail);
    ExampleIsPriced(tail);
    ExampleWins(config, tail);
    ExampleAt(tail, 3);
    ExampleAt(tail, 4);
    assert [1, 2] + [3] == [1, 2, 3] && [1, 2, 3] + [4] == [1, 2, 3, 4];
    CycleStep(config, trades, [1, 2], 3);
    CycleStep(config, trades, [1, 2, 3], 4);
    var two := Cycles(config, trades, [1, 2]);
    NoExits(config, two);
    NoEntries(config, Exits(config, Entries(config, two, tail), tail));
  }

  // ---------- one trade funded with everything ----------

  const ALL_IN := Config(100.0, 1, 0.0, false, 0.0, true)

  lemma OneExit(config: Config, a: Account, t: Trade)
    ensures Exits(config, a, [t]) == Exit(config, a, t)
  {
    hide Exit;
    assert [t][..0] == [];
  }

  lemma IsEligible(a: Account)
    requires a.positions == map[] && a.history == map["X" := seq(5, _ => 100.0)]
    ensures Eligible(HistoryOf(a, "X"))
  {
    OnlyWins(5);
  }

  lemma OneMoreEligible(a: Account, before: seq<Trade>, t: Trade)
    requires t.symbol !in a.positions && Eligible(HistoryOf(a, t.symbol))
    ensures EligibleTrades(a, before + [t]) == EligibleTrades(a, before) + [t]
  {
    hide Eligible, HistoryOf;
    assert (before + [t])[..|before|] == before;
  }

  lemma Twins(a: Account, t: Trade)
    requires t.symbol !in a.positions && Eligible(HistoryOf(a, t.symbol))
    ensures EligibleTrades(a, [t]) == [t] && EligibleTrades(a, [t, t]) == [t, t]
  {
    NoneEligible(a);
    hide EligibleTrades, Eligible, HistoryOf;
    OneMoreEligible(a, [], t);
    OneMoreEligible(a, [t], t);
    assert [] + [t] == [t] && [t] + [t] == [t, t];
  }

  lemma NoneEligible(a: Account)
    ensures EligibleTrades(a, []) == []
  {
  }

  lemma EntersWithEverything(two: Account, t: Trade)
    requires Ready(ALL_IN, two) && t.symbol == "X" && t.entryPrice == 1.0
    ensures var funded := Entries(ALL_IN, two, [t]);
            funded.cash == 0.0 && funded.positions == map["X" := OpenPosition(1.0, 100, 100.0)]
                && funded.tally.pnl == 0.0
  {
    IsEligible(two);
    Twins(two, t);
    assert [t][..0] == [];
    var counted := Counted(ALL_IN, two, [t]);
    assert PositionSize(ALL_IN, counted) == 100.0;
    assert Quantity(ALL_IN, counted, 1.0) == 100;
    assert OpenAll(ALL_IN, counted, [t]) == Open(ALL_IN, counted, t);
  }

  /** A trade that exits worthless. */
  function OverdrawingTrades(): seq<Trade> {
    FiveThen([Loser()])
  }

  lemma OverdrawingIsSane()
    ensures SanePrices(OverdrawingTrades()) && Late([Loser()])
  {
  }

  lemma WorthlessExit(a: Account)
    requires a.cash == 0.0 && a.positions == map["X" := OpenPosition(1.0, 100, 100.0)]
    ensures Exit(ALL_IN, a, Loser()).cash < 0.0
  {
    assert Pnl(ALL_IN, OpenPosition(1.0, 100, 100.0), 0.0) < -100.0;
  }

  /** Main result. With costs on, cash can end below zero on a run that starts with money and sane prices: the
      condition of `SolventExactly` is not empty. */
  lemma CostsCanOverdraw()
    ensures SanePrices(OverdrawingTrades()) && Simulate(ALL_IN, OverdrawingTrades()).cash < 0.0
  {
    hide Simulate, Entries, Exits, Exit, SanePrices, Late;
    OverdrawingIsSane();
    ExampleEnds(ALL_IN, [Loser()]);
    var two :| Ready(ALL_IN, two) && Simulate(ALL_IN, FiveThen([Loser()]))
        == Exits(ALL_IN, Entries(ALL_IN, two, [Loser()]), [Loser()]);
    EntersWithEverything(two, Loser());
    OneExit(ALL_IN, Entries(ALL_IN, two, [Loser()]), Loser());
    WorthlessExit(Entries(ALL_IN, two, [Loser()]));
  }

  /** A trade whose exit is stored without a price. */
  function UnpricedTrades(): seq<Trade> {
    FiveThen([Loser().(exitPrice := None)])
  }

  lemma UnpricedExit(a: Account, t: Trade)
    requires a.cash == 0.0 && a.positions == map["X" := OpenPosition(1.0, 100, 100.0)] && a.tally.pnl == 0.0
    requires t == Loser().(exitPrice := None)
    ensures var end := Exit(ALL_IN, a, t);
            Equity(end) == 0.0 && end.tally.pnl == 0.0
  {
    assert a.positions - {"X"} == map[];
  }

  /** An exit without a price makes the money in the position disappear: neither equity nor profit accounts for it. */
  lemma UnpricedExitLosesMoney()
    ensures Priced(BuyTrades(UnpricedTrades()))
    ensures var end := Simulate(ALL_IN, UnpricedTrades());
            Equity(end) == 0.0 && end.tally.pnl == 0.0 && ALL_IN.initialCapital == 100.0
  {
    hide Simulate, Entries, Exits, Exit, Equity, BuyTrades;
    var t := Loser().(exitPrice := None);
    ExampleEnds(ALL_IN, [t]);
    var two :| Ready(ALL_IN, two) && Simulate(ALL_IN, FiveThen([t])) == Exits(ALL_IN, Entries(ALL_IN, two, [t]), [t]);
    EntersWithEverything(two, t);
    OneExit(ALL_IN, Entries(ALL_IN, two, [t]), t);
    UnpricedExit(Entries(ALL_IN, two, [t]), t);
  }

  // ---------- one symbol entered twice at one timestamp ----------

  const TWO_SLOTS := Config(100.0, 2, 0.0, false, 0.0, false)

  function DoubleTrades(): seq<Trade> {
    FiveThen([Loser(), Loser()])
  }

  lemma HalfOpens(a: Account, t: Trade)
    requires Equity(a) == 100.0 && a.cash >= 50.0 && t.symbol == "X" && t.entryPrice == 1.0
    ensures var r := Open(TWO_SLOTS, a, t);
            && r.cash == a.cash - 50.0 && r.positions == a.positions["X" := OpenPosition(1.0, 50, 50.0)]
            && r.tally.pnl == a.tally.pnl
  {
    hide Equity;
    assert PositionSize(TWO_SLOTS, a) == 50.0;
    assert Quantity(TWO_SLOTS, a, 1.0) == 50;
  }

  lemma OneHeld(a: Account)
    requires a.cash == 50.0 && a.positions == map["X" := OpenPosition(1.0, 50, 50.0)]
    ensures Equity(a) == 100.0
  {
    AllocatedWithout(a.positions, "X");
    assert a.positions - {"X"} == map[];
  }

  lemma NoneHeld(a: Account)
    requires a.positions == map[]
    ensures Equity(a) == a.cash
  {
  }

  lemma OpenBoth(a: Account, t: Trade)
    requires t.entryPrice != 0.0
    ensures OpenAll(TWO_SLOTS, a, [t, t]) == Open(TWO_SLOTS, Open(TWO_SLOTS, a, t), t)
  {
    hide Open;
    assert [t, t][..1] == [t] && [t][..0] == [];
    assert OpenAll(TWO_SLOTS, a, []) == a;
    assert OpenAll(TWO_SLOTS, a, [t]) == Open(TWO_SLOTS, a, t);
  }

  /** Both entries are funded with half of the money, and the second replaces the first. */
  lemma EntersTwice(two: Account, t: Trade)
    requires Ready(TWO_SLOTS, two) && t.symbol == "X" && t.entryPrice == 1.0
    ensures var funded := Entries(TWO_SLOTS, two, [t, t]);
            funded.cash == 0.0 && funded.positions == map["X" := OpenPosition(1.0, 50, 50.0)] && funded.tally.pnl == 0.0
  {
    hide Open, OpenAll, EligibleTrades, IneligibleCount, Equity, Eligible;
    IsEligible(two);
    Twins(two, t);
    var counted := Counted(TWO_SLOTS, two, [t, t]);
    NoneHeld(counted);
    HalfOpens(counted, t);
    var once := Open(TWO_SLOTS, counted, t);
    OneHeld(once);
    HalfOpens(once, t);
    OpenBoth(counted, t);
  }

  /** The first exit settles what is held at a price of zero, the second finds nothing. */
  lemma ExitsTwice(a: Account)
    requires a.cash == 0.0 && a.positions == map["X" := OpenPosition(1.0, 50, 50.0)] && a.tally.pnl == 0.0
    ensures var end := Exits(TWO_SLOTS, a, [Loser(), Loser()]);
            Equity(end) == 0.0 && end.tally.pnl == -50.0
  {
    hide Exit, Equity;
    assert [Loser(), Loser()][..1] == [Loser()];
    OneExit(TWO_SLOTS, a, Loser());
    WorthlessHalf(a);
    NothingToExit(Exit(TWO_SLOTS, a, Loser()));
    NoneHeld(Exit(TWO_SLOTS, Exit(TWO_SLOTS, a, Loser()), Loser()));
  }

  lemma WorthlessHalf(a: Account)
    requires a.cash == 0.0 && a.positions == map["X" := OpenPosition(1.0, 50, 50.0)] && a.tally.pnl == 0.0
    ensures var end := Exit(TWO_SLOTS, a, Loser());
            end.positions == map[] && end.cash == 0.0 && end.tally.pnl == -50.0
  {
    assert a.positions - {"X"} == map[];
  }

  lemma NothingToExit(a: Account)
    requires a.positions == map[]
    ensures var end := Exit(TWO_SLOTS, a, Loser());
            end.positions == map[] && end.cash == a.cash && end.tally == a.tally
  {
    assert a.positions - {"X"} == map[];
  }

  /** A second funded entry for a symbol makes the money of the first disappear. */
  lemma SecondEntryLosesMoney()
    ensures Priced(BuyTrades(DoubleTrades()))
    ensures var end := Simulate(TWO_SLOTS, DoubleTrades());
            Equity(end) == 0.0 && end.tally.pnl == -50.0 && TWO_SLOTS.initialCapital == 100.0
  {
    hide Simulate, Entries, Exits, Equity, BuyTrades;
    var t := Loser();
    ExampleEnds(TWO_SLOTS, [t, t]);
    var two :| Ready(TWO_SLOTS, two)
               && Simulate(TWO_SLOTS, FiveThen([t, t])) == Exits(TWO_SLOTS, Entries(TWO_SLOTS, two, [t, t]), [t, t]);
    EntersTwice(two, t);
    ExitsTwice(Entries(TWO_SLOTS, two, [t, t]));
  }
}
