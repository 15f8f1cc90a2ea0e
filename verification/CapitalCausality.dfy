/** Two more facts about every replay of `CapitalSimulation`: it never looks ahead, and it counts every signal once. */
module CapitalCausality {
  import opened Numeric
  import opened Ranking
  import opened CapitalSimulation
  import opened CapitalProperties

  // ---------- what is known when ----------

  /** What is known of a trade when it is entered. */
  datatype EntryView = EntryView(symbol: string, timestamp: int, price: real, prediction: int,
                                 adx: Option<real>, regimeNormalized: Option<real>, volatilityMargin: Option<real>)

  /** What is known of it when it is exited. */
  datatype ExitView = ExitView(symbol: string, timestamp: Option<int>, price: Option<real>, closed: bool,
                               pnlPercent: Option<real>)

  function AtEntry(t: Trade): EntryView {
    EntryView(t.symbol, t.entryTimestamp, t.entryPrice, t.predictionAtEntry, t.adx, t.regimeNormalized,
              t.volatilityMargin)
  }

  function AtExit(t: Trade): ExitView {
    ExitView(t.symbol, t.exitTimestamp, t.exitPrice, t.closed, t.pnlPercent)
  }

  predicate SameEntries(xs: seq<Trade>, ys: seq<Trade>) {
    |xs| == |ys| && forall i :: 0 <= i < |xs| ==> AtEntry(xs[i]) == AtEntry(ys[i])
  }

  predicate SameExits(xs: seq<Trade>, ys: seq<Trade>) {
    |xs| == |ys| && forall i :: 0 <= i < |xs| ==> AtExit(xs[i]) == AtExit(ys[i])
  }

  /** The two histories show the same entries and the same exits at `time`. */
  predicate SameAt(xs: seq<Trade>, ys: seq<Trade>, time: int) {
    SameEntries(EntriesAt(xs, time), EntriesAt(ys, time)) && SameExits(ExitsAt(xs, time), ExitsAt(ys, time))
  }

  // ---------- the account sees no more than that ----------

  lemma {:induction false} ExitsAgree(config: Config, a: Account, xs: seq<Trade>, ys: seq<Trade>)
    requires SameExits(xs, ys)
    ensures Exits(config, a, xs) == Exits(config, a, ys)
  {
    hide Settle;
    if xs != [] {
      ExitsAgree(config, a, xs[..|xs| - 1], ys[..|ys| - 1]);
      assert AtExit(xs[|xs| - 1]) == AtExit(ys[|ys| - 1]);
    }
  }

  lemma {:induction false} EligibleAgree(a: Account, xs: seq<Trade>, ys: seq<Trade>)
    requires SameEntries(xs, ys)
    ensures SameEntries(EligibleTrades(a, xs), EligibleTrades(a, ys))
    ensures IneligibleCount(a, xs) == IneligibleCount(a, ys)
  {
    hide Eligible;
    if xs != [] {
      EligibleAgree(a, xs[..|xs| - 1], ys[..|ys| - 1]);
      assert AtEntry(xs[|xs| - 1]) == AtEntry(ys[|ys| - 1]);
    }
  }

  lemma {:induction false} BySymbolAgree(xs: seq<Trade>, ys: seq<Trade>, symbol: string)
    requires SameEntries(xs, ys)
    ensures BySymbol(xs, symbol).Some? == BySymbol(ys, symbol).Some?
    ensures BySymbol(xs, symbol).Some? ==> AtEntry(BySymbol(xs, symbol).value) == AtEntry(BySymbol(ys, symbol).value)
  {
    if xs != [] {
      BySymbolAgree(xs[..|xs| - 1], ys[..|ys| - 1], symbol);
      assert AtEntry(xs[|xs| - 1]) == AtEntry(ys[|ys| - 1]);
    }
  }

  lemma {:induction false} LookupAgree(xs: seq<Trade>, ys: seq<Trade>, ranked: seq<RankedCandidate>)
    requires SameEntries(xs, ys)
    ensures SameEntries(Lookup(xs, ranked), Lookup(ys, ranked))
  {
    if ranked != [] {
      LookupAgree(xs, ys, ranked[..|ranked| - 1]);
      BySymbolAgree(xs, ys, ranked[|ranked| - 1].symbol);
    }
  }

  lemma OrderedAgree(config: Config, xs: seq<Trade>, ys: seq<Trade>)
    requires SameEntries(xs, ys)
    ensures SameEntries(Ordered(config, xs).0, Ordered(config, ys).0) && Ordered(config, xs).1 == Ordered(config, ys).1
  {
    hide ScoreCandidate, RankCandidates;
    forall i | 0 <= i < |xs|
      ensures Candidate(xs[i]) == Candidate(ys[i])
    {
      assert AtEntry(xs[i]) == AtEntry(ys[i]);
    }
    assert Candidates(xs) == Candidates(ys);
    var ranked := RankCandidates(Candidates(xs));
    LookupAgree(xs, ys, ranked[..Cutoff(ScoreCandidate, ranked, config.minScore)]);
  }

  lemma {:induction false} OpenAllAgree(config: Config, a: Account, xs: seq<Trade>, ys: seq<Trade>)
    requires config.targetSlots != 0 && Priced(xs) && Priced(ys) && SameEntries(xs, ys)
    ensures OpenAll(config, a, xs) == OpenAll(config, a, ys)
  {
    if xs != [] {
      OpenAllAgree(config, a, xs[..|xs| - 1], ys[..|ys| - 1]);
      var account := OpenAll(config, a, xs[..|xs| - 1]);
      OpenAgrees(config, account, xs[|xs| - 1], ys[|ys| - 1]);
    }
  }

  lemma OpenAgrees(config: Config, a: Account, x: Trade, y: Trade)
    requires config.targetSlots != 0 && x.entryPrice != 0.0 && y.entryPrice != 0.0 && AtEntry(x) == AtEntry(y)
    ensures Open(config, a, x) == Open(config, a, y)
  {
    hide Quantity, PositionSize, Value;
  }

  lemma EntriesForm(config: Config, a: Account, trades: seq<Trade>)
    requires config.targetSlots != 0 && Priced(trades)
    ensures Priced(Ordered(config, EligibleTrades(a, trades)).0)
    ensures Entries(config, a, trades)
         == OpenAll(config, Counted(config, a, trades), Ordered(config, EligibleTrades(a, trades)).0)
  {
    hide OpenAll, Ordered, EligibleTrades, Priced;
    OrderedPriced(config, a, trades);
  }

  lemma EntriesAgree(config: Config, a: Account, xs: seq<Trade>, ys: seq<Trade>)
    requires config.targetSlots != 0 && Priced(xs) && Priced(ys) && SameEntries(xs, ys)
    ensures Entries(config, a, xs) == Entries(config, a, ys)
  {
    hide Entries, OpenAll, EligibleTrades, Ordered, Priced, SameEntries;
    EntriesForm(config, a, xs);
    EntriesForm(config, a, ys);
    EligibleAgree(a, xs, ys);
    OrderedAgree(config, EligibleTrades(a, xs), EligibleTrades(a, ys));
    assert Counted(config, a, xs) == Counted(config, a, ys);
    OpenAllAgree(config, Counted(config, a, xs), Ordered(config, EligibleTrades(a, xs)).0,
                 Ordered(config, EligibleTrades(a, ys)).0);
  }

  lemma CycleAgrees(config: Config, a: Account, xs: seq<Trade>, ys: seq<Trade>, time: int)
    requires config.targetSlots != 0 && Priced(xs) && Priced(ys) && SameAt(xs, ys, time)
    ensures Cycle(config, xs, a, time) == Cycle(config, ys, a, time)
  {
    hide Exits, Entries, SameEntries, SameExits;
    ExitsAgree(config, a, ExitsAt(xs, time), ExitsAt(ys, time));
    EntriesAgree(config, Exits(config, a, ExitsAt(xs, time)), EntriesAt(xs, time), EntriesAt(ys, time));
  }

  lemma {:induction false} CyclesAgree(config: Config, xs: seq<Trade>, ys: seq<Trade>, times: seq<int>)
    requires config.targetSlots != 0 && Priced(xs) && Priced(ys)
    requires forall i :: 0 <= i < |times| ==> SameAt(xs, ys, times[i])
    ensures Cycles(config, xs, times) == Cycles(config, ys, times)
  {
    hide Cycle, SameAt, Priced;
    if times != [] {
      var before := times[..|times| - 1];
      CyclesAgree(config, xs, ys, before);
      CycleAgrees(config, Cycles(config, xs, before), xs, ys, times[|times| - 1]);
    }
  }

  // ---------- no look-ahead ----------

  function UpTo(times: set<int>, now: int): set<int> {
    set x | x in times && x <= now
  }

  /** The account once every timestamp at or before `now` has been replayed. */
  ghost function StateAfter(config: Config, trades: seq<Trade>, now: int): Account
    requires config.targetSlots != 0 && Priced(BuyTrades(trades))
  {
    Cycles(config, BuyTrades(trades), Sorted(UpTo(Times(BuyTrades(trades)), now)))
  }

  /** That is a state the replay passes through: its timestamps are the first ones of the whole run. */
  lemma {:induction false} StateAfterIsOnTheRun(times: set<int>, now: int)
    ensures Sorted(UpTo(times, now)) <= Sorted(times)
    decreases |times|
  {
    if times == {} {
      assert UpTo(times, now) == {};
    } else {
      var last := Last(times);
      if last <= now {
        assert UpTo(times, now) == times;
      } else {
        StateAfterIsOnTheRun(times - {last}, now);
        assert UpTo(times, now) == UpTo(times - {last}, now);
      }
    }
  }

  /** Main result. Two trade histories that show the same entries and exits up to a moment leave the account in the same
      state at that moment, whatever their trades do later. */
  lemma NoLookAhead(config: Config, xs: seq<Trade>, ys: seq<Trade>, now: int)
    requires config.targetSlots != 0 && Priced(BuyTrades(xs)) && Priced(BuyTrades(ys))
    requires forall time :: time <= now ==> SameAt(BuyTrades(xs), BuyTrades(ys), time)
    ensures StateAfter(config, xs, now) == StateAfter(config, ys, now)
  {
    hide Cycles, Priced;
    var buysX, buysY := BuyTrades(xs), BuyTrades(ys);
    forall time | time <= now
      ensures time in Times(buysX) <==> time in Times(buysY)
    {
      TimesAreGroups(buysX, time);
      TimesAreGroups(buysY, time);
      assert SameAt(buysX, buysY, time);
    }
    assert UpTo(Times(buysX), now) == UpTo(Times(buysY), now);
    CyclesAgree(config, buysX, buysY, Sorted(UpTo(Times(buysX), now)));
  }

  // ---------- every signal is counted once ----------

  function TotalSignals(t: Tally): nat {
    t.taken + t.skippedIneligible + t.skippedNoCapital + t.skippedBelowFloor
  }

  /** Entries for a symbol that is already held, which no counter records. */
  function HeldCount(a: Account, trades: seq<Trade>): nat {
    if trades == [] then 0
    else HeldCount(a, trades[..|trades| - 1]) + (if trades[|trades| - 1].symbol in a.positions then 1 else 0)
  }

  ghost function HeldSkips(config: Config, trades: seq<Trade>, times: seq<int>): nat
    requires config.targetSlots != 0 && Priced(trades)
  {
    if times == [] then 0
    else
      var before := times[..|times| - 1];
      var time := times[|times| - 1];
      HeldSkips(config, trades, before)
          + HeldCount(Exits(config, Cycles(config, trades, before), ExitsAt(trades, time)), EntriesAt(trades, time))
  }

  lemma {:induction false} EligibleSplit(a: Account, trades: seq<Trade>)
    ensures |EligibleTrades(a, trades)| + IneligibleCount(a, trades) + HeldCount(a, trades) == |trades|
  {
    if trades != [] {
      EligibleSplit(a, trades[..|trades| - 1]);
    }
  }

  lemma {:induction false} ExitsCountNothing(config: Config, a: Account, exits: seq<Trade>)
    ensures TotalSignals(Exits(config, a, exits).tally) == TotalSignals(a.tally)
  {
    hide Pnl, CostPaid;
    if exits != [] {
      ExitsCountNothing(config, a, exits[..|exits| - 1]);
    }
  }

  lemma {:induction false} OpensCountEach(config: Config, a: Account, entries: seq<Trade>)
    requires config.targetSlots != 0 && Priced(entries)
    ensures TotalSignals(OpenAll(config, a, entries).tally) == TotalSignals(a.tally) + |entries|
  {
    hide Opens, Quantity;
    if entries != [] {
      OpensCountEach(config, a, entries[..|entries| - 1]);
    }
  }

  lemma {:induction false} LookupFindsAll(trades: seq<Trade>, ranked: seq<RankedCandidate>)
    requires forall c :: c in ranked ==> exists i :: 0 <= i < |trades| && trades[i].symbol == c.symbol
    ensures |Lookup(trades, ranked)| == |ranked|
  {
    if ranked != [] {
      var last := ranked[|ranked| - 1];
      assert last in ranked;
      assert forall c :: c in ranked[..|ranked| - 1] ==> c in ranked;
      LookupFindsAll(trades, ranked[..|ranked| - 1]);
      BySymbolInside(trades, last.symbol);
    }
  }

  /** Ranking and the floor neither lose nor add a trade. */
  lemma OrderedCounts(config: Config, eligible: seq<Trade>)
    ensures |Ordered(config, eligible).0| + Ordered(config, eligible).1 == |eligible|
  {
    hide ScoreCandidate, Lookup;
    if config.useRanking {
      var candidates := Candidates(eligible);
      RankingIsStableSort(ScoreCandidate, candidates, 0.0);
      var ranked := RankCandidates(candidates);
      assert |multiset(ranked)| == |ranked| && |multiset(candidates)| == |candidates|;
      var kept := ranked[..Cutoff(ScoreCandidate, ranked, config.minScore)];
      forall c | c in kept
        ensures exists i :: 0 <= i < |eligible| && eligible[i].symbol == c.symbol
      {
        assert c in multiset(ranked);
        assert c in multiset(candidates);
        var i :| 0 <= i < |candidates| && candidates[i] == c;
        assert eligible[i].symbol == c.symbol;
      }
      LookupFindsAll(eligible, kept);
    }
  }

  lemma CycleCounts(config: Config, trades: seq<Trade>, a: Account, time: int)
    requires config.targetSlots != 0 && Priced(trades)
    ensures TotalSignals(Cycle(config, trades, a, time).tally)
            + HeldCount(Exits(config, a, ExitsAt(trades, time)), EntriesAt(trades, time))
         == TotalSignals(a.tally) + |EntriesAt(trades, time)|
  {
    var exited := Exits(config, a, ExitsAt(trades, time));
    var candidates := EntriesAt(trades, time);
    ExitsCountNothing(config, a, ExitsAt(trades, time));
    EligibleSplit(exited, candidates);
    OrderedCounts(config, EligibleTrades(exited, candidates));
    OrderedPriced(config, exited, candidates);
    hide Exits, OpenAll, EligibleTrades, Ordered, Priced;
    OpensCountEach(config, Counted(config, exited, candidates), Ordered(config, EligibleTrades(exited, candidates)).0);
  }

  function EnteredIn(trades: seq<Trade>, times: set<int>): nat {
    if trades == [] then 0
    else EnteredIn(trades[..|trades| - 1], times) + (if trades[|trades| - 1].entryTimestamp in times then 1 else 0)
  }

  lemma {:induction false} EnteredInMore(trades: seq<Trade>, times: set<int>, time: int)
    requires time !in times
    ensures EnteredIn(trades, times + {time}) == EnteredIn(trades, times) + |EntriesAt(trades, time)|
  {
    if trades != [] {
      EnteredInMore(trades[..|trades| - 1], times, time);
    }
  }

  lemma {:induction false} EnteredInNone(trades: seq<Trade>)
    ensures EnteredIn(trades, {}) == 0
  {
    if trades != [] {
      EnteredInNone(trades[..|trades| - 1]);
    }
  }

  lemma {:induction false} EnteredInAll(trades: seq<Trade>, times: set<int>)
    requires forall t :: t in trades ==> t.entryTimestamp in times
    ensures EnteredIn(trades, times) == |trades|
  {
    if trades != [] {
      EnteredInAll(trades[..|trades| - 1], times);
    }
  }

  lemma {:induction false} CyclesCount(config: Config, trades: seq<Trade>, times: seq<int>)
    requires config.targetSlots != 0 && Priced(trades) && Ascending(times)
    ensures TotalSignals(Cycles(config, trades, times).tally) + HeldSkips(config, trades, times)
         == EnteredIn(trades, set x | x in times)
  {
    hide Cycle, Exits, TotalSignals, EnteredIn, HeldCount, Priced;
    if times != [] {
      var before := times[..|times| - 1];
      var time := times[|times| - 1];
      CyclesCount(config, trades, before);
      CycleCounts(config, trades, Cycles(config, trades, before), time);
      EnteredInMore(trades, (set x | x in before), time);
      assert times == before + [time];
      assert (set x | x in times) == (set x | x in before) + {time};
    } else {
      EnteredInNone(trades);
      assert (set x | x in times) == {};
      NothingSignalled();
    }
  }

  lemma NothingSignalled()
    ensures TotalSignals(NOTHING) == 0
  {
  }

  /** Main result. Every BUY trade is taken, skipped for one recorded reason, or skipped because its symbol is held. */
  lemma EverySignalCountedOnce(config: Config, trades: seq<Trade>)
    requires config.targetSlots != 0 && Priced(BuyTrades(trades))
    ensures var buys := BuyTrades(trades);
            TotalSignals(Simulate(config, trades).tally) + HeldSkips(config, buys, Sorted(Times(buys))) == |buys|
  {
    hide Cycles, HeldSkips, Priced;
    var buys := BuyTrades(trades);
    var times := Sorted(Times(buys));
    CyclesCount(config, buys, times);
    EnteredInAll(buys, set x | x in times);
  }
}
