/** The books of every replay of `CapitalSimulation`: they balance up to named losses, and nothing is
    lost on clean histories. */
module CapitalProperties {
  import opened Ranking
  import opened CapitalSimulation

  // ---------- conservation ----------

  /** Capital and positions the books lose: a held position dropped by an exit without a price, or replaced by a second
      entry for its symbol. */
  datatype Loss = Loss(capital: real, positions: nat)

  const NO_LOSS := Loss(0.0, 0)

  function Plus(x: Loss, y: Loss): Loss {
    Loss(x.capital + y.capital, x.positions + y.positions)
  }

  function Dropped(a: Account, symbol: string, loses: bool): Loss {
    if symbol in a.positions && loses then Loss(a.positions[symbol].capitalAllocated, 1) else NO_LOSS
  }

  function ExitsLoss(config: Config, a: Account, exits: seq<Trade>): Loss {
    if exits == [] then NO_LOSS
    else
      var t := exits[|exits| - 1];
      var before := exits[..|exits| - 1];
      Plus(ExitsLoss(config, a, before), Dropped(Exits(config, a, before), t.symbol, t.exitPrice.None?))
  }

  ghost function OpensLoss(config: Config, a: Account, entries: seq<Trade>): Loss
    requires config.targetSlots != 0 && Priced(entries)
  {
    if entries == [] then NO_LOSS
    else
      var t := entries[|entries| - 1];
      var before := entries[..|entries| - 1];
      var account := OpenAll(config, a, before);
      Plus(OpensLoss(config, a, before), Dropped(account, t.symbol, Opens(config, account, t)))
  }

  /** The account and the entries `Entries` hands to `OpenAll`. */
  function Counted(config: Config, a: Account, trades: seq<Trade>): Account {
    a.(tally := a.tally.(skippedIneligible := a.tally.skippedIneligible + IneligibleCount(a, trades),
                         skippedBelowFloor := a.tally.skippedBelowFloor + Ordered(config, EligibleTrades(a, trades)).1))
  }

  ghost function CycleLoss(config: Config, trades: seq<Trade>, a: Account, time: int): Loss
    requires config.targetSlots != 0 && Priced(trades)
  {
    var exited := Exits(config, a, ExitsAt(trades, time));
    var candidates := EntriesAt(trades, time);
    OrderedPriced(config, exited, candidates);
    Plus(ExitsLoss(config, a, ExitsAt(trades, time)),
         OpensLoss(config, Counted(config, exited, candidates), Ordered(config, EligibleTrades(exited, candidates)).0))
  }

  ghost function CyclesLoss(config: Config, trades: seq<Trade>, times: seq<int>): Loss
    requires config.targetSlots != 0 && Priced(trades)
  {
    if times == [] then NO_LOSS
    else
      var before := times[..|times| - 1];
      Plus(CyclesLoss(config, trades, before),
           CycleLoss(config, trades, Cycles(config, trades, before), times[|times| - 1]))
  }

  /** Cash, capital in positions and lost capital come to the initial capital plus the profit, and every position taken
      is decided, still open or lost. */
  ghost predicate Balanced(initial: real, a: Account, lost: Loss) {
    && Equity(a) + lost.capital == initial + a.tally.pnl
    && a.tally.taken == a.tally.wins + a.tally.losses + |a.positions| + lost.positions
  }

  lemma ExitBalances(config: Config, initial: real, a: Account, t: Trade, lost: Loss)
    requires Balanced(initial, a, lost)
    ensures Balanced(initial, Exit(config, a, t), Plus(lost, Dropped(a, t.symbol, t.exitPrice.None?)))
  {
    hide RoundTripCost, Value;
    if t.symbol in a.positions {
      AllocatedWithout(a.positions, t.symbol);
      assert |a.positions - {t.symbol}| == |a.positions| - 1 by {
        assert (a.positions - {t.symbol}).Keys == a.positions.Keys - {t.symbol};
        assert |a.positions.Keys - {t.symbol}| == |a.positions.Keys| - 1;
      }
    } else {
      assert a.positions - {t.symbol} == a.positions;
    }
  }

  lemma {:induction false} ExitsBalance(config: Config, initial: real, a: Account, exits: seq<Trade>, lost: Loss)
    requires Balanced(initial, a, lost)
    ensures Balanced(initial, Exits(config, a, exits), Plus(lost, ExitsLoss(config, a, exits)))
  {
    hide Balanced, Exit, Dropped;
    if exits != [] {
      var before := exits[..|exits| - 1];
      var t := exits[|exits| - 1];
      ExitsBalance(config, initial, a, before, lost);
      var account := Exits(config, a, before);
      ExitBalances(config, initial, account, t, Plus(lost, ExitsLoss(config, a, before)));
      assert Plus(Plus(lost, ExitsLoss(config, a, before)), Dropped(account, t.symbol, t.exitPrice.None?))
          == Plus(lost, ExitsLoss(config, a, exits));
    } else {
      assert Plus(lost, NO_LOSS) == lost;
    }
  }

  lemma OpenBalances(config: Config, initial: real, a: Account, t: Trade, lost: Loss)
    requires config.targetSlots != 0 && t.entryPrice != 0.0
    requires Balanced(initial, a, lost)
    ensures Balanced(initial, Open(config, a, t), Plus(lost, Dropped(a, t.symbol, Opens(config, a, t))))
  {
    hide Quantity, Opens, Value, Allocated;
    var p := Acquire(config, a, t).positions[t.symbol];
    ReplacePosition(a.positions, t.symbol, p);
  }

  /** What putting a position into the dictionary does to its total and its size. */
  lemma ReplacePosition(positions: map<string, OpenPosition>, symbol: string, p: OpenPosition)
    ensures Allocated(positions[symbol := p])
         == Allocated(positions) + p.capitalAllocated
             - (if symbol in positions then positions[symbol].capitalAllocated else 0.0)
    ensures |positions[symbol := p]| == |positions| + (if symbol in positions then 0 else 1)
  {
    hide Allocated;
    var grown := positions[symbol := p];
    AllocatedWithout(grown, symbol);
    assert grown - {symbol} == positions - {symbol};
    if symbol in positions {
      AllocatedWithout(positions, symbol);
      assert grown.Keys == positions.Keys;
    } else {
      assert positions - {symbol} == positions;
      assert grown.Keys == positions.Keys + {symbol};
    }
    assert |grown| == |grown.Keys| && |positions| == |positions.Keys|;
  }

  lemma {:induction false} OpensBalance(config: Config, initial: real, a: Account, entries: seq<Trade>, lost: Loss)
    requires config.targetSlots != 0 && Priced(entries)
    requires Balanced(initial, a, lost)
    ensures Balanced(initial, OpenAll(config, a, entries), Plus(lost, OpensLoss(config, a, entries)))
  {
    hide Balanced, Open, Dropped, Opens;
    if entries != [] {
      var before := entries[..|entries| - 1];
      var t := entries[|entries| - 1];
      OpensBalance(config, initial, a, before, lost);
      var account := OpenAll(config, a, before);
      OpenBalances(config, initial, account, t, Plus(lost, OpensLoss(config, a, before)));
      assert Plus(Plus(lost, OpensLoss(config, a, before)), Dropped(account, t.symbol, Opens(config, account, t)))
          == Plus(lost, OpensLoss(config, a, entries));
    } else {
      assert Plus(lost, NO_LOSS) == lost;
    }
  }

  lemma CycleBalances(config: Config, initial: real, trades: seq<Trade>, a: Account, time: int, lost: Loss)
    requires config.targetSlots != 0 && Priced(trades)
    requires Balanced(initial, a, lost)
    ensures Balanced(initial, Cycle(config, trades, a, time), Plus(lost, CycleLoss(config, trades, a, time)))
  {
    var exits := ExitsAt(trades, time);
    var candidates := EntriesAt(trades, time);
    ExitsBalance(config, initial, a, exits, lost);
    var exited := Exits(config, a, exits);
    OrderedPriced(config, exited, candidates);
    hide Exits, ExitsLoss, OpenAll, OpensLoss, EligibleTrades, Ordered, Priced;
    var entries := Ordered(config, EligibleTrades(exited, candidates)).0;
    var counted := Counted(config, exited, candidates);
    var lostInExits := Plus(lost, ExitsLoss(config, a, exits));
    OpensBalance(config, initial, counted, entries, lostInExits);
    assert Plus(lostInExits, OpensLoss(config, counted, entries)) == Plus(lost, CycleLoss(config, trades, a, time));
  }

  /** Main result. After every timestamp of every replay the books balance up to the named losses. */
  lemma {:induction false} MoneyIsConserved(config: Config, trades: seq<Trade>, times: seq<int>)
    requires config.targetSlots != 0 && Priced(trades)
    ensures Balanced(config.initialCapital, Cycles(config, trades, times), CyclesLoss(config, trades, times))
  {
    hide Balanced, Cycle, CycleLoss, Priced;
    if times != [] {
      var before := times[..|times| - 1];
      MoneyIsConserved(config, trades, before);
      CycleBalances(config, config.initialCapital, trades, Cycles(config, trades, before), times[|times| - 1],
                    CyclesLoss(config, trades, before));
    } else {
      NothingHeld(config);
    }
  }

  lemma NothingHeld(config: Config)
    ensures Balanced(config.initialCapital, Fresh(config), NO_LOSS)
  {
  }

  predicate PositiveEntries(trades: seq<Trade>) {
    forall i :: 0 <= i < |trades| ==> trades[i].entryPrice > 0.0
  }

  // ---------- when nothing is lost ----------

  /** Every exit has a price, and no symbol has two entries at one timestamp. */
  predicate Clean(trades: seq<Trade>) {
    && (forall i :: 0 <= i < |trades| && trades[i].exitTimestamp.Some? ==> trades[i].exitPrice.Some?)
    && (forall i, j :: 0 <= i < j < |trades| && trades[i].symbol == trades[j].symbol
                       ==> trades[i].entryTimestamp != trades[j].entryTimestamp)
  }

  predicate DistinctTrades(trades: seq<Trade>) {
    forall i, j :: 0 <= i < j < |trades| ==> trades[i].symbol != trades[j].symbol
  }

  predicate DistinctCandidates(candidates: seq<RankedCandidate>) {
    forall i, j :: 0 <= i < j < |candidates| ==> candidates[i].symbol != candidates[j].symbol
  }

  lemma {:induction false} ExitsLoseNothing(config: Config, a: Account, exits: seq<Trade>)
    requires forall i :: 0 <= i < |exits| ==> exits[i].exitPrice.Some?
    ensures ExitsLoss(config, a, exits) == NO_LOSS
  {
    if exits != [] {
      ExitsLoseNothing(config, a, exits[..|exits| - 1]);
    }
  }

  function Symbols(trades: seq<Trade>): set<string> {
    set i | 0 <= i < |trades| :: trades[i].symbol
  }

  lemma OpenKeys(config: Config, a: Account, t: Trade)
    requires config.targetSlots != 0 && t.entryPrice != 0.0
    ensures Open(config, a, t).positions.Keys <= a.positions.Keys + {t.symbol}
  {
    hide Opens, Acquire;
  }

  lemma {:induction false} OpenAllKeys(config: Config, a: Account, entries: seq<Trade>)
    requires config.targetSlots != 0 && Priced(entries)
    ensures OpenAll(config, a, entries).positions.Keys <= a.positions.Keys + Symbols(entries)
  {
    hide Open;
    if entries != [] {
      var before := entries[..|entries| - 1];
      OpenAllKeys(config, a, before);
      OpenKeys(config, OpenAll(config, a, before), entries[|entries| - 1]);
      assert Symbols(entries) == Symbols(before) + {entries[|entries| - 1].symbol};
    }
  }

  lemma {:induction false} OpensLoseNothing(config: Config, a: Account, entries: seq<Trade>)
    requires config.targetSlots != 0 && Priced(entries)
    requires DistinctTrades(entries)
    requires forall i :: 0 <= i < |entries| ==> entries[i].symbol !in a.positions
    ensures OpensLoss(config, a, entries) == NO_LOSS
  {
    hide OpenAll, Opens;
    if entries != [] {
      var before := entries[..|entries| - 1];
      var t := entries[|entries| - 1];
      OpensLoseNothing(config, a, before);
      OpenAllKeys(config, a, before);
      assert t.symbol !in Symbols(before);
    }
  }

  lemma {:induction false} EligibleDistinct(a: Account, trades: seq<Trade>)
    requires DistinctTrades(trades)
    ensures DistinctTrades(EligibleTrades(a, trades))
    ensures forall i :: 0 <= i < |EligibleTrades(a, trades)| ==>
                          exists j :: 0 <= j < |trades| && EligibleTrades(a, trades)[i].symbol == trades[j].symbol
  {
    hide Eligible;
    if trades != [] {
      EligibleDistinct(a, trades[..|trades| - 1]);
    }
  }

  lemma {:induction false} InsertDistinct(x: RankedCandidate, sorted: seq<RankedCandidate>)
    requires DistinctCandidates([x] + sorted)
    ensures DistinctCandidates(Insert(ScoreCandidate, x, sorted))
    ensures forall c :: c in Insert(ScoreCandidate, x, sorted) <==> c == x || c in sorted
  {
    hide ScoreCandidate;
    if sorted != [] && ScoreCandidate(sorted[0]) > ScoreCandidate(x) {
      assert ([x] + sorted)[0] == x && forall i :: 0 <= i < |sorted| ==> ([x] + sorted)[i + 1] == sorted[i];
      assert DistinctCandidates([x] + sorted[1..]);
      InsertDistinct(x, sorted[1..]);
      var rest := Insert(ScoreCandidate, x, sorted[1..]);
      forall j | 0 <= j < |rest|
        ensures sorted[0].symbol != rest[j].symbol
      {
        assert rest[j] == ([x] + sorted)[0] || rest[j] in sorted[1..];
      }
    }
  }

  lemma {:induction false} RankedDistinct(candidates: seq<RankedCandidate>)
    requires DistinctCandidates(candidates)
    ensures DistinctCandidates(RankCandidates(candidates))
    ensures forall c :: c in RankCandidates(candidates) <==> c in candidates
  {
    hide ScoreCandidate;
    if candidates != [] {
      RankedDistinct(candidates[1..]);
      var sorted := RankCandidates(candidates[1..]);
      assert forall i :: 0 <= i < |sorted| ==> sorted[i] in candidates[1..];
      InsertDistinct(candidates[0], sorted);
    }
  }

  /** Looking distinct symbols up in a dictionary finds each trade once. */
  lemma {:induction false} LookupDistinct(trades: seq<Trade>, ranked: seq<RankedCandidate>)
    requires DistinctCandidates(ranked)
    ensures DistinctTrades(Lookup(trades, ranked))
    ensures forall i :: 0 <= i < |Lookup(trades, ranked)| ==>
                          exists j :: 0 <= j < |ranked| && Lookup(trades, ranked)[i].symbol == ranked[j].symbol
  {
    if ranked != [] {
      LookupDistinct(trades, ranked[..|ranked| - 1]);
      BySymbolInside(trades, ranked[|ranked| - 1].symbol);
    }
  }

  lemma OrderedDistinct(config: Config, a: Account, trades: seq<Trade>)
    requires DistinctTrades(trades)
    ensures DistinctTrades(Ordered(config, EligibleTrades(a, trades)).0)
    ensures forall i :: 0 <= i < |Ordered(config, EligibleTrades(a, trades)).0| ==>
                          Ordered(config, EligibleTrades(a, trades)).0[i].symbol !in a.positions
  {
    hide ScoreCandidate, RankCandidates, EligibleTrades, Lookup;
    EligibleDistinct(a, trades);
    var eligible := EligibleTrades(a, trades);
    var entries := Ordered(config, eligible).0;
    if config.useRanking {
      RankedDistinct(Candidates(eligible));
      LookupDistinct(eligible, RankCandidates(Candidates(eligible))[..Cutoff(ScoreCandidate,
                                                                             RankCandidates(Candidates(eligible)),
                                                                             config.minScore)]);
    }
    forall i | 0 <= i < |entries|
      ensures entries[i].symbol !in a.positions
    {
      EligibleInside(a, trades, entries[i]);
    }
  }

  lemma {:induction false} EntriesDistinct(trades: seq<Trade>, time: int)
    requires Clean(trades)
    ensures DistinctTrades(EntriesAt(trades, time))
  {
    if trades != [] {
      var before := trades[..|trades| - 1];
      EntriesDistinct(before, time);
      var earlier := EntriesAt(before, time);
      forall i | 0 <= i < |earlier| && trades[|trades| - 1].entryTimestamp == time
        ensures earlier[i].symbol != trades[|trades| - 1].symbol
      {
        assert earlier[i] in before;
      }
    }
  }

  lemma CycleLosesNothing(config: Config, trades: seq<Trade>, a: Account, time: int)
    requires config.targetSlots != 0 && Priced(trades) && Clean(trades)
    ensures CycleLoss(config, trades, a, time) == NO_LOSS
  {
    hide ScoreCandidate;
    var exited := Exits(config, a, ExitsAt(trades, time));
    var candidates := EntriesAt(trades, time);
    ExitsLoseNothing(config, a, ExitsAt(trades, time));
    EntriesDistinct(trades, time);
    OrderedPriced(config, exited, candidates);
    OrderedDistinct(config, exited, candidates);
    OpensLoseNothing(config, Counted(config, exited, candidates),
                     Ordered(config, EligibleTrades(exited, candidates)).0);
  }

  lemma {:induction false} CyclesLoseNothing(config: Config, trades: seq<Trade>, times: seq<int>)
    requires config.targetSlots != 0 && Priced(trades) && Clean(trades)
    ensures CyclesLoss(config, trades, times) == NO_LOSS
  {
    hide CycleLoss;
    if times != [] {
      var before := times[..|times| - 1];
      CyclesLoseNothing(config, trades, before);
      CycleLosesNothing(config, trades, Cycles(config, trades, before), times[|times| - 1]);
    }
  }

  /** Main result. With a price on every exit and one entry per symbol and timestamp, money and positions are
      conserved. */
  lemma CleanReplayConserves(config: Config, trades: seq<Trade>)
    requires config.targetSlots != 0 && Priced(BuyTrades(trades)) && Clean(BuyTrades(trades))
    ensures var end := Simulate(config, trades);
            && Equity(end) == config.initialCapital + end.tally.pnl
            && end.tally.taken == end.tally.wins + end.tally.losses + |end.positions|
  {
    hide Cycles, CyclesLoss, Clean, Priced;
    MoneyIsConserved(config, BuyTrades(trades), Sorted(Times(BuyTrades(trades))));
    CyclesLoseNothing(config, BuyTrades(trades), Sorted(Times(BuyTrades(trades))));
  }

  /** One event: an exit without a price breaks the books exactly when it finds capital, and so does an
      entry for a symbol that is already held. */
  lemma BooksBreakExactly(config: Config, initial: real, a: Account, t: Trade)
    requires config.targetSlots != 0 && t.entryPrice != 0.0
    requires Balanced(initial, a, NO_LOSS)
    ensures Balanced(initial, Exit(config, a, t), NO_LOSS) <==> (t.symbol in a.positions ==> t.exitPrice.Some?)
    ensures Balanced(initial, Open(config, a, t), NO_LOSS) <==> (t.symbol in a.positions ==> !Opens(config, a, t))
  {
    hide Allocated, Opens, Exit, Open;
    ExitBalances(config, initial, a, t, NO_LOSS);
    OpenBalances(config, initial, a, t, NO_LOSS);
  }
}
