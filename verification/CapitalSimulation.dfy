/** The capital-constrained account of `application/capital_constrained_backtest.py`: stored BUY trades replayed in
    time order through eligibility, ranking and position sizing. */
module CapitalSimulation {
  import opened Numeric
  import opened Ranking

  datatype Trade = Trade(
    symbol: string, isBuy: bool, entryTimestamp: int, entryPrice: real, predictionAtEntry: int,
    adx: Option<real>, regimeNormalized: Option<real>, volatilityMargin: Option<real>,
    exitTimestamp: Option<int>, exitPrice: Option<real>, closed: bool, pnlPercent: Option<real>)

  datatype Config = Config(initialCapital: real, targetSlots: int, minPositionSize: real,
                           useRanking: bool, minScore: real, applyRealisticCosts: bool)

  const MIN_WIN_RATE := 55.0
  const MIN_CLOSED_TRADES := 5

  datatype OpenPosition = OpenPosition(entryPrice: real, quantity: int, capitalAllocated: real)

  /** The counters of the result. */
  datatype Tally = Tally(taken: nat, skippedIneligible: nat, skippedNoCapital: nat, skippedBelowFloor: nat,
                         pnl: real, costs: real, wins: nat, losses: nat)

  datatype Account = Account(cash: real, positions: map<string, OpenPosition>, history: map<string, seq<real>>,
                             tally: Tally)

  // ---------- trading costs ----------

  function RoundTripCost(entryValue: real, exitValue: real): real {
    var stt, stamp, exchange, sebi := 0.001, 0.00015, 0.0000297, 0.000001;
    entryValue * (stt + stamp + exchange + sebi) + exitValue * (stt + exchange + sebi)
    + (entryValue * (exchange + sebi) + exitValue * (exchange + sebi)) * 0.18 + 15.93
  }

  function Value(quantity: int, price: real): real {
    quantity as real * price
  }

  // ---------- the capital in open positions ----------

  /** The sum of the allocated capital, in any order. */
  ghost function Allocated(positions: map<string, OpenPosition>): real {
    if positions == map[] then 0.0
    else
      var s :| s in positions;
      positions[s].capitalAllocated + Allocated(positions - {s})
  }

  lemma {:induction false} AllocatedWithout(positions: map<string, OpenPosition>, s: string)
    requires s in positions
    ensures Allocated(positions) == positions[s].capitalAllocated + Allocated(positions - {s})
  {
    var t :| t in positions && Allocated(positions) == positions[t].capitalAllocated + Allocated(positions - {t});
    if t != s {
      AllocatedWithout(positions - {t}, s);
      AllocatedWithout(positions - {s}, t);
      assert positions - {t} - {s} == positions - {s} - {t};
    }
  }

  ghost function Equity(a: Account): real {
    a.cash + Allocated(a.positions)
  }

  // ---------- eligibility ----------

  function Wins(history: seq<real>): nat {
    if history == [] then 0 else Wins(history[..|history| - 1]) + (if history[|history| - 1] > 0.0 then 1 else 0)
  }

  function HistoryOf(a: Account, symbol: string): seq<real> {
    if symbol in a.history then a.history[symbol] else []
  }

  predicate Eligible(history: seq<real>) {
    |history| >= MIN_CLOSED_TRADES && (100 * Wins(history)) as real / (|history| as real) >= MIN_WIN_RATE
  }

  // ---------- one exit ----------

  function Remember(a: Account, t: Trade): Account {
    if t.closed && t.pnlPercent.Some? then
      a.(history := a.history[t.symbol := HistoryOf(a, t.symbol) + [t.pnlPercent.value]])
    else a
  }

  function Pnl(config: Config, p: OpenPosition, exitPrice: real): real {
    var gross := Value(p.quantity, exitPrice - p.entryPrice);
    if config.applyRealisticCosts then
      gross - RoundTripCost(Value(p.quantity, p.entryPrice), Value(p.quantity, exitPrice))
    else gross
  }

  function CostPaid(config: Config, p: OpenPosition, exitPrice: real): real {
    if config.applyRealisticCosts then RoundTripCost(Value(p.quantity, p.entryPrice), Value(p.quantity, exitPrice))
    else 0.0
  }

  function Settle(config: Config, a: Account, p: OpenPosition, exitPrice: real): Account {
    var pnl := Pnl(config, p, exitPrice);
    var tally := a.tally.(pnl := a.tally.pnl + pnl, costs := a.tally.costs + CostPaid(config, p, exitPrice),
                          wins := a.tally.wins + (if pnl > 0.0 then 1 else 0),
                          losses := a.tally.losses + (if pnl > 0.0 then 0 else 1));
    a.(cash := a.cash + (p.capitalAllocated + pnl), tally := tally)
  }

  /** History is kept whether or not the account held the symbol; a position without an exit price is dropped. */
  function Exit(config: Config, a: Account, t: Trade): Account {
    var remembered := Remember(a, t);
    var popped := remembered.(positions := a.positions - {t.symbol});
    if t.symbol !in a.positions || t.exitPrice.None? then popped
    else Settle(config, popped, a.positions[t.symbol], t.exitPrice.value)
  }

  function Exits(config: Config, a: Account, trades: seq<Trade>): Account {
    if trades == [] then a else Exit(config, Exits(config, a, trades[..|trades| - 1]), trades[|trades| - 1])
  }

  // ---------- one entry ----------

  ghost function PositionSize(config: Config, a: Account): real
    requires config.targetSlots != 0
  {
    Max(Equity(a) / (config.targetSlots as real), config.minPositionSize)
  }

  /** Truncation towards zero. */
  function Truncate(x: real): int {
    if x >= 0.0 then x.Floor else -((-x).Floor)
  }

  ghost function Quantity(config: Config, a: Account, price: real): int
    requires config.targetSlots != 0 && price != 0.0
  {
    Truncate(PositionSize(config, a) / price)
  }

  ghost predicate Opens(config: Config, a: Account, t: Trade)
    requires config.targetSlots != 0 && t.entryPrice != 0.0
  {
    a.cash >= PositionSize(config, a) && Quantity(config, a, t.entryPrice) >= 1
  }

  /** What opening a position does to the money: the symbol's entry in the dictionary is replaced if there was one. */
  ghost function Acquire(config: Config, a: Account, t: Trade): (r: Account)
    requires config.targetSlots != 0 && t.entryPrice != 0.0
    ensures r.tally == a.tally && r.history == a.history && r.positions.Keys == a.positions.Keys + {t.symbol}
  {
    var quantity := Quantity(config, a, t.entryPrice);
    var capital := Value(quantity, t.entryPrice);
    a.(cash := a.cash - capital, positions := a.positions[t.symbol := OpenPosition(t.entryPrice, quantity, capital)])
  }

  ghost function Open(config: Config, a: Account, t: Trade): Account
    requires config.targetSlots != 0 && t.entryPrice != 0.0
  {
    if Opens(config, a, t) then Acquire(config, a, t).(tally := a.tally.(taken := a.tally.taken + 1))
    else a.(tally := a.tally.(skippedNoCapital := a.tally.skippedNoCapital + 1))
  }

  predicate Priced(trades: seq<Trade>) {
    forall i :: 0 <= i < |trades| ==> trades[i].entryPrice != 0.0
  }

  ghost function OpenAll(config: Config, a: Account, trades: seq<Trade>): Account
    requires config.targetSlots != 0 && Priced(trades)
  {
    if trades == [] then a else Open(config, OpenAll(config, a, trades[..|trades| - 1]), trades[|trades| - 1])
  }

  // ---------- one cycle of entries ----------

  function Candidate(t: Trade): RankedCandidate {
    RankedCandidate(t.symbol, t.entryTimestamp, t.entryPrice, t.predictionAtEntry,
                    if t.adx.Some? then t.adx.value else 0.0,
                    if t.regimeNormalized.Some? then t.regimeNormalized.value else 0.0,
                    if t.volatilityMargin.Some? then t.volatilityMargin.value else 0.0, Long, None)
  }

  /** Not already open, and the symbol's closed trades pass the win-rate bar. */
  function EligibleTrades(a: Account, trades: seq<Trade>): seq<Trade> {
    if trades == [] then []
    else
      var t := trades[|trades| - 1];
      EligibleTrades(a, trades[..|trades| - 1])
      + (if t.symbol !in a.positions && Eligible(HistoryOf(a, t.symbol)) then [t] else [])
  }

  function IneligibleCount(a: Account, trades: seq<Trade>): nat {
    if trades == [] then 0
    else
      var t := trades[|trades| - 1];
      IneligibleCount(a, trades[..|trades| - 1])
      + (if t.symbol !in a.positions && !Eligible(HistoryOf(a, t.symbol)) then 1 else 0)
  }

  function Candidates(trades: seq<Trade>): seq<RankedCandidate> {
    seq(|trades|, i requires 0 <= i < |trades| => Candidate(trades[i]))
  }

  /** The trade a symbol's dictionary entry ends up holding: the last one of that symbol. */
  function BySymbol(trades: seq<Trade>, symbol: string): Option<Trade> {
    if trades == [] then None
    else if trades[|trades| - 1].symbol == symbol then Some(trades[|trades| - 1])
    else BySymbol(trades[..|trades| - 1], symbol)
  }

  function Lookup(trades: seq<Trade>, ranked: seq<RankedCandidate>): (r: seq<Trade>)
    ensures forall i :: 0 <= i < |r| ==> r[i] in trades
  {
    if ranked == [] then []
    else
      var found := BySymbol(trades, ranked[|ranked| - 1].symbol);
      BySymbolInside(trades, ranked[|ranked| - 1].symbol);
      Lookup(trades, ranked[..|ranked| - 1]) + (if found.Some? then [found.value] else [])
  }

  lemma {:induction false} BySymbolInside(trades: seq<Trade>, symbol: string)
    ensures BySymbol(trades, symbol).Some? ==>
              BySymbol(trades, symbol).value in trades && BySymbol(trades, symbol).value.symbol == symbol
    ensures BySymbol(trades, symbol).None? ==> forall i :: 0 <= i < |trades| ==> trades[i].symbol != symbol
  {
    if trades != [] && trades[|trades| - 1].symbol != symbol {
      BySymbolInside(trades[..|trades| - 1], symbol);
    }
  }

  /** The eligible trades in the order they compete for capital, and how many fell below the score floor. */
  function Ordered(config: Config, eligible: seq<Trade>): (r: (seq<Trade>, nat))
    ensures forall i :: 0 <= i < |r.0| ==> r.0[i] in eligible
  {
    if !config.useRanking then (eligible, 0)
    else
      var ranked := RankCandidates(Candidates(eligible));
      var cutoff := Cutoff(ScoreCandidate, ranked, config.minScore);
      (Lookup(eligible, ranked[..cutoff]), |ranked| - cutoff)
  }

  lemma {:induction false} EligibleInside(a: Account, trades: seq<Trade>, t: Trade)
    ensures t in EligibleTrades(a, trades) ==> t in trades && t.symbol !in a.positions
  {
    if trades != [] {
      EligibleInside(a, trades[..|trades| - 1], t);
    }
  }

  lemma OrderedPriced(config: Config, a: Account, trades: seq<Trade>)
    requires Priced(trades)
    ensures Priced(Ordered(config, EligibleTrades(a, trades)).0)
  {
    var r := Ordered(config, EligibleTrades(a, trades)).0;
    forall i | 0 <= i < |r|
      ensures r[i].entryPrice != 0.0
    {
      EligibleInside(a, trades, r[i]);
    }
  }

  ghost function Entries(config: Config, a: Account, trades: seq<Trade>): Account
    requires config.targetSlots != 0 && Priced(trades)
  {
    var ordered := Ordered(config, EligibleTrades(a, trades));
    OrderedPriced(config, a, trades);
    var counted := a.(tally := a.tally.(skippedIneligible := a.tally.skippedIneligible + IneligibleCount(a, trades),
                                        skippedBelowFloor := a.tally.skippedBelowFloor + ordered.1));
    OpenAll(config, counted, ordered.0)
  }

  // ---------- the timeline ----------

  function BuyTrades(trades: seq<Trade>): (r: seq<Trade>)
    ensures forall i :: 0 <= i < |r| ==> r[i] in trades && r[i].isBuy
  {
    if trades == [] then []
    else BuyTrades(trades[..|trades| - 1]) + (if trades[|trades| - 1].isBuy then [trades[|trades| - 1]] else [])
  }

  function EntriesAt(trades: seq<Trade>, time: int): (r: seq<Trade>)
    ensures forall i :: 0 <= i < |r| ==> r[i] in trades && r[i].entryTimestamp == time
  {
    if trades == [] then []
    else EntriesAt(trades[..|trades| - 1], time)
         + (if trades[|trades| - 1].entryTimestamp == time then [trades[|trades| - 1]] else [])
  }

  function ExitsAt(trades: seq<Trade>, time: int): (r: seq<Trade>)
    ensures forall i :: 0 <= i < |r| ==> r[i] in trades && r[i].exitTimestamp == Some(time)
  {
    if trades == [] then []
    else ExitsAt(trades[..|trades| - 1], time)
         + (if trades[|trades| - 1].exitTimestamp == Some(time) then [trades[|trades| - 1]] else [])
  }

  /** The timestamps something happens at. */
  function Times(trades: seq<Trade>): set<int> {
    (set t | t in trades :: t.entryTimestamp) + (set t | t in trades && t.exitTimestamp.Some? :: t.exitTimestamp.value)
  }

  predicate Ascending(times: seq<int>) {
    forall i, j :: 0 <= i < j < |times| ==> times[i] < times[j]
  }

  lemma Inhabited(times: set<int>)
    ensures times == {} || exists x :: x in times
  {
    if forall x :: x !in times {
      assert times == {};
    }
  }

  lemma {:induction false} LastExists(times: set<int>)
    requires times != {}
    ensures exists last :: last in times && forall x :: x in times ==> x <= last
  {
    Inhabited(times);
    var x0 :| x0 in times;
    var rest := times - {x0};
    assert times == rest + {x0};
    if rest == {} {
      assert forall x :: x in times ==> x <= x0;
    } else {
      LastExists(rest);
      var last :| last in rest && forall x :: x in rest ==> x <= last;
      var top := if x0 > last then x0 else last;
      assert forall x :: x in times ==> x <= top;
      assert top in times;
    }
  }

  function Last(times: set<int>): (last: int)
    requires times != {}
    ensures last in times && forall x :: x in times ==> x <= last
  {
      LastExists(times);
      var last :| last in times && forall x :: x in times ==> x <= last;
      last
  }

  /** A set of timestamps in ascending order. */
  function Sorted(times: set<int>): (r: seq<int>)
    ensures forall x :: x in r <==> x in times
    ensures Ascending(r)
  {
    if times == {} then []
    else
      var last := Last(times);
      Sorted(times - {last}) + [last]
  }

  /** One timestamp: exits first, then the entries that compete for what is free. */
  ghost function Cycle(config: Config, trades: seq<Trade>, a: Account, time: int): Account
    requires config.targetSlots != 0 && Priced(trades)
  {
    Entries(config, Exits(config, a, ExitsAt(trades, time)), EntriesAt(trades, time))
  }

  const NOTHING := Tally(0, 0, 0, 0, 0.0, 0.0, 0, 0)

  function Fresh(config: Config): Account {
    Account(config.initialCapital, map[], map[], NOTHING)
  }

  /** The account after the cycles of `times`, in order; `trades` are BUY trades. */
  ghost function Cycles(config: Config, trades: seq<Trade>, times: seq<int>): Account
    requires config.targetSlots != 0 && Priced(trades)
  {
    if times == [] then Fresh(config)
    else Cycle(config, trades, Cycles(config, trades, times[..|times| - 1]), times[|times| - 1])
  }

  ghost function Simulate(config: Config, trades: seq<Trade>): Account
    requires config.targetSlots != 0 && Priced(BuyTrades(trades))
  {
    Cycles(config, BuyTrades(trades), Sorted(Times(BuyTrades(trades))))
  }

  // ---------- the account object ----------

  ghost predicate EntriesGrouped(trades: seq<Trade>, entries: map<int, seq<Trade>>) {
    forall time :: (if time in entries then entries[time] else []) == EntriesAt(trades, time)
  }

  ghost predicate ExitsGrouped(trades: seq<Trade>, exits: map<int, seq<Trade>>) {
    forall time :: (if time in exits then exits[time] else []) == ExitsAt(trades, time)
  }

  lemma {:induction false} TimesAreGroups(trades: seq<Trade>, time: int)
    ensures time in Times(trades) <==> EntriesAt(trades, time) != [] || ExitsAt(trades, time) != []
  {
    if trades != [] {
      var before := trades[..|trades| - 1];
      var t := trades[|trades| - 1];
      TimesAreGroups(before, time);
      assert trades == before + [t];
      assert time in Times(trades)
        <==> time in Times(before) || time == t.entryTimestamp || t.exitTimestamp == Some(time);
    }
  }

  method GroupByTimestamp(trades: seq<Trade>) returns (entries: map<int, seq<Trade>>, exits: map<int, seq<Trade>>)
    ensures EntriesGrouped(trades, entries) && ExitsGrouped(trades, exits)
  {
    hide EntriesGrouped, ExitsGrouped;
    entries, exits := map[], map[];
    NothingGrouped();
    for i := 0 to |trades|
      invariant EntriesGrouped(trades[..i], entries) && ExitsGrouped(trades[..i], exits)
    {
      var t := trades[i];
      EntryJoins(trades[..i], entries, t);
      ExitJoins(trades[..i], exits, t);
      assert trades[..i + 1] == trades[..i] + [t];
      entries := entries[t.entryTimestamp := (if t.entryTimestamp in entries then entries[t.entryTimestamp] else [])
                         + [t]];
      if t.exitTimestamp.Some? {
        var time := t.exitTimestamp.value;
        exits := exits[time := (if time in exits then exits[time] else []) + [t]];
      }
    }
    assert trades[..|trades|] == trades;
  }

  lemma GroupFound(trades: seq<Trade>, entries: map<int, seq<Trade>>, exits: map<int, seq<Trade>>, time: int)
    requires EntriesGrouped(trades, entries) && ExitsGrouped(trades, exits) && Priced(trades)
    ensures (if time in entries then entries[time] else []) == EntriesAt(trades, time)
    ensures (if time in exits then exits[time] else []) == ExitsAt(trades, time)
    ensures Priced(EntriesAt(trades, time))
  {
  }

  lemma NothingGrouped()
    ensures EntriesGrouped([], map[]) && ExitsGrouped([], map[])
  {
  }

  lemma EntryJoins(trades: seq<Trade>, entries: map<int, seq<Trade>>, t: Trade)
    requires EntriesGrouped(trades, entries)
    ensures var k := t.entryTimestamp;
            EntriesGrouped(trades + [t], entries[k := (if k in entries then entries[k] else []) + [t]])
  {
    assert (trades + [t])[..|trades|] == trades;
  }

  lemma ExitJoins(trades: seq<Trade>, exits: map<int, seq<Trade>>, t: Trade)
    requires ExitsGrouped(trades, exits)
    ensures t.exitTimestamp.None? ==> ExitsGrouped(trades + [t], exits)
    ensures t.exitTimestamp.Some? ==>
              var k := t.exitTimestamp.value;
              ExitsGrouped(trades + [t], exits[k := (if k in exits then exits[k] else []) + [t]])
  {
    assert (trades + [t])[..|trades|] == trades;
  }

  method FindCutoff(ranked: seq<RankedCandidate>, floor: real) returns (cutoff: nat)
    ensures cutoff == Cutoff(ScoreCandidate, ranked, floor)
  {
    hide ScoreCandidate;
    cutoff := 0;
    while cutoff < |ranked| && ScoreCandidate(ranked[cutoff]) >= floor
      invariant cutoff <= |ranked|
      invariant Cutoff(ScoreCandidate, ranked, floor) == cutoff + Cutoff(ScoreCandidate, ranked[cutoff..], floor)
    {
      cutoff := cutoff + 1;
    }
  }

  class PaperAccount {
    const config: Config
    var cash: real
    var openPositions: map<string, OpenPosition>
    var closedBySymbol: map<string, seq<real>>
    var tally: Tally

    ghost function State(): Account
      reads this
    {
      Account(cash, openPositions, closedBySymbol, tally)
    }

    constructor (config: Config)
      ensures this.config == config && State() == Fresh(config)
    {
      this.config := config;
      cash, openPositions, closedBySymbol, tally := config.initialCapital, map[], map[], NOTHING;
    }

    method TotalEquity() returns (total: real)
      ensures total == Equity(State())
    {
      total := cash;
      var left := openPositions;
      while left != map[]
        invariant total + Allocated(left) == Equity(State())
        decreases |left|
      {
        var symbol :| symbol in left;
        AllocatedWithout(left, symbol);
        total := total + left[symbol].capitalAllocated;
        left := left - {symbol};
      }
    }

    method TryOpen(t: Trade) returns (funded: bool)
      requires config.targetSlots != 0 && t.entryPrice != 0.0
      modifies this
      ensures funded == old(Opens(config, State(), t))
      ensures State() == if funded then old(Acquire(config, State(), t)) else old(State())
    {
      hide Allocated, Max, Truncate, Value;
      ghost var before := State();
      var equity := TotalEquity();
      var positionSize := Max(equity / (config.targetSlots as real), config.minPositionSize);
      assert positionSize == PositionSize(config, before);
      if cash < positionSize {
        return false;
      }
      var quantity := Truncate(positionSize / t.entryPrice);
      assert quantity == Quantity(config, before, t.entryPrice);
      if quantity < 1 {
        return false;
      }
      var capitalAllocated := Value(quantity, t.entryPrice);
      cash := cash - capitalAllocated;
      openPositions := openPositions[t.symbol := OpenPosition(t.entryPrice, quantity, capitalAllocated)];
      assert openPositions == Acquire(config, before, t).positions;
      return true;
    }

    method ProcessExit(t: Trade)
      modifies this
      ensures State() == old(Exit(config, State(), t))
    {
      hide RoundTripCost, Value;
      ghost var before := State();
      if t.closed && t.pnlPercent.Some? {
        var known := if t.symbol in closedBySymbol then closedBySymbol[t.symbol] else [];
        closedBySymbol := closedBySymbol[t.symbol := known + [t.pnlPercent.value]];
      }
      assert closedBySymbol == Remember(before, t).history;
      if t.symbol !in openPositions {
        assert openPositions - {t.symbol} == openPositions;
        return;
      }
      var position := openPositions[t.symbol];
      openPositions := openPositions - {t.symbol};
      if t.exitPrice.None? {
        return;
      }
      var exitPrice := t.exitPrice.value;
      var pnlAmount := Value(position.quantity, exitPrice - position.entryPrice);
      if config.applyRealisticCosts {
        var cost := RoundTripCost(Value(position.quantity, position.entryPrice), Value(position.quantity, exitPrice));
        pnlAmount := pnlAmount - cost;
        tally := tally.(costs := tally.costs + cost);
      }
      assert pnlAmount == Pnl(config, position, exitPrice);
      cash := cash + (position.capitalAllocated + pnlAmount);
      tally := tally.(pnl := tally.pnl + pnlAmount);
      if pnlAmount > 0.0 {
        tally := tally.(wins := tally.wins + 1);
      } else {
        tally := tally.(losses := tally.losses + 1);
      }
      assert tally == Exit(config, before, t).tally;
    }

    method ProcessExits(exits: seq<Trade>)
      modifies this
      ensures State() == old(Exits(config, State(), exits))
    {
      hide Exit;
      for i := 0 to |exits|
        invariant State() == Exits(config, old(State()), exits[..i])
      {
        assert exits[..i + 1][..i] == exits[..i];
        ProcessExit(exits[i]);
      }
      assert exits[..|exits|] == exits;
    }

    method SelectEligible(candidates: seq<Trade>) returns (eligible: seq<Trade>)
      modifies this
      ensures eligible == old(EligibleTrades(State(), candidates))
      ensures State() == old(State().(tally := tally.(skippedIneligible := tally.skippedIneligible
                                                      + IneligibleCount(State(), candidates))))
    {
      eligible := [];
      for i := 0 to |candidates|
        invariant eligible == EligibleTrades(old(State()), candidates[..i])
        invariant State() == old(State()).(tally := old(tally).(skippedIneligible := old(tally).skippedIneligible
                                                                    + IneligibleCount(old(State()), candidates[..i])))
      {
        var t := candidates[i];
        assert candidates[..i + 1][..i] == candidates[..i];
        if t.symbol !in openPositions {
          if Eligible(if t.symbol in closedBySymbol then closedBySymbol[t.symbol] else []) {
            eligible := eligible + [t];
          } else {
            tally := tally.(skippedIneligible := tally.skippedIneligible + 1);
          }
        }
      }
      assert candidates[..|candidates|] == candidates;
    }

    method OpenOrdered(ordered: seq<Trade>)
      requires config.targetSlots != 0 && Priced(ordered)
      modifies this
      ensures State() == old(OpenAll(config, State(), ordered))
    {
      hide Opens, Acquire;
      for i := 0 to |ordered|
        invariant State() == OpenAll(config, old(State()), ordered[..i])
      {
        assert ordered[..i + 1][..i] == ordered[..i];
        ghost var before := State();
        var funded := TryOpen(ordered[i]);
        assert State() == if funded then Acquire(config, before, ordered[i]) else before;
        if funded {
          tally := tally.(taken := tally.taken + 1);
        } else {
          tally := tally.(skippedNoCapital := tally.skippedNoCapital + 1);
        }
      }
      assert ordered[..|ordered|] == ordered;
    }

    method ProcessEntries(candidates: seq<Trade>)
      requires config.targetSlots != 0 && Priced(candidates)
      modifies this
      ensures State() == old(Entries(config, State(), candidates))
    {
      hide ScoreCandidate, EligibleTrades, OpenAll, Eligible;
      var eligible := SelectEligible(candidates);
      OrderedPriced(config, old(State()), candidates);
      var ordered := eligible;
      if config.useRanking {
        var ranked := RankCandidates(Candidates(eligible));
        var cutoff := FindCutoff(ranked, config.minScore);
        tally := tally.(skippedBelowFloor := tally.skippedBelowFloor + (|ranked| - cutoff));
        ordered := Lookup(eligible, ranked[..cutoff]);
      }
      OpenOrdered(ordered);
    }

    method ProcessCycle(exits: seq<Trade>, entries: seq<Trade>)
      requires config.targetSlots != 0 && Priced(entries)
      modifies this
      ensures State() == old(Entries(config, Exits(config, State(), exits), entries))
    {
      hide Exits, Entries, Priced;
      ProcessExits(exits);
      if entries != [] {
        ProcessEntries(entries);
      } else {
        NoEntries(config, State());
      }
    }

    method Replay(trades: seq<Trade>)
      requires config.targetSlots != 0 && Priced(BuyTrades(trades))
      requires State() == Fresh(config)
      modifies this
      ensures State() == Simulate(config, trades)
    {
      hide Exits, Entries, Fresh, EntriesAt, ExitsAt, Priced, BuyTrades, Times, EntriesGrouped, ExitsGrouped, Cycles,
          Sorted;
      var buyTrades := BuyTrades(trades);
      var entries, exits := GroupByTimestamp(buyTrades);
      var times := Sorted(Times(buyTrades));
      NoCycles(config, buyTrades);
      for i := 0 to |times|
        invariant State() == Cycles(config, buyTrades, times[..i])
      {
        OneMoreCycle(config, buyTrades, times, i);
        var leaving := if times[i] in exits then exits[times[i]] else [];
        var entering := if times[i] in entries then entries[times[i]] else [];
        GroupFound(buyTrades, entries, exits, times[i]);
        ProcessCycle(leaving, entering);
      }
      assert times[..|times|] == times;
    }
  }

  lemma NoCycles(config: Config, trades: seq<Trade>)
    requires config.targetSlots != 0 && Priced(trades)
    ensures Cycles(config, trades, []) == Fresh(config)
  {
  }

  lemma OneMoreCycle(config: Config, trades: seq<Trade>, times: seq<int>, i: nat)
    requires config.targetSlots != 0 && Priced(trades) && i < |times|
    ensures Priced(EntriesAt(trades, times[i]))
    ensures Cycles(config, trades, times[..i + 1])
         == Entries(config, Exits(config, Cycles(config, trades, times[..i]), ExitsAt(trades, times[i])),
                    EntriesAt(trades, times[i]))
  {
    hide Exits, Entries;
    assert times[..i + 1][..i] == times[..i];
  }

  /** A cycle without candidates leaves the account alone. */
  lemma NoEntries(config: Config, a: Account)
    requires config.targetSlots != 0
    ensures Entries(config, a, []) == a
  {
    hide ScoreCandidate;
    assert RankCandidates(Candidates([])) == [];
  }
}
