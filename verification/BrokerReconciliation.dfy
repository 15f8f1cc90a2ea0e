/** What the broker says is held, and which instruments therefore occupy a slot
    (`infrastructure/kite.py`, `application/broker_reconciliation.py`). */
module BrokerReconciliation {
  import opened Numeric
  import opened OrderLedger
  import opened LegNetting

  // ---------- held quantities ----------

  datatype BrokerPosition = BrokerPosition(isCnc: bool, tradingsymbol: string, quantity: int)

  datatype Holding = Holding(isCnc: bool, tradingsymbol: string, quantity: int, t1Quantity: int)

  function SameDay(positions: seq<BrokerPosition>, symbol: string): (r: nat) {
    if positions == [] then 0
    else
      var p := positions[|positions| - 1];
      SameDay(positions[..|positions| - 1], symbol)
      + (if p.isCnc && p.tradingsymbol == symbol && p.quantity > 0 then p.quantity else 0)
  }

  function PriorDay(holdings: seq<Holding>, symbol: string): int {
    if holdings == [] then 0
    else
      var h := holdings[|holdings| - 1];
      PriorDay(holdings[..|holdings| - 1], symbol)
      + (if h.isCnc && h.tradingsymbol == symbol then h.quantity + h.t1Quantity else 0)
  }

  /** The shares of one symbol the account holds. */
  function Held(positions: seq<BrokerPosition>, holdings: seq<Holding>, symbol: string): int {
    SameDay(positions, symbol) + PriorDay(holdings, symbol)
  }

  method HoldingQuantity(positions: seq<BrokerPosition>, holdings: seq<Holding>, symbol: string) returns (r: int)
    ensures r == Held(positions, holdings, symbol)
  {
    var sameDay := 0;
    for i := 0 to |positions|
      invariant sameDay == SameDay(positions[..i], symbol)
    {
      assert positions[..i + 1][..i] == positions[..i];
      if positions[i].isCnc && positions[i].tradingsymbol == symbol {
        sameDay := sameDay + if positions[i].quantity > 0 then positions[i].quantity else 0;
      }
    }
    var priorDay := 0;
    for i := 0 to |holdings|
      invariant priorDay == PriorDay(holdings[..i], symbol)
    {
      assert holdings[..i + 1][..i] == holdings[..i];
      if holdings[i].isCnc && holdings[i].tradingsymbol == symbol {
        priorDay := priorDay + holdings[i].quantity + holdings[i].t1Quantity;
      }
    }
    assert positions[..|positions|] == positions && holdings[..|holdings|] == holdings;
    r := sameDay + priorDay;
  }

  function Shares(quantities: map<string, int>, symbol: string): int {
    if symbol in quantities then quantities[symbol] else 0
  }

  /** Main result. One bulk pass agrees with the lookup of each symbol on its own. */
  method HoldingQuantities(positions: seq<BrokerPosition>, holdings: seq<Holding>)
    returns (quantities: map<string, int>)
    ensures forall s :: Shares(quantities, s) == Held(positions, holdings, s)
  {
    quantities := map[];
    for i := 0 to |positions|
      invariant forall s :: Shares(quantities, s) == SameDay(positions[..i], s)
    {
      assert positions[..i + 1][..i] == positions[..i];
      var p := positions[i];
      if p.isCnc {
        quantities := quantities[p.tradingsymbol := Shares(quantities, p.tradingsymbol) + if p.quantity > 0
                                 then p.quantity else 0];
      }
    }
    assert positions[..|positions|] == positions;
    for i := 0 to |holdings|
      invariant forall s :: Shares(quantities, s) == Held(positions, holdings[..i], s)
    {
      assert holdings[..i + 1][..i] == holdings[..i];
      var h := holdings[i];
      ghost var before := quantities;
      if h.isCnc {
        quantities := quantities[h.tradingsymbol := Shares(quantities, h.tradingsymbol) + h.quantity + h.t1Quantity];
      }
      forall s
        ensures Shares(quantities, s) == Held(positions, holdings[..i + 1], s)
      {
        assert Shares(before, s) == Held(positions, holdings[..i], s);
        assert PriorDay(holdings[..i + 1], s)
            == PriorDay(holdings[..i], s) + if h.isCnc && h.tradingsymbol == s then h.quantity + h.t1Quantity else 0;
      }
    }
    assert holdings[..|holdings|] == holdings;
  }

  // ---------- occupied slots ----------

  /** One row of today's order book. */
  datatype Order = Order(tag: Option<string>, tradingsymbol: string, isBuy: bool, quantity: Quantity, filled: nat,
                         status: Status, exchangeTime: Option<int>)

  predicate Final(status: Status) {
    status == Complete || status.IsTerminalFailure()
  }

  predicate IsPending(o: Order, symbol: string) {
    o.isBuy && !Final(o.status) && o.tradingsymbol == symbol
  }

  predicate Pends(orders: seq<Order>, symbol: string) {
    exists i :: 0 <= i < |orders| && IsPending(orders[i], symbol)
  }

  /** Completed selling of a symbol after a moment. */
  function Sold(orders: seq<Order>, symbol: string, after: int): nat {
    if orders == [] then 0
    else
      var o := orders[|orders| - 1];
      Sold(orders[..|orders| - 1], symbol, after)
      + (if o.tradingsymbol == symbol && !o.isBuy && o.status == Complete && o.exchangeTime.Some?
         && o.exchangeTime.value > after
         then o.filled else 0)
  }

  function Latest(legs: seq<Leg>): (r: int)
    requires legs != []
    ensures forall i :: 0 <= i < |legs| ==> legs[i].placedAt <= r
    ensures exists i :: 0 <= i < |legs| && legs[i].placedAt == r
  {
    if |legs| == 1 then legs[0].placedAt
    else
      var earlier := Latest(legs[..|legs| - 1]);
      if legs[|legs| - 1].placedAt > earlier then legs[|legs| - 1].placedAt else earlier
  }

  /** The broker confirms that everything the ledger still counts for the symbol was sold after its latest entry. */
  predicate SoldOff(unclosed: seq<Leg>, orders: seq<Order>, symbol: string) {
    var own := WithKey(TRADINGSYMBOL, unclosed, symbol);
    && own != []
    && (forall i :: 0 <= i < |own| ==> own[i].status == Complete)
    && Sold(orders, symbol, Latest(own)) >= QuantityOf(own)
  }

  /** What the broker shows: a held quantity or a pending BUY. */
  predicate Shown(orders: seq<Order>, quantities: map<string, int>, symbol: string) {
    Shares(quantities, symbol) > 0 || Pends(orders, symbol)
  }

  /** The symbols that occupy a slot. */
  predicate Occupies(unclosed: seq<Leg>, orders: seq<Order>, quantities: map<string, int>, symbol: string) {
    Shown(orders, quantities, symbol)
    || (WithKey(TRADINGSYMBOL, unclosed, symbol) != [] && !SoldOff(unclosed, orders, symbol))
  }

  function LedgerSymbols(unclosed: seq<Leg>): (r: set<string>)
    ensures forall s :: s in r <==> WithKey(TRADINGSYMBOL, unclosed, s) != []
  {
    var r := set i | 0 <= i < |unclosed| :: unclosed[i].tradingsymbol;
    assert forall s :: s in r <==> WithKey(TRADINGSYMBOL, unclosed, s) != [] by {
      forall s
        ensures s in r <==> WithKey(TRADINGSYMBOL, unclosed, s) != []
      {
        WithKeyExactly(unclosed, s);
      }
    }
    r
  }

  lemma {:induction false} WithKeyExactly(legs: seq<Leg>, symbol: string)
    ensures WithKey(TRADINGSYMBOL, legs, symbol) != []
       <==> exists i :: 0 <= i < |legs| && legs[i].tradingsymbol == symbol
  {
    if legs != [] {
      var before := legs[..|legs| - 1];
      WithKeyExactly(before, symbol);
      if i :| 0 <= i < |legs| && legs[i].tradingsymbol == symbol && i < |before| {
        assert before[i].tradingsymbol == symbol;
      }
      if i :| 0 <= i < |before| && before[i].tradingsymbol == symbol {
        assert legs[i].tradingsymbol == symbol;
      }
    }
  }

  function PendingSymbols(orders: seq<Order>): (r: set<string>)
    ensures forall s :: s in r <==> Pends(orders, s)
  {
    set i | 0 <= i < |orders| && IsPending(orders[i], orders[i].tradingsymbol) :: orders[i].tradingsymbol
  }

  function HeldSymbols(quantities: map<string, int>): (r: set<string>)
    ensures forall s :: s in r <==> Shares(quantities, s) > 0
  {
    set s | s in quantities && quantities[s] > 0
  }

  function Occupied(unclosed: seq<Leg>, orders: seq<Order>, quantities: map<string, int>): (r: set<string>)
    ensures forall s :: s in r <==> Occupies(unclosed, orders, quantities, s)
  {
    (set s | s in LedgerSymbols(unclosed) && !SoldOff(unclosed, orders, s)) + PendingSymbols(orders)
        + HeldSymbols(quantities)
  }

  method SoldSince(orders: seq<Order>, symbol: string, latestEntry: int) returns (sold: nat)
    ensures sold == Sold(orders, symbol, latestEntry)
  {
    sold := 0;
    for i := 0 to |orders|
      invariant sold == Sold(orders[..i], symbol, latestEntry)
    {
      assert orders[..i + 1][..i] == orders[..i];
      var o := orders[i];
      if o.tradingsymbol != symbol || o.isBuy || o.status != Complete || o.exchangeTime.None? {
        continue;
      }
      if o.exchangeTime.value > latestEntry {
        sold := sold + o.filled;
      }
    }
    assert orders[..|orders|] == orders;
  }

  /** Main result. A slot is occupied by everything the broker shows, and by every ledger symbol the broker does not
      confirm as sold off; when the broker cannot be read, by every ledger symbol. */
  method OccupiedCashSymbols(unclosed: seq<Leg>, broker: Option<(seq<Order>, map<string, int>)>)
    returns (r: set<string>)
    ensures broker.None? ==> forall s :: s in r <==> WithKey(TRADINGSYMBOL, unclosed, s) != []
    ensures broker.Some? ==> r == Occupied(unclosed, broker.value.0, broker.value.1)
  {
    var occupied := LedgerSymbols(unclosed);
    if broker.None? {
      return occupied;
    }
    var (orders, quantities) := broker.value;
    var pending := PendingSymbols(orders);
    var released: set<string> := {};
    var left := occupied;
    while left != {}
      invariant left <= occupied && released <= occupied - left
      invariant forall s :: s in occupied - left ==>
                  (s in released <==> !Shown(orders, quantities, s) && SoldOff(unclosed, orders, s))
      decreases left
    {
      var symbol :| symbol in left;
      left := left - {symbol};
      var own := WithKey(TRADINGSYMBOL, unclosed, symbol);
      if Shares(quantities, symbol) > 0 || symbol in pending {
        continue;
      }
      if exists i :: 0 <= i < |own| && own[i].status != Complete {
        continue;
      }
      var sold := SoldSince(orders, symbol, Latest(own));
      if sold >= QuantityOf(own) {
        released := released + {symbol};
      }
    }
    r := (occupied - released) + pending + HeldSymbols(quantities);
    assert forall s :: s in r <==> Occupies(unclosed, orders, quantities, s);
  }

  /** A symbol leaves the count only when its completed selling covers every unclosed leg, all of them confirmed. */
  lemma ReleasedOnlyWhenSold(unclosed: seq<Leg>, orders: seq<Order>, quantities: map<string, int>, leg: Leg)
    requires leg in unclosed && leg.tradingsymbol !in Occupied(unclosed, orders, quantities)
    ensures leg.status == Complete && Sold(orders, leg.tradingsymbol, leg.placedAt) >= leg.quantity
    ensures SoldOff(unclosed, orders, leg.tradingsymbol) && Shares(quantities, leg.tradingsymbol) <= 0
  {
    var own := WithKey(TRADINGSYMBOL, unclosed, leg.tradingsymbol);
    WithKeyMeaning(TRADINGSYMBOL, unclosed, leg.tradingsymbol, leg);
    assert leg in multiset(own);
    var i :| 0 <= i < |own| && own[i] == leg;
    PartOfQuantity(own, i);
    SoldLater(orders, leg.tradingsymbol, leg.placedAt, Latest(own));
  }

  lemma {:induction false} PartOfQuantity(legs: seq<Leg>, i: nat)
    requires i < |legs|
    ensures legs[i].quantity <= QuantityOf(legs)
  {
    if i < |legs| - 1 {
      PartOfQuantity(legs[..|legs| - 1], i);
    }
  }

  lemma {:induction false} SoldLater(orders: seq<Order>, symbol: string, early: int, late: int)
    requires early <= late
    ensures Sold(orders, symbol, late) <= Sold(orders, symbol, early)
  {
    if orders != [] {
      SoldLater(orders[..|orders| - 1], symbol, early, late);
    }
  }

  // ---------- sweeps ----------

  /** The symbols whose own legs need reconciliation; the first symbol whose legs raise ends the sweep. */
  function NeedReconciliation(legs: seq<Leg>, symbols: seq<string>): Result<seq<string>> {
    if symbols == [] then Ok([])
    else
      match NeedReconciliation(legs, symbols[..|symbols| - 1])
      case Err(e) => Err(e)
      case Ok(found) =>
        match DeriveLifecycle(WithKey(SYMBOL, legs, symbols[|symbols| - 1]))
        case Err(e) => Err(e)
        case Ok(state) => Ok(if state == ReconciliationRequired then found + [symbols[|symbols| - 1]] else found)
  }

  method GetReconciliationRequiredSymbols(legs: seq<Leg>) returns (r: Result<seq<string>>)
    ensures r == NeedReconciliation(legs, FirstSeen(SYMBOL, legs))
  {
    hide DeriveLifecycle, WithKey, FirstSeen, NeedReconciliation;
    var order, groups := Group(SYMBOL, legs);
    r := Ok([]);
    NoSymbols(legs);
    for i := 0 to |order|
      invariant r.Ok?
      invariant r == NeedReconciliation(legs, order[..i])
    {
      assert order[..i + 1] == order[..i] + [order[i]];
      OneMoreSymbol(legs, order[..i], order[i]);
      assert groups[order[i]] == WithKey(SYMBOL, legs, order[i]);
      var state := DeriveLifecycle(groups[order[i]]);
      if state.Err? {
        EarlyError(legs, order, i + 1);
        return Err(state.error);
      }
      if state.value == ReconciliationRequired {
        r := Ok(r.value + [order[i]]);
      }
    }
    assert order[..|order|] == order;
  }

  lemma NoSymbols(legs: seq<Leg>)
    ensures NeedReconciliation(legs, []) == Ok([])
  {
  }

  lemma OneMoreSymbol(legs: seq<Leg>, symbols: seq<string>, symbol: string)
    requires NeedReconciliation(legs, symbols).Ok?
    ensures var state := DeriveLifecycle(WithKey(SYMBOL, legs, symbol));
            var found := NeedReconciliation(legs, symbols).value;
            NeedReconciliation(legs, symbols + [symbol])
            == if state.Err? then Err(state.error)
                else if state.value == ReconciliationRequired then Ok(found + [symbol]) else Ok(found)
  {
    assert (symbols + [symbol])[..|symbols|] == symbols;
  }

  lemma {:induction false} EarlyError(legs: seq<Leg>, symbols: seq<string>, i: nat)
    requires i <= |symbols| && NeedReconciliation(legs, symbols[..i]).Err?
    ensures NeedReconciliation(legs, symbols) == NeedReconciliation(legs, symbols[..i])
  {
    if i < |symbols| {
      var before := symbols[..|symbols| - 1];
      assert before[..i] == symbols[..i];
      EarlyError(legs, before, i);
    } else {
      assert symbols[..i] == symbols;
    }
  }

  /** The one-query sweep lists a symbol exactly when the symbol's own lifecycle says so. */
  lemma {:induction false} SweepAgreesPerSymbol(legs: seq<Leg>, symbols: seq<string>, s: string)
    requires NeedReconciliation(legs, symbols).Ok?
    ensures s in NeedReconciliation(legs, symbols).value
       <==> s in symbols && DeriveLifecycle(WithKey(SYMBOL, legs, s)) == Ok(ReconciliationRequired)
  {
    if symbols != [] {
      SweepAgreesPerSymbol(legs, symbols[..|symbols| - 1], s);
    }
  }

  /** The legs that may represent a real position in one symbol. */
  function UnclosedOf(legs: seq<Leg>, symbol: string): seq<Leg> {
    var own := WithKey(SYMBOL, legs, symbol);
    NetUnclosed(own, FirstSeen(TRADINGSYMBOL, own), REAL, false)
  }

  /** The allowlisted symbols, in order, with a real holding and no unclosed leg; `tradingsymbol` is the broker's
      name of a symbol. */
  function Hidden(symbols: seq<string>, tradingsymbol: string -> string, quantities: map<string, int>,
                  legs: seq<Leg>): seq<string> {
    if symbols == [] then []
    else
      var s := symbols[|symbols| - 1];
      Hidden(symbols[..|symbols| - 1], tradingsymbol, quantities, legs)
      + (if Shares(quantities, tradingsymbol(s)) > 0 && UnclosedOf(legs, s) == [] then [s] else [])
  }

  lemma {:induction false} HiddenMeaning(symbols: seq<string>, tradingsymbol: string -> string,
                                         quantities: map<string, int>,
                                         legs: seq<Leg>, s: string)
    ensures s in Hidden(symbols, tradingsymbol, quantities, legs)
       <==> s in symbols && Shares(quantities, tradingsymbol(s)) > 0 && UnclosedOf(legs, s) == []
  {
    hide UnclosedOf;
    if symbols != [] {
      HiddenMeaning(symbols[..|symbols| - 1], tradingsymbol, quantities, legs, s);
    }
  }

  /** The sweep over the sorted allowlist; when the broker cannot be read it finds nothing. */
  method FindHiddenPositions(symbols: seq<string>, tradingsymbol: string -> string, broker: Option<map<string, int>>,
                             legs: seq<Leg>)
    returns (hidden: seq<string>)
    ensures hidden == if broker.None? then [] else Hidden(symbols, tradingsymbol, broker.value, legs)
  {
    if broker.None? {
      return [];
    }
    var quantities := broker.value;
    hidden := [];
    for i := 0 to |symbols|
      invariant hidden == Hidden(symbols[..i], tradingsymbol, quantities, legs)
    {
      assert symbols[..i + 1][..i] == symbols[..i];
      var realQuantity := Shares(quantities, tradingsymbol(symbols[i]));
      if realQuantity <= 0 {
        continue;
      }
      if UnclosedOf(legs, symbols[i]) == [] {
        hidden := hidden + [symbols[i]];
      }
    }
    assert symbols[..|symbols|] == symbols;
  }
}
