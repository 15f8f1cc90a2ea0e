/** The cash entry protocol of `application/live_cash_execution.py` as small steps of a process, its ledger and the
    broker. The process may crash between any two steps, and the broker may move an order at any time. */
module CashProtocol {
  import opened Numeric
  import opened OrderLedger
  import opened LegNetting
  import opened BrokerReconciliation

  /** One call: what to buy and the identity of the signal behind it. */
  datatype Request = Request(symbol: string, tradingsymbol: string, intent: string, quantity: Quantity)

  datatype Phase =
    | Idle
    | LookingUp(request: Request)
    | Reconciling(request: Request, found: Order)
    | CheckingHoldings(request: Request)
    | Adopting(request: Request, quantity: Quantity)
    | Ready(request: Request, attempt: nat)
    | Placing(request: Request, attempt: nat)
    | Waiting(request: Request, attempt: nat, index: nat)
    | Recording(request: Request, attempt: nat, status: Status)

  /** `orders` is every order the broker ever accepted, in order; those from `today` on are today's order book. */
  datatype World = World(orders: seq<Order>, today: nat, ledger: seq<Leg>, held: map<string, int>, phase: Phase)

  datatype Step =
    | Begin(request: Request, gateOpen: bool)
    | LookUpTag
    | RecordFound
    | CheckHoldings
    | RecordHolding
    | Recheck(pastCutoff: bool)
    | Place(accepted: bool)
    | Poll(answered: bool)
    | Record
    | Crash
    | BrokerMoves(index: nat, status: Status, filled: nat)
    | OtherOrder(order: Order)
    | OtherLeg(leg: Leg)
    | NewDay

  const MAX_ENTRY_ATTEMPTS := 10

  const START := World([], 0, [], map[], Idle)

  function Book(w: World): seq<Order> {
    if w.today <= |w.orders| then w.orders[w.today..] else []
  }

  predicate Tagged(o: Order, intent: string) {
    o.tag == Some(intent)
  }

  predicate Live(o: Order) {
    !o.status.IsTerminalFailure()
  }

  /** The ledger already holds a real or unconfirmed order for this signal. */
  predicate Blocks(ledger: seq<Leg>, intent: string) {
    exists i :: 0 <= i < |ledger| && ledger[i].intentId == intent && ledger[i].status in REAL
  }

  /** The most recent order of the book with a tag. */
  function FindByTag(book: seq<Order>, tag: string): Option<Order> {
    if book == [] then None
    else if Tagged(book[|book| - 1], tag) then Some(book[|book| - 1])
    else FindByTag(book[..|book| - 1], tag)
  }

  function CashLegs(ledger: seq<Leg>): seq<Leg> {
    if ledger == [] then []
    else
      CashLegs(ledger[..|ledger| - 1])
      + (if ledger[|ledger| - 1].purpose == Cash then [ledger[|ledger| - 1]] else [])
  }

  function OccupiedNow(w: World): set<string> {
    var legs := CashLegs(w.ledger);
    Occupied(NetUnclosed(legs, FirstSeen(TRADINGSYMBOL, legs), REAL, false), Book(w), w.held)
  }

  predicate Unclosed(w: World, symbol: string) {
    UnclosedOf(CashLegs(w.ledger), symbol) != []
  }

  /** The checks before anything is sent: the gate, no open position, a free slot, no order for this signal on
      record. */
  predicate MayBegin(maxPositions: int, w: World, request: Request, gateOpen: bool) {
    && gateOpen
    && !Unclosed(w, request.symbol)
    && |OccupiedNow(w)| < maxPositions
    && !Blocks(w.ledger, request.intent)
  }

  function LegOf(request: Request, quantity: Quantity, status: Status, time: int): Leg {
    Leg("entry", request.symbol, Cash, request.tradingsymbol, true, quantity, "", status, time, None, request.intent)
  }

  /** A ledger row; rows are stamped in the order they are written. */
  function Logged(w: World, request: Request, quantity: Quantity, status: Status): World {
    w.(ledger := w.ledger + [LegOf(request, quantity, status, |w.ledger|)])
  }

  function NewOrder(request: Request): Order {
    Order(Some(request.intent), request.tradingsymbol, true, request.quantity, 0, Pending, None)
  }

  // ---------- the steps ----------

  function OwnStep(maxPositions: int, w: World, step: Step): World {
    match (step, w.phase)
    case (Begin(request, gateOpen), Idle) =>
      if MayBegin(maxPositions, w, request, gateOpen) then w.(phase := LookingUp(request)) else w
    case (LookUpTag, LookingUp(request)) =>
      var found := FindByTag(Book(w), request.intent);
      w.(phase := if found.Some? then Reconciling(request, found.value) else CheckingHoldings(request))
    case (RecordFound, Reconciling(request, found)) =>
      Logged(w, request, found.quantity, found.status)
        .(phase := if found.status.IsTerminalFailure() then CheckingHoldings(request) else Idle)
    case (CheckHoldings, CheckingHoldings(request)) =>
      var quantity := Shares(w.held, request.tradingsymbol);
      // A short holding is refused by the ledger's table, and the call ends.
      w.(phase := if quantity > 0 then Adopting(request, quantity) else if quantity < 0 then Idle
         else Ready(request, 1))
    case (RecordHolding, Adopting(request, quantity)) =>
      Logged(w, request, quantity, Complete).(phase := Idle)
    case (Recheck(pastCutoff), Ready(request, attempt)) =>
      if attempt > 1 && (pastCutoff || Unclosed(w, request.symbol)) then w.(phase := Idle)
      else w.(phase := Placing(request, attempt))
    case (Place(accepted), Placing(request, attempt)) =>
      if accepted then w.(orders := w.orders + [NewOrder(request)], phase := Waiting(request, attempt, |w.orders|))
      else w.(phase := Recording(request, attempt, Rejected))
    case (Poll(answered), Waiting(request, attempt, index)) =>
      w.(phase := Recording(request, attempt, if answered && index < |w.orders| then w.orders[index].status
                            else Unknown))
    case (Record, Recording(request, attempt, status)) =>
      Logged(w, request, request.quantity, status)
        .(phase := if status.IsTerminalFailure() && attempt < MAX_ENTRY_ATTEMPTS then Ready(request, attempt + 1)
          else Idle)
    case (Crash, _) => w.(phase := Idle)
    case _ => w
  }

  /** A fill moves the shares with the order. */
  function Moved(held: map<string, int>, o: Order, filled: nat): map<string, int> {
    held[o.tradingsymbol := Shares(held, o.tradingsymbol)
                            + (if o.isBuy then filled - o.filled else o.filled - filled)]
  }

  /** What happens around the process. A final order never moves again, a broker forgets yesterday's orders, and nobody
      else buys: other orders are sales without one of our tags, and other ledger rows are the sales of exits. */
  function OutsideStep(w: World, step: Step): World {
    match step
    case BrokerMoves(index, status, filled) =>
      if w.today <= index < |w.orders| && !Final(w.orders[index].status) && filled >= w.orders[index].filled then
        var o := w.orders[index];
        w.(orders := w.orders[index := o.(status := status, filled := filled)], held := Moved(w.held, o, filled))
      else w
    case OtherOrder(order) =>
      if order.tag.None? && !order.isBuy then w.(orders := w.orders + [order]) else w
    case OtherLeg(leg) =>
      if !leg.isBuy then w.(ledger := w.ledger + [leg]) else w
    case NewDay =>
      if w.phase.Idle? then w.(today := |w.orders|) else w
    case _ => w
  }

  predicate IsOutside(step: Step) {
    step.BrokerMoves? || step.OtherOrder? || step.OtherLeg? || step.NewDay?
  }

  /** One step; a step the current phase does not offer changes nothing. */
  function Do(maxPositions: int, w: World, step: Step): World {
    if IsOutside(step) then OutsideStep(w, step) else OwnStep(maxPositions, w, step)
  }

  function Run(maxPositions: int, w: World, steps: seq<Step>): World {
    if steps == [] then w else Do(maxPositions, Run(maxPositions, w, steps[..|steps| - 1]), steps[|steps| - 1])
  }

  lemma RunNothing(maxPositions: int, w: World)
    ensures Run(maxPositions, w, []) == w
  {
  }

  lemma RunMore(maxPositions: int, w: World, steps: seq<Step>, step: Step)
    ensures Run(maxPositions, w, steps + [step]) == Do(maxPositions, Run(maxPositions, w, steps), step)
  {
    assert (steps + [step])[..|steps|] == steps;
  }

  lemma {:induction false} RunsCompose(maxPositions: int, w: World, xs: seq<Step>, ys: seq<Step>)
    ensures Run(maxPositions, w, xs + ys) == Run(maxPositions, Run(maxPositions, w, xs), ys)
  {
    if ys == [] {
      assert xs + ys == xs;
    } else {
      RunsCompose(maxPositions, w, xs, ys[..|ys| - 1]);
      assert (xs + ys)[..|xs + ys| - 1] == xs + ys[..|ys| - 1];
    }
  }

  // ---------- at most one live order per signal ----------

  ghost predicate AtMostOneLive(w: World, intent: string) {
    forall i, j :: 0 <= i < j < |w.orders| && Tagged(w.orders[i], intent) && Tagged(w.orders[j], intent)
                   ==> !Live(w.orders[i]) || !Live(w.orders[j])
  }

  /** No order of this signal is live. */
  ghost predicate Clear(w: World, intent: string) {
    forall i :: 0 <= i < |w.orders| && Tagged(w.orders[i], intent) ==> !Live(w.orders[i])
  }

  /** Only the last order of a signal can be live. */
  ghost predicate OnlyLastLive(w: World, intent: string) {
    forall i, j :: 0 <= i < j < |w.orders| && Tagged(w.orders[i], intent) && Tagged(w.orders[j], intent)
                   ==> !Live(w.orders[i])
  }

  /** Every live order of the signal before position `bound` is on the ledger. */
  ghost predicate OnRecord(w: World, intent: string, bound: nat) {
    forall i :: 0 <= i < |w.orders| && i < bound && Tagged(w.orders[i], intent) && Live(w.orders[i])
        ==> Blocks(w.ledger, intent)
  }

  /** No live order of the signal is older than today. */
  ghost predicate OnlyToday(w: World, intent: string) {
    forall i :: 0 <= i < |w.orders| && i < w.today && Tagged(w.orders[i], intent) ==> !Live(w.orders[i])
  }

  /** What a phase knows about its signal. */
  ghost predicate PhaseKnows(w: World, intent: string) {
    match w.phase
    case Idle => true
    case LookingUp(request) => request.intent == intent ==> OnlyToday(w, intent)
    case Reconciling(request, found) => request.intent == intent && !Live(found) ==> Clear(w, intent)
    case CheckingHoldings(request) => request.intent == intent ==> Clear(w, intent)
    case Adopting(request, _) => request.intent == intent ==> Clear(w, intent)
    case Ready(request, attempt) => (request.intent == intent ==> Clear(w, intent)) && attempt <= MAX_ENTRY_ATTEMPTS
    case Placing(request, attempt) => (request.intent == intent ==> Clear(w, intent)) && attempt <= MAX_ENTRY_ATTEMPTS
    case Waiting(request, attempt, index) =>
      && w.today <= index < |w.orders| && Tagged(w.orders[index], request.intent)
      && (forall i :: index < i < |w.orders| ==> !Tagged(w.orders[i], request.intent))
      && attempt <= MAX_ENTRY_ATTEMPTS
    case Recording(request, attempt, status) =>
      (request.intent == intent && status.IsTerminalFailure() ==> Clear(w, intent)) && attempt <= MAX_ENTRY_ATTEMPTS
  }

  ghost predicate Inv(w: World, intent: string) {
    w.today <= |w.orders| && OnlyLastLive(w, intent) && OnRecord(w, intent, w.today) && PhaseKnows(w, intent)
  }

  lemma {:induction false} FindByTagMeaning(book: seq<Order>, tag: string)
    ensures FindByTag(book, tag).None? ==> forall i :: 0 <= i < |book| ==> !Tagged(book[i], tag)
    ensures FindByTag(book, tag).Some? ==>
              exists i :: 0 <= i < |book| && book[i] == FindByTag(book, tag).value && Tagged(book[i], tag)
                          && forall j :: i < j < |book| ==> !Tagged(book[j], tag)
  {
    if book != [] && !Tagged(book[|book| - 1], tag) {
      FindByTagMeaning(book[..|book| - 1], tag);
    }
  }

  /** The book shows the signal's last order of today. */
  lemma LookUpSeesLive(w: World, intent: string)
    requires w.today <= |w.orders| && OnlyLastLive(w, intent) && OnlyToday(w, intent)
    ensures var found := FindByTag(Book(w), intent);
            found.None? || !Live(found.value) ==> Clear(w, intent)
  {
    hide FindByTag, Live;
    var book := Book(w);
    FindByTagMeaning(book, intent);
    var found := FindByTag(book, intent);
    assert forall i :: w.today <= i < |w.orders| ==> w.orders[i] == book[i - w.today];
    if found.None? {
      assert forall i :: 0 <= i < |w.orders| && Tagged(w.orders[i], intent) ==> i < w.today;
    } else if !Live(found.value) {
      var k :| 0 <= k < |book| && book[k] == found.value && Tagged(book[k], intent)
               && forall j :: k < j < |book| ==> !Tagged(book[j], intent);
      LastFailed(w, intent, w.today + k);
    }
  }

  /** When the last order of a signal has failed, and older days have nothing live, none is live. */
  lemma LastFailed(w: World, intent: string, last: nat)
    requires last < |w.orders| && Tagged(w.orders[last], intent) && !Live(w.orders[last])
    requires forall j :: last < j < |w.orders| ==> !Tagged(w.orders[j], intent)
    requires OnlyLastLive(w, intent)
    ensures Clear(w, intent)
  {
  }

  lemma MoreLegsKeepBlocking(ledger: seq<Leg>, leg: Leg, intent: string)
    requires Blocks(ledger, intent)
    ensures Blocks(ledger + [leg], intent)
  {
    var i :| 0 <= i < |ledger| && ledger[i].intentId == intent && ledger[i].status in REAL;
    assert (ledger + [leg])[i] == ledger[i];
  }

  lemma OwnStepKeeps(maxPositions: int, w: World, step: Step, intent: string)
    requires Inv(w, intent) && !IsOutside(step)
    ensures Inv(OwnStep(maxPositions, w, step), intent)
  {
    hide OccupiedNow, Unclosed, Blocks, FindByTag, Shares, Book;
    var next := OwnStep(maxPositions, w, step);
    if next.ledger != w.ledger {
      if Blocks(w.ledger, intent) {
        MoreLegsKeepBlocking(w.ledger, next.ledger[|w.ledger|], intent);
      }
    } else if step.LookUpTag? && w.phase.LookingUp? && w.phase.request.intent == intent {
      LookUpSeesLive(w, intent);
    }
  }

  lemma OutsideStepKeeps(w: World, step: Step, intent: string)
    requires Inv(w, intent) && IsOutside(step)
    requires step.NewDay? && w.phase.Idle? ==> OnRecord(w, intent, |w.orders|)
    ensures Inv(OutsideStep(w, step), intent)
  {
    hide Blocks;
    var next := OutsideStep(w, step);
    if step.OtherLeg? && Blocks(w.ledger, intent) {
      MoreLegsKeepBlocking(w.ledger, step.leg, intent);
    }
  }

  /** Whenever a day ends with no call in progress, every live order of the signal is on the ledger. */
  ghost predicate DaysClose(maxPositions: int, steps: seq<Step>, intent: string) {
    forall k :: 0 <= k < |steps| && steps[k].NewDay? ==> DayCloses(Run(maxPositions, START, steps[..k]), intent)
  }

  ghost predicate DayCloses(w: World, intent: string) {
    w.phase.Idle? ==> OnRecord(w, intent, |w.orders|)
  }

  lemma {:induction false} RunKeeps(maxPositions: int, start: World, steps: seq<Step>, intent: string)
    requires Inv(start, intent)
    requires forall k :: 0 <= k < |steps| && steps[k].NewDay?
              ==> DayCloses(Run(maxPositions, start, steps[..k]), intent)
    ensures Inv(Run(maxPositions, start, steps), intent)
  {
    hide Inv, OnRecord, OwnStep, OutsideStep;
    if steps != [] {
      var before := steps[..|steps| - 1];
      assert forall k :: 0 <= k < |before| ==> before[..k] == steps[..k] && before[k] == steps[k];
      RunKeeps(maxPositions, start, before, intent);
      var w := Run(maxPositions, start, before);
      if IsOutside(steps[|steps| - 1]) {
        OutsideStepKeeps(w, steps[|steps| - 1], intent);
      } else {
        OwnStepKeeps(maxPositions, w, steps[|steps| - 1], intent);
      }
    }
  }

  lemma StartIsSafe(intent: string)
    ensures Inv(START, intent)
  {
  }

  /** Main result. Over every interleaving of calls, placements, fills, rejections, ledger writes, crashes and
      restarts, at most one order of a signal is not failed. */
  lemma AtMostOneLiveOrder(maxPositions: int, steps: seq<Step>, intent: string)
    requires DaysClose(maxPositions, steps, intent)
    ensures AtMostOneLive(Run(maxPositions, START, steps), intent)
  {
    hide Run;
    StartIsSafe(intent);
    RunKeeps(maxPositions, START, steps, intent);
  }

  predicate OneDay(steps: seq<Step>) {
    forall k :: 0 <= k < |steps| ==> !steps[k].NewDay?
  }

  /** Within one day nothing at all has to be assumed of the ledger. */
  lemma OneDayNeedsNoRecord(maxPositions: int, steps: seq<Step>, intent: string)
    requires OneDay(steps)
    ensures AtMostOneLive(Run(maxPositions, START, steps), intent)
  {
    hide Run;
    AtMostOneLiveOrder(maxPositions, steps, intent);
  }

  // ---------- without crashes nothing has to be assumed ----------

  /** The call in progress still owes the ledger a row for a live order of the signal. */
  ghost predicate InFlight(w: World, intent: string) {
    || (w.phase.Waiting? && w.phase.request.intent == intent)
    || (w.phase.Recording? && w.phase.request.intent == intent && w.phase.status in REAL)
  }

  predicate KnownStatuses(orders: seq<Order>) {
    forall i :: 0 <= i < |orders| ==> !orders[i].status.Other?
  }

  ghost predicate Accounted(w: World, intent: string) {
    KnownStatuses(w.orders) && (OnRecord(w, intent, |w.orders|) || InFlight(w, intent))
  }

  /** No crash, and the broker reports documented statuses only. */
  predicate Orderly(step: Step) {
    && !step.Crash?
    && (step.BrokerMoves? ==> !step.status.Other?)
    && (step.OtherOrder? ==> !step.order.status.Other?)
  }

  lemma OrderlyOwnStep(maxPositions: int, w: World, step: Step, intent: string)
    requires Inv(w, intent) && Accounted(w, intent) && Orderly(step) && !IsOutside(step)
    ensures Accounted(OwnStep(maxPositions, w, step), intent)
  {
    hide OccupiedNow, Unclosed, Blocks, FindByTag, Shares;
    var next := OwnStep(maxPositions, w, step);
    if next.ledger != w.ledger && Blocks(w.ledger, intent) {
      MoreLegsKeepBlocking(w.ledger, next.ledger[|w.ledger|], intent);
    }
    if step.Record? && w.phase.Recording? {
      LoggedBlocks(w, w.phase.request, w.phase.request.quantity, w.phase.status);
    }
  }

  lemma LoggedBlocks(w: World, request: Request, quantity: Quantity, status: Status)
    ensures status in REAL ==> Blocks(Logged(w, request, quantity, status).ledger, request.intent)
  {
    assert Logged(w, request, quantity, status).ledger[|w.ledger|] == LegOf(request, quantity, status, |w.ledger|);
  }

  lemma OrderlyOutsideStep(w: World, step: Step, intent: string)
    requires Accounted(w, intent) && Orderly(step) && IsOutside(step)
    ensures Accounted(OutsideStep(w, step), intent)
  {
    hide Blocks;
    if step.OtherLeg? && Blocks(w.ledger, intent) {
      MoreLegsKeepBlocking(w.ledger, step.leg, intent);
    }
  }

  lemma {:induction false} OrderlyRunKeeps(maxPositions: int, steps: seq<Step>, intent: string)
    requires forall k :: 0 <= k < |steps| ==> Orderly(steps[k])
    ensures Inv(Run(maxPositions, START, steps), intent) && Accounted(Run(maxPositions, START, steps), intent)
  {
    hide Inv, OnRecord, OwnStep, OutsideStep;
    if steps != [] {
      var before := steps[..|steps| - 1];
      var w := Run(maxPositions, START, before);
      OrderlyRunKeeps(maxPositions, before, intent);
      if IsOutside(steps[|steps| - 1]) {
        OutsideStepKeeps(w, steps[|steps| - 1], intent);
        OrderlyOutsideStep(w, steps[|steps| - 1], intent);
      } else {
        OwnStepKeeps(maxPositions, w, steps[|steps| - 1], intent);
        OrderlyOwnStep(maxPositions, w, steps[|steps| - 1], intent);
      }
    } else {
      StartIsSafe(intent);
      NothingToRecord(intent);
    }
  }

  lemma NothingToRecord(intent: string)
    ensures OnRecord(START, intent, 0)
  {
  }

  /** Main result. Over any number of days, as long as the process does not crash and the broker's statuses are
      documented ones, at most one order of a signal is not failed. */
  lemma OrderlyDaysNeedNoAssumption(maxPositions: int, steps: seq<Step>, intent: string)
    requires forall k :: 0 <= k < |steps| ==> Orderly(steps[k])
    ensures AtMostOneLive(Run(maxPositions, START, steps), intent)
  {
    hide Run;
    OrderlyRunKeeps(maxPositions, steps, intent);
  }

  // ---------- capacity ----------

  /** The symbols with shares held or a BUY on its way. */
  function AtRisk(w: World): (r: set<string>)
    ensures forall s :: s in r <==> Shown(Book(w), w.held, s)
  {
    PendingSymbols(Book(w)) + HeldSymbols(w.held)
  }

  ghost predicate WithinCapacity(maxPositions: int, w: World) {
    && w.today <= |w.orders|
    && |AtRisk(w)| <= maxPositions
    && (!w.phase.Idle? ==> |AtRisk(w) + {w.phase.request.tradingsymbol}| <= maxPositions)
    && (w.phase.Waiting? ==> w.phase.index < |w.orders|)
  }

  lemma {:induction false} FewerElements(xs: set<string>, ys: set<string>)
    requires xs <= ys
    ensures |xs| <= |ys|
  {
    if x :| x in xs {
      FewerElements(xs - {x}, ys - {x});
    }
  }

  lemma QuietStep(maxPositions: int, w: World, step: Step)
    requires !IsOutside(step)
    requires !(step.Begin? && w.phase.Idle?) && !(step.Place? && w.phase.Placing? && step.accepted)
    ensures var next := OwnStep(maxPositions, w, step);
            && next.orders == w.orders && next.today == w.today && next.held == w.held
            && (next.phase.Idle? || (!w.phase.Idle? && next.phase.request == w.phase.request))
            && (next.phase.Waiting? ==> next.phase == w.phase)
  {
    hide MayBegin, Unclosed, FindByTag, Shares;
  }

  lemma SameRisk(w: World, next: World)
    requires next.orders == w.orders && next.today == w.today && next.held == w.held
    ensures AtRisk(next) == AtRisk(w)
  {
  }

  lemma BeginKeepsCapacity(maxPositions: int, w: World, step: Step)
    requires WithinCapacity(maxPositions, w) && step.Begin? && w.phase.Idle?
    ensures WithinCapacity(maxPositions, OwnStep(maxPositions, w, step))
  {
    hide AtRisk, Unclosed, Blocks, OccupiedNow;
    var next := OwnStep(maxPositions, w, step);
    SameRisk(w, next);
    if next.phase != Idle {
      BeginHasRoom(maxPositions, w, step.request);
    }
  }

  lemma PlaceKeepsCapacity(maxPositions: int, w: World, step: Step)
    requires WithinCapacity(maxPositions, w) && step.Place? && w.phase.Placing? && step.accepted
    ensures WithinCapacity(maxPositions, OwnStep(maxPositions, w, step))
  {
    hide AtRisk, NewOrder;
    PlaceAddsOne(w, OwnStep(maxPositions, w, step), w.phase.request);
  }

  lemma OwnStepKeepsCapacity(maxPositions: int, w: World, step: Step)
    requires WithinCapacity(maxPositions, w) && !IsOutside(step)
    ensures WithinCapacity(maxPositions, OwnStep(maxPositions, w, step))
  {
    hide AtRisk, OwnStep;
    if step.Begin? && w.phase.Idle? {
      BeginKeepsCapacity(maxPositions, w, step);
    } else if step.Place? && w.phase.Placing? && step.accepted {
      PlaceKeepsCapacity(maxPositions, w, step);
    } else {
      QuietStep(maxPositions, w, step);
      SameRisk(w, OwnStep(maxPositions, w, step));
    }
  }

  lemma PlaceAddsOne(w: World, next: World, request: Request)
    requires w.today <= |w.orders|
    requires next.orders == w.orders + [NewOrder(request)] && next.today == w.today && next.held == w.held
    ensures |AtRisk(next)| <= |AtRisk(w) + {request.tradingsymbol}|
    ensures |AtRisk(next) + {request.tradingsymbol}| <= |AtRisk(w) + {request.tradingsymbol}|
  {
    hide AtRisk;
    forall s | s in AtRisk(next)
      ensures s in AtRisk(w) + {request.tradingsymbol}
    {
      PlacedShows(w, next, request, s);
    }
    FewerElements(AtRisk(next) + {request.tradingsymbol}, AtRisk(w) + {request.tradingsymbol});
    FewerElements(AtRisk(next), AtRisk(w) + {request.tradingsymbol});
  }

  lemma PlacedShows(w: World, next: World, request: Request, s: string)
    requires w.today <= |w.orders|
    requires next.orders == w.orders + [NewOrder(request)] && next.today == w.today && next.held == w.held
    ensures Shown(Book(next), next.held, s) ==> Shown(Book(w), w.held, s) || s == request.tradingsymbol
  {
    assert Book(next) == Book(w) + [NewOrder(request)];
    if i :| 0 <= i < |Book(next)| && IsPending(Book(next)[i], s) && i < |Book(w)| {
      assert IsPending(Book(w)[i], s);
    }
  }

  /** Everything at risk is counted before a call begins, so one more symbol fits. */
  lemma BeginHasRoom(maxPositions: int, w: World, request: Request)
    requires |OccupiedNow(w)| < maxPositions
    ensures |AtRisk(w) + {request.tradingsymbol}| <= maxPositions && |AtRisk(w)| <= maxPositions
  {
    hide AtRisk, OccupiedNow;
    RiskIsOccupied(w);
    FewerElements(AtRisk(w), OccupiedNow(w));
    OneMoreElement(AtRisk(w), request.tradingsymbol);
  }

  lemma RiskIsOccupied(w: World)
    ensures AtRisk(w) <= OccupiedNow(w)
  {
    hide NetUnclosed, FirstSeen, CashLegs, Book, Pends, SoldOff;
  }

  lemma OneMoreElement(xs: set<string>, x: string)
    ensures |xs + {x}| <= |xs| + 1
  {
    if x in xs {
      assert xs + {x} == xs;
    }
  }

  lemma OutsideStepKeepsCapacity(maxPositions: int, w: World, step: Step)
    requires WithinCapacity(maxPositions, w) && IsOutside(step)
    ensures WithinCapacity(maxPositions, OutsideStep(w, step))
  {
    hide AtRisk;
    var next := OutsideStep(w, step);
    forall s | s in AtRisk(next)
      ensures s in AtRisk(w)
    {
      OutsideShows(w, step, s);
    }
    FewerElements(AtRisk(next), AtRisk(w));
    if !w.phase.Idle? {
      FewerElements(AtRisk(next) + {w.phase.request.tradingsymbol}, AtRisk(w) + {w.phase.request.tradingsymbol});
    }
  }

  /** Fills and sales put no new symbol at risk. */
  lemma OutsideShows(w: World, step: Step, s: string)
    requires w.today <= |w.orders| && IsOutside(step)
    requires var next := OutsideStep(w, step);
             Shown(Book(next), next.held, s)
    ensures Shown(Book(w), w.held, s)
  {
    var next := OutsideStep(w, step);
    if Shares(w.held, s) <= 0 {
      if Pends(Book(next), s) {
        var i :| 0 <= i < |Book(next)| && IsPending(Book(next)[i], s);
        if i < |Book(w)| {
          assert IsPending(Book(w)[i], s);
        }
      } else {
        assert step.BrokerMoves? && next != w;
        assert IsPending(Book(w)[step.index - w.today], s);
      }
    }
  }

  /** Main result. Over every run, days and crashes included, the symbols held or on their way never exceed the
      limit. */
  lemma {:induction false} CapacityIsNeverExceeded(maxPositions: nat, steps: seq<Step>)
    ensures WithinCapacity(maxPositions, Run(maxPositions, START, steps))
  {
    hide WithinCapacity, OwnStep, OutsideStep;
    if steps != [] {
      var before := steps[..|steps| - 1];
      CapacityIsNeverExceeded(maxPositions, before);
      var w := Run(maxPositions, START, before);
      if IsOutside(steps[|steps| - 1]) {
        OutsideStepKeepsCapacity(maxPositions, w, steps[|steps| - 1]);
      } else {
        OwnStepKeepsCapacity(maxPositions, w, steps[|steps| - 1]);
      }
    } else {
      StartWithinCapacity(maxPositions);
    }
  }

  lemma StartWithinCapacity(maxPositions: nat)
    ensures WithinCapacity(maxPositions, START)
  {
    assert AtRisk(START) == {};
  }
}
