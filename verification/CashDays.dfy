/** The cash entry protocol over the turn of a day: a broker forgets yesterday's orders, so what the process
    remembers of them is what its ledger holds. */
module CashDays {
  import opened Numeric
  import opened OrderLedger
  import opened LegNetting
  import opened BrokerReconciliation
  import opened CashProtocol

  // ---------- the turn of a day, exactly ----------

  /** One call that meets no resistance. */
  function Attempt(request: Request): seq<Step> {
    [Begin(request, true), LookUpTag, CheckHoldings, Recheck(false), Place(true)]
  }

  lemma RunFive(maxPositions: int, w: World, a: Step, b: Step, c: Step, d: Step, e: Step)
    ensures Run(maxPositions, w, [a, b, c, d, e])
         == Do(maxPositions, Do(maxPositions, Do(maxPositions, Do(maxPositions, Do(maxPositions, w, a), b), c), d), e)
  {
    hide Run, Do;
    RunNothing(maxPositions, w);
    RunMore(maxPositions, w, [], a);
    RunMore(maxPositions, w, [a], b);
    RunMore(maxPositions, w, [a, b], c);
    RunMore(maxPositions, w, [a, b, c], d);
    RunMore(maxPositions, w, [a, b, c, d], e);
    assert [] + [a] == [a] && [a] + [b] == [a, b] && [a, b] + [c] == [a, b, c] && [a, b, c] + [d] == [a, b, c, d];
    assert [a, b, c, d] + [e] == [a, b, c, d, e];
  }

  /** The two steps that look at the broker, with no order of the signal in the book and nothing held. */
  lemma NothingFound(maxPositions: int, w: World, request: Request)
    requires FindByTag(Book(w), request.intent) == None
    ensures Do(maxPositions, w.(phase := LookingUp(request)), LookUpTag) == w.(phase := CheckingHoldings(request))
  {
    assert Book(w.(phase := LookingUp(request))) == Book(w);
    hide Logged, MayBegin, Unclosed, Shares, FindByTag, Book;
  }

  lemma NothingHeld(maxPositions: int, w: World, request: Request)
    requires Shares(w.held, request.tradingsymbol) == 0
    ensures Do(maxPositions, w.(phase := CheckingHoldings(request)), CheckHoldings) == w.(phase := Ready(request, 1))
  {
    hide Logged, MayBegin, Unclosed, FindByTag, Book, Shares;
  }

  lemma FirstAttempt(maxPositions: int, w: World, request: Request)
    ensures Do(maxPositions, Do(maxPositions, w.(phase := Ready(request, 1)), Recheck(false)), Place(true))
         == w.(orders := w.orders + [NewOrder(request)], phase := Waiting(request, 1, |w.orders|))
  {
    hide Logged, MayBegin, Unclosed, FindByTag, Book, Shares, NewOrder;
    assert Do(maxPositions, w.(phase := Ready(request, 1)), Recheck(false)) == w.(phase := Placing(request, 1));
  }

  lemma IdleIgnores(maxPositions: int, w: World, step: Step)
    requires w.phase == Idle && !step.Begin? && !IsOutside(step)
    ensures Do(maxPositions, w, step) == w
  {
  }

  lemma BeginChecks(maxPositions: int, w: World, request: Request)
    requires w.phase == Idle
    ensures Do(maxPositions, w, Begin(request, true)) == if MayBegin(maxPositions, w, request, true)
            then w.(phase := LookingUp(request)) else w
  {
    hide Logged, MayBegin, Unclosed, FindByTag, Book, Shares;
  }

  /** A call that finds no order of its signal in the book, and nothing held, places exactly when the local checks
      pass. */
  lemma AttemptPlaces(maxPositions: int, w: World, request: Request)
    requires w.phase == Idle && FindByTag(Book(w), request.intent) == None && Shares(w.held, request.tradingsymbol) == 0
    ensures Run(maxPositions, w, Attempt(request))
         == if MayBegin(maxPositions, w, request, true) then
              w.(orders := w.orders + [NewOrder(request)], phase := Waiting(request, 1, |w.orders|))
            else w
  {
    hide MayBegin, Run, Do, Shares, NewOrder, FindByTag, Book;
    RunFive(maxPositions, w, Begin(request, true), LookUpTag, CheckHoldings, Recheck(false), Place(true));
    BeginChecks(maxPositions, w, request);
    if MayBegin(maxPositions, w, request, true) {
      NothingFound(maxPositions, w, request);
      NothingHeld(maxPositions, w, request);
      FirstAttempt(maxPositions, w, request);
    } else {
      IdleIgnores(maxPositions, w, LookUpTag);
      IdleIgnores(maxPositions, w, CheckHoldings);
      IdleIgnores(maxPositions, w, Recheck(false));
      IdleIgnores(maxPositions, w, Place(true));
    }
  }

  // ---------- what may happen on the day before the call ----------

  /** Orders fill, and others sell. */
  predicate Market(moves: seq<Step>) {
    forall i :: 0 <= i < |moves| ==> moves[i].BrokerMoves? || moves[i].OtherOrder?
  }

  /** The same ledger and old orders, and only orders without one of our tags since. */
  ghost predicate OnlyMarketMoved(u: World, v: World) {
    && v.phase == u.phase && v.ledger == u.ledger && v.today == u.today == |u.orders| <= |v.orders|
    && v.orders[..|u.orders|] == u.orders
    && forall i :: |u.orders| <= i < |v.orders| ==> v.orders[i].tag.None?
  }

  lemma MarketStep(maxPositions: int, u: World, v: World, step: Step)
    requires OnlyMarketMoved(u, v) && (step.BrokerMoves? || step.OtherOrder?)
    ensures OnlyMarketMoved(u, Do(maxPositions, v, step))
  {
    hide Moved, Final;
    var next := Do(maxPositions, v, step);
    assert forall i :: 0 <= i < |u.orders| ==> v.orders[i] == v.orders[..|u.orders|][i];
    assert forall i :: 0 <= i < |u.orders| ==> next.orders[i] == u.orders[i];
    assert next.orders[..|u.orders|] == u.orders;
  }

  lemma {:induction false} MarketRun(maxPositions: int, u: World, moves: seq<Step>)
    requires u.today == |u.orders| && Market(moves)
    ensures OnlyMarketMoved(u, Run(maxPositions, u, moves))
  {
    hide Do;
    if moves == [] {
      assert u.orders[..|u.orders|] == u.orders;
    } else {
      hide OnlyMarketMoved;
      MarketRun(maxPositions, u, moves[..|moves| - 1]);
      MarketStep(maxPositions, u, Run(maxPositions, u, moves[..|moves| - 1]), moves[|moves| - 1]);
    }
  }

  lemma NoTagInBook(u: World, v: World, intent: string)
    requires OnlyMarketMoved(u, v)
    ensures FindByTag(Book(v), intent) == None
  {
    FindByTagMeaning(Book(v), intent);
    hide FindByTag;
    assert forall i :: 0 <= i < |Book(v)| ==> Book(v)[i] == v.orders[v.today + i];
  }

  /** Nothing but the ledger's memory of the signal can stop a call for the request on the next day, after some moves
      of the market: by then nothing is held of it, and a slot is free. */
  ghost predicate NextDayIsOpen(maxPositions: int, w: World, moves: seq<Step>, request: Request) {
    var v := Run(maxPositions, w.(today := |w.orders|), moves);
    && w.phase.Idle? && Market(moves)
    && !Unclosed(w, request.symbol)
    && |OccupiedNow(v)| < maxPositions
    && Shares(v.held, request.tradingsymbol) == 0
  }

  lemma DayTurns(maxPositions: int, w: World, steps: seq<Step>)
    requires w.phase.Idle?
    ensures Run(maxPositions, w, [NewDay] + steps) == Run(maxPositions, w.(today := |w.orders|), steps)
  {
    RunsCompose(maxPositions, w, [NewDay], steps);
    RunNothing(maxPositions, w);
    RunMore(maxPositions, w, [], NewDay);
    assert [] + [NewDay] == [NewDay];
  }

  /** Main result. When the next day comes to be open for a request, acting on its signal again leaves at most one
      live order exactly when every live order of the signal was on the ledger at the turn of the day. */
  lemma TurnOfDayExactly(maxPositions: int, w: World, moves: seq<Step>, request: Request)
    requires NextDayIsOpen(maxPositions, w, moves, request) && OnlyLastLive(w, request.intent)
    ensures AtMostOneLive(Run(maxPositions, w, [NewDay] + (moves + Attempt(request))), request.intent)
       <==> OnRecord(w, request.intent, |w.orders|)
  {
    hide Run, MayBegin, OccupiedNow, Unclosed, Blocks, Attempt, Shares, OnlyMarketMoved, OnRecord, OnlyLastLive;
    var u := w.(today := |w.orders|);
    var v := Run(maxPositions, u, moves);
    DayTurns(maxPositions, w, moves + Attempt(request));
    RunsCompose(maxPositions, u, moves, Attempt(request));
    MarketRun(maxPositions, u, moves);
    NoTagInBook(u, v, request.intent);
    SameMemory(w, u, v, request.intent);
    AttemptPlaces(maxPositions, v, request);
    OnlyRecordStops(maxPositions, w, v, request);
    if !Blocks(v.ledger, request.intent) {
      OneMoreLive(v, v.(orders := v.orders + [NewOrder(request)], phase := Waiting(request, 1, |v.orders|)),
                  request.intent);
    }
    RecordedOrClear(w, request.intent);
    StillOne(v, request.intent);
  }

  /** What the market did changes nothing the signal's orders or the ledger say. */
  lemma SameMemory(w: World, u: World, v: World, intent: string)
    requires u == w.(today := |w.orders|) && OnlyMarketMoved(u, v)
    ensures v.phase == w.phase && v.ledger == w.ledger
    ensures OnlyLastLive(w, intent) ==> OnlyLastLive(v, intent)
    ensures Clear(w, intent) <==> Clear(v, intent)
  {
    assert forall i :: 0 <= i < |w.orders| ==> v.orders[i] == w.orders[i] by {
      assert forall i :: 0 <= i < |u.orders| ==> v.orders[i] == v.orders[..|u.orders|][i];
    }
    hide Live;
  }

  lemma OnlyRecordStops(maxPositions: int, w: World, v: World, request: Request)
    requires v.ledger == w.ledger && !Unclosed(w, request.symbol) && |OccupiedNow(v)| < maxPositions
    ensures MayBegin(maxPositions, v, request, true) <==> !Blocks(w.ledger, request.intent)
  {
    hide OccupiedNow, Blocks, CashLegs, UnclosedOf;
  }

  lemma RecordedOrClear(w: World, intent: string)
    ensures !Blocks(w.ledger, intent) ==> (OnRecord(w, intent, |w.orders|) <==> Clear(w, intent))
    ensures Blocks(w.ledger, intent) ==> OnRecord(w, intent, |w.orders|)
  {
    hide Blocks;
  }

  lemma StillOne(w: World, intent: string)
    ensures OnlyLastLive(w, intent) ==> AtMostOneLive(w, intent)
  {
  }

  /** One more live order of a signal leaves at most one exactly when there was none. */
  lemma OneMoreLive(w: World, end: World, intent: string)
    requires |end.orders| == |w.orders| + 1 && end.orders[..|w.orders|] == w.orders
    requires Tagged(end.orders[|w.orders|], intent) && Live(end.orders[|w.orders|]) && OnlyLastLive(w, intent)
    ensures AtMostOneLive(end, intent) <==> Clear(w, intent)
  {
    hide Tagged, Live;
    assert forall i :: 0 <= i < |w.orders| ==> end.orders[i] == w.orders[i];
  }

  lemma RecordedDayIsSafe(maxPositions: int, w: World, steps: seq<Step>, intent: string)
    requires w.phase.Idle? && Inv(w, intent) && OnRecord(w, intent, |w.orders|) && OneDay(steps)
    ensures AtMostOneLive(Run(maxPositions, w, [NewDay] + steps), intent)
  {
    hide Run, OnRecord;
    OutsideStepKeeps(w, NewDay, intent);
    DayTurns(maxPositions, w, steps);
    RunKeeps(maxPositions, w.(today := |w.orders|), steps, intent);
  }

  lemma AttemptIsOneDay(moves: seq<Step>, request: Request)
    requires Market(moves)
    ensures OneDay(moves + Attempt(request))
  {
  }

  lemma OpenAndOrdered(maxPositions: int, w: World, moves: seq<Step>, request: Request)
    requires NextDayIsOpen(maxPositions, w, moves, request) && Inv(w, request.intent)
    ensures w.phase.Idle? && OnlyLastLive(w, request.intent) && Market(moves)
  {
    hide OccupiedNow, Unclosed, Shares;
  }

  /** Main result. And it is not only that one call: if the next day may come to be open at all, every run of it is safe
      exactly when the ledger is complete. */
  lemma NextDayIsSafeExactly(maxPositions: int, w: World, moves: seq<Step>, request: Request)
    requires NextDayIsOpen(maxPositions, w, moves, request) && Inv(w, request.intent)
    ensures (forall steps | OneDay(steps) :: AtMostOneLive(Run(maxPositions, w, [NewDay] + steps), request.intent))
       <==> OnRecord(w, request.intent, |w.orders|)
  {
    OpenAndOrdered(maxPositions, w, moves, request);
    AttemptIsOneDay(moves, request);
    hide Run, OnRecord, OneDay, AtMostOneLive, Attempt, NextDayIsOpen, Inv, OnlyLastLive;
    TurnOfDayExactly(maxPositions, w, moves, request);
    if OnRecord(w, request.intent, |w.orders|) {
      forall steps | OneDay(steps)
        ensures AtMostOneLive(Run(maxPositions, w, [NewDay] + steps), request.intent)
      {
        RecordedDayIsSafe(maxPositions, w, steps, request.intent);
      }
    }
  }

  // ---------- a run that buys twice ----------

  /** The order fills before the process can record it: when the day ends the ledger does not show that the signal
      was ever acted on. */
  function ForgottenSteps(request: Request): seq<Step> {
    Attempt(request) + [Crash, BrokerMoves(0, Complete, request.quantity)]
  }

  function Sale(request: Request): Order {
    Order(None, request.tradingsymbol, false, request.quantity, 0, Pending, None)
  }

  /** The shares are sold elsewhere on the next day, before the signal is acted on again. */
  function SoldElsewhere(request: Request): seq<Step> {
    [OtherOrder(Sale(request)), BrokerMoves(1, Complete, request.quantity)]
  }

  lemma StartIsOpen(maxPositions: int, request: Request)
    requires maxPositions >= 1
    ensures MayBegin(maxPositions, START, request, true)
  {
    assert CashLegs([]) == [] && FirstSeen(TRADINGSYMBOL, []) == [] && FirstSeen(SYMBOL, []) == [];
    assert OccupiedNow(START) == {};
  }

  function Filled(request: Request): Order {
    NewOrder(request).(status := Complete, filled := request.quantity)
  }

  /** The world at the end of that day: the shares are held and the ledger is empty. */
  function EndOfDay(request: Request): World {
    World([Filled(request)], 0, [], map[request.tradingsymbol := request.quantity as int], Idle)
  }

  lemma DayEnds(maxPositions: int, request: Request)
    requires maxPositions >= 1
    ensures Run(maxPositions, START, ForgottenSteps(request))
         == EndOfDay(request)
  {
    var steps := Attempt(request);
    var fill := BrokerMoves(0, Complete, request.quantity);
    assert steps + [Crash] + [fill] == ForgottenSteps(request);
    StartIsOpen(maxPositions, request);
    assert FindByTag(Book(START), request.intent) == None;
    AttemptPlaces(maxPositions, START, request);
    hide Run, Attempt, ForgottenSteps, MayBegin;
    RunMore(maxPositions, START, steps, Crash);
    RunMore(maxPositions, START, steps + [Crash], fill);
    FillArrives(maxPositions, request);
  }

  lemma FillArrives(maxPositions: int, request: Request)
    ensures var placed := World([NewOrder(request)], 0, [], map[], Waiting(request, 1, 0));
            Do(maxPositions, Do(maxPositions, placed, Crash), BrokerMoves(0, Complete, request.quantity))
            == World([Filled(request)], 0, [], map[request.tradingsymbol := request.quantity as int], Idle)
  {
  }

  lemma OfferIsTaken(maxPositions: int, u: World, request: Request)
    ensures Do(maxPositions, u, OtherOrder(Sale(request))) == u.(orders := u.orders + [Sale(request)])
  {
  }

  lemma SaleFills(maxPositions: int, v: World, request: Request)
    requires v.today == 1 && |v.orders| == 2 && v.orders[1] == Sale(request)
    requires v.held == map[request.tradingsymbol := request.quantity as int]
    ensures var next := Do(maxPositions, v, BrokerMoves(1, Complete, request.quantity));
            && next.ledger == v.ledger && next.today == 1 && |next.orders| == 2 && !next.orders[1].isBuy
            && next.held == map[request.tradingsymbol := 0]
  {
  }

  /** What the sale on the next day leaves. */
  lemma SharesGo(maxPositions: int, request: Request)
    ensures var u := EndOfDay(request).(today := 1);
            var v := Run(maxPositions, u, SoldElsewhere(request));
            && v.ledger == [] && v.today == 1 && |v.orders| == 2 && !v.orders[1].isBuy
            && forall s :: s in v.held ==> v.held[s] == 0
  {
    hide Run, Do, Filled;
    var u := EndOfDay(request).(today := 1);
    var offer, fill := OtherOrder(Sale(request)), BrokerMoves(1, Complete, request.quantity);
    assert [] + [offer] == [offer] && [offer] + [fill] == SoldElsewhere(request);
    RunNothing(maxPositions, u);
    RunMore(maxPositions, u, [], offer);
    RunMore(maxPositions, u, [offer], fill);
    OfferIsTaken(maxPositions, u, request);
    SaleFills(maxPositions, u.(orders := u.orders + [Sale(request)]), request);
  }

  lemma NothingLeft(v: World, request: Request)
    requires v.ledger == [] && v.today == 1 && |v.orders| == 2 && !v.orders[1].isBuy
          && forall s :: s in v.held ==> v.held[s] == 0
    ensures !Unclosed(v, request.symbol) && OccupiedNow(v) == {} && Shares(v.held, request.tradingsymbol) == 0
  {
    assert CashLegs([]) == [] && FirstSeen(TRADINGSYMBOL, []) == [] && FirstSeen(SYMBOL, []) == [];
  }

  lemma NothingUnclosed(w: World, symbol: string)
    requires w.ledger == []
    ensures !Unclosed(w, symbol)
  {
    assert CashLegs([]) == [] && FirstSeen(TRADINGSYMBOL, []) == [] && FirstSeen(SYMBOL, []) == [];
  }

  lemma MorningIsOpen(maxPositions: int, request: Request)
    requires maxPositions >= 1
    ensures NextDayIsOpen(maxPositions, EndOfDay(request), SoldElsewhere(request), request)
    ensures !OnRecord(EndOfDay(request), request.intent, 1) && OnlyLastLive(EndOfDay(request), request.intent)
  {
    var w := EndOfDay(request);
    NothingUnclosed(w, request.symbol);
    SharesGo(maxPositions, request);
    hide Run, Unclosed, OccupiedNow, Shares;
    NothingLeft(Run(maxPositions, w.(today := |w.orders|), SoldElsewhere(request)), request);
    assert Tagged(w.orders[0], request.intent) && Live(w.orders[0]);
  }

  /** For every request and every limit that admits it: shares of an unrecorded order that are sold on the next day,
      outside the process, leave nothing that stops the same signal from being bought again. */
  lemma ForgottenOrderIsPlacedAgain(maxPositions: int, request: Request)
    requires maxPositions >= 1
    ensures !AtMostOneLive(Run(maxPositions, START,
                               ForgottenSteps(request) + ([NewDay] + (SoldElsewhere(request) + Attempt(request)))),
                           request.intent)
  {
    hide Run, ForgottenSteps, Attempt, SoldElsewhere, NextDayIsOpen, OnRecord, OnlyLastLive, AtMostOneLive;
    DayEnds(maxPositions, request);
    MorningIsOpen(maxPositions, request);
    RunsCompose(maxPositions, START, ForgottenSteps(request), [NewDay] + (SoldElsewhere(request) + Attempt(request)));
    TurnOfDayExactly(maxPositions, EndOfDay(request), SoldElsewhere(request), request);
  }
}
