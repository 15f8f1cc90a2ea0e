/** The call of `application/live_cash_execution.py` in its own form: an account object, a preflight and a retry
    loop, each shown to be a run of the protocol of `CashProtocol`. */
module CashDesk {
  import opened Numeric
  import opened OrderLedger
  import opened LegNetting
  import opened BrokerReconciliation
  import opened CashProtocol

  /** What one placement meets: whether the broker accepts it, what happens while the call waits, whether the status
      can be read afterwards. */
  datatype Answer = Answer(accepted: bool, meanwhile: seq<Step>, readable: bool)

  predicate Plausible(answer: Answer) {
    forall i :: 0 <= i < |answer.meanwhile| ==> IsOutside(answer.meanwhile[i]) && !answer.meanwhile[i].NewDay?
  }

  /** The broker already shows the signal acted on: an order of it that has not failed, or shares held. */
  predicate AlreadyActed(w: World, request: Request) {
    var found := FindByTag(Book(w), request.intent);
    (found.Some? && !found.value.status.IsTerminalFailure()) || Shares(w.held, request.tradingsymbol) != 0
  }

  /** The steps begin a call, place an order of it and record what became of it. */
  predicate CallPlaces(steps: seq<Step>, request: Request, gateOpen: bool, accepted: bool) {
    && steps != [] && steps[0] == Begin(request, gateOpen)
    && exists i, j :: 0 < i < j < |steps| && steps[i] == Place(accepted) && steps[j] == Record
  }

  lemma CallGoesOn(steps: seq<Step>, more: seq<Step>, request: Request, gateOpen: bool, accepted: bool)
    requires CallPlaces(steps, request, gateOpen, accepted)
    ensures CallPlaces(steps + more, request, gateOpen, accepted)
  {
    var i, j :| 0 < i < j < |steps| && steps[i] == Place(accepted) && steps[j] == Record;
    assert (steps + more)[i] == Place(accepted) && (steps + more)[j] == Record && (steps + more)[0] == steps[0];
  }

  /** The first attempt after a call has begun. */
  lemma FirstAttemptPlaces(steps: seq<Step>, more: seq<Step>, request: Request, gateOpen: bool, accepted: bool)
    requires steps != [] && steps[0] == Begin(request, gateOpen)
    requires |more| >= 3 && more[1] == Place(accepted) && more[|more| - 1] == Record
    ensures CallPlaces(steps + more, request, gateOpen, accepted)
  {
    var all := steps + more;
    assert all[|steps| + 1] == Place(accepted) && all[|all| - 1] == Record && all[0] == steps[0];
  }

  class CashTrader {
    const maxPositions: int
    var orders: seq<Order>
    var today: nat
    var ledger: seq<Leg>
    var held: map<string, int>

    ghost function State(phase: Phase): World
      reads this
    {
      World(orders, today, ledger, held, phase)
    }

    constructor (maxPositions: int)
      ensures this.maxPositions == maxPositions && State(Idle) == START
    {
      this.maxPositions := maxPositions;
      orders, today, ledger, held := [], 0, [], map[];
    }

    method Move(step: Step, ghost phase: Phase)
      requires IsOutside(step) && !step.NewDay?
      modifies this`orders, this`ledger, this`held
      ensures State(phase) == OutsideStep(old(State(phase)), step)
    {
      hide Moved, Final;
      match step {
        case BrokerMoves(index, status, filled) =>
          if today <= index < |orders| && !Final(orders[index].status) && filled >= orders[index].filled {
            held := Moved(held, orders[index], filled);
            orders := orders[index := orders[index].(status := status, filled := filled)];
          }
        case OtherOrder(order) =>
          if order.tag.None? && !order.isBuy {
            orders := orders + [order];
          }
        case OtherLeg(leg) =>
          if !leg.isBuy {
            ledger := ledger + [leg];
          }
        case _ =>
      }
    }

    /** The broker and the exits act while the call waits. */
    method Meanwhile(moves: seq<Step>, ghost phase: Phase)
      requires forall i :: 0 <= i < |moves| ==> IsOutside(moves[i]) && !moves[i].NewDay?
      modifies this`orders, this`ledger, this`held
      ensures State(phase) == Run(maxPositions, old(State(phase)), moves)
    {
      hide OutsideStep, OwnStep;
      for i := 0 to |moves|
        invariant State(phase) == Run(maxPositions, old(State(phase)), moves[..i])
      {
        assert moves[..i + 1][..i] == moves[..i];
        Move(moves[i], phase);
      }
      assert moves[..|moves|] == moves;
    }

    method RecordLeg(request: Request, quantity: Quantity, status: Status)
      modifies this`ledger
      ensures ledger == old(ledger) + [LegOf(request, quantity, status, |old(ledger)|)]
    {
      ledger := ledger + [LegOf(request, quantity, status, |ledger|)];
    }

    method HasUnclosedLegs(symbol: string) returns (r: bool)
      ensures r == Unclosed(State(Idle), symbol)
    {
      var unclosed := NetUnclosedLegs(WithKey(SYMBOL, CashLegs(ledger), symbol), REAL, false);
      r := unclosed != [];
    }

    method BrokerGroundTruthPreflight(request: Request) returns (blocked: bool, ghost steps: seq<Step>)
      requires today <= |orders|
      modifies this`ledger
      ensures forall i :: 0 <= i < |steps| ==> !steps[i].NewDay? && !steps[i].Crash?
      ensures State(if blocked then Idle else Ready(request, 1))
           == Run(maxPositions, old(State(LookingUp(request))), steps)
      ensures blocked == old(AlreadyActed(State(Idle), request))
    {
      ghost var start := State(LookingUp(request));
      hide Run, FindByTag, Shares, MayBegin, Unclosed, NewOrder;
      steps := [];
      RunNothing(maxPositions, start);
      RunMore(maxPositions, start, steps, LookUpTag);
      steps := steps + [LookUpTag];
      var found := FindByTag(orders[today..], request.intent);
      if found.Some? {
        RecordLeg(request, found.value.quantity, found.value.status);
        RunMore(maxPositions, start, steps, RecordFound);
        steps := steps + [RecordFound];
        if !found.value.status.IsTerminalFailure() {
          return true, steps;
        }
      }
      assert State(CheckingHoldings(request)) == Run(maxPositions, start, steps);
      RunMore(maxPositions, start, steps, CheckHoldings);
      steps := steps + [CheckHoldings];
      var realQuantity := Shares(held, request.tradingsymbol);
      if realQuantity > 0 {
        RecordLeg(request, realQuantity, Complete);
        RunMore(maxPositions, start, steps, RecordHolding);
        steps := steps + [RecordHolding];
        return true, steps;
      }
      blocked := realQuantity < 0;
    }

    method PlaceAndWait(request: Request, ghost attempt: nat, answer: Answer)
      returns (status: Status, ghost steps: seq<Step>)
      requires Plausible(answer)
      modifies this`orders, this`ledger, this`held
      ensures forall i :: 0 <= i < |steps| ==> !steps[i].NewDay? && !steps[i].Crash?
      ensures State(Recording(request, attempt, status))
           == Run(maxPositions, old(State(Placing(request, attempt))), steps)
      ensures steps != [] && steps[0] == Place(answer.accepted)
    {
      ghost var start := State(Placing(request, attempt));
      hide Run, Book;
      steps := [];
      RunNothing(maxPositions, start);
      RunMore(maxPositions, start, steps, Place(answer.accepted));
      steps := steps + [Place(answer.accepted)];
      if !answer.accepted {
        return Rejected, steps;
      }
      var index := |orders|;
      orders := orders + [NewOrder(request)];
      Meanwhile(answer.meanwhile, Waiting(request, attempt, index));
      RunsCompose(maxPositions, start, steps, answer.meanwhile);
      steps := steps + answer.meanwhile;
      RunMore(maxPositions, start, steps, Poll(answer.readable));
      steps := steps + [Poll(answer.readable)];
      status := if answer.readable && index < |orders| then orders[index].status else Unknown;
    }

    method PassesLocalChecks(request: Request, gateOpen: bool) returns (passes: bool)
      requires today <= |orders|
      ensures passes == MayBegin(maxPositions, State(Idle), request, gateOpen)
    {
      if !gateOpen {
        return false;
      }
      var alreadyOpen := HasUnclosedLegs(request.symbol);
      if alreadyOpen {
        return false;
      }
      var unclosed := NetUnclosedLegs(CashLegs(ledger), REAL, false);
      var occupied := OccupiedCashSymbols(unclosed, Some((orders[today..], held)));
      if |occupied| >= maxPositions {
        return false;
      }
      return !Blocks(ledger, request.intent);
    }

    /** One turn of the retry loop; `done` when no further attempt may follow. */
    method TryOnce(request: Request, attempt: nat, pastCutoff: bool, answer: Answer)
      returns (done: bool, ghost steps: seq<Step>)
      requires 1 <= attempt <= MAX_ENTRY_ATTEMPTS && Plausible(answer)
      modifies this`orders, this`ledger, this`held
      ensures State(if done then Idle else Ready(request, attempt + 1))
           == Run(maxPositions, old(State(Ready(request, attempt))), steps)
      ensures attempt == MAX_ENTRY_ATTEMPTS ==> done
      ensures attempt == 1 ==> |steps| >= 3 && steps[1] == Place(answer.accepted) && steps[|steps| - 1] == Record
      ensures forall i :: 0 <= i < |steps| ==> !steps[i].NewDay? && !steps[i].Crash?
    {
      hide Run, Unclosed;
      ghost var start := State(Ready(request, attempt));
      steps := [];
      RunNothing(maxPositions, start);
      RunMore(maxPositions, start, steps, Recheck(pastCutoff));
      steps := steps + [Recheck(pastCutoff)];
      if attempt > 1 {
        var openNow := HasUnclosedLegs(request.symbol);
        UnclosedIgnoresPhase(State(Idle), start, request.symbol);
        if pastCutoff || openNow {
          return true, steps;
        }
      }
      assert State(Placing(request, attempt)) == Run(maxPositions, start, steps);
      var status;
      ghost var more;
      status, more := PlaceAndWait(request, attempt, answer);
      RunsCompose(maxPositions, start, steps, more);
      steps := steps + more;
      RecordLeg(request, request.quantity, status);
      RunMore(maxPositions, start, steps, Record);
      steps := steps + [Record];
      done := !status.IsTerminalFailure() || attempt == MAX_ENTRY_ATTEMPTS;
    }

    /** The call, with its retry loop. It is a run of the protocol, so everything proved of runs holds of it. */
    method ExecuteCashEntry(request: Request, gateOpen: bool, pastCutoff: seq<bool>, answers: seq<Answer>)
      returns (placed: bool, ghost steps: seq<Step>)
      requires today <= |orders|
      requires |pastCutoff| == |answers| == MAX_ENTRY_ATTEMPTS
            && forall i :: 0 <= i < |answers| ==> Plausible(answers[i])
      modifies this`orders, this`ledger, this`held
      ensures State(Idle) == Run(maxPositions, old(State(Idle)), steps)
      ensures forall i :: 0 <= i < |steps| ==> !steps[i].NewDay? && !steps[i].Crash?
      ensures placed == old(MayBegin(maxPositions, State(Idle), request, gateOpen)
                            && !AlreadyActed(State(Idle), request))
      ensures placed ==> CallPlaces(steps, request, gateOpen, answers[0].accepted)
      ensures !old(MayBegin(maxPositions, State(Idle), request, gateOpen)) ==> State(Idle) == old(State(Idle))
    {
      hide Run, MayBegin, AlreadyActed, CallPlaces;
      ghost var start := State(Idle);
      placed, steps := false, [];
      RunNothing(maxPositions, start);
      var passes := PassesLocalChecks(request, gateOpen);
      if !passes {
        return;
      }
      RunMore(maxPositions, start, steps, Begin(request, gateOpen));
      steps := steps + [Begin(request, gateOpen)];
      var blocked;
      ghost var more;
      blocked, more := BrokerGroundTruthPreflight(request);
      RunsCompose(maxPositions, start, steps, more);
      steps := steps + more;
      if blocked {
        return;
      }
      placed := true;
      var attempt, done := 1, false;
      while !done
        invariant 1 <= attempt <= MAX_ENTRY_ATTEMPTS || done
        invariant State(if done then Idle else Ready(request, attempt)) == Run(maxPositions, start, steps)
        invariant forall i :: 0 <= i < |steps| ==> !steps[i].NewDay? && !steps[i].Crash?
        invariant steps != [] && steps[0] == Begin(request, gateOpen)
        invariant attempt >= 1 && (done ==> attempt > 1)
        invariant attempt > 1 ==> CallPlaces(steps, request, gateOpen, answers[0].accepted)
        decreases if done then 0 else 1 + MAX_ENTRY_ATTEMPTS - attempt
      {
        done, more := TryOnce(request, attempt, pastCutoff[attempt - 1], answers[attempt - 1]);
        if attempt == 1 {
          FirstAttemptPlaces(steps, more, request, gateOpen, answers[0].accepted);
        } else {
          CallGoesOn(steps, more, request, gateOpen, answers[0].accepted);
        }
        RunsCompose(maxPositions, start, steps, more);
        steps := steps + more;
        attempt := attempt + 1;
      }
    }
  }

  lemma UnclosedIgnoresPhase(w: World, v: World, symbol: string)
    requires w.ledger == v.ledger
    ensures Unclosed(w, symbol) == Unclosed(v, symbol)
  {
  }

  /** After any run of the protocol, a call leaves at most one live order of each signal and stays within the limit. */
  lemma CallIsSafe(maxPositions: nat, before: seq<Step>, call: seq<Step>, intent: string)
    requires DaysClose(maxPositions, before, intent)
    requires forall i :: 0 <= i < |call| ==> !call[i].NewDay?
    ensures var w := Run(maxPositions, Run(maxPositions, START, before), call);
            AtMostOneLive(w, intent) && WithinCapacity(maxPositions, w)
  {
    hide Run, AtMostOneLive, WithinCapacity, DayCloses;
    RunsCompose(maxPositions, START, before, call);
    var all := before + call;
    forall k | 0 <= k < |all| && all[k].NewDay?
      ensures DayCloses(Run(maxPositions, START, all[..k]), intent)
    {
      assert all[..k] == before[..k] && before[k] == all[k];
    }
    AtMostOneLiveOrder(maxPositions, all, intent);
    CapacityIsNeverExceeded(maxPositions, all);
  }
}
