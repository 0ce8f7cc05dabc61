/**
  The order flow as the service runs it: one create or cancel request, call by call, with any
  answers (services/orders/app/service.py). `Saga` lets many of these interleave; the last
  lemma shows that one of its flows, given the same answers, writes the same order.
*/
module OrderFlow {
  import opened Wrappers
  import opened OrderState
  import S = Saga

  /** What came back from a call, or that something else than an answer did. */
  datatype ReserveAnswer = Reserves | Refuses | ReserveFault

  datatype ChargeAnswer = Charges | Declines | ChargeFault

  datatype Answers = Answers(reserve: ReserveAnswer, charge: ChargeAnswer, commit: bool, release: bool)

  datatype Made = MadeReserve | MadeCharge | MadeCommit | MadeRelease

  datatype Failure = IllegalTransition | UpstreamFault

  /** A transition and its commit: what a status write leaves, or that it may not be made. */
  predicate Moved(before: Row, after: Row, to: Status, reason: Reason, done: bool) {
    && done == (to in Allowed(before.status))
    && after == if done then Written(before, before.status, to, reason) else before
  }

  class Orders {
    var calls: seq<Made>

    constructor ()
      ensures calls == []
    {
      calls := [];
    }

    method Call(made: Made)
      modifies this
      ensures calls == old(calls) + [made]
    {
      calls := calls + [made];
    }

    /** True when stock is held; a refusal ends the order; any other failure leaves it as it is. */
    method Reserve(order: OrderRow, answer: ReserveAnswer) returns (r: Result<bool, Failure>)
      modifies this, order
      ensures calls == old(calls) + [MadeReserve]
      ensures answer.ReserveFault? ==> r == Err(UpstreamFault) && order.Columns() == old(order.Columns())
      ensures answer.Refuses? ==>
        Moved(old(order.Columns()), order.Columns(), FAILED, Refused, r.Ok?) && (r.Ok? ==> r.value == false)
      ensures answer.Reserves? ==>
        Moved(old(order.Columns()), order.Columns(), RESERVED, StockReserved, r.Ok?) && (r.Ok? ==> r.value == true)
      ensures r.Err? && !answer.ReserveFault? ==> r.error == IllegalTransition
    {
      Call(MadeReserve);
      if answer.ReserveFault? { return Err(UpstreamFault); }
      if answer.Refuses? {
        var moved := order.Transition(FAILED, Refused);
        return if moved then Ok(false) else Err(IllegalTransition);
      }
      var moved := order.Transition(RESERVED, StockReserved);
      return if moved then Ok(true) else Err(IllegalTransition);
    }

    /** Never raises: a refused release is only reported. */
    method Release(accepted: bool) returns (done: bool)
      modifies this
      ensures calls == old(calls) + [MadeRelease] && done == accepted
    {
      Call(MadeRelease);
      return accepted;
    }

    method Fail(order: OrderRow, accepted: bool, reason: Reason) returns (r: Result<(), Failure>)
      modifies this, order
      ensures calls == old(calls) + [MadeRelease]
      ensures Moved(old(order.Columns()), order.Columns(), FAILED, reason, r.Ok?)
      ensures r.Err? ==> r.error == IllegalTransition
    {
      var _ := Release(accepted);
      var moved := order.Transition(FAILED, reason);
      return if moved then Ok(()) else Err(IllegalTransition);
    }

    /** Pays, then commits the stock and confirms, or hands the stock back and fails. */
    method Settle(order: OrderRow, answers: Answers) returns (r: Result<(), Failure>)
      modifies this, order
      ensures answers.charge.Charges? ==>
        && calls == old(calls) + [MadeCharge, MadeCommit]
        && Moved(old(order.Columns()), order.Columns(), CONFIRMED, Paid, r.Ok?)
      ensures !answers.charge.Charges? ==>
        && calls == old(calls) + [MadeCharge, MadeRelease]
        && Moved(old(order.Columns()), order.Columns(), FAILED,
                 if answers.charge.Declines? then PaymentDeclined else PaymentFault, r.Ok?)
      ensures r.Err? ==> r.error == IllegalTransition
    {
      Call(MadeCharge);
      if answers.charge.ChargeFault? {
        r := Fail(order, answers.release, PaymentFault);
        return;
      }
      if answers.charge.Declines? {
        r := Fail(order, answers.release, PaymentDeclined);
        return;
      }
      // A commit inventory refuses is logged and the order stands.
      Call(MadeCommit);
      var moved := order.Transition(CONFIRMED, Paid);
      return if moved then Ok(()) else Err(IllegalTransition);
    }

    /** A key nobody has used: the order is placed, and ends as the answers say. */
    method CreateOrder(answers: Answers) returns (order: OrderRow, r: Result<(), Failure>)
      modifies this
      ensures fresh(order)
      ensures order.Columns() == FinalRow(answers) && calls == old(calls) + CallsOf(answers)
      ensures r == if answers.reserve.ReserveFault? then Err(UpstreamFault) else Ok(())
    {
      order := new OrderRow.RecordCreation();
      var held := Reserve(order, answers.reserve);
      if held.Err? { return order, Err(held.error); }
      if held.value {
        assert order.status == RESERVED;
        r := Settle(order, answers);
        assert r.Ok? && r.value == ();
        return;
      }
      return order, Ok(());
    }

    /** Asks the table first, then for the stock back, and only then writes the cancellation. */
    method CancelOrder(order: OrderRow, accepted: bool) returns (r: Result<(), Failure>)
      modifies this, order
      ensures old(order.status) != CONFIRMED ==>
        r == Err(IllegalTransition) && order.Columns() == old(order.Columns()) && calls == old(calls)
      ensures old(order.status) == CONFIRMED ==> calls == old(calls) + [MadeRelease]
      ensures old(order.status) == CONFIRMED && !accepted ==>
        r == Err(UpstreamFault) && order.Columns() == old(order.Columns())
      ensures old(order.status) == CONFIRMED && accepted ==>
        r == Ok(()) && order.Columns() == Written(old(order.Columns()), CONFIRMED, CANCELLED, CancelledByCustomer)
    {
      if CANCELLED !in Allowed(order.status) { return Err(IllegalTransition); }
      Call(MadeRelease);
      if !accepted { return Err(UpstreamFault); }
      var moved := order.Transition(CANCELLED, CancelledByCustomer);
      return Ok(());
    }
  }

  // ------------------------------------------------------------------ what a flow comes to

  function FinalRow(a: Answers): (r: Row) {
    match a.reserve
    case ReserveFault => Placed()
    case Refuses => Written(Placed(), PENDING, FAILED, Refused)
    case Reserves =>
      var held := Written(Placed(), PENDING, RESERVED, StockReserved);
      match a.charge
      case Charges => Written(held, RESERVED, CONFIRMED, Paid)
      case Declines => Written(held, RESERVED, FAILED, PaymentDeclined)
      case ChargeFault => Written(held, RESERVED, FAILED, PaymentFault)
  }

  function CallsOf(a: Answers): (calls: seq<Made>) {
    if !a.reserve.Reserves? then [MadeReserve]
    else if a.charge.Charges? then [MadeReserve, MadeCharge, MadeCommit]
    else [MadeReserve, MadeCharge, MadeRelease]
  }

  /**
    Whatever the answers: no call is made twice, stock is asked for before money, and it is
    committed exactly for a confirmed order and handed back exactly for one that failed after
    it was reserved. Only a faulty reserve leaves the order unfinished.
  */
  lemma CompensationIsExact(a: Answers)
    ensures var calls, row := CallsOf(a), FinalRow(a);
      && TrailOk(row)
      && (forall i, j :: 0 <= i < j < |calls| ==> calls[i] != calls[j])
      && calls[0] == MadeReserve
      && (MadeCommit in calls <==> row.status == CONFIRMED)
      && (MadeRelease in calls <==> row.status == FAILED && |row.events| == 3)
      && (Unfinished(row.status) <==> a.reserve.ReserveFault?)
  {
  }

  // ------------------------------------------------------------------ the same flow in the saga

  /** The answer put on the call, and how the flow takes it. */
  function Delivered(pc: S.Pc, a: Answers): (r: (S.Pc, S.FlowEvent))
    requires S.Waiting(pc)
  {
    var yes := pc.(call := pc.call.(stage := S.Answered(true)));
    var no := pc.(call := pc.call.(stage := S.Answered(false)));
    match pc
    case Reserving(_, _) =>
      (match a.reserve case Reserves => (yes, S.Hear) case Refuses => (no, S.Hear) case ReserveFault => (pc, S.GiveUp))
    case Charging(_, _) =>
      (match a.charge case Charges => (yes, S.Hear) case Declines => (no, S.Hear) case ChargeFault => (pc, S.GiveUp))
    case Committing(_, _) => if a.commit then (yes, S.Hear) else (pc, S.GiveUp)
    case Releasing(_, _, _) => if a.release then (yes, S.Hear) else (pc, S.GiveUp)
  }

  function StepsLeft(pc: S.Pc): (n: nat) {
    match pc
    case Reserving(_, _) => 6
    case Refusing(_, _) => 5
    case Accepted(_, _) => 5
    case Charging(_, _) => 4
    case Committing(_, _) => 3
    case Releasing(_, _, _) => 3
    case Paying(_, _) => 2
    case Failing(_, _, _) => 2
    case _ => 0
  }

  function StepOf(c: S.Config, now: S.Time, ord: S.Order, pc: S.Pc, a: Answers): (r: Option<(S.Order, S.Pc)>)
    requires S.Running(pc)
  {
    if S.Waiting(pc) then
      var (answered, event) := Delivered(pc, a);
      S.Flow(c, now, ord, answered, event)
    else S.Flow(c, now, ord, pc, S.WriteStatus)
  }

  lemma StepsDescend(c: S.Config, now: S.Time, ord: S.Order, pc: S.Pc, a: Answers)
    requires S.Running(pc) && StepOf(c, now, ord, pc, a).Some?
    ensures StepsLeft(StepOf(c, now, ord, pc, a).value.1) < StepsLeft(pc)
  {
  }

  /** The flow run to its end. */
  function Drive(c: S.Config, now: S.Time, ord: S.Order, pc: S.Pc, a: Answers): (r: S.Order)
    decreases StepsLeft(pc)
  {
    if !S.Running(pc) then ord
    else
      match StepOf(c, now, ord, pc, a)
      case None => ord
      case Some(next) =>
        StepsDescend(c, now, ord, pc, a);
        Drive(c, now, next.0, next.1, a)
  }

  lemma DriveOneStep(c: S.Config, now: S.Time, ord: S.Order, pc: S.Pc, a: Answers, next: (S.Order, S.Pc))
    requires S.Running(pc) && StepOf(c, now, ord, pc, a) == Some(next)
    ensures Drive(c, now, ord, pc, a) == Drive(c, now, next.0, next.1, a)
  {
  }

  lemma DriveFromWrite(c: S.Config, now: S.Time, ord: S.Order, pc: S.Pc, a: Answers)
    requires (pc.Paying? || pc.Failing? || pc.Refusing?) && ord.lock.None?
    ensures Drive(c, now, ord, pc, a).row
         == if pc.Paying? then Written(ord.row, RESERVED, CONFIRMED, Paid)
            else if pc.Failing? then Written(ord.row, RESERVED, FAILED, pc.why)
            else Written(ord.row, PENDING, FAILED, Reason.Refused)
  {
    var next := StepOf(c, now, ord, pc, a).value;
    DriveOneStep(c, now, ord, pc, a, next);
    assert Drive(c, now, next.0, next.1, a) == next.0;
  }

  lemma DriveFromStock(c: S.Config, now: S.Time, ord: S.Order, pc: S.Pc, a: Answers)
    requires (pc.Committing? || pc.Releasing?) && ord.lock.None?
    ensures Drive(c, now, ord, pc, a).row
         == if pc.Committing? then Written(ord.row, RESERVED, CONFIRMED, Paid)
            else Written(ord.row, RESERVED, FAILED, pc.why)
  {
    var (ord1, pc1) := StepOf(c, now, ord, pc, a).value;
    DriveOneStep(c, now, ord, pc, a, (ord1, pc1));
    DriveFromWrite(c, now, ord1, pc1, a);
  }

  lemma DriveFromCharge(c: S.Config, now: S.Time, ord: S.Order, pc: S.Pc, a: Answers)
    requires pc.Charging? && ord.lock.None? && a.reserve.Reserves?
    requires ord.row == Written(Placed(), PENDING, RESERVED, StockReserved)
    ensures Drive(c, now, ord, pc, a).row == FinalRow(a)
  {
    var (ord1, pc1) := StepOf(c, now, ord, pc, a).value;
    DriveOneStep(c, now, ord, pc, a, (ord1, pc1));
    DriveFromStock(c, now, ord1, pc1, a);
  }

  /** Given the same answers, a flow of the saga writes the order the service's own methods write. */
  lemma SagaFlowIsCreateOrder(c: S.Config, now: S.Time, ord: S.Order, pc: S.Pc, a: Answers)
    requires pc.Reserving? && pc.call.stage.Sent? && ord.lock.None? && ord.row == Placed()
    ensures Drive(c, now, ord, pc, a).row == FinalRow(a)
  {
    var (ord1, pc1) := StepOf(c, now, ord, pc, a).value;
    DriveOneStep(c, now, ord, pc, a, (ord1, pc1));
    match a.reserve {
      case ReserveFault =>
      case Refuses => DriveFromWrite(c, now, ord1, pc1, a);
      case Reserves =>
        var (ord2, pc2) := StepOf(c, now, ord1, pc1, a).value;
        DriveOneStep(c, now, ord1, pc1, a, (ord2, pc2));
        DriveFromCharge(c, now, ord2, pc2, a);
    }
  }
}
