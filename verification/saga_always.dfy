/**
  What holds of the saga in every run, whatever the settings: how often each call is sent,
  what an order has paid, and whose stock it holds. Nothing here depends on the expiry window.
*/
module SagaAlways {
  import opened Wrappers
  import opened OrderState
  import opened Saga
  import opened SagaInvariant
  import opened SagaSteps
  import opened SagaSafety
  import I = Inventory
  import L = InventoryLaws
  import P = Payments

  // ------------------------------------------------------------------ one order

  /** The order's only reserve has been sent and not served yet. */
  predicate ReserveOut(v: View) {
    (v.pc.Reserving? && !Served(v.pc.call.stage)) || v.ord.lateReserve.Some?
  }

  ghost predicate RowsTied(o: OrderId, v: View) {
    && ValidItems(v.ord.items)
    && v.rows == RowsFor(o, v.ord.items, HoldOf(v.rows))
    && (ReserveOut(v) ==> v.rows == [])
  }

  ghost predicate ReserveTimely(c: Config, now: Time, v: View) {
    var latest := v.ord.createdAt + c.local + c.inventoryTimeout;
    && (v.pc.Reserving? ==>
          && v.ord.lateReserve.None? && (v.pc.call.stage.Sent? || v.pc.call.stage.Answered?)
          && now <= v.pc.call.due <= latest)
    && (v.ord.lateReserve.Some? ==>
          && v.ord.lateReserve.value.stage.Sent?
          && now <= v.ord.lateReserve.value.due + c.landing && v.ord.lateReserve.value.due <= latest)
  }

  /** The charge was declined, and nothing is left that could change that. */
  predicate NotPaid(v: View) {
    v.pay.Some? && v.pay.value.status.Failed? && v.ord.lateCharge.None?
  }

  predicate Paid(v: View) {
    PaidFor(v) && v.ord.lateCharge.None?
  }

  ghost predicate CallsOnce(o: OrderId, v: View) {
    && v.ord.reserves == 1 && v.ord.charges <= 1
    && (Running(v.pc) ==> v.pc.order == o)
    && (v.pc.Reserving? || v.pc.Refusing? || v.pc.Accepted? ==> v.ord.charges == 0 && v.ord.row.status != RESERVED)
  }

  /** Where the payment stands at each point of the flow, and what a status says about it afterwards. */
  ghost predicate PaidOk(v: View) {
    && (v.pc.Committing? || v.pc.Paying? ==> Paid(v))
    && (v.pc.Releasing? || v.pc.Failing? ==> v.pc.why == PaymentFault || (v.pc.why == PaymentDeclined && NotPaid(v)))
    && (v.ord.row.status == PENDING ==> v.ord.charges == 0)
    && (v.ord.row.status == RESERVED ==> Running(v.pc) || v.ord.crashed)
    && (v.ord.row.status == CONFIRMED ==> Paid(v) && !Running(v.pc))
    && (v.ord.row.status == FAILED ==> !Running(v.pc) && FailedFor(v))
  }

  predicate FailedFor(v: View) {
    || v.ord.row.failureReason == Some(PaymentFault)
    || (v.ord.row.failureReason == Some(PaymentDeclined) && NotPaid(v))
    || (v.ord.row.failureReason == Some(Refused) && v.ord.charges == 0)
  }

  ghost predicate AlwaysOk(c: Config, now: Time, o: OrderId, v: View) {
    RowsTied(o, v) && ReserveTimely(c, now, v) && CallsOnce(o, v) && PayOk(v) && PaidOk(v)
  }

  /** What no step changes about an order. */
  predicate SameIdentity(a: Order, b: Order) {
    b.key == a.key && b.email == a.email && b.items == a.items && b.total == a.total && b.creator == a.creator
  }

  // ------------------------------------------------------------------ the create flow on its own order

  lemma HearAlways(c: Config, now: Time, o: OrderId, v: View)
    requires AlwaysOk(c, now, o, v) && Running(v.pc) && HearAnswer(c, now, v.ord, v.pc).Some?
    ensures var (ord, pc) := HearAnswer(c, now, v.ord, v.pc).value;
      AlwaysOk(c, now, o, Afterwards(v, ord, pc)) && SameIdentity(v.ord, ord) && !pc.Returned?
  {
  }

  lemma GiveUpAlways(c: Config, now: Time, o: OrderId, v: View)
    requires AlwaysOk(c, now, o, v) && Running(v.pc) && StopWaiting(c, now, v.ord, v.pc).Some?
    ensures var (ord, pc) := StopWaiting(c, now, v.ord, v.pc).value;
      AlwaysOk(c, now, o, Afterwards(v, ord, pc)) && SameIdentity(v.ord, ord) && !pc.Returned?
  {
    match v.pc
    case Reserving(_, _) =>
    case Charging(_, _) =>
    case Committing(_, _) =>
    case Releasing(_, _, _) =>
  }

  lemma WriteAlways(c: Config, now: Time, o: OrderId, v: View)
    requires AlwaysOk(c, now, o, v) && Running(v.pc) && Commit(c, now, v.ord, v.pc).Some?
    ensures var (ord, pc) := Commit(c, now, v.ord, v.pc).value;
      && AlwaysOk(c, now, o, Afterwards(v, ord, pc)) && SameIdentity(v.ord, ord)
      && (pc.Returned? ==> pc.order == o)
  {
  }

  lemma DieAlways(c: Config, now: Time, o: OrderId, v: View)
    requires AlwaysOk(c, now, o, v) && Running(v.pc)
    ensures var left := if Waiting(v.pc) then Abandon(v.ord, KindOf(v.pc), v.pc.call) else v.ord;
      var ord := left.(crashed := true);
      AlwaysOk(c, now, o, Afterwards(v, ord, Dead)) && SameIdentity(v.ord, ord)
  {
    match v.pc
    case Reserving(_, _) =>
    case Charging(_, _) =>
    case Committing(_, _) =>
    case Releasing(_, _, _) =>
    case _ =>
  }

  lemma FlowAlways(c: Config, now: Time, o: OrderId, v: View, ev: FlowEvent)
    requires AlwaysOk(c, now, o, v) && Running(v.pc) && Flow(c, now, v.ord, v.pc, ev).Some?
    ensures var (ord, pc) := Flow(c, now, v.ord, v.pc, ev).value;
      && AlwaysOk(c, now, o, Afterwards(v, ord, pc)) && SameIdentity(v.ord, ord)
      && (pc.Returned? ==> pc.order == o)
  {
    match ev
    case Hear => HearAlways(c, now, o, v);
    case GiveUp => GiveUpAlways(c, now, o, v);
    case WriteStatus => WriteAlways(c, now, o, v);
    case Die => DieAlways(c, now, o, v);
  }

  // ------------------------------------------------------------------ the called services on one order

  lemma ReserveTies(o: OrderId, v: View, db: I.Db)
    requires RowsTied(o, v) && v.rows == I.RowsOf(db.rows, o) == []
    ensures var rows := I.RowsOf(I.Reserve(db, o, v.ord.items).db.rows, o);
      rows == RowsFor(o, v.ord.items, HoldOf(rows))
  {
    ReserveHold(db, o, v.ord.items);
    OneStatus(o, v.ord.items, Has(I.Active));
  }

  lemma CommitTies(o: OrderId, v: View, db: I.Db)
    requires RowsTied(o, v) && v.rows == I.RowsOf(db.rows, o)
    ensures var rows := I.RowsOf(I.Commit(db, o).db.rows, o);
      && rows == RowsFor(o, v.ord.items, HoldOf(rows))
      && (InStock(HoldOf(v.rows)) ==> rows == v.rows)
  {
    CommitHold(db, o, v.ord.items, HoldOf(v.rows));
    OneStatus(o, v.ord.items, Has(I.Committed));
  }

  lemma ReleaseTies(o: OrderId, v: View, db: I.Db)
    requires RowsTied(o, v) && v.rows == I.RowsOf(db.rows, o)
    ensures var rows := I.RowsOf(I.Release(db, o).db.rows, o);
      && rows == RowsFor(o, v.ord.items, HoldOf(rows)) && InStock(HoldOf(rows))
      && (v.rows == [] ==> rows == [])
  {
    StatusHold(db.rows, o, v.ord.items, HoldOf(v.rows), I.Released);
    OneStatus(o, v.ord.items, Has(I.Released));
  }

  /** Inventory serving one of the order's calls: its rows stay its own, and a reserve finds none. */
  lemma RowsStayTied(kind: Kind, o: OrderId, v: View, db: I.Db, stage: Stage, result: P.GatewayResult)
    requires RowsTied(o, v) && v.rows == I.RowsOf(db.rows, o) && (kind == ToReserve ==> v.rows == [])
    ensures var rows := I.RowsOf(Serve(kind, o, v.ord, db, v.pay, stage, result).db.rows, o);
      && rows == RowsFor(o, v.ord.items, HoldOf(rows))
      && (kind == ToRelease ==> InStock(HoldOf(rows)))
      && (kind != ToReserve && v.rows == [] ==> rows == [])
      && (kind == ToCommit && HoldOf(v.rows) == Has(I.Released) ==> rows == v.rows)
  {
    var sv := Serve(kind, o, v.ord, db, v.pay, stage, result);
    match kind
    case ToReserve =>
      ReserveTies(o, v, db);
      assert sv.db == I.Reserve(db, o, v.ord.items).db;
    case ToCommit =>
      CommitTies(o, v, db);
      assert sv.db == I.Commit(db, o).db;
    case ToRelease =>
      ReleaseTies(o, v, db);
      assert sv.db == I.Release(db, o).db;
    case ToCharge =>
      assert sv.db == db;
  }

  lemma ServedStage(o: OrderId, v: View, db: I.Db, stage: Stage, result: P.GatewayResult)
    requires RowsTied(o, v) && v.rows == I.RowsOf(db.rows, o) && v.rows == []
    ensures Serve(ToReserve, o, v.ord, db, v.pay, stage, result).stage.Answered?
  {
    ReserveHold(db, o, v.ord.items);
  }

  /** A call other than the charge: no payment column moves. */
  lemma ServeCallAlways(c: Config, now: Time, o: OrderId, v: View, db: I.Db, result: P.GatewayResult)
    requires AlwaysOk(c, now, o, v) && v.rows == I.RowsOf(db.rows, o)
    requires Waiting(v.pc) && !Served(v.pc.call.stage) && !v.pc.Charging?
    ensures AlwaysOk(c, now, o, FlowServed(v, Serve(KindOf(v.pc), o, v.ord, db, v.pay, v.pc.call.stage, result), o))
  {
    var stage := v.pc.call.stage;
    var sv := Serve(KindOf(v.pc), o, v.ord, db, v.pay, stage, result);
    RowsStayTied(KindOf(v.pc), o, v, db, stage, result);
    if v.pc.Reserving? { ServedStage(o, v, db, stage, result); }
    var w := FlowServed(v, sv, o);
    assert w.pay == v.pay && w.ord == v.ord;
    assert PayOk(w) by { assert ChargeStage(w) == ChargeStage(v); }
  }

  lemma ServeChargeAlways(c: Config, now: Time, o: OrderId, v: View, db: I.Db, result: P.GatewayResult)
    requires AlwaysOk(c, now, o, v) && v.rows == I.RowsOf(db.rows, o)
    requires v.pc.Charging? && !Served(v.pc.call.stage)
    ensures AlwaysOk(c, now, o, FlowServed(v, Serve(ToCharge, o, v.ord, db, v.pay, v.pc.call.stage, result), o))
  {
  }

  lemma ServeFlowAlways(c: Config, now: Time, o: OrderId, v: View, db: I.Db, result: P.GatewayResult)
    requires AlwaysOk(c, now, o, v) && v.rows == I.RowsOf(db.rows, o)
    requires Waiting(v.pc) && !Served(v.pc.call.stage)
    ensures AlwaysOk(c, now, o, FlowServed(v, Serve(KindOf(v.pc), o, v.ord, db, v.pay, v.pc.call.stage, result), o))
  {
    if v.pc.Charging? {
      ServeChargeAlways(c, now, o, v, db, result);
    } else {
      ServeCallAlways(c, now, o, v, db, result);
    }
  }

  lemma LandReserveAlways(c: Config, now: Time, o: OrderId, v: View, db: I.Db, result: P.GatewayResult)
    requires AlwaysOk(c, now, o, v) && v.rows == I.RowsOf(db.rows, o) && v.ord.lateReserve.Some?
    ensures var stage := v.ord.lateReserve.value.stage;
      AlwaysOk(c, now, o, LateServed(v, ToReserve, Serve(ToReserve, o, v.ord, db, v.pay, stage, result), o))
  {
    RowsStayTied(ToReserve, o, v, db, v.ord.lateReserve.value.stage, result);
    ServedStage(o, v, db, v.ord.lateReserve.value.stage, result);
  }

  lemma LandCommitAlways(c: Config, now: Time, o: OrderId, v: View, db: I.Db, result: P.GatewayResult)
    requires AlwaysOk(c, now, o, v) && v.rows == I.RowsOf(db.rows, o) && v.ord.lateCommit.Some?
    ensures var stage := v.ord.lateCommit.value.stage;
      AlwaysOk(c, now, o, LateServed(v, ToCommit, Serve(ToCommit, o, v.ord, db, v.pay, stage, result), o))
  {
    RowsStayTied(ToCommit, o, v, db, v.ord.lateCommit.value.stage, result);
  }

  lemma LandChargeAlways(c: Config, now: Time, o: OrderId, v: View, db: I.Db, result: P.GatewayResult)
    requires AlwaysOk(c, now, o, v) && v.rows == I.RowsOf(db.rows, o) && v.ord.lateCharge.Some?
    ensures var stage := v.ord.lateCharge.value.stage;
      AlwaysOk(c, now, o, LateServed(v, ToCharge, Serve(ToCharge, o, v.ord, db, v.pay, stage, result), o))
  {
  }

  lemma LandAlways(c: Config, now: Time, o: OrderId, v: View, kind: Kind, db: I.Db, result: P.GatewayResult)
    requires AlwaysOk(c, now, o, v) && v.rows == I.RowsOf(db.rows, o) && Late(v.ord, kind).Some?
    ensures var stage := Late(v.ord, kind).value.stage;
      AlwaysOk(c, now, o, LateServed(v, kind, Serve(kind, o, v.ord, db, v.pay, stage, result), o))
  {
    match kind
    case ToReserve => LandReserveAlways(c, now, o, v, db, result);
    case ToCharge => LandChargeAlways(c, now, o, v, db, result);
    case ToCommit => LandCommitAlways(c, now, o, v, db, result);
  }

  lemma DropAlways(c: Config, now: Time, o: OrderId, v: View, kind: Kind)
    requires AlwaysOk(c, now, o, v) && Late(v.ord, kind).Some?
    ensures AlwaysOk(c, now, o, v.(ord := SetLate(v.ord, kind, None)))
  {
    match kind
    case ToReserve =>
    case ToCharge =>
    case ToCommit =>
  }

  lemma ReleaseAlways(c: Config, now: Time, o: OrderId, v: View, db: I.Db)
    requires AlwaysOk(c, now, o, v) && v.rows == I.RowsOf(db.rows, o)
    ensures AlwaysOk(c, now, o, v.(rows := I.RowsOf(I.Release(db, o).db.rows, o)))
  {
    RowsStayTied(ToRelease, o, v, db, Sent, P.Declined(""));
  }

  /** The columns a cancellation or an expiry run writes; neither ever writes CONFIRMED or FAILED. */
  lemma ColumnsAlways(c: Config, now: Time, o: OrderId, v: View, ord: Order)
    requires AlwaysOk(c, now, o, v)
    requires ord == v.ord.(row := ord.row, lock := ord.lock, lateRelease := ord.lateRelease,
                           releaseSent := ord.releaseSent, releaseFailed := ord.releaseFailed)
    requires ord.row == v.ord.row || ord.row.status == EXPIRED || ord.row.status == CANCELLED
    ensures AlwaysOk(c, now, o, v.(ord := ord))
  {
  }

  lemma TickAlways(c: Config, now: Time, later: Time, o: OrderId, v: View)
    requires AlwaysOk(c, now, o, v) && now <= later && (Running(v.pc) ==> later <= Deadline(v.pc))
    requires Late(v.ord, ToReserve).Some? ==> later <= Late(v.ord, ToReserve).value.due + c.landing
    ensures AlwaysOk(c, later, o, v)
  {
  }

  lemma NewOrderAlways(c: Config, now: Time, o: OrderId, q: Request, total: nat, r: nat)
    requires ValidItems(q.items)
    ensures var (ord, pc) := SendReserve(c, now, NewOrder(q, total, now, r), o);
      AlwaysOk(c, now, o, View(ord, pc, [], None))
  {
  }

  // ------------------------------------------------------------------ the whole system

  ghost predicate RequestTied(s: Sys, r: nat)
    requires r < |s.requests|
  {
    var q := s.requests[r];
    && ValidItems(q.items)
    && (Running(q.pc) ==> q.pc.order < |s.orders| && s.orders[q.pc.order].creator == r)
    && (q.pc.Returned? ==> q.pc.order < |s.orders| && SameOrder(s.orders[q.pc.order], q))
  }

  ghost predicate Always(c: Config, s: Sys) {
    && (forall o :: 0 <= o < |s.orders| ==> AlwaysOk(c, s.now, o, ViewOf(s, o)))
    && OrdersOk(s)
    && StockOk(s)
    && (forall r :: 0 <= r < |s.requests| ==> RequestTied(s, r))
  }

  lemma LiftAlways(c: Config, s: Sys, t: Sys, o: OrderId)
    requires Always(c, s) && Touches(s, t, o) && StockOk(t)
    requires AlwaysOk(c, t.now, o, ViewOf(t, o)) && SameIdentity(s.orders[o], t.orders[o])
    requires forall r :: 0 <= r < |s.requests| ==> t.requests[r] == s.requests[r] || RequestTied(t, r)
    ensures Always(c, t)
  {
    forall p | 0 <= p < |t.orders|
      ensures AlwaysOk(c, t.now, p, ViewOf(t, p)) && SameIdentity(s.orders[p], t.orders[p])
    {
      if p != o { assert ViewOf(t, p) == ViewOf(s, p) && t.orders[p] == s.orders[p]; }
    }
    forall p | 0 <= p < |t.orders|
      ensures t.orders[p].creator < |t.requests| && SameOrder(t.orders[p], t.requests[t.orders[p].creator])
    {
      assert SameOrder(s.orders[p], s.requests[s.orders[p].creator]);
    }
    forall r | 0 <= r < |t.requests| ensures RequestTied(t, r) {
      if t.requests[r] == s.requests[r] { assert RequestTied(s, r); }
    }
  }

  /** A step no order notices. */
  lemma QuietAlways(c: Config, s: Sys, t: Sys)
    requires Always(c, s) && t.now == s.now && t.orders == s.orders && t.pays == s.pays && t.db.rows == s.db.rows
    requires StockOk(t) && |s.requests| <= |t.requests|
    requires forall r :: 0 <= r < |s.requests| ==>
      && t.requests[r].key == s.requests[r].key
      && t.requests[r].email == s.requests[r].email
      && t.requests[r].items == s.requests[r].items
    requires forall o :: 0 <= o < |s.orders| ==> FlowOf(t, o) == FlowOf(s, o)
    requires forall r :: 0 <= r < |t.requests| ==>
      (r < |s.requests| && t.requests[r] == s.requests[r]) || RequestTied(t, r)
    ensures Always(c, t)
  {
    forall o | 0 <= o < |s.orders|
      ensures AlwaysOk(c, t.now, o, ViewOf(t, o))
      ensures t.orders[o].creator < |t.requests| && SameOrder(t.orders[o], t.requests[t.orders[o].creator])
    {
      assert ViewOf(t, o) == ViewOf(s, o);
      assert SameOrder(s.orders[o], s.requests[s.orders[o].creator]);
    }
    forall r | 0 <= r < |t.requests| ensures RequestTied(t, r) {
      if r < |s.requests| && t.requests[r] == s.requests[r] { assert RequestTied(s, r); }
    }
  }

  lemma TickStepAlways(c: Config, s: Sys, d: Time)
    requires Always(c, s) && OnTime(c, s, s.now + d)
    ensures Always(c, s.(now := s.now + d))
  {
    var t := s.(now := s.now + d);
    forall o | 0 <= o < |s.orders| ensures AlwaysOk(c, t.now, o, ViewOf(t, o)) {
      assert ViewOf(t, o) == ViewOf(s, o);
      TickAlways(c, s.now, t.now, o, ViewOf(s, o));
    }
    forall r | 0 <= r < |t.requests| ensures RequestTied(t, r) { assert RequestTied(s, r); }
  }

  lemma SupplyAlways(c: Config, s: Sys, op: I.Op)
    requires Always(c, s) && (op.DoAdjust? || op.DoCreate?)
    ensures Always(c, NextSupply(s, op))
  {
    SupplyIsStock(s, op);
    QuietAlways(c, s, NextSupply(s, op));
  }

  lemma ArriveAlways(c: Config, s: Sys, q: Request)
    requires Always(c, s) && ValidItems(q.items) && q.pc.Arrived?
    ensures Always(c, s.(requests := s.requests + [q]))
  {
    assert forall o :: 0 <= o < |s.orders| ==> s.orders[o].creator < |s.requests|;
    QuietAlways(c, s, s.(requests := s.requests + [q]));
  }

  lemma PcAlways(c: Config, s: Sys, r: nat, pc: Pc)
    requires Always(c, s) && r < |s.requests| && !Running(s.requests[r].pc) && !Running(pc)
    requires pc.Returned? ==> pc.order < |s.orders| && SameOrder(s.orders[pc.order], s.requests[r])
    ensures Always(c, WithPc(s, r, pc))
  {
    assert RequestTied(s, r);
    QuietAlways(c, s, WithPc(s, r, pc));
  }

  lemma LookupAlways(c: Config, s: Sys, r: nat, fallback: Pc)
    requires Always(c, s) && r < |s.requests| && !Running(s.requests[r].pc)
    requires !Running(fallback) && !fallback.Returned?
    ensures Always(c, WithPc(s, r, if HasKey(s, s.requests[r].key) then Replay(s, s.requests[r]) else fallback))
  {
    PcAlways(c, s, r, if HasKey(s, s.requests[r].key) then Replay(s, s.requests[r]) else fallback);
  }

  lemma NewOrderStepAlways(c: Config, s: Sys, r: nat, total: nat)
    requires Always(c, s) && r < |s.requests| && !Running(s.requests[r].pc) && !HasKey(s, s.requests[r].key)
    ensures Always(c, NextInsert(c, s, r, total))
  {
    var t := NextInsert(c, s, r, total);
    InsertViews(c, s, r, total);
    InsertOrdersOk(c, s, r, total);
    assert RequestTied(s, r);
    NewOrderAlways(c, s.now, |s.orders|, s.requests[r], total, r);
    forall p | 0 <= p < |t.orders| ensures AlwaysOk(c, t.now, p, ViewOf(t, p)) {
      if p < |s.orders| { assert ViewOf(t, p) == ViewOf(s, p); }
    }
    forall i | 0 <= i < |t.requests| ensures RequestTied(t, i) { assert RequestTied(s, i); }
  }

  lemma InsertAlways(c: Config, s: Sys, r: nat, total: nat)
    requires Always(c, s) && r < |s.requests| && !Running(s.requests[r].pc)
    ensures Always(c, NextInsert(c, s, r, total))
  {
    if HasKey(s, s.requests[r].key) { LookupAlways(c, s, r, KeyIsNew); } else { NewOrderStepAlways(c, s, r, total); }
  }

  lemma FlowStepAlways(c: Config, s: Sys, r: nat, ev: FlowEvent)
    requires Always(c, s) && CanFlow(c, s, r, ev)
    ensures Always(c, NextFlowStep(c, s, r, ev))
  {
    assert RequestTied(s, r);
    var t, o := NextFlowStep(c, s, r, ev), s.requests[r].pc.order;
    FlowStepView(c, s, r, ev);
    FlowAlways(c, s.now, o, ViewOf(s, o), ev);
    var (ord, pc) := Flow(c, s.now, s.orders[o], s.requests[r].pc, ev).value;
    assert AlwaysOk(c, s.now, o, Afterwards(ViewOf(s, o), ord, pc));
    assert RequestTied(t, r);
    LiftAlways(c, s, t, o);
  }

  lemma ServeFlowStepAlways(c: Config, s: Sys, r: nat, result: P.GatewayResult)
    requires Always(c, s) && InFlow(s, r) && Waiting(s.requests[r].pc) && !Served(s.requests[r].pc.call.stage)
    ensures Always(c, NextServeFlow(s, r, result))
  {
    assert RequestTied(s, r);
    var t, o := NextServeFlow(s, r, result), s.requests[r].pc.order;
    ServeFlowView(s, r, result);
    ServeFlowAlways(c, s.now, o, ViewOf(s, o), s.db, result);
    assert RequestTied(t, r);
    LiftAlways(c, s, t, o);
  }

  lemma LandStepAlways(c: Config, s: Sys, o: OrderId, kind: Kind, result: P.GatewayResult)
    requires Always(c, s) && o < |s.orders| && Late(s.orders[o], kind).Some?
    ensures Always(c, NextLand(s, o, kind, result))
  {
    LandView(s, o, kind, result);
    LandAlways(c, s.now, o, ViewOf(s, o), kind, s.db, result);
    LiftAlways(c, s, NextLand(s, o, kind, result), o);
  }

  lemma DropStepAlways(c: Config, s: Sys, o: OrderId, kind: Kind)
    requires Always(c, s) && o < |s.orders| && Late(s.orders[o], kind).Some?
    ensures Always(c, NextDrop(s, o, kind))
  {
    DropAlways(c, s.now, o, ViewOf(s, o), kind);
    OrderOnlyView(s, NextDrop(s, o, kind), o, SetLate(s.orders[o], kind, None));
    LiftAlways(c, s, NextDrop(s, o, kind), o);
  }

  /** A step of a cancellation or an expiry run on the columns of one order. */
  lemma ColumnStepAlways(c: Config, s: Sys, t: Sys, o: OrderId, ord: Order)
    requires Always(c, s) && o < |s.orders|
    requires t == WithOrder(s, o, ord).(cancels := t.cancels, expiries := t.expiries)
    requires ord == s.orders[o].(row := ord.row, lock := ord.lock, lateRelease := ord.lateRelease,
                                 releaseSent := ord.releaseSent, releaseFailed := ord.releaseFailed)
    requires ord.row == s.orders[o].row || ord.row.status == EXPIRED || ord.row.status == CANCELLED
    ensures Always(c, t)
  {
    ColumnsAlways(c, s.now, o, ViewOf(s, o), ord);
    OrderOnlyView(s, t, o, ord);
    LiftAlways(c, s, t, o);
  }

  /** A release served outside the flow, by whoever asked for it. */
  lemma ReleaseStepAlways(c: Config, s: Sys, t: Sys, o: OrderId)
    requires Always(c, s) && o < |s.orders| && t == ReleaseAt(s, o).(cancels := t.cancels, expiries := t.expiries)
    ensures Always(c, t)
  {
    ReleaseAlways(c, s.now, o, ViewOf(s, o), s.db);
    ReleaseView(s, t, o);
    LiftAlways(c, s, t, o);
  }

  lemma OperatorAlways(c: Config, s: Sys, o: OrderId)
    requires Always(c, s) && o < |s.orders|
    ensures Always(c, NextOperatorRelease(s, o)) && Always(c, NextStartCancel(s, o))
  {
    var m := WithOrder(s, o, s.orders[o].(releaseSent := true));
    ColumnStepAlways(c, s, m, o, m.orders[o]);
    ReleaseStepAlways(c, m, NextOperatorRelease(s, o), o);
    ColumnStepAlways(c, s, NextStartCancel(s, o), o, m.orders[o]);
  }

  lemma CancelAlways(c: Config, s: Sys, k: nat)
    requires Always(c, s) && CancelHolds(s, k)
    ensures Always(c, NextServeCancel(s, k)) && Always(c, NextHearCancel(s, k))
  {
    var o := s.cancels[k].order;
    ReleaseStepAlways(c, s, NextServeCancel(s, k), o);
    ColumnStepAlways(c, s, NextHearCancel(s, k), o, NextHearCancel(s, k).orders[o]);
  }

  lemma CancelEndAlways(c: Config, s: Sys, k: nat)
    requires Always(c, s) && CancelHolds(s, k)
    ensures Always(c, NextFaultCancel(s, k)) && Always(c, NextWriteCancel(s, k))
  {
    var o := s.cancels[k].order;
    ColumnStepAlways(c, s, NextFaultCancel(s, k), o, NextFaultCancel(s, k).orders[o]);
    ColumnStepAlways(c, s, NextWriteCancel(s, k), o, NextWriteCancel(s, k).orders[o]);
  }

  lemma TakeAlways(c: Config, s: Sys, e: nat)
    requires Always(c, s) && HasNext(s, e)
    ensures Always(c, NextTake(s, e))
  {
    var t, o := NextTake(s, e), s.expiries[e].todo[0];
    assert s.orders[o := s.orders[o]] == s.orders;
    ColumnStepAlways(c, s, t, o, t.orders[o]);
  }

  lemma ExpiryAlways(c: Config, s: Sys, e: nat)
    requires Always(c, s) && ExpiryHolds(s, e)
    ensures Always(c, NextServeExpiry(s, e)) && Always(c, NextAbortExpiry(s, e))
  {
    var o := s.expiries[e].pc.order;
    ReleaseStepAlways(c, s, NextServeExpiry(s, e), o);
    ColumnStepAlways(c, s, NextAbortExpiry(s, e), o, NextAbortExpiry(s, e).orders[o]);
  }

  lemma ExpiryWriteAlways(c: Config, s: Sys, e: nat)
    requires Always(c, s) && ExpiryHolds(s, e)
    ensures Always(c, NextHearExpiry(s, e)) && Always(c, NextFaultExpiry(c, s, e))
  {
    var o := s.expiries[e].pc.order;
    ColumnStepAlways(c, s, NextHearExpiry(s, e), o, NextHearExpiry(s, e).orders[o]);
    ColumnStepAlways(c, s, NextFaultExpiry(c, s, e), o, NextFaultExpiry(c, s, e).orders[o]);
  }

  // ------------------------------------------------------------------ every step, every run

  lemma RequestStepAlways(c: Config, s: Sys, l: Label)
    requires Always(c, s) && Enabled(c, s, l) && RequestLabel(l)
    ensures Always(c, Next(c, s, l))
  {
    match l
    case Arrive(key, email, items) => ArriveAlways(c, s, Request(key, email, items, Arrived));
    case Lookup(r) => LookupAlways(c, s, r, KeyIsNew);
    case Price(r, total) => PcAlways(c, s, r, Priced(total));
    case DieEarly(r) => PcAlways(c, s, r, Dead);
  }

  lemma StockStepAlways(c: Config, s: Sys, l: Label)
    requires Always(c, s) && Enabled(c, s, l) && StockLabel(l)
    ensures Always(c, Next(c, s, l))
  {
    SupplyAlways(c, s, if l.CreateProduct? then I.DoCreate(l.sku, l.units) else I.DoAdjust(l.sku, l.delta));
  }

  lemma CancelStepAlways(c: Config, s: Sys, l: Label)
    requires Always(c, s) && Enabled(c, s, l) && CancelLabel(l)
    ensures Always(c, Next(c, s, l))
  {
    match l
    case StartCancel(o) => OperatorAlways(c, s, o);
    case ServeCancel(k) => CancelAlways(c, s, k);
    case HearCancel(k) => CancelAlways(c, s, k);
    case FaultCancel(k) => CancelEndAlways(c, s, k);
    case WriteCancel(k) => CancelEndAlways(c, s, k);
  }

  lemma ExpiryStepAlways(c: Config, s: Sys, l: Label)
    requires Always(c, s) && Enabled(c, s, l) && ExpiryLabel(l)
    ensures Always(c, Next(c, s, l))
  {
    match l
    case StartExpiry(todo) => QuietAlways(c, s, s.(expiries := s.expiries + [Expiry(s.now, todo, Between)]));
    case TakeNext(e) => TakeAlways(c, s, e);
    case ServeExpiry(e) => ExpiryAlways(c, s, e);
    case AbortExpiry(e) => ExpiryAlways(c, s, e);
    case HearExpiry(e) => ExpiryWriteAlways(c, s, e);
    case FaultExpiry(e) => ExpiryWriteAlways(c, s, e);
  }

  lemma OrderStepAlways(c: Config, s: Sys, l: Label)
    requires Always(c, s) && Enabled(c, s, l) && OrderLabel(l)
    ensures Always(c, Next(c, s, l))
  {
    match l
    case Insert(r) => InsertAlways(c, s, r, s.requests[r].pc.total);
    case FlowStep(r, ev) => FlowStepAlways(c, s, r, ev);
    case ServeFlow(r, result) => ServeFlowStepAlways(c, s, r, result);
    case Land(o, kind, result) => LandStepAlways(c, s, o, kind, result);
    case LandRelease(o) => ReleaseStepAlways(c, s, ReleaseAt(s, o), o);
    case Drop(o, kind) => DropStepAlways(c, s, o, kind);
    case OperatorRelease(o) => OperatorAlways(c, s, o);
  }

  lemma StepAlways(c: Config, s: Sys, l: Label)
    requires Always(c, s) && Enabled(c, s, l)
    ensures Always(c, Next(c, s, l))
  {
    if l.Tick? {
      TickStepAlways(c, s, l.d);
    } else if StockLabel(l) {
      StockStepAlways(c, s, l);
    } else if RequestLabel(l) {
      RequestStepAlways(c, s, l);
    } else if CancelLabel(l) {
      CancelStepAlways(c, s, l);
    } else if ExpiryLabel(l) {
      ExpiryStepAlways(c, s, l);
    } else {
      OrderStepAlways(c, s, l);
    }
  }

  lemma {:induction false} RunAlways(c: Config, s: Sys, ls: seq<Label>)
    requires Always(c, s) && CanRun(c, s, ls)
    ensures Always(c, After(c, s, ls))
    decreases |ls|
  {
    if ls != [] {
      StepAlways(c, s, ls[0]);
      RunAlways(c, Next(c, s, ls[0]), ls[1..]);
    }
  }

  lemma ReachableAlways(c: Config, s: Sys)
    requires Reachable(c, s)
    ensures Always(c, s)
  {
    var ls :| CanRun(c, EMPTY, ls) && After(c, EMPTY, ls) == s;
    RunAlways(c, EMPTY, ls);
  }
}
