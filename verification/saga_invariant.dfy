/** The invariant of the saga: what is true of every order, call and process in every reachable state. */
module SagaInvariant {
  import opened Wrappers
  import opened OrderState
  import opened Saga
  import I = Inventory
  import L = InventoryLaws
  import P = Payments

  // ------------------------------------------------------------------ one order's view

  /** Everything the system holds about one order: its row, its create flow, its stock, its payment. */
  datatype View = View(ord: Order, pc: Pc, rows: seq<I.Row>, pay: Option<P.Payment>)

  function FlowOf(s: Sys, o: OrderId): (pc: Pc)
    requires o < |s.orders|
  {
    var r := s.orders[o].creator;
    if r < |s.requests| && Running(s.requests[r].pc) && s.requests[r].pc.order == o then s.requests[r].pc else Dead
  }

  function ViewOf(s: Sys, o: OrderId): (v: View)
    requires o < |s.orders|
  {
    View(s.orders[o], FlowOf(s, o), I.RowsOf(s.db.rows, o), PayOf(s.pays, o))
  }

  /** An order's rows are all in one status, if there are any. */
  datatype Hold = Nothing | Has(status: I.RowStatus)

  function HoldOf(rows: seq<I.Row>): (h: Hold) {
    if rows == [] then Nothing else Has(rows[0].status)
  }

  function RowsFor(o: OrderId, items: seq<I.Item>, h: Hold): (rows: seq<I.Row>) {
    match h case Nothing => [] case Has(st) => I.NewRows(o, I.InSkuOrder(items), st)
  }

  predicate InStock(h: Hold) {
    h.Nothing? || h == Has(I.Released)
  }

  // ------------------------------------------------------------------ invariant of one order

  ghost predicate Basics(now: Time, o: OrderId, v: View) {
    && ValidItems(v.ord.items)
    && TrailOk(v.ord.row)
    && v.rows == RowsFor(o, v.ord.items, HoldOf(v.rows))
    && v.ord.createdAt <= now
    && v.ord.charges <= 1
    && (Running(v.pc) ==> v.pc.order == o && !v.ord.crashed)
    && (v.ord.lateRelease ==> v.ord.releaseSent)
    && (v.ord.releaseSent ==> v.ord.lateReserve.None?)
    && (v.ord.lateReserve.Some? ==> v.ord.lateReserve.value.stage.Sent?)
    && (v.ord.lateCommit.Some? ==> v.ord.lateCommit.value.stage.Sent?)
  }

  /** How long after the insert a flow can still be at this point. */
  function Offset(c: Config, pc: Pc): (t: Time)
    requires Running(pc)
  {
    match pc
    case Reserving(_, _) => c.local + c.inventoryTimeout
    case Refusing(_, _) => 2 * c.local + c.inventoryTimeout
    case Accepted(_, _) => 2 * c.local + c.inventoryTimeout
    case Charging(_, _) => 3 * c.local + c.inventoryTimeout + c.paymentsTimeout
    case Committing(_, _) => 4 * c.local + 2 * c.inventoryTimeout + c.paymentsTimeout
    case Releasing(_, _, _) => 4 * c.local + 2 * c.inventoryTimeout + c.paymentsTimeout
    case _ => FlowBound(c)
  }

  ghost predicate LateOnTime(c: Config, now: Time, ord: Order, call: Option<Call>) {
    call.Some? ==> now <= call.value.due + c.landing && call.value.due <= ord.createdAt + FlowBound(c)
  }

  ghost predicate Timely(c: Config, now: Time, v: View) {
    && (Running(v.pc) ==> now <= Deadline(v.pc) <= v.ord.createdAt + Offset(c, v.pc))
    && LateOnTime(c, now, v.ord, v.ord.lateReserve)
    && LateOnTime(c, now, v.ord, v.ord.lateCharge)
    && LateOnTime(c, now, v.ord, v.ord.lateCommit)
  }

  function ChargeStage(v: View): (st: Option<Stage>) {
    if v.pc.Charging? then Some(v.pc.call.stage)
    else if v.ord.lateCharge.Some? then Some(v.ord.lateCharge.value.stage)
    else None
  }

  predicate PayAt(v: View, st: Stage) {
    match st
    case Sent => v.pay.None? && v.ord.asked == 0
    case RowOpened => v.pay == Some(P.Opened(v.ord.total)) && v.ord.asked == 0
    case GatewayAsked(_) => v.pay == Some(P.Opened(v.ord.total)) && v.ord.asked == 1
    case Answered(ok) =>
      v.pay.Some? && v.pay.value.amount == v.ord.total && v.ord.asked == 1
      && v.pay.value.status == if ok then P.Succeeded else P.Failed
    case Errored => false
  }

  predicate PaidFor(v: View) {
    v.pay.Some? && v.pay.value.status.Succeeded? && v.pay.value.amount == v.ord.total
  }

  ghost predicate PayOk(v: View) {
    && (v.pc.Charging? ==> v.ord.lateCharge.None?)
    && (v.ord.charges == 0 ==> v.pay.None? && v.ord.asked == 0 && ChargeStage(v).None?)
    && (ChargeStage(v).Some? ==> PayAt(v, ChargeStage(v).value))
    && (v.ord.lateCharge.Some? ==> !Served(v.ord.lateCharge.value.stage))
    && v.ord.asked <= 1
    && (v.pay.Some? ==> v.pay.value.amount == v.ord.total)
  }

  predicate Quiet(ord: Order) {
    ord.lateReserve.None? && ord.lateCharge.None? && ord.lateCommit.None? && !ord.lateRelease && !ord.releaseSent
  }

  /** While its create flow runs: the status, the stock held and the calls outstanding at each point. */
  ghost predicate FlowOk(v: View)
    requires Running(v.pc)
  {
    var ord, h, st := v.ord, HoldOf(v.rows), v.ord.row.status;
    match v.pc
    case Reserving(_, call) =>
      st == PENDING && ord.charges == 0 && Quiet(ord)
      && (call.stage.Sent? || call.stage.Answered?)
      && h == if call.stage == Answered(true) then Has(I.Active) else Nothing
    case Refusing(_, _) => st == PENDING && ord.charges == 0 && Quiet(ord) && h == Nothing
    case Accepted(_, _) => st == PENDING && ord.charges == 0 && Quiet(ord) && h == Has(I.Active)
    case Charging(_, _) => st == RESERVED && ord.charges == 1 && Quiet(ord) && h == Has(I.Active)
    case Committing(_, call) =>
      st == RESERVED && ord.charges == 1 && Quiet(ord) && PaidFor(v)
      && (call.stage.Sent? || call.stage.Answered?)
      && h == if call.stage.Sent? then Has(I.Active) else Has(I.Committed)
    case Paying(_, _) =>
      st == RESERVED && ord.charges == 1 && PaidFor(v)
      && ord.lateReserve.None? && ord.lateCharge.None? && !ord.releaseSent
      && (h == Has(I.Active) || h == Has(I.Committed))
    case Releasing(_, call, _) =>
      st == RESERVED && ord.charges == 1
      && ord.lateReserve.None? && ord.lateCommit.None? && !ord.lateRelease && ord.releaseSent
      && (call.stage.Sent? || call.stage.Answered?)
      && h == if call.stage.Sent? then Has(I.Active) else Has(I.Released)
    case Failing(_, _, _) =>
      st == RESERVED && ord.charges == 1
      && ord.lateReserve.None? && ord.lateCommit.None? && ord.releaseSent
      && (h == Has(I.Released) || (h == Has(I.Active) && ord.releaseFailed))
  }

  /** Once no flow runs: what each status says about stock, payment and outstanding calls. */
  ghost predicate RestOk(v: View) {
    var ord, h := v.ord, HoldOf(v.rows);
    match ord.row.status
    case PENDING =>
      && ord.charges == 0 && ord.lateCommit.None?
      && h != Has(I.Committed)
      && (ord.lateReserve.Some? ==> h == Nothing)
    case RESERVED => ord.crashed && ord.charges == 1 && ord.lateReserve.None? && h != Nothing
    case CONFIRMED =>
      && PaidFor(v) && ord.charges == 1 && ord.lateReserve.None? && ord.lateCharge.None?
      && h != Nothing && (h == Has(I.Released) ==> ord.releaseSent)
    case FAILED =>
      && ord.lateReserve.None? && ord.lateCommit.None?
      && (InStock(h) || (h == Has(I.Active) && ord.releaseFailed))
    case EXPIRED =>
      && ord.lateReserve.None? && ord.lateCommit.None? && ord.lateCharge.None?
      && (InStock(h) || (ord.releaseFailed && ord.row.failureReason == Some(NotCompletedStockNotReleased)))
      && (h == Has(I.Committed) ==> ord.crashed)
    case CANCELLED => ord.lateReserve.None? && h == Has(I.Released)
  }

  ghost predicate OrderOk(c: Config, now: Time, o: OrderId, v: View) {
    && Basics(now, o, v)
    && Timely(c, now, v)
    && PayOk(v)
    && (if Running(v.pc) then FlowOk(v) else RestOk(v))
  }

  // ------------------------------------------------------------------ invariant of the processes

  predicate SameOrder(ord: Order, q: Request) {
    ord.key == q.key && ord.email == q.email && multiset(ord.items) == multiset(q.items)
  }

  ghost predicate RequestOk(s: Sys, r: nat)
    requires r < |s.requests|
  {
    var q := s.requests[r];
    && ValidItems(q.items)
    && (Running(q.pc) ==> q.pc.order < |s.orders| && s.orders[q.pc.order].creator == r)
    && (q.pc.Returned? ==>
          q.pc.order < |s.orders| && SameOrder(s.orders[q.pc.order], q)
          && !Unfinished(s.orders[q.pc.order].row.status))
  }

  ghost predicate CancelOk(s: Sys, k: nat)
    requires k < |s.cancels|
  {
    var x := s.cancels[k];
    !x.pc.Over? ==>
      && x.order < |s.orders|
      && s.orders[x.order].row.status == CONFIRMED
      && s.orders[x.order].releaseSent
      && (x.pc.AwaitingRelease? ==> x.pc.stage == Sent || x.pc.stage == Answered(true))
      && (x.pc != AwaitingRelease(Sent) ==> HoldOf(I.RowsOf(s.db.rows, x.order)) == Has(I.Released))
  }

  ghost predicate ExpiryOk(c: Config, s: Sys, e: nat)
    requires e < |s.expiries|
  {
    var x := s.expiries[e];
    && (forall o :: o in x.todo ==> o < |s.orders| && Stale(c, s.orders[o], s.now))
    && (x.pc.Holding? ==>
          && x.pc.order < |s.orders|
          && s.orders[x.pc.order].lock == Some(e)
          && Unfinished(s.orders[x.pc.order].row.status)
          && Stale(c, s.orders[x.pc.order], s.now)
          && s.orders[x.pc.order].releaseSent
          && (x.pc.stage == Sent || x.pc.stage == Answered(true))
          && (x.pc.stage.Answered? ==> InStock(HoldOf(I.RowsOf(s.db.rows, x.pc.order)))))
  }

  ghost predicate CancelsSerial(s: Sys) {
    forall j, k :: 0 <= j < k < |s.cancels| && ActiveCancel(s, j) && ActiveCancel(s, k) ==>
      s.cancels[j].order != s.cancels[k].order
  }

  ghost predicate OrdersOk(s: Sys) {
    && (forall o :: 0 <= o < |s.orders| ==>
          s.orders[o].creator < |s.requests| && SameOrder(s.orders[o], s.requests[s.orders[o].creator]))
    && (forall o, p :: 0 <= o < p < |s.orders| ==> s.orders[o].key != s.orders[p].key)
  }

  ghost predicate StockOk(s: Sys) {
    && L.Conserves(s.db, s.supply)
    && L.TablesOk(s.db)
    && (forall x :: x in s.db.rows ==> x.order < |s.orders|)
    && (forall o :: o in s.pays ==> o < |s.orders|)
  }

  ghost predicate ProcessesOk(c: Config, s: Sys) {
    && (forall r :: 0 <= r < |s.requests| ==> RequestOk(s, r))
    && (forall k :: 0 <= k < |s.cancels| ==> CancelOk(s, k))
    && (forall e :: 0 <= e < |s.expiries| ==> ExpiryOk(c, s, e))
    && CancelsSerial(s)
  }

  ghost predicate Inv(c: Config, s: Sys) {
    && (forall o :: 0 <= o < |s.orders| ==> OrderOk(c, s.now, o, ViewOf(s, o)))
    && OrdersOk(s)
    && StockOk(s)
    && ProcessesOk(c, s)
  }

  // ------------------------------------------------------------------ what a step may do to one order

  /** One allowed status change, recorded with the status really left, or none. */
  predicate Moves(a: Row, b: Row) {
    b == a
    || (b.status in Allowed(a.status) && b.events != []
        && b == Written(a, a.status, b.status, b.events[|b.events| - 1].reason))
  }

  /** The promise every step makes about the order it touches, on which all other processes rely. */
  ghost predicate Respects(c: Config, now: Time, v: View, w: View) {
    && w.ord.key == v.ord.key && w.ord.email == v.ord.email && w.ord.items == v.ord.items
    && w.ord.total == v.ord.total && w.ord.createdAt == v.ord.createdAt && w.ord.creator == v.ord.creator
    && (v.ord.releaseSent ==> w.ord.releaseSent)
    && Moves(v.ord.row, w.ord.row)
    && (InStock(HoldOf(v.rows)) && (Stale(c, v.ord, now) || v.ord.row.status == CONFIRMED) ==>
          HoldOf(w.rows) == HoldOf(v.rows))
  }

  /** The promise of a step that is not the cancellation or the expiry of this very order. */
  ghost predicate Yields(v: View, w: View) {
    && w.ord.lock == v.ord.lock
    && (v.ord.lock.Some? || v.ord.row.status == CONFIRMED ==> w.ord.row == v.ord.row)
  }

  /** A step that changes at most one order, its rows and its payment. */
  ghost predicate Touches(s: Sys, t: Sys, o: OrderId) {
    && o < |s.orders| == |t.orders|
    && t.now == s.now
    && (forall p :: 0 <= p < |s.orders| && p != o ==> ViewOf(t, p) == ViewOf(s, p))
    && |t.requests| == |s.requests|
    && (forall r :: 0 <= r < |s.requests| ==>
          && t.requests[r].key == s.requests[r].key
          && t.requests[r].email == s.requests[r].email
          && t.requests[r].items == s.requests[r].items)
  }

  lemma OrdersStay(c: Config, s: Sys, t: Sys, o: OrderId)
    requires Inv(c, s) && Touches(s, t, o)
    requires OrderOk(c, t.now, o, ViewOf(t, o)) && Respects(c, s.now, ViewOf(s, o), ViewOf(t, o))
    ensures forall p :: 0 <= p < |t.orders| ==> OrderOk(c, t.now, p, ViewOf(t, p))
    ensures OrdersOk(t)
  {
    forall p | 0 <= p < |t.orders| ensures OrderOk(c, t.now, p, ViewOf(t, p)) {
      if p != o { assert ViewOf(t, p) == ViewOf(s, p); }
    }
    forall p | 0 <= p < |t.orders|
      ensures t.orders[p].key == s.orders[p].key
      ensures t.orders[p].creator < |t.requests| && SameOrder(t.orders[p], t.requests[t.orders[p].creator])
    {
      if p != o { assert ViewOf(t, p).ord == ViewOf(s, p).ord; }
      assert SameOrder(s.orders[p], s.requests[s.orders[p].creator]);
    }
  }

  lemma RequestStays(c: Config, s: Sys, t: Sys, o: OrderId, r: nat)
    requires Inv(c, s) && Touches(s, t, o) && Respects(c, s.now, ViewOf(s, o), ViewOf(t, o))
    requires r < |s.requests| && t.requests[r] == s.requests[r]
    ensures RequestOk(t, r)
  {
    assert RequestOk(s, r);
    var pc := s.requests[r].pc;
    if Running(pc) || pc.Returned? {
      if pc.order != o {
        assert ViewOf(t, pc.order).ord == ViewOf(s, pc.order).ord;
      } else {
        assert ViewOf(t, o).ord == t.orders[o] && ViewOf(s, o).ord == s.orders[o];
      }
    }
  }

  lemma CancelStays(c: Config, s: Sys, t: Sys, o: OrderId, k: nat)
    requires Inv(c, s) && Touches(s, t, o) && Respects(c, s.now, ViewOf(s, o), ViewOf(t, o))
    requires k < |s.cancels| && k < |t.cancels| && t.cancels[k] == s.cancels[k]
    requires Yields(ViewOf(s, o), ViewOf(t, o)) || s.cancels[k].pc.Over? || s.cancels[k].order != o
    ensures CancelOk(t, k)
  {
    assert CancelOk(s, k);
    if ActiveCancel(s, k) && s.cancels[k].order != o {
      assert ViewOf(t, s.cancels[k].order) == ViewOf(s, s.cancels[k].order);
    }
  }

  lemma ExpiryStays(c: Config, s: Sys, t: Sys, o: OrderId, e: nat)
    requires Inv(c, s) && Touches(s, t, o) && Respects(c, s.now, ViewOf(s, o), ViewOf(t, o))
    requires e < |s.expiries| && e < |t.expiries| && t.expiries[e] == s.expiries[e]
    requires Yields(ViewOf(s, o), ViewOf(t, o)) || !(s.expiries[e].pc.Holding? && s.expiries[e].pc.order == o)
    ensures ExpiryOk(c, t, e)
  {
    assert ExpiryOk(c, s, e);
    var x := s.expiries[e];
    forall p | p in x.todo ensures Stale(c, t.orders[p], t.now) {
      if p != o { assert ViewOf(t, p).ord == ViewOf(s, p).ord; }
    }
    if x.pc.Holding? && x.pc.order != o { assert ViewOf(t, x.pc.order) == ViewOf(s, x.pc.order); }
  }
}
