/** Every step of the saga keeps the invariant. */
module SagaSteps {
  import opened Wrappers
  import opened OrderState
  import opened Saga
  import opened SagaInvariant
  import I = Inventory
  import L = InventoryLaws
  import P = Payments

  // ------------------------------------------------------------------ stock held by one order

  lemma OneStatus(o: OrderId, items: seq<I.Item>, h: Hold)
    requires items != []
    ensures HoldOf(RowsFor(o, items, h)) == h
  {
    if h.Has? {
      L.SkuOrderPermutes(items);
      assert |I.InSkuOrder(items)| == |multiset(I.InSkuOrder(items))| == |multiset(items)| == |items|;
      assert RowsFor(o, items, h)[0].status == h.status;
    }
  }

  lemma ReserveHold(db: I.Db, o: OrderId, items: seq<I.Item>)
    requires ValidItems(items) && I.RowsOf(db.rows, o) == []
    ensures var reply := I.Reserve(db, o, items);
      && I.RowsOf(reply.db.rows, o) == RowsFor(o, items, if reply.result.Ok? then Has(I.Active) else Nothing)
      && (reply.result.Err? ==> reply.result.error.OutOfStock? || reply.result.error.UnknownSku?)
  {
    L.ReserveRows(db, o, items, o);
    var added := I.NewRows(o, I.InSkuOrder(items));
    assert [] + added == added;
  }

  lemma StatusHold(rows: seq<I.Row>, o: OrderId, items: seq<I.Item>, h: Hold, st: I.RowStatus)
    requires I.RowsOf(rows, o) == RowsFor(o, items, h)
    ensures I.RowsOf(I.SetStatus(rows, o, st), o) == RowsFor(o, items, if h.Nothing? then Nothing else Has(st))
  {
    L.SetStatusLookup(rows, o, st, o);
  }

  lemma CommitHold(db: I.Db, o: OrderId, items: seq<I.Item>, h: Hold)
    requires items != [] && I.RowsOf(db.rows, o) == RowsFor(o, items, h)
    ensures var reply := I.Commit(db, o);
      && reply.result.Ok? == (h == Has(I.Active) || h == Has(I.Committed))
      && I.RowsOf(reply.db.rows, o) == RowsFor(o, items, if reply.result.Ok? then Has(I.Committed) else h)
  {
    StatusHold(db.rows, o, items, h, I.Committed);
    OneStatus(o, items, h);
    var rows := I.RowsOf(db.rows, o);
    if h.Has? {
      assert rows[0] in rows;
      assert forall x :: x in rows ==> x.status == h.status;
    }
  }

  /** No request about one order touches the rows of another. */
  lemma ServeOthers(kind: Kind, o: OrderId, ord: Order, db: I.Db, pay: Option<P.Payment>, stage: Stage,
                    result: P.GatewayResult, p: OrderId)
    requires p != o
    ensures I.RowsOf(Serve(kind, o, ord, db, pay, stage, result).db.rows, p) == I.RowsOf(db.rows, p)
  {
    match kind
    case ToReserve =>
      L.ReserveRows(db, o, ord.items, p);
      assert I.RowsOf(db.rows, p) + [] == I.RowsOf(db.rows, p);
    case ToCommit => L.SetStatusLookup(db.rows, o, I.Committed, p);
    case ToRelease => L.SetStatusLookup(db.rows, o, I.Released, p);
    case ToCharge =>
  }

  predicate OwnRows(db: I.Db, n: nat) {
    forall x :: x in db.rows ==> x.order < n
  }

  lemma SetStatusOwn(rows: seq<I.Row>, o: OrderId, st: I.RowStatus, n: nat)
    requires forall x :: x in rows ==> x.order < n
    ensures forall x :: x in I.SetStatus(rows, o, st) ==> x.order < n
  {
    forall x | x in I.SetStatus(rows, o, st) ensures x.order < n {
      var i :| 0 <= i < |rows| && I.SetStatus(rows, o, st)[i] == x;
      assert rows[i] in rows;
    }
  }

  lemma ServeStock(kind: Kind, o: OrderId, ord: Order, db: I.Db, pay: Option<P.Payment>, stage: Stage,
                   result: P.GatewayResult, supply: map<I.Sku, int>, n: nat)
    requires L.Conserves(db, supply) && L.TablesOk(db) && OwnRows(db, n) && o < n
    ensures var after := Serve(kind, o, ord, db, pay, stage, result).db;
      L.Conserves(after, supply) && L.TablesOk(after) && OwnRows(after, n)
  {
    match kind
    case ToReserve =>
      L.ReserveConserves(db, supply, o, ord.items);
      L.ReserveKeepsTables(db, o, ord.items);
    case ToCommit =>
      L.CommitConserves(db, supply, o);
      L.ApplyKeepsTables(db, I.DoCommit(o));
      SetStatusOwn(db.rows, o, I.Committed, n);
    case ToRelease =>
      L.ReleaseConserves(db, supply, o);
      L.ApplyKeepsTables(db, I.DoRelease(o));
      SetStatusOwn(db.rows, o, I.Released, n);
    case ToCharge =>
  }

  // ------------------------------------------------------------------ the create flow on its own order

  function Afterwards(v: View, ord: Order, pc: Pc): (w: View) {
    View(ord, if Running(pc) then pc else Dead, v.rows, v.pay)
  }

  lemma HearKeeps(c: Config, now: Time, o: OrderId, v: View)
    requires OrderOk(c, now, o, v) && Running(v.pc) && Flow(c, now, v.ord, v.pc, Hear).Some?
    ensures var (ord, pc) := Flow(c, now, v.ord, v.pc, Hear).value;
      var w := Afterwards(v, ord, pc);
      OrderOk(c, now, o, w) && Respects(c, now, v, w) && Yields(v, w) && !pc.Returned?
  {
  }

  lemma GiveUpReserve(c: Config, now: Time, o: OrderId, v: View)
    requires OrderOk(c, now, o, v) && v.pc.Reserving?
    ensures var (ord, pc) := StopWaiting(c, now, v.ord, v.pc).value;
      var w := Afterwards(v, ord, pc);
      OrderOk(c, now, o, w) && Respects(c, now, v, w) && Yields(v, w) && !pc.Returned?
  {
  }

  lemma GiveUpCharge(c: Config, now: Time, o: OrderId, v: View)
    requires OrderOk(c, now, o, v) && v.pc.Charging?
    ensures var (ord, pc) := StopWaiting(c, now, v.ord, v.pc).value;
      var w := Afterwards(v, ord, pc);
      OrderOk(c, now, o, w) && Respects(c, now, v, w) && Yields(v, w) && !pc.Returned?
  {
  }

  lemma GiveUpCommit(c: Config, now: Time, o: OrderId, v: View)
    requires OrderOk(c, now, o, v) && v.pc.Committing?
    ensures var (ord, pc) := StopWaiting(c, now, v.ord, v.pc).value;
      var w := Afterwards(v, ord, pc);
      OrderOk(c, now, o, w) && Respects(c, now, v, w) && Yields(v, w) && !pc.Returned?
  {
  }

  lemma GiveUpRelease(c: Config, now: Time, o: OrderId, v: View)
    requires OrderOk(c, now, o, v) && v.pc.Releasing?
    ensures var (ord, pc) := StopWaiting(c, now, v.ord, v.pc).value;
      var w := Afterwards(v, ord, pc);
      OrderOk(c, now, o, w) && Respects(c, now, v, w) && Yields(v, w) && !pc.Returned?
  {
    var (ord, pc) := StopWaiting(c, now, v.ord, v.pc).value;
    var w := Afterwards(v, ord, pc);
    assert pc == Failing(o, now + c.local, v.pc.why);
    assert ord == v.ord.(lateRelease := ord.lateRelease, releaseFailed := true);
    assert PayOk(w) by { assert ChargeStage(w) == ChargeStage(v); }
    assert FlowOk(w);
  }

  lemma GiveUpKeeps(c: Config, now: Time, o: OrderId, v: View)
    requires OrderOk(c, now, o, v) && Running(v.pc) && Flow(c, now, v.ord, v.pc, GiveUp).Some?
    ensures var (ord, pc) := Flow(c, now, v.ord, v.pc, GiveUp).value;
      var w := Afterwards(v, ord, pc);
      OrderOk(c, now, o, w) && Respects(c, now, v, w) && Yields(v, w) && !pc.Returned?
  {
    match v.pc
    case Reserving(_, _) => GiveUpReserve(c, now, o, v);
    case Charging(_, _) => GiveUpCharge(c, now, o, v);
    case Committing(_, _) => GiveUpCommit(c, now, o, v);
    case Releasing(_, _, _) => GiveUpRelease(c, now, o, v);
  }

  lemma WriteKeeps(c: Config, now: Time, o: OrderId, v: View)
    requires OrderOk(c, now, o, v) && Running(v.pc) && Flow(c, now, v.ord, v.pc, WriteStatus).Some?
    ensures var (ord, pc) := Flow(c, now, v.ord, v.pc, WriteStatus).value;
      var w := Afterwards(v, ord, pc);
      && OrderOk(c, now, o, w) && Respects(c, now, v, w) && Yields(v, w)
      && (pc.Returned? ==> pc.order == o && !Unfinished(ord.row.status))
  {
    var (ord, pc) := Flow(c, now, v.ord, v.pc, WriteStatus).value;
    WriteKeepsTrail(v.ord.row, ord.row.status, ord.row.events[|ord.row.events| - 1].reason);
  }

  lemma DieReserving(c: Config, now: Time, o: OrderId, v: View)
    requires OrderOk(c, now, o, v) && v.pc.Reserving?
    ensures var w := Afterwards(v, Abandon(v.ord, KindOf(v.pc), v.pc.call).(crashed := true), Dead);
      OrderOk(c, now, o, w) && Respects(c, now, v, w) && Yields(v, w)
  {
  }

  lemma DieCharging(c: Config, now: Time, o: OrderId, v: View)
    requires OrderOk(c, now, o, v) && v.pc.Charging?
    ensures var w := Afterwards(v, Abandon(v.ord, KindOf(v.pc), v.pc.call).(crashed := true), Dead);
      OrderOk(c, now, o, w) && Respects(c, now, v, w) && Yields(v, w)
  {
  }

  lemma DieCommitting(c: Config, now: Time, o: OrderId, v: View)
    requires OrderOk(c, now, o, v) && v.pc.Committing?
    ensures var w := Afterwards(v, Abandon(v.ord, KindOf(v.pc), v.pc.call).(crashed := true), Dead);
      OrderOk(c, now, o, w) && Respects(c, now, v, w) && Yields(v, w)
  {
  }

  lemma DieReleasing(c: Config, now: Time, o: OrderId, v: View)
    requires OrderOk(c, now, o, v) && v.pc.Releasing?
    ensures var w := Afterwards(v, Abandon(v.ord, KindOf(v.pc), v.pc.call).(crashed := true), Dead);
      OrderOk(c, now, o, w) && Respects(c, now, v, w) && Yields(v, w)
  {
  }

  lemma DieKeeps(c: Config, now: Time, o: OrderId, v: View)
    requires OrderOk(c, now, o, v) && Running(v.pc) && Flow(c, now, v.ord, v.pc, Die).Some?
    ensures var (ord, pc) := Flow(c, now, v.ord, v.pc, Die).value;
      var w := Afterwards(v, ord, pc);
      OrderOk(c, now, o, w) && Respects(c, now, v, w) && Yields(v, w) && !pc.Returned?
  {
    match v.pc
    case Reserving(_, _) => DieReserving(c, now, o, v);
    case Charging(_, _) => DieCharging(c, now, o, v);
    case Committing(_, _) => DieCommitting(c, now, o, v);
    case Releasing(_, _, _) => DieReleasing(c, now, o, v);
    case _ =>
  }

  // ------------------------------------------------------------------ the called services on one order

  function PaidInto(pay: Option<P.Payment>, put: Option<P.Payment>): (r: Option<P.Payment>) {
    if put.None? then pay else put
  }

  /** The view after one commit of the called service on behalf of the flow itself. */
  function FlowServed(v: View, sv: Serving, o: OrderId): (w: View)
    requires Waiting(v.pc)
  {
    View(v.ord.(asked := sv.asked), v.pc.(call := v.pc.call.(stage := sv.stage)), I.RowsOf(sv.db.rows, o),
         PaidInto(v.pay, sv.pay))
  }

  lemma ServeReserveCall(c: Config, now: Time, o: OrderId, v: View, db: I.Db, result: P.GatewayResult)
    requires Separated(c)
    requires OrderOk(c, now, o, v) && v.rows == I.RowsOf(db.rows, o) && v.pc.Reserving? && !Served(v.pc.call.stage)
    ensures var w := FlowServed(v, Serve(KindOf(v.pc), o, v.ord, db, v.pay, v.pc.call.stage, result), o);
      OrderOk(c, now, o, w) && Respects(c, now, v, w) && Yields(v, w)
  {
    ReserveHold(db, o, v.ord.items);
    OneStatus(o, v.ord.items, Has(I.Active));
  }

  lemma ServeCommitCall(c: Config, now: Time, o: OrderId, v: View, db: I.Db, result: P.GatewayResult)
    requires OrderOk(c, now, o, v) && v.rows == I.RowsOf(db.rows, o) && v.pc.Committing? && !Served(v.pc.call.stage)
    ensures var w := FlowServed(v, Serve(KindOf(v.pc), o, v.ord, db, v.pay, v.pc.call.stage, result), o);
      OrderOk(c, now, o, w) && Respects(c, now, v, w) && Yields(v, w)
  {
    CommitHold(db, o, v.ord.items, Has(I.Active));
    OneStatus(o, v.ord.items, Has(I.Committed));
    var w := FlowServed(v, Serve(ToCommit, o, v.ord, db, v.pay, Sent, result), o);
    assert w.ord == v.ord && w.pay == v.pay && HoldOf(w.rows) == Has(I.Committed);
    assert w.pc == Committing(v.pc.order, Call(v.pc.call.due, Answered(true)));
  }

  lemma ServeReleaseCall(c: Config, now: Time, o: OrderId, v: View, db: I.Db, result: P.GatewayResult)
    requires OrderOk(c, now, o, v) && v.rows == I.RowsOf(db.rows, o) && v.pc.Releasing? && !Served(v.pc.call.stage)
    ensures var w := FlowServed(v, Serve(KindOf(v.pc), o, v.ord, db, v.pay, v.pc.call.stage, result), o);
      OrderOk(c, now, o, w) && Respects(c, now, v, w) && Yields(v, w)
  {
    StatusHold(db.rows, o, v.ord.items, Has(I.Active), I.Released);
    OneStatus(o, v.ord.items, Has(I.Released));
    ReleaseServed(c, now, o, v, FlowServed(v, Serve(ToRelease, o, v.ord, db, v.pay, Sent, result), o));
  }

  lemma ReleaseServed(c: Config, now: Time, o: OrderId, v: View, w: View)
    requires OrderOk(c, now, o, v) && v.pc.Releasing? && v.pc.call.stage.Sent?
    requires w == View(v.ord, v.pc.(call := v.pc.call.(stage := Answered(true))), w.rows, v.pay)
    requires w.rows == RowsFor(o, v.ord.items, Has(I.Released)) && HoldOf(w.rows) == Has(I.Released)
    ensures OrderOk(c, now, o, w) && Respects(c, now, v, w) && Yields(v, w)
  {
    assert PayOk(w) by { assert ChargeStage(w) == ChargeStage(v); }
  }

  lemma ServeChargeCall(c: Config, now: Time, o: OrderId, v: View, db: I.Db, result: P.GatewayResult)
    requires OrderOk(c, now, o, v) && v.rows == I.RowsOf(db.rows, o)
    requires v.pc.Charging? && !Served(v.pc.call.stage)
    ensures var w := FlowServed(v, Serve(ToCharge, o, v.ord, db, v.pay, v.pc.call.stage, result), o);
      OrderOk(c, now, o, w) && Respects(c, now, v, w) && Yields(v, w)
  {
  }

  /** The view after one commit of the called service for a call nobody waits for. */
  function LateServed(v: View, kind: Kind, sv: Serving, o: OrderId): (w: View)
    requires Late(v.ord, kind).Some?
  {
    var left := if Served(sv.stage) then None else Some(Late(v.ord, kind).value.(stage := sv.stage));
    View(SetLate(v.ord.(asked := sv.asked), kind, left), v.pc, I.RowsOf(sv.db.rows, o), PaidInto(v.pay, sv.pay))
  }

  /** A reserve given up on is out only while its order is pending, unserved and without a flow. */
  lemma LateReserveIsFirst(c: Config, now: Time, o: OrderId, v: View)
    requires OrderOk(c, now, o, v) && v.ord.lateReserve.Some?
    ensures !Running(v.pc) && v.ord.row.status == PENDING && v.rows == [] && !v.ord.releaseSent
    ensures v.ord.lateReserve.value.stage.Sent?
  {
  }

  lemma LandReserveKeeps(c: Config, now: Time, o: OrderId, v: View, db: I.Db, result: P.GatewayResult)
    requires Separated(c) && OrderOk(c, now, o, v) && v.rows == I.RowsOf(db.rows, o) && v.ord.lateReserve.Some?
    ensures var w := LateServed(v, ToReserve, Serve(ToReserve, o, v.ord, db, v.pay, Sent, result), o);
      OrderOk(c, now, o, w) && Respects(c, now, v, w) && Yields(v, w)
  {
    LateReserveIsFirst(c, now, o, v);
    ReserveHold(db, o, v.ord.items);
    OneStatus(o, v.ord.items, Has(I.Active));
    var w := LateServed(v, ToReserve, Serve(ToReserve, o, v.ord, db, v.pay, Sent, result), o);
    LandedReserve(c, now, o, v, w);
  }

  lemma LandedReserve(c: Config, now: Time, o: OrderId, v: View, w: View)
    requires Separated(c) && OrderOk(c, now, o, v) && v.ord.lateReserve.Some? && !Running(v.pc)
    requires v.ord.row.status == PENDING && v.rows == []
    requires w == View(v.ord.(lateReserve := None), v.pc, w.rows, v.pay)
    requires w.rows == RowsFor(o, v.ord.items, HoldOf(w.rows))
    requires HoldOf(w.rows) == Nothing || HoldOf(w.rows) == Has(I.Active)
    ensures OrderOk(c, now, o, w) && Respects(c, now, v, w) && Yields(v, w)
  {
  }

  lemma LandCommitKeeps(c: Config, now: Time, o: OrderId, v: View, db: I.Db, result: P.GatewayResult)
    requires OrderOk(c, now, o, v) && v.rows == I.RowsOf(db.rows, o) && v.ord.lateCommit.Some?
    ensures var w := LateServed(v, ToCommit, Serve(ToCommit, o, v.ord, db, v.pay, Sent, result), o);
      OrderOk(c, now, o, w) && Respects(c, now, v, w) && Yields(v, w)
  {
    CommitHold(db, o, v.ord.items, HoldOf(v.rows));
    OneStatus(o, v.ord.items, Has(I.Committed));
  }

  lemma LandChargeKeeps(c: Config, now: Time, o: OrderId, v: View, db: I.Db, result: P.GatewayResult)
    requires OrderOk(c, now, o, v) && v.rows == I.RowsOf(db.rows, o) && v.ord.lateCharge.Some?
    ensures var stage := v.ord.lateCharge.value.stage;
      var w := LateServed(v, ToCharge, Serve(ToCharge, o, v.ord, db, v.pay, stage, result), o);
      OrderOk(c, now, o, w) && Respects(c, now, v, w) && Yields(v, w)
  {
  }

  lemma DropKeeps(c: Config, now: Time, o: OrderId, v: View, kind: Kind)
    requires OrderOk(c, now, o, v) && Late(v.ord, kind).Some?
    ensures var w := v.(ord := SetLate(v.ord, kind, None));
      OrderOk(c, now, o, w) && Respects(c, now, v, w) && Yields(v, w)
  {
    match kind
    case ToReserve =>
    case ToCharge =>
    case ToCommit =>
  }

  /** A release that lands outside the create flow, on an order that has been sent one. */
  lemma LandReleaseKeeps(c: Config, now: Time, o: OrderId, v: View, db: I.Db)
    requires OrderOk(c, now, o, v) && v.rows == I.RowsOf(db.rows, o)
    requires v.ord.releaseSent && (v.ord.lateRelease || !Running(v.pc))
    ensures var w := v.(rows := I.RowsOf(I.Release(db, o).db.rows, o));
      OrderOk(c, now, o, w) && Respects(c, now, v, w) && Yields(v, w) && InStock(HoldOf(w.rows))
      && (HoldOf(v.rows) != Nothing ==> HoldOf(w.rows) == Has(I.Released))
  {
    StatusHold(db.rows, o, v.ord.items, HoldOf(v.rows), I.Released);
    OneStatus(o, v.ord.items, Has(I.Released));
  }

  // ------------------------------------------------------------------ expiry on one order

  /** Past the window no create flow is left, and nothing it sent can still land. */
  lemma StaleIsQuiet(c: Config, now: Time, o: OrderId, v: View)
    requires Separated(c) && OrderOk(c, now, o, v) && Stale(c, v.ord, now)
    ensures !Running(v.pc)
    ensures v.ord.lateReserve.None? && v.ord.lateCharge.None? && v.ord.lateCommit.None?
  {
  }

  lemma TakeKeeps(c: Config, now: Time, o: OrderId, v: View, e: nat)
    requires Separated(c) && OrderOk(c, now, o, v) && Stale(c, v.ord, now)
    requires v.ord.lock.None? && Unfinished(v.ord.row.status)
    ensures var w := v.(ord := v.ord.(lock := Some(e), releaseSent := true));
      OrderOk(c, now, o, w) && Respects(c, now, v, w)
  {
    StaleIsQuiet(c, now, o, v);
  }

  lemma ExpireKeeps(c: Config, now: Time, o: OrderId, v: View)
    requires Separated(c) && OrderOk(c, now, o, v) && Stale(c, v.ord, now)
    requires Unfinished(v.ord.row.status) && InStock(HoldOf(v.rows))
    ensures var w := v.(ord := Expire(v.ord.(lock := None, releaseFailed := false), NotCompleted));
      OrderOk(c, now, o, w) && Respects(c, now, v, w)
  {
    StaleIsQuiet(c, now, o, v);
    WriteKeepsTrail(v.ord.row, EXPIRED, NotCompleted);
  }

  lemma FaultExpiryKeeps(c: Config, now: Time, o: OrderId, v: View, stage: Stage, close: bool)
    requires Separated(c) && OrderOk(c, now, o, v) && Stale(c, v.ord, now)
    requires Unfinished(v.ord.row.status) && v.ord.releaseSent
    ensures var left := Abandon(v.ord, ToRelease, Call(0, stage)).(lock := None, releaseFailed := true);
      var w := v.(ord := if close then Expire(left, NotCompletedStockNotReleased) else left);
      OrderOk(c, now, o, w) && Respects(c, now, v, w)
  {
    StaleIsQuiet(c, now, o, v);
    WriteKeepsTrail(v.ord.row, EXPIRED, NotCompletedStockNotReleased);
  }

  lemma AbortExpiryKeeps(c: Config, now: Time, o: OrderId, v: View, stage: Stage)
    requires Separated(c) && OrderOk(c, now, o, v) && Stale(c, v.ord, now) && v.ord.releaseSent
    ensures var w := v.(ord := Abandon(v.ord, ToRelease, Call(0, stage)).(lock := None));
      OrderOk(c, now, o, w) && Respects(c, now, v, w)
  {
    StaleIsQuiet(c, now, o, v);
  }

  // ------------------------------------------------------------------ cancellation on one order

  lemma CancelColumnsKeep(c: Config, now: Time, o: OrderId, v: View, failed: bool, late: bool)
    requires OrderOk(c, now, o, v) && v.ord.row.status == CONFIRMED && v.ord.releaseSent
    ensures var w := v.(ord := v.ord.(releaseFailed := failed, lateRelease := late));
      OrderOk(c, now, o, w) && Respects(c, now, v, w) && Yields(v, w)
  {
  }

  /** Marking that a release was sent for an order whose flow is over. */
  lemma MarkReleaseKeeps(c: Config, now: Time, o: OrderId, v: View)
    requires OrderOk(c, now, o, v) && !Unfinished(v.ord.row.status)
    ensures var w := v.(ord := v.ord.(releaseSent := true));
      OrderOk(c, now, o, w) && Respects(c, now, v, w) && Yields(v, w)
  {
  }

  lemma CancelKeeps(c: Config, now: Time, o: OrderId, v: View)
    requires OrderOk(c, now, o, v) && v.ord.row.status == CONFIRMED && HoldOf(v.rows) == Has(I.Released)
    ensures var w := v.(ord := v.ord.(row := Written(v.ord.row, CONFIRMED, CANCELLED, CancelledByCustomer)));
      OrderOk(c, now, o, w) && Respects(c, now, v, w)
  {
    WriteKeepsTrail(v.ord.row, CANCELLED, CancelledByCustomer);
  }
}
