/**
  The order saga as one transition system: any number of create requests, cancellations and
  overlapping expiry runs over the orders, inventory and payments tables
  (services/orders/app/service.py).

  Each database commit is one step. An outbound call is sent, served, and heard in separate
  steps; its caller may give up at any point, and a call given up on may still be served
  later or never. Any process may die at any point.

  Time is explicit. A caller waits for a call no longer than its timeout, spends at most
  `local` between two calls, and a call given up on lands at most `landing` after its
  timeout; the clock cannot pass a deadline that is still owed.

  A timeout here is the longest a call as a whole can keep its caller waiting. The settings
  give the HTTP client one number that it applies to connecting, writing, reading and waiting
  for the pool separately (services/orders/app/clients/base.py:32-37), so a call can last
  longer than the setting; the model's timeouts are those longest waits.
*/
module Saga {
  import opened Wrappers
  import opened OrderState
  import E = Expiry
  import I = Inventory
  import P = Payments

  type Time = nat
  type OrderId = nat

  datatype Config = Config(inventoryTimeout: Time, paymentsTimeout: Time, landing: Time, local: Time,
                           window: Time, releaseGiveUp: Time)

  /** Longest life of a create flow, counted from the insert of its order. */
  function FlowBound(c: Config): (t: Time) {
    2 * c.inventoryTimeout + c.paymentsTimeout + 5 * c.local
  }

  /** The expiry window outlasts every create flow and every call it may leave behind. */
  predicate Separated(c: Config) {
    FlowBound(c) + c.landing <= c.window
  }

  // ------------------------------------------------------------------ calls

  datatype Kind = ToReserve | ToCharge | ToCommit | ToRelease

  /** How far the called service has come. A charge commits, asks the gateway, and commits again. */
  datatype Stage = Sent | RowOpened | GatewayAsked(result: P.GatewayResult) | Answered(ok: bool) | Errored

  /** `due` is when the caller's timeout ends. */
  datatype Call = Call(due: Time, stage: Stage)

  predicate Served(st: Stage) {
    st.Answered? || st.Errored?
  }

  // ------------------------------------------------------------------ tables and processes

  /**
    An orders row, the calls about it that nobody waits for any more, and its history. A
    release given up on is kept as "may still land, any number of times".
  */
  datatype Order = Order(
    key: string, email: string, items: seq<I.Item>, total: nat, createdAt: Time, row: Row,
    lock: Option<nat>, creator: nat,
    lateReserve: Option<Call>, lateCharge: Option<Call>, lateCommit: Option<Call>, lateRelease: bool,
    reserves: nat, charges: nat, asked: nat, releaseSent: bool, releaseFailed: bool, crashed: bool)

  datatype Pc =
    | Arrived
    | KeyIsNew
    | Priced(total: nat)
    | Reserving(order: OrderId, call: Call)
    | Refusing(order: OrderId, due: Time)
    | Accepted(order: OrderId, due: Time)
    | Charging(order: OrderId, call: Call)
    | Committing(order: OrderId, call: Call)
    | Paying(order: OrderId, due: Time)
    | Releasing(order: OrderId, call: Call, why: Reason)
    | Failing(order: OrderId, due: Time, why: Reason)
    | Returned(order: OrderId)
    | Rejected
    | Dead

  datatype Request = Request(key: string, email: string, items: seq<I.Item>, pc: Pc)

  datatype CancelPc = AwaitingRelease(stage: Stage) | StockReturned | Over

  datatype Cancel = Cancel(order: OrderId, pc: CancelPc)

  datatype ExpiryPc = Between | Holding(order: OrderId, stage: Stage)

  datatype Expiry = Expiry(moment: Time, todo: seq<OrderId>, pc: ExpiryPc)

  /** `supply` is the history of what was brought into stock. */
  datatype Sys = Sys(now: Time, orders: seq<Order>, db: I.Db, pays: map<OrderId, P.Payment>,
                     requests: seq<Request>, cancels: seq<Cancel>, expiries: seq<Expiry>,
                     supply: map<I.Sku, int>)

  const EMPTY := Sys(0, [], I.Db(map[], []), map[], [], [], [], map[])

  predicate Running(pc: Pc) {
    pc.Reserving? || pc.Refusing? || pc.Accepted? || pc.Charging? || pc.Committing? || pc.Paying?
    || pc.Releasing? || pc.Failing?
  }

  predicate Waiting(pc: Pc) {
    pc.Reserving? || pc.Charging? || pc.Committing? || pc.Releasing?
  }

  function Deadline(pc: Pc): (t: Time)
    requires Running(pc)
  {
    if Waiting(pc) then pc.call.due else pc.due
  }

  function PayOf(pays: map<OrderId, P.Payment>, o: OrderId): (p: Option<P.Payment>) {
    if o in pays then Some(pays[o]) else None
  }

  function PutPay(pays: map<OrderId, P.Payment>, o: OrderId, p: Option<P.Payment>): (r: map<OrderId, P.Payment>) {
    match p case None => pays case Some(x) => pays[o := x]
  }

  function Late(ord: Order, kind: Kind): (c: Option<Call>) {
    match kind
    case ToReserve => ord.lateReserve
    case ToCharge => ord.lateCharge
    case ToCommit => ord.lateCommit
    case ToRelease => None
  }

  /** What stays in the network when the caller stops waiting. */
  function Abandon(ord: Order, kind: Kind, call: Call): (r: Order) {
    var left := if Served(call.stage) then None else Some(call);
    match kind
    case ToReserve => ord.(lateReserve := left)
    case ToCharge => ord.(lateCharge := left)
    case ToCommit => ord.(lateCommit := left)
    case ToRelease => ord.(lateRelease := ord.lateRelease || left.Some?)
  }

  // ------------------------------------------------------------------ the called services

  datatype Serving = Serving(db: I.Db, pay: Option<P.Payment>, asked: nat, stage: Stage)

  /** One commit of the called service on behalf of a call about this order. */
  function Serve(kind: Kind, o: OrderId, ord: Order, db: I.Db, pay: Option<P.Payment>, stage: Stage,
                 result: P.GatewayResult): (r: Serving)
  {
    match kind
    case ToReserve =>
      var reply := I.Reserve(db, o, ord.items);
      Serving(reply.db, pay, ord.asked,
              match reply.result
              case Ok(_) => Answered(true)
              case Err(e) => if e.OutOfStock? || e.UnknownSku? then Answered(false) else Errored)
    case ToCommit =>
      var reply := I.Commit(db, o);
      Serving(reply.db, pay, ord.asked, if reply.result.Ok? then Answered(true) else Errored)
    case ToRelease => Serving(I.Release(db, o).db, pay, ord.asked, Answered(true))
    case ToCharge =>
      match stage
      case Sent =>
        (match pay
         case None => Serving(db, Some(P.Opened(ord.total)), ord.asked, RowOpened)
         case Some(p) =>
           match P.Judge(p, ord.total)
           case Retry => Serving(db, Some(P.Reopened(p)), ord.asked, RowOpened)
           case Reply(answer) => Serving(db, pay, ord.asked, if answer.Replayed? then Answered(true) else Errored))
      case RowOpened => Serving(db, pay, ord.asked + 1, GatewayAsked(result))
      case GatewayAsked(r) =>
        (match pay
         case None => Serving(db, pay, ord.asked, Errored)
         case Some(p) => Serving(db, Some(P.Close(p, p.attempts, r)), ord.asked, Answered(r.Approved?)))
      case _ => Serving(db, pay, ord.asked, stage)
  }

  // ------------------------------------------------------------------ the create flow

  datatype FlowEvent = Hear | GiveUp | WriteStatus | Die

  /** A process step on its own order: hear the answer, stop waiting, commit a status, or die. */
  function Flow(c: Config, now: Time, ord: Order, pc: Pc, ev: FlowEvent): (r: Option<(Order, Pc)>) {
    if !Running(pc) then None
    else match ev
      case Hear => HearAnswer(c, now, ord, pc)
      case GiveUp => StopWaiting(c, now, ord, pc)
      case WriteStatus => if ord.lock.Some? then None else Commit(c, now, ord, pc)
      case Die =>
        var left := if Waiting(pc) then Abandon(ord, KindOf(pc), pc.call) else ord;
        Some((left.(crashed := true), Dead))
  }

  function KindOf(pc: Pc): (k: Kind)
    requires Waiting(pc)
  {
    match pc
    case Reserving(_, _) => ToReserve
    case Charging(_, _) => ToCharge
    case Committing(_, _) => ToCommit
    case Releasing(_, _, _) => ToRelease
  }

  function SendReserve(c: Config, now: Time, ord: Order, o: OrderId): (r: (Order, Pc)) {
    (ord.(reserves := ord.reserves + 1), Reserving(o, Call(now + c.local + c.inventoryTimeout, Sent)))
  }

  function SendRelease(c: Config, now: Time, ord: Order, o: OrderId, why: Reason): (r: (Order, Pc)) {
    (ord.(releaseSent := true), Releasing(o, Call(now + c.local + c.inventoryTimeout, Sent), why))
  }

  function HearAnswer(c: Config, now: Time, ord: Order, pc: Pc): (r: Option<(Order, Pc)>)
    requires Running(pc)
  {
    if !Waiting(pc) || !pc.call.stage.Answered? then None
    else match pc
      case Reserving(o, call) =>
        Some((ord, if call.stage.ok then Accepted(o, now + c.local) else Refusing(o, now + c.local)))
      case Charging(o, call) =>
        if call.stage.ok then Some((ord, Committing(o, Call(now + c.local + c.inventoryTimeout, Sent))))
        else Some(SendRelease(c, now, ord, o, PaymentDeclined))
      case Committing(o, _) => Some((ord, Paying(o, now + c.local)))
      case Releasing(o, _, why) => Some((ord.(releaseFailed := false), Failing(o, now + c.local, why)))
      case _ => None
  }

  function StopWaiting(c: Config, now: Time, ord: Order, pc: Pc): (r: Option<(Order, Pc)>)
    requires Running(pc)
  {
    if !Waiting(pc) then None
    else
      var left := Abandon(ord, KindOf(pc), pc.call);
      match pc
      case Reserving(o, _) => Some((left, Rejected))
      case Charging(o, _) => Some(SendRelease(c, now, left, o, PaymentFault))
      case Committing(o, _) => Some((left, Paying(o, now + c.local)))
      case Releasing(o, _, why) => Some((left.(releaseFailed := true), Failing(o, now + c.local, why)))
      case _ => None
  }

  /** Status commits. The status they move from is that of the copy the process holds. */
  function Commit(c: Config, now: Time, ord: Order, pc: Pc): (r: Option<(Order, Pc)>)
    requires Running(pc)
  {
    match pc
    case Refusing(o, _) => Some((ord.(row := Written(ord.row, PENDING, FAILED, Refused)), Returned(o)))
    case Accepted(o, _) =>
      Some((ord.(row := Written(ord.row, PENDING, RESERVED, StockReserved), charges := ord.charges + 1),
            Charging(o, Call(now + c.local + c.paymentsTimeout, Sent))))
    case Paying(o, _) => Some((ord.(row := Written(ord.row, RESERVED, CONFIRMED, Paid)), Returned(o)))
    case Failing(o, _, why) => Some((ord.(row := Written(ord.row, RESERVED, FAILED, why)), Returned(o)))
    case _ => None
  }

  // ------------------------------------------------------------------ steps

  datatype Label =
    | Tick(d: Time)
    | CreateProduct(sku: I.Sku, units: nat)
    | AdjustStock(sku: I.Sku, delta: int)
    | Arrive(key: string, email: string, items: seq<I.Item>)
    | Lookup(r: nat)
    | Price(r: nat, total: nat)
    | Insert(r: nat)
    | DieEarly(r: nat)
    | FlowStep(r: nat, event: FlowEvent)
    | ServeFlow(r: nat, result: P.GatewayResult)
    | Land(order: OrderId, kind: Kind, result: P.GatewayResult)
    | LandRelease(order: OrderId)
    | Drop(order: OrderId, kind: Kind)
    | StartCancel(order: OrderId)
    | ServeCancel(k: nat)
    | HearCancel(k: nat)
    | FaultCancel(k: nat)
    | WriteCancel(k: nat)
    | StartExpiry(todo: seq<OrderId>)
    | TakeNext(e: nat)
    | ServeExpiry(e: nat)
    | HearExpiry(e: nat)
    | FaultExpiry(e: nat)
    | AbortExpiry(e: nat)
    | OperatorRelease(order: OrderId)

  predicate StockLabel(l: Label) {
    l.CreateProduct? || l.AdjustStock?
  }

  predicate RequestLabel(l: Label) {
    l.Arrive? || l.Lookup? || l.Price? || l.DieEarly?
  }

  predicate OrderLabel(l: Label) {
    l.Insert? || l.FlowStep? || l.ServeFlow? || l.Land? || l.LandRelease? || l.Drop? || l.OperatorRelease?
  }

  predicate CancelLabel(l: Label) {
    l.StartCancel? || l.ServeCancel? || l.HearCancel? || l.FaultCancel? || l.WriteCancel?
  }

  predicate ExpiryLabel(l: Label) {
    l.StartExpiry? || l.TakeNext? || l.ServeExpiry? || l.HearExpiry? || l.FaultExpiry? || l.AbortExpiry?
  }

  predicate ValidItems(items: seq<I.Item>) {
    items != [] && I.Distinct(items) && forall x :: x in items ==> x.qty > 0
  }

  /** Nothing owed is overdue: no caller waits past its timeout, no abandoned call past its landing. */
  predicate OnTime(c: Config, s: Sys, t: Time) {
    && (forall r :: 0 <= r < |s.requests| && Running(s.requests[r].pc) ==> t <= Deadline(s.requests[r].pc))
    && (forall o, k :: 0 <= o < |s.orders| && Late(s.orders[o], k).Some? ==>
          t <= Late(s.orders[o], k).value.due + c.landing)
  }

  predicate Stale(c: Config, ord: Order, t: Time) {
    ord.createdAt + c.window < t
  }

  predicate HasKey(s: Sys, key: string) {
    exists o :: 0 <= o < |s.orders| && s.orders[o].key == key
  }

  function FindKey(orders: seq<Order>, key: string): (o: nat)
    requires exists o :: 0 <= o < |orders| && orders[o].key == key
    ensures o < |orders| && orders[o].key == key
  {
    if orders[|orders| - 1].key == key then |orders| - 1 else FindKey(orders[..|orders| - 1], key)
  }

  /** Answering a key that already has an order. */
  function Replay(s: Sys, q: Request): (pc: Pc)
    requires HasKey(s, q.key)
  {
    var o := FindKey(s.orders, q.key);
    var ord := s.orders[o];
    if ord.email != q.email || multiset(ord.items) != multiset(q.items) then Rejected
    else if Unfinished(ord.row.status) then Rejected
    else Returned(o)
  }

  predicate ActiveCancel(s: Sys, k: nat) {
    k < |s.cancels| && !s.cancels[k].pc.Over?
  }

  predicate CancelHolds(s: Sys, k: nat) {
    ActiveCancel(s, k) && s.cancels[k].order < |s.orders|
  }

  /** One cancellation at a time per order: the code does not lock against a second one. */
  predicate Cancellable(s: Sys, o: OrderId) {
    && o < |s.orders|
    && s.orders[o].row.status == CONFIRMED
    && (forall k :: 0 <= k < |s.cancels| && ActiveCancel(s, k) ==> s.cancels[k].order != o)
  }

  predicate Listable(c: Config, s: Sys, todo: seq<OrderId>) {
    && |todo| <= E.EXPIRY_BATCH
    && (forall o :: o in todo ==>
          o < |s.orders| && Unfinished(s.orders[o].row.status) && Stale(c, s.orders[o], s.now))
  }

  predicate HasNext(s: Sys, e: nat) {
    && e < |s.expiries| && s.expiries[e].pc.Between? && s.expiries[e].todo != []
    && s.expiries[e].todo[0] < |s.orders|
  }

  predicate ExpiryHolds(s: Sys, e: nat) {
    && e < |s.expiries|
    && s.expiries[e].pc.Holding?
    && s.expiries[e].pc.order < |s.orders|
  }

  predicate InFlow(s: Sys, r: nat) {
    r < |s.requests| && Running(s.requests[r].pc) && s.requests[r].pc.order < |s.orders|
  }

  predicate CanFlow(c: Config, s: Sys, r: nat, ev: FlowEvent) {
    InFlow(s, r) && Flow(c, s.now, s.orders[s.requests[r].pc.order], s.requests[r].pc, ev).Some?
  }

  predicate Enabled(c: Config, s: Sys, l: Label) {
    match l
    case Tick(d) => OnTime(c, s, s.now + d)
    case CreateProduct(_, _) => true
    case AdjustStock(_, _) => true
    case Arrive(_, _, items) => ValidItems(items)
    case Lookup(r) => r < |s.requests| && s.requests[r].pc.Arrived?
    case Price(r, _) => r < |s.requests| && s.requests[r].pc.KeyIsNew?
    case Insert(r) => r < |s.requests| && s.requests[r].pc.Priced?
    case DieEarly(r) =>
      r < |s.requests| && (s.requests[r].pc.Arrived? || s.requests[r].pc.KeyIsNew? || s.requests[r].pc.Priced?)
    case FlowStep(r, ev) => CanFlow(c, s, r, ev)
    case ServeFlow(r, _) => InFlow(s, r) && Waiting(s.requests[r].pc) && !Served(s.requests[r].pc.call.stage)
    case Land(o, k, _) => o < |s.orders| && Late(s.orders[o], k).Some?
    case LandRelease(o) => o < |s.orders| && s.orders[o].lateRelease
    case Drop(o, k) => o < |s.orders| && Late(s.orders[o], k).Some?
    case StartCancel(o) => Cancellable(s, o)
    case ServeCancel(k) => CancelHolds(s, k) && s.cancels[k].pc == AwaitingRelease(Sent)
    case HearCancel(k) => CancelHolds(s, k) && s.cancels[k].pc.AwaitingRelease? && s.cancels[k].pc.stage.Answered?
    case FaultCancel(k) => CancelHolds(s, k)
    case WriteCancel(k) =>
      CancelHolds(s, k) && s.cancels[k].pc.StockReturned? && s.orders[s.cancels[k].order].lock.None?
    case StartExpiry(todo) => Listable(c, s, todo)
    case TakeNext(e) => HasNext(s, e)
    case ServeExpiry(e) => ExpiryHolds(s, e) && s.expiries[e].pc.stage.Sent?
    case HearExpiry(e) => ExpiryHolds(s, e) && s.expiries[e].pc.stage.Answered?
    case FaultExpiry(e) => ExpiryHolds(s, e)
    case AbortExpiry(e) => ExpiryHolds(s, e)
    case OperatorRelease(o) => o < |s.orders| && !Unfinished(s.orders[o].row.status)
  }

  function WithOrder(s: Sys, o: OrderId, ord: Order): (r: Sys)
    requires o < |s.orders|
  {
    s.(orders := s.orders[o := ord])
  }

  function WithPc(s: Sys, r: nat, pc: Pc): (t: Sys)
    requires r < |s.requests|
  {
    s.(requests := s.requests[r := s.requests[r].(pc := pc)])
  }

  function WithServing(s: Sys, o: OrderId, v: Serving): (r: Sys)
    requires o < |s.orders|
  {
    WithOrder(s, o, s.orders[o].(asked := v.asked)).(db := v.db, pays := PutPay(s.pays, o, v.pay))
  }

  function NewOrder(q: Request, total: nat, now: Time, r: nat): (ord: Order) {
    Order(q.key, q.email, q.items, total, now, Placed(), None, r,
          None, None, None, false, 0, 0, 0, false, false, false)
  }

  function SetLate(ord: Order, k: Kind, c: Option<Call>): (r: Order) {
    match k
    case ToReserve => ord.(lateReserve := c)
    case ToCharge => ord.(lateCharge := c)
    case ToCommit => ord.(lateCommit := c)
    case ToRelease => ord
  }

  function NextLand(s: Sys, o: OrderId, k: Kind, result: P.GatewayResult): (r: Sys)
    requires o < |s.orders| && Late(s.orders[o], k).Some?
  {
    var call := Late(s.orders[o], k).value;
    var v := Serve(k, o, s.orders[o], s.db, PayOf(s.pays, o), call.stage, result);
    var t := WithServing(s, o, v);
    WithOrder(t, o, SetLate(t.orders[o], k, if Served(v.stage) then None else Some(call.(stage := v.stage))))
  }

  function NextServeFlow(s: Sys, r: nat, result: P.GatewayResult): (t: Sys)
    requires InFlow(s, r) && Waiting(s.requests[r].pc)
  {
    var pc := s.requests[r].pc;
    var o := pc.order;
    var v := Serve(KindOf(pc), o, s.orders[o], s.db, PayOf(s.pays, o), pc.call.stage, result);
    WithPc(WithServing(s, o, v), r, pc.(call := pc.call.(stage := v.stage)))
  }

  function ReleaseAt(s: Sys, o: OrderId): (r: Sys) {
    s.(db := I.Release(s.db, o).db)
  }

  function WithCancel(s: Sys, k: nat, pc: CancelPc): (r: Sys)
    requires k < |s.cancels|
  {
    s.(cancels := s.cancels[k := s.cancels[k].(pc := pc)])
  }

  function WithExpiry(s: Sys, e: nat, x: Expiry): (r: Sys)
    requires e < |s.expiries|
  {
    s.(expiries := s.expiries[e := x])
  }

  function NextTake(s: Sys, e: nat): (r: Sys)
    requires e < |s.expiries| && s.expiries[e].todo != [] && s.expiries[e].todo[0] < |s.orders|
  {
    var x := s.expiries[e].(todo := s.expiries[e].todo[1..]);
    var o := s.expiries[e].todo[0];
    var ord := s.orders[o];
    // SELECT ... FOR UPDATE SKIP LOCKED, then the status is read again under the lock.
    if ord.lock.Some? || !Unfinished(ord.row.status) then WithExpiry(s, e, x)
    else WithExpiry(WithOrder(s, o, ord.(lock := Some(e), releaseSent := true)), e, x.(pc := Holding(o, Sent)))
  }

  function Expire(ord: Order, reason: Reason): (r: Order) {
    ord.(row := Written(ord.row, ord.row.status, EXPIRED, reason))
  }

  function NextFaultExpiry(c: Config, s: Sys, e: nat): (r: Sys)
    requires ExpiryHolds(s, e)
  {
    var x := s.expiries[e];
    var ord := s.orders[x.pc.order];
    var left := Abandon(ord, ToRelease, Call(0, x.pc.stage)).(lock := None, releaseFailed := true);
    // Left for a later run until the order is old enough to be closed without its stock.
    var ended := if ord.createdAt + c.releaseGiveUp > x.moment then left
                 else Expire(left, NotCompletedStockNotReleased);
    WithExpiry(WithOrder(s, x.pc.order, ended), e, x.(pc := Between))
  }

  function NextInsert(c: Config, s: Sys, r: nat, total: nat): (t: Sys)
    requires r < |s.requests|
  {
    var q := s.requests[r];
    // The unique index on idempotency_key decides; the loser answers from the winner's row.
    if HasKey(s, q.key) then WithPc(s, r, Replay(s, q))
    else
      var (ord, pc) := SendReserve(c, s.now, NewOrder(q, total, s.now, r), |s.orders|);
      WithPc(s, r, pc).(orders := s.orders + [ord])
  }

  function NextFlowStep(c: Config, s: Sys, r: nat, ev: FlowEvent): (t: Sys)
    requires CanFlow(c, s, r, ev)
  {
    var o := s.requests[r].pc.order;
    var (ord, pc) := Flow(c, s.now, s.orders[o], s.requests[r].pc, ev).value;
    WithPc(WithOrder(s, o, ord), r, pc)
  }

  function NextDrop(s: Sys, o: OrderId, k: Kind): (t: Sys)
    requires o < |s.orders|
  {
    WithOrder(s, o, SetLate(s.orders[o], k, None))
  }

  function NextStartCancel(s: Sys, o: OrderId): (t: Sys)
    requires o < |s.orders|
  {
    WithOrder(s, o, s.orders[o].(releaseSent := true)).(cancels := s.cancels + [Cancel(o, AwaitingRelease(Sent))])
  }

  function NextServeCancel(s: Sys, k: nat): (t: Sys)
    requires CancelHolds(s, k)
  {
    WithCancel(ReleaseAt(s, s.cancels[k].order), k, AwaitingRelease(Answered(true)))
  }

  function NextHearCancel(s: Sys, k: nat): (t: Sys)
    requires CancelHolds(s, k)
  {
    var o := s.cancels[k].order;
    WithCancel(WithOrder(s, o, s.orders[o].(releaseFailed := false)), k, StockReturned)
  }

  function NextFaultCancel(s: Sys, k: nat): (t: Sys)
    requires CancelHolds(s, k)
  {
    var o := s.cancels[k].order;
    var failed := if s.cancels[k].pc.StockReturned? then s.orders[o]
      else s.orders[o].(lateRelease := true, releaseFailed := true);
    WithCancel(WithOrder(s, o, failed), k, Over)
  }

  function NextWriteCancel(s: Sys, k: nat): (t: Sys)
    requires CancelHolds(s, k)
  {
    var o := s.cancels[k].order;
    var row := Written(s.orders[o].row, CONFIRMED, CANCELLED, CancelledByCustomer);
    WithCancel(WithOrder(s, o, s.orders[o].(row := row)), k, Over)
  }

  function NextServeExpiry(s: Sys, e: nat): (t: Sys)
    requires ExpiryHolds(s, e)
  {
    var x := s.expiries[e];
    WithExpiry(ReleaseAt(s, x.pc.order), e, x.(pc := Holding(x.pc.order, Answered(true))))
  }

  function NextHearExpiry(s: Sys, e: nat): (t: Sys)
    requires ExpiryHolds(s, e)
  {
    var x := s.expiries[e];
    var ord := s.orders[x.pc.order].(lock := None, releaseFailed := false);
    WithExpiry(WithOrder(s, x.pc.order, Expire(ord, NotCompleted)), e, x.(pc := Between))
  }

  function NextAbortExpiry(s: Sys, e: nat): (t: Sys)
    requires ExpiryHolds(s, e)
  {
    var x := s.expiries[e];
    var left := Abandon(s.orders[x.pc.order], ToRelease, Call(0, x.pc.stage)).(lock := None);
    WithExpiry(WithOrder(s, x.pc.order, left), e, x.(pc := Between))
  }

  function NextOperatorRelease(s: Sys, o: OrderId): (t: Sys)
    requires o < |s.orders|
  {
    ReleaseAt(WithOrder(s, o, s.orders[o].(releaseSent := true)), o)
  }

  function NextSupply(s: Sys, op: I.Op): (t: Sys) {
    var reply := I.Apply(s.db, op);
    var supply := if reply.result.Err? then s.supply
      else match op
        case DoCreate(sku, units) => s.supply[sku := units]
        case DoAdjust(sku, delta) =>
          if sku in s.supply then s.supply[sku := s.supply[sku] + delta] else s.supply
        case _ => s.supply;
    s.(db := reply.db, supply := supply)
  }

  function Next(c: Config, s: Sys, l: Label): (r: Sys)
    requires Enabled(c, s, l)
  {
    match l
    case Tick(d) => s.(now := s.now + d)
    case CreateProduct(sku, units) => NextSupply(s, I.DoCreate(sku, units))
    case AdjustStock(sku, delta) => NextSupply(s, I.DoAdjust(sku, delta))
    case Arrive(key, email, items) => s.(requests := s.requests + [Request(key, email, items, Arrived)])
    case Lookup(r) => WithPc(s, r, if HasKey(s, s.requests[r].key) then Replay(s, s.requests[r]) else KeyIsNew)
    case Price(r, total) => WithPc(s, r, Priced(total))
    case Insert(r) => NextInsert(c, s, r, s.requests[r].pc.total)
    case DieEarly(r) => WithPc(s, r, Dead)
    case FlowStep(r, ev) => NextFlowStep(c, s, r, ev)
    case ServeFlow(r, result) => NextServeFlow(s, r, result)
    case Land(o, k, result) => NextLand(s, o, k, result)
    case LandRelease(o) => ReleaseAt(s, o)
    case Drop(o, k) => NextDrop(s, o, k)
    case StartCancel(o) => NextStartCancel(s, o)
    case ServeCancel(k) => NextServeCancel(s, k)
    case HearCancel(k) => NextHearCancel(s, k)
    case FaultCancel(k) => NextFaultCancel(s, k)
    case WriteCancel(k) => NextWriteCancel(s, k)
    case StartExpiry(todo) => s.(expiries := s.expiries + [Expiry(s.now, todo, Between)])
    case TakeNext(e) => NextTake(s, e)
    case ServeExpiry(e) => NextServeExpiry(s, e)
    case HearExpiry(e) => NextHearExpiry(s, e)
    case FaultExpiry(e) => NextFaultExpiry(c, s, e)
    case AbortExpiry(e) => NextAbortExpiry(s, e)
    case OperatorRelease(o) => NextOperatorRelease(s, o)
  }

  // ------------------------------------------------------------------ runs

  ghost predicate CanRun(c: Config, s: Sys, ls: seq<Label>)
    decreases |ls|
  {
    ls == [] || (Enabled(c, s, ls[0]) && CanRun(c, Next(c, s, ls[0]), ls[1..]))
  }

  ghost function After(c: Config, s: Sys, ls: seq<Label>): (r: Sys)
    requires CanRun(c, s, ls)
    decreases |ls|
  {
    if ls == [] then s else After(c, Next(c, s, ls[0]), ls[1..])
  }

  /** The states a run from empty tables can reach. */
  ghost predicate Reachable(c: Config, s: Sys) {
    exists ls :: CanRun(c, EMPTY, ls) && After(c, EMPTY, ls) == s
  }
}
