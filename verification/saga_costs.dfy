/**
  What an expiry window shorter than it should be costs, exactly: when an expired order can
  have been paid, and when it can still hold stock although its release was accepted.
*/
module SagaCosts {
  import opened Wrappers
  import opened OrderState
  import opened Saga
  import opened SagaInvariant
  import opened SagaSteps
  import opened SagaSafety
  import opened SagaAlways
  import opened SagaTiming
  import opened SagaLawful
  import I = Inventory
  import L = InventoryLaws
  import P = Payments

  // ------------------------------------------------------------------ paid and expired

  /** Expired although its payment succeeded, with no crash to explain it. */
  ghost predicate PaidAndExpired(s: Sys, o: OrderId) {
    && o < |s.orders| && s.orders[o].row.status == EXPIRED && !s.orders[o].crashed
    && o in s.pays && s.pays[o].status.Succeeded?
  }

  predicate SameBill(a: Order, b: Order) {
    b.charges == a.charges && b.crashed == a.crashed
  }

  /** Neither a charge, nor a crash, nor a status write. */
  predicate SameBooks(a: Order, b: Order) {
    SameBill(a, b) && b.row == a.row
  }

  ghost predicate KeepsBills(s: Sys, t: Sys) {
    |s.orders| <= |t.orders| && forall o :: 0 <= o < |s.orders| ==> SameBill(s.orders[o], t.orders[o])
  }

  ghost predicate KeepsBooks(s: Sys, t: Sys) {
    |s.orders| <= |t.orders| && forall o :: 0 <= o < |s.orders| ==> SameBooks(s.orders[o], t.orders[o])
  }

  lemma CancelKeepsBooks(s: Sys, k: nat)
    requires CancelHolds(s, k)
    ensures KeepsBooks(s, NextServeCancel(s, k)) && KeepsBooks(s, NextHearCancel(s, k))
    ensures KeepsBooks(s, NextFaultCancel(s, k)) && KeepsBills(s, NextWriteCancel(s, k))
  {
  }

  lemma ExpiryKeepsBooks(c: Config, s: Sys, e: nat)
    requires ExpiryHolds(s, e)
    ensures KeepsBooks(s, NextServeExpiry(s, e)) && KeepsBooks(s, NextAbortExpiry(s, e))
    ensures KeepsBills(s, NextHearExpiry(s, e)) && KeepsBills(s, NextFaultExpiry(c, s, e))
  {
  }

  lemma CallKeepsBooks(s: Sys, o: OrderId, kind: Kind, result: P.GatewayResult)
    requires o < |s.orders| && Late(s.orders[o], kind).Some?
    ensures KeepsBooks(s, NextLand(s, o, kind, result)) && KeepsBooks(s, NextDrop(s, o, kind))
  {
  }

  lemma ServeKeepsBooks(s: Sys, r: nat, result: P.GatewayResult)
    requires InFlow(s, r) && Waiting(s.requests[r].pc)
    ensures KeepsBooks(s, NextServeFlow(s, r, result))
  {
  }

  lemma TakeKeepsBooks(s: Sys, e: nat)
    requires HasNext(s, e)
    ensures KeepsBooks(s, NextTake(s, e))
  {
  }

  predicate WritesRows(l: Label) {
    l.FlowStep? || l.WriteCancel? || l.HearExpiry? || l.FaultExpiry?
  }

  /** Only a flow sends a charge or crashes, and only four steps write a status. */
  lemma OthersKeepBooks(c: Config, s: Sys, l: Label)
    requires Enabled(c, s, l) && !WritesRows(l)
    ensures KeepsBooks(s, Next(c, s, l))
  {
    match l
    case ServeFlow(r, result) => ServeKeepsBooks(s, r, result);
    case Land(o, kind, result) => CallKeepsBooks(s, o, kind, result);
    case Drop(o, kind) => CallKeepsBooks(s, o, kind, P.Declined(""));
    case ServeCancel(k) => CancelKeepsBooks(s, k);
    case HearCancel(k) => CancelKeepsBooks(s, k);
    case FaultCancel(k) => CancelKeepsBooks(s, k);
    case TakeNext(e) => TakeKeepsBooks(s, e);
    case ServeExpiry(e) => ExpiryKeepsBooks(c, s, e);
    case AbortExpiry(e) => ExpiryKeepsBooks(c, s, e);
    case _ =>
  }

  predicate Excused(ord: Order) {
    ord.row.status == EXPIRED ==> ord.charges == 0 || ord.crashed
  }

  ghost predicate AllExcused(s: Sys) {
    forall o :: 0 <= o < |s.orders| ==> Excused(s.orders[o])
  }

  lemma QuietIsExcused(s: Sys, t: Sys)
    requires AllExcused(s) && KeepsBooks(s, t)
    requires forall o :: |s.orders| <= o < |t.orders| ==> t.orders[o].row == Placed()
    ensures AllExcused(t)
  {
    forall o | 0 <= o < |t.orders| ensures Excused(t.orders[o]) {
      if o < |s.orders| { assert Excused(s.orders[o]) && SameBooks(s.orders[o], t.orders[o]); }
    }
  }

  lemma FlowIsExcused(c: Config, s: Sys, r: nat, ev: FlowEvent)
    requires Covered(c, s) && AllExcused(s) && CanFlow(c, s, r, ev)
    ensures AllExcused(NextFlowStep(c, s, r, ev))
  {
    assert FlowLawful(s, r);
    var t := NextFlowStep(c, s, r, ev);
    var o := s.requests[r].pc.order;
    assert t.orders[o].row.status != EXPIRED;
    assert forall p :: 0 <= p < |t.orders| && p != o ==> t.orders[p] == s.orders[p];
  }

  /** The order an expiry run holds has no flow: it is unpaid, or its flow crashed. */
  lemma HeldIsExcused(c: Config, s: Sys, e: nat)
    requires Covered(c, s) && ExpiryHolds(s, e)
    ensures var ord := s.orders[s.expiries[e].pc.order]; ord.charges == 0 || ord.crashed
  {
    var o := s.expiries[e].pc.order;
    assert HoldLawful(s, e) && AlwaysOk(c, s.now, o, ViewOf(s, o));
    if Running(FlowOf(s, o)) { HoldMeetsNoFlow(c, s, e, s.orders[o].creator); }
  }

  lemma ExpiryIsExcused(c: Config, s: Sys, e: nat)
    requires Covered(c, s) && AllExcused(s) && ExpiryHolds(s, e)
    ensures AllExcused(NextHearExpiry(s, e)) && AllExcused(NextFaultExpiry(c, s, e))
  {
    HeldIsExcused(c, s, e);
    ExpiryKeepsBooks(c, s, e);
  }

  lemma CancelIsExcused(s: Sys, k: nat)
    requires AllExcused(s) && CancelHolds(s, k)
    ensures AllExcused(NextWriteCancel(s, k))
  {
    CancelKeepsBooks(s, k);
  }

  lemma WriteIsExcused(c: Config, s: Sys, l: Label)
    requires Covered(c, s) && AllExcused(s) && Enabled(c, s, l) && WritesRows(l)
    ensures AllExcused(Next(c, s, l))
  {
    match l
    case FlowStep(r, ev) => FlowIsExcused(c, s, r, ev);
    case HearExpiry(e) => ExpiryIsExcused(c, s, e);
    case FaultExpiry(e) => ExpiryIsExcused(c, s, e);
    case WriteCancel(k) => CancelIsExcused(s, k);
  }

  lemma StepIsExcused(c: Config, s: Sys, l: Label)
    requires Covered(c, s) && AllExcused(s) && Enabled(c, s, l)
    ensures AllExcused(Next(c, s, l))
  {
    if WritesRows(l) {
      WriteIsExcused(c, s, l);
    } else {
      OthersKeepBooks(c, s, l);
      NewOrdersArePlaced(c, s, l);
      QuietIsExcused(s, Next(c, s, l));
    }
  }

  lemma {:induction false} RunIsExcused(c: Config, s: Sys, ls: seq<Label>)
    requires Covered(c, s) && AllExcused(s) && CanRun(c, s, ls)
    ensures AllExcused(After(c, s, ls))
    decreases |ls|
  {
    if ls != [] {
      StepIsExcused(c, s, ls[0]);
      StepCovered(c, s, ls[0]);
      RunIsExcused(c, Next(c, s, ls[0]), ls[1..]);
    }
  }

  lemma NotPaidWhenExpired(c: Config, s: Sys, o: OrderId)
    requires FlowBound(c) <= c.window && Reachable(c, s)
    ensures !PaidAndExpired(s, o)
  {
    var ls :| CanRun(c, EMPTY, ls) && After(c, EMPTY, ls) == s;
    RunIsExcused(c, EMPTY, ls);
    ReachableCovered(c, s);
    if o < |s.orders| { assert Excused(s.orders[o]) && AlwaysOk(c, s.now, o, ViewOf(s, o)); }
  }

  /** Short of a crash an expired order was never paid, exactly when the window covers the longest flow. */
  lemma PaidAndExpiredIff(c: Config)
    ensures (exists s, o: OrderId :: Reachable(c, s) && PaidAndExpired(s, o)) <==> c.window < FlowBound(c)
  {
    if FlowBound(c) <= c.window {
      forall s, o: OrderId | Reachable(c, s) ensures !PaidAndExpired(s, o) { NotPaidWhenExpired(c, s, o); }
    } else {
      ShortWindowExpires(c);
      assert PaidAndExpired(Overtaken(c), 0);
    }
  }

  // ------------------------------------------------------------------ expired and still holding stock

  /** Expired with the reason that says its stock came back. */
  predicate PlainlyExpired(ord: Order) {
    ord.row.status == EXPIRED && ord.row.failureReason == Some(NotCompleted)
  }

  predicate Live(rows: seq<I.Row>) {
    HoldOf(rows) == Has(I.Active) || HoldOf(rows) == Has(I.Committed)
  }

  /** The longest an order's reserve can be under way, a call given up on included. */
  function ReserveBound(c: Config): (t: Time) {
    c.local + c.inventoryTimeout + c.landing
  }

  /** Old enough for expiry, and all its stock on the shelf. */
  ghost predicate Shelved(c: Config, s: Sys, o: OrderId) {
    o < |s.orders| && Stale(c, s.orders[o], s.now) && InStock(HoldOf(I.RowsOf(s.db.rows, o)))
  }

  /** Past the window the order's only reserve has been carried out or never will be. */
  lemma NoReserveLeft(c: Config, s: Sys, o: OrderId)
    requires ReserveBound(c) <= c.window && Always(c, s) && o < |s.orders| && Stale(c, s.orders[o], s.now)
    ensures !ReserveOut(ViewOf(s, o))
  {
    assert AlwaysOk(c, s.now, o, ViewOf(s, o));
  }

  lemma ServeKeepsShelved(c: Config, s: Sys, p: OrderId, kind: Kind, stage: Stage, result: P.GatewayResult, o: OrderId)
    requires Always(c, s) && Shelved(c, s, o) && p < |s.orders| && (p == o ==> kind != ToReserve)
    ensures var db := Serve(kind, p, s.orders[p], s.db, PayOf(s.pays, p), stage, result).db;
      InStock(HoldOf(I.RowsOf(db.rows, o)))
  {
    if p == o {
      assert AlwaysOk(c, s.now, o, ViewOf(s, o));
      RowsStayTied(kind, o, ViewOf(s, o), s.db, stage, result);
    } else {
      ServeOthers(kind, p, s.orders[p], s.db, PayOf(s.pays, p), stage, result, o);
    }
  }

  lemma FlowCallKeepsShelved(c: Config, s: Sys, r: nat, result: P.GatewayResult, o: OrderId)
    requires ReserveBound(c) <= c.window && Always(c, s) && Shelved(c, s, o)
    requires InFlow(s, r) && Waiting(s.requests[r].pc) && !Served(s.requests[r].pc.call.stage)
    ensures InStock(HoldOf(I.RowsOf(NextServeFlow(s, r, result).db.rows, o)))
  {
    var pc := s.requests[r].pc;
    NoReserveLeft(c, s, o);
    assert RequestTied(s, r);
    ServeKeepsShelved(c, s, pc.order, KindOf(pc), pc.call.stage, result, o);
  }

  lemma LandKeepsShelved(c: Config, s: Sys, p: OrderId, kind: Kind, result: P.GatewayResult, o: OrderId)
    requires ReserveBound(c) <= c.window && Always(c, s) && Shelved(c, s, o)
    requires p < |s.orders| && Late(s.orders[p], kind).Some?
    ensures InStock(HoldOf(I.RowsOf(NextLand(s, p, kind, result).db.rows, o)))
  {
    NoReserveLeft(c, s, o);
    ServeKeepsShelved(c, s, p, kind, Late(s.orders[p], kind).value.stage, result, o);
  }

  lemma ReleaseKeepsShelved(c: Config, s: Sys, p: OrderId, o: OrderId)
    requires Always(c, s) && Shelved(c, s, o) && p < |s.orders|
    ensures InStock(HoldOf(I.RowsOf(ReleaseAt(s, p).db.rows, o)))
  {
    ServeKeepsShelved(c, s, p, ToRelease, Sent, P.Declined(""), o);
  }

  predicate ServesStock(l: Label) {
    l.ServeFlow? || l.Land? || l.LandRelease? || l.ServeCancel? || l.ServeExpiry? || l.OperatorRelease?
  }

  lemma OthersKeepRows(c: Config, s: Sys, l: Label)
    requires Enabled(c, s, l) && !ServesStock(l)
    ensures Next(c, s, l).db.rows == s.db.rows
  {
  }

  lemma ServingKeepsShelved(c: Config, s: Sys, l: Label, o: OrderId)
    requires ReserveBound(c) <= c.window && Always(c, s) && Shelved(c, s, o) && Enabled(c, s, l) && ServesStock(l)
    ensures InStock(HoldOf(I.RowsOf(Next(c, s, l).db.rows, o)))
  {
    match l
    case ServeFlow(r, result) => FlowCallKeepsShelved(c, s, r, result, o);
    case Land(p, kind, result) => LandKeepsShelved(c, s, p, kind, result, o);
    case LandRelease(p) => ReleaseKeepsShelved(c, s, p, o);
    case OperatorRelease(p) => ReleaseKeepsShelved(c, s, p, o);
    case ServeCancel(k) => ReleaseKeepsShelved(c, s, s.cancels[k].order, o);
    case ServeExpiry(e) => ReleaseKeepsShelved(c, s, s.expiries[e].pc.order, o);
  }

  lemma StepKeepsShelved(c: Config, s: Sys, l: Label, o: OrderId)
    requires ReserveBound(c) <= c.window && Always(c, s) && Shelved(c, s, o) && Enabled(c, s, l)
    ensures Shelved(c, Next(c, s, l), o)
  {
    StepKeepsAges(c, s, l);
    if ServesStock(l) { ServingKeepsShelved(c, s, l, o); } else { OthersKeepRows(c, s, l); }
  }

  ghost predicate AcceptedIsShelved(c: Config, s: Sys, e: nat)
    requires e < |s.expiries|
  {
    s.expiries[e].pc.Holding? && s.expiries[e].pc.stage.Answered? ==> Shelved(c, s, s.expiries[e].pc.order)
  }

  /** What an expiry run was told came back is back, and so is what its orders say. */
  ghost predicate SaysTrue(c: Config, s: Sys) {
    && ReserveBound(c) <= c.window && Always(c, s) && Punctual(c, s)
    && (forall e :: 0 <= e < |s.expiries| ==> AcceptedIsShelved(c, s, e))
    && (forall o :: 0 <= o < |s.orders| && PlainlyExpired(s.orders[o]) ==> Shelved(c, s, o))
  }

  lemma ServeExpiryShelves(c: Config, s: Sys, e: nat)
    requires Always(c, s) && Punctual(c, s) && ExpiryHolds(s, e)
    ensures Shelved(c, NextServeExpiry(s, e), s.expiries[e].pc.order)
  {
    var o := s.expiries[e].pc.order;
    assert ExpiryLate(c, s, e) && AlwaysOk(c, s.now, o, ViewOf(s, o));
    RowsStayTied(ToRelease, o, ViewOf(s, o), s.db, Sent, P.Declined(""));
  }

  lemma HeldRunAccepts(c: Config, s: Sys, l: Label, e: nat)
    requires Enabled(c, s, l) && (l.ServeExpiry? || l.HearExpiry? || l.FaultExpiry? || l.AbortExpiry?)
    requires e < |Next(c, s, l).expiries|
    requires var x := Next(c, s, l).expiries[e]; x.pc.Holding? && x.pc.stage.Answered?
    ensures l == ServeExpiry(e) || (e < |s.expiries| && s.expiries[e].pc == Next(c, s, l).expiries[e].pc)
  {
  }

  lemma TakenIsNotAccepted(s: Sys, k: nat, e: nat)
    requires HasNext(s, k) && e < |s.expiries|
    ensures var pc := NextTake(s, k).expiries[e].pc; pc.Holding? && pc.stage.Answered? ==> pc == s.expiries[e].pc
  {
  }

  /** A run holds an order with an accepted release only if it did before, or has just been told. */
  lemma AcceptedBefore(c: Config, s: Sys, l: Label, e: nat)
    requires Enabled(c, s, l) && e < |Next(c, s, l).expiries|
    requires var x := Next(c, s, l).expiries[e]; x.pc.Holding? && x.pc.stage.Answered?
    ensures l == ServeExpiry(e) || (e < |s.expiries| && s.expiries[e].pc == Next(c, s, l).expiries[e].pc)
  {
    if !ExpiryLabel(l) {
      OthersLeaveExpiries(c, s, l);
    } else if l.TakeNext? {
      TakenIsNotAccepted(s, l.e, e);
    } else if !l.StartExpiry? {
      HeldRunAccepts(c, s, l, e);
    }
  }

  lemma AcceptedStaysShelved(c: Config, s: Sys, l: Label, e: nat)
    requires SaysTrue(c, s) && Enabled(c, s, l) && e < |Next(c, s, l).expiries|
    ensures AcceptedIsShelved(c, Next(c, s, l), e)
  {
    var x := Next(c, s, l).expiries[e];
    if x.pc.Holding? && x.pc.stage.Answered? {
      AcceptedBefore(c, s, l, e);
      if l == ServeExpiry(e) {
        ServeExpiryShelves(c, s, e);
      } else {
        assert AcceptedIsShelved(c, s, e);
        StepKeepsShelved(c, s, l, x.pc.order);
      }
    }
  }

  lemma FlowSaysNothing(c: Config, s: Sys, r: nat, ev: FlowEvent, o: OrderId)
    requires CanFlow(c, s, r, ev) && o < |s.orders| && PlainlyExpired(NextFlowStep(c, s, r, ev).orders[o])
    ensures PlainlyExpired(s.orders[o])
  {
  }

  lemma FaultSaysNothing(c: Config, s: Sys, e: nat, o: OrderId)
    requires ExpiryHolds(s, e) && o < |s.orders| && PlainlyExpired(NextFaultExpiry(c, s, e).orders[o])
    ensures PlainlyExpired(s.orders[o])
  {
  }

  /** An order is newly plainly expired only when a run that was told its stock is back says so. */
  lemma NewlyExpired(c: Config, s: Sys, l: Label, o: OrderId)
    requires Enabled(c, s, l) && o < |s.orders| && o < |Next(c, s, l).orders|
    requires PlainlyExpired(Next(c, s, l).orders[o])
    ensures PlainlyExpired(s.orders[o]) || (l.HearExpiry? && s.expiries[l.e].pc.order == o)
  {
    if WritesRows(l) {
      match l
      case FlowStep(r, ev) => FlowSaysNothing(c, s, r, ev, o);
      case FaultExpiry(e) => FaultSaysNothing(c, s, e, o);
      case _ =>
    } else {
      OthersKeepBooks(c, s, l);
      assert SameBooks(s.orders[o], Next(c, s, l).orders[o]);
    }
  }

  lemma ExpiredStaysShelved(c: Config, s: Sys, l: Label, o: OrderId)
    requires SaysTrue(c, s) && Enabled(c, s, l) && o < |s.orders| && o < |Next(c, s, l).orders|
    requires PlainlyExpired(Next(c, s, l).orders[o])
    ensures Shelved(c, Next(c, s, l), o)
  {
    NewlyExpired(c, s, l, o);
    if !PlainlyExpired(s.orders[o]) { assert AcceptedIsShelved(c, s, l.e); }
    StepKeepsShelved(c, s, l, o);
  }

  lemma StepSaysTrue(c: Config, s: Sys, l: Label)
    requires SaysTrue(c, s) && Enabled(c, s, l)
    ensures SaysTrue(c, Next(c, s, l))
  {
    var t := Next(c, s, l);
    StepAlways(c, s, l);
    StepIsPunctual(c, s, l);
    forall e | 0 <= e < |t.expiries| ensures AcceptedIsShelved(c, t, e) { AcceptedStaysShelved(c, s, l, e); }
    NewOrdersArePlaced(c, s, l);
    forall o | 0 <= o < |t.orders| && PlainlyExpired(t.orders[o]) ensures Shelved(c, t, o) {
      assert o < |s.orders|;
      ExpiredStaysShelved(c, s, l, o);
    }
  }

  lemma {:induction false} RunSaysTrue(c: Config, s: Sys, ls: seq<Label>)
    requires SaysTrue(c, s) && CanRun(c, s, ls)
    ensures SaysTrue(c, After(c, s, ls))
    decreases |ls|
  {
    if ls != [] {
      StepSaysTrue(c, s, ls[0]);
      RunSaysTrue(c, Next(c, s, ls[0]), ls[1..]);
    }
  }

  // ------------------------------------------------------------------ a reserve that lands too late

  function LateOrder(c: Config): (ord: Order) {
    First().(lateReserve := Some(Call(c.local + c.inventoryTimeout, Sent)))
  }

  function AtBound(c: Config, ord: Order, expiries: seq<Expiry>): (s: Sys) {
    At(ReserveBound(c), ord, Rejected, 1, [], map[], expiries)
  }

  lemma GivenUp(c: Config)
    ensures Reachable(c, At(c.local + c.inventoryTimeout, LateOrder(c), Rejected, 1, [], map[], []))
  {
    Placing(c);
    var due := c.local + c.inventoryTimeout;
    var sent := At(0, First(), Reserving(0, Call(due, Sent)), 1, [], map[], []);
    Reach(c, sent, Tick(due), sent.(now := due));
    Reach(c, sent.(now := due), FlowStep(0, GiveUp), At(due, LateOrder(c), Rejected, 1, [], map[], []));
  }

  lemma StillOut(c: Config)
    ensures Reachable(c, AtBound(c, LateOrder(c), []))
  {
    GivenUp(c);
    var given := At(c.local + c.inventoryTimeout, LateOrder(c), Rejected, 1, [], map[], []);
    Reach(c, given, Tick(c.landing), AtBound(c, LateOrder(c), []));
  }

  function Freed(c: Config): (s: Sys) {
    AtBound(c, LateOrder(c).(lock := Some(0), releaseSent := true),
            [Expiry(ReserveBound(c), [], Holding(0, Answered(true)))])
  }

  function Held(c: Config): (s: Sys) {
    AtBound(c, LateOrder(c).(lock := Some(0), releaseSent := true), [Expiry(ReserveBound(c), [], Holding(0, Sent))])
  }

  lemma ExpiryTakes(c: Config)
    requires c.window < ReserveBound(c)
    ensures Reachable(c, Held(c))
  {
    StillOut(c);
    var started := AtBound(c, LateOrder(c), [Expiry(ReserveBound(c), [0], Between)]);
    Reach(c, AtBound(c, LateOrder(c), []), StartExpiry([0]), started);
    assert [0][1..] == [];
    Reach(c, started, TakeNext(0), Held(c));
  }

  lemma ExpiryComesFirst(c: Config)
    requires c.window < ReserveBound(c)
    ensures Reachable(c, Freed(c))
  {
    ExpiryTakes(c);
    assert I.Release(I.Db(map[0 := 1], []), 0).db == I.Db(map[0 := 1], []);
    Reach(c, Held(c), ServeExpiry(0), Freed(c));
  }

  function Told(c: Config): (s: Sys) {
    AtBound(c, Expire(LateOrder(c).(releaseSent := true), NotCompleted), [Expiry(ReserveBound(c), [], Between)])
  }

  /** The order is expired with its stock accounted for, and then its reserve takes the stock. */
  function Stranded(c: Config): (s: Sys) {
    At(ReserveBound(c), Expire(First().(releaseSent := true), NotCompleted), Rejected, 0, OneRow(I.Active), map[],
       [Expiry(ReserveBound(c), [], Between)])
  }

  lemma ExpiryIsTold(c: Config)
    requires c.window < ReserveBound(c)
    ensures Reachable(c, Told(c))
  {
    ExpiryComesFirst(c);
    Reach(c, Freed(c), HearExpiry(0), Told(c));
  }

  lemma ReserveLandsLast(c: Config)
    requires c.window < ReserveBound(c)
    ensures Reachable(c, Stranded(c))
  {
    ExpiryIsTold(c);
    assert I.InSkuOrder(ONE) == ONE && I.Qty(ONE, 0) == 1;
    assert I.Unknown(map[0 := 1], ONE) == {};
    var taken := I.Reserve(Told(c).db, 0, ONE);
    assert taken.db.stock == map[0 := 0] && taken.db.rows == OneRow(I.Active) && taken.result.Ok?;
    assert NextLand(Told(c), 0, ToReserve, P.Declined("")) == Stranded(c);
    Reach(c, Told(c), Land(0, ToReserve, P.Declined("")), Stranded(c));
  }

  ghost predicate SaysTooMuch(s: Sys, o: OrderId) {
    o < |s.orders| && PlainlyExpired(s.orders[o]) && Live(I.RowsOf(s.db.rows, o))
  }

  lemma SaysNoMore(c: Config, s: Sys, o: OrderId)
    requires ReserveBound(c) <= c.window && Reachable(c, s)
    ensures !SaysTooMuch(s, o)
  {
    var ls :| CanRun(c, EMPTY, ls) && After(c, EMPTY, ls) == s;
    RunSaysTrue(c, EMPTY, ls);
    if o < |s.orders| && PlainlyExpired(s.orders[o]) { assert Shelved(c, s, o); }
  }

  /**
    An order can end up expired, said to have given its stock back, and holding it all the same,
    exactly when the window is shorter than a reserve and the delay with which it may land.
  */
  lemma StrandedUnsaidIff(c: Config)
    ensures (exists s, o: OrderId :: Reachable(c, s) && SaysTooMuch(s, o))
      <==> c.window < ReserveBound(c)
  {
    if ReserveBound(c) <= c.window {
      forall s, o: OrderId | Reachable(c, s) ensures !SaysTooMuch(s, o) { SaysNoMore(c, s, o); }
    } else {
      ReserveLandsLast(c);
      var s := Stranded(c);
      assert I.RowsOf(s.db.rows, 0) == OneRow(I.Active);
      assert SaysTooMuch(s, 0);
    }
  }
}
