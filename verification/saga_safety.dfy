/** The invariant holds in every reachable state of the saga. */
module SagaSafety {
  import opened Wrappers
  import opened OrderState
  import opened Saga
  import opened SagaInvariant
  import opened SagaSteps
  import I = Inventory
  import L = InventoryLaws
  import P = Payments

  // ------------------------------------------------------------------ from one order to the whole system

  lemma Lift(c: Config, s: Sys, t: Sys, o: OrderId)
    requires Inv(c, s) && Touches(s, t, o) && StockOk(t)
    requires OrderOk(c, t.now, o, ViewOf(t, o)) && Respects(c, s.now, ViewOf(s, o), ViewOf(t, o))
    requires forall r :: 0 <= r < |s.requests| ==> t.requests[r] == s.requests[r] || RequestOk(t, r)
    requires (Yields(ViewOf(s, o), ViewOf(t, o)) && t.cancels == s.cancels && t.expiries == s.expiries)
      || (CancelsSerial(t)
          && (forall k :: 0 <= k < |t.cancels| ==> CancelOk(t, k))
          && (forall e :: 0 <= e < |t.expiries| ==> ExpiryOk(c, t, e)))
    ensures Inv(c, t)
  {
    OrdersStay(c, s, t, o);
    forall r | 0 <= r < |t.requests| ensures RequestOk(t, r) {
      if t.requests[r] == s.requests[r] { RequestStays(c, s, t, o, r); }
    }
    if Yields(ViewOf(s, o), ViewOf(t, o)) && t.cancels == s.cancels && t.expiries == s.expiries {
      forall k | 0 <= k < |t.cancels| ensures CancelOk(t, k) { CancelStays(c, s, t, o, k); }
      forall e | 0 <= e < |t.expiries| ensures ExpiryOk(c, t, e) { ExpiryStays(c, s, t, o, e); }
    }
  }

  /** A request's own steps are invisible to every order but its own. */
  lemma FlowsElsewhere(s: Sys, t: Sys, o: OrderId, r: nat, p: OrderId)
    requires r < |s.requests| == |t.requests|
    requires forall i :: 0 <= i < |s.requests| && i != r ==> t.requests[i] == s.requests[i]
    requires Running(s.requests[r].pc) ==> s.requests[r].pc.order == o
    requires Running(t.requests[r].pc) ==> t.requests[r].pc.order == o
    requires p < |s.orders| && p < |t.orders| && p != o && t.orders[p] == s.orders[p]
    ensures FlowOf(t, p) == FlowOf(s, p)
  {
  }

  /** The request that runs an order's create flow, and the order it runs it for. */
  predicate OwnFlow(s: Sys, r: nat) {
    InFlow(s, r) && s.orders[s.requests[r].pc.order].creator == r
  }

  lemma FlowStepView(c: Config, s: Sys, r: nat, ev: FlowEvent)
    requires OwnFlow(s, r) && CanFlow(c, s, r, ev)
    ensures var t, o := NextFlowStep(c, s, r, ev), s.requests[r].pc.order;
      var (ord, pc) := Flow(c, s.now, s.orders[o], s.requests[r].pc, ev).value;
      && FlowOf(s, o) == s.requests[r].pc
      && (ord.creator == r && (Running(pc) ==> pc.order == o) ==>
            Touches(s, t, o) && ViewOf(t, o) == Afterwards(ViewOf(s, o), ord, pc))
  {
    var t, o := NextFlowStep(c, s, r, ev), s.requests[r].pc.order;
    var (ord, pc) := Flow(c, s.now, s.orders[o], s.requests[r].pc, ev).value;
    if ord.creator == r && (Running(pc) ==> pc.order == o) {
      forall p | 0 <= p < |s.orders| && p != o ensures ViewOf(t, p) == ViewOf(s, p) {
        FlowsElsewhere(s, t, o, r, p);
      }
    }
  }

  lemma FlowEventKeeps(c: Config, now: Time, o: OrderId, v: View, ev: FlowEvent)
    requires OrderOk(c, now, o, v) && Running(v.pc) && Flow(c, now, v.ord, v.pc, ev).Some?
    ensures var (ord, pc) := Flow(c, now, v.ord, v.pc, ev).value;
      var w := Afterwards(v, ord, pc);
      && OrderOk(c, now, o, w) && Respects(c, now, v, w) && Yields(v, w)
      && (pc.Returned? ==> pc.order == o && !Unfinished(ord.row.status))
  {
    match ev
    case Hear => HearKeeps(c, now, o, v);
    case GiveUp => GiveUpKeeps(c, now, o, v);
    case WriteStatus => WriteKeeps(c, now, o, v);
    case Die => DieKeeps(c, now, o, v);
  }

  lemma FlowRequestOk(c: Config, s: Sys, r: nat, ev: FlowEvent)
    requires OwnFlow(s, r) && RequestOk(s, r) && CanFlow(c, s, r, ev)
    requires SameOrder(s.orders[s.requests[r].pc.order], s.requests[r])
    requires var o := s.requests[r].pc.order;
      var (ord, pc) := Flow(c, s.now, s.orders[o], s.requests[r].pc, ev).value;
      && Respects(c, s.now, ViewOf(s, o), Afterwards(ViewOf(s, o), ord, pc))
      && (Running(pc) ==> pc.order == o)
      && (pc.Returned? ==> pc.order == o && !Unfinished(ord.row.status))
    ensures RequestOk(NextFlowStep(c, s, r, ev), r)
  {
  }

  lemma FlowStepEffect(c: Config, s: Sys, r: nat, ev: FlowEvent)
    requires Inv(c, s) && OwnFlow(s, r) && CanFlow(c, s, r, ev)
    ensures var t, o := NextFlowStep(c, s, r, ev), s.requests[r].pc.order;
      && Touches(s, t, o) && OrderOk(c, s.now, o, ViewOf(t, o))
      && Respects(c, s.now, ViewOf(s, o), ViewOf(t, o)) && Yields(ViewOf(s, o), ViewOf(t, o))
      && RequestOk(t, r)
  {
    var o := s.requests[r].pc.order;
    FlowStepView(c, s, r, ev);
    FlowEventKeeps(c, s.now, o, ViewOf(s, o), ev);
    FlowRequestOk(c, s, r, ev);
  }

  /** A step of one create flow: no other process moves. */
  lemma LiftFlow(c: Config, s: Sys, t: Sys, r: nat)
    requires Inv(c, s) && InFlow(s, r) && Touches(s, t, s.requests[r].pc.order) && StockOk(t)
    requires forall i :: 0 <= i < |s.requests| && i != r ==> t.requests[i] == s.requests[i]
    requires t.cancels == s.cancels && t.expiries == s.expiries && RequestOk(t, r)
    requires var o := s.requests[r].pc.order; var v, w := ViewOf(s, o), ViewOf(t, o);
      OrderOk(c, s.now, o, w) && Respects(c, s.now, v, w) && Yields(v, w)
    ensures Inv(c, t)
  {
    Lift(c, s, t, s.requests[r].pc.order);
  }

  lemma InvOwnFlow(c: Config, s: Sys, r: nat)
    requires Inv(c, s) && InFlow(s, r)
    ensures OwnFlow(s, r) && RequestOk(s, r)
    ensures OrderOk(c, s.now, s.requests[r].pc.order, ViewOf(s, s.requests[r].pc.order))
  {
    assert RequestOk(s, r);
  }

  lemma FlowStepKeeps(c: Config, s: Sys, r: nat, ev: FlowEvent)
    requires Inv(c, s) && CanFlow(c, s, r, ev)
    ensures Inv(c, NextFlowStep(c, s, r, ev))
  {
    InvOwnFlow(c, s, r);
    FlowStepEffect(c, s, r, ev);
    LiftFlow(c, s, NextFlowStep(c, s, r, ev), r);
  }

  lemma PayElsewhere(pays: map<OrderId, P.Payment>, o: OrderId, put: Option<P.Payment>)
    ensures forall p :: p != o ==> PayOf(PutPay(pays, o, put), p) == PayOf(pays, p)
    ensures PayOf(PutPay(pays, o, put), o) == PaidInto(PayOf(pays, o), put)
    ensures forall p :: p in PutPay(pays, o, put) ==> p in pays || p == o
  {
  }

  /** What a service commit leaves alone: other orders' rows and payments, and the stock laws. */
  lemma ServingElsewhere(s: Sys, t: Sys, o: OrderId, kind: Kind, stage: Stage, result: P.GatewayResult)
    requires StockOk(s) && o < |s.orders| && |t.orders| == |s.orders| && t.supply == s.supply
    requires var sv := Serve(kind, o, s.orders[o], s.db, PayOf(s.pays, o), stage, result);
      t.db == sv.db && t.pays == PutPay(s.pays, o, sv.pay)
    ensures forall p :: p != o ==>
      I.RowsOf(t.db.rows, p) == I.RowsOf(s.db.rows, p) && PayOf(t.pays, p) == PayOf(s.pays, p)
    ensures StockOk(t)
  {
    var sv := Serve(kind, o, s.orders[o], s.db, PayOf(s.pays, o), stage, result);
    PayElsewhere(s.pays, o, sv.pay);
    forall p | p != o ensures I.RowsOf(t.db.rows, p) == I.RowsOf(s.db.rows, p) {
      ServeOthers(kind, o, s.orders[o], s.db, PayOf(s.pays, o), stage, result, p);
    }
    ServeStock(kind, o, s.orders[o], s.db, PayOf(s.pays, o), stage, result, s.supply, |s.orders|);
  }

  lemma ServeFlowView(s: Sys, r: nat, result: P.GatewayResult)
    requires StockOk(s) && OwnFlow(s, r) && Waiting(s.requests[r].pc)
    ensures var t, pc := NextServeFlow(s, r, result), s.requests[r].pc;
      var v := ViewOf(s, pc.order);
      var sv := Serve(KindOf(pc), pc.order, v.ord, s.db, v.pay, pc.call.stage, result);
      && v.pc == pc && Touches(s, t, pc.order) && StockOk(t)
      && ViewOf(t, pc.order) == FlowServed(v, sv, pc.order)
  {
    var t, pc := NextServeFlow(s, r, result), s.requests[r].pc;
    var o := pc.order;
    ServingElsewhere(s, t, o, KindOf(pc), pc.call.stage, result);
    PayElsewhere(s.pays, o, Serve(KindOf(pc), o, s.orders[o], s.db, PayOf(s.pays, o), pc.call.stage, result).pay);
    forall p | 0 <= p < |s.orders| && p != o ensures ViewOf(t, p) == ViewOf(s, p) {
      FlowsElsewhere(s, t, o, r, p);
    }
  }

  lemma ServeCallKeeps(c: Config, now: Time, o: OrderId, v: View, db: I.Db, result: P.GatewayResult)
    requires Separated(c) && OrderOk(c, now, o, v) && v.rows == I.RowsOf(db.rows, o)
    requires Waiting(v.pc) && !Served(v.pc.call.stage)
    ensures var w := FlowServed(v, Serve(KindOf(v.pc), o, v.ord, db, v.pay, v.pc.call.stage, result), o);
      OrderOk(c, now, o, w) && Respects(c, now, v, w) && Yields(v, w)
  {
    match v.pc
    case Reserving(_, _) => ServeReserveCall(c, now, o, v, db, result);
    case Charging(_, _) => ServeChargeCall(c, now, o, v, db, result);
    case Committing(_, _) => ServeCommitCall(c, now, o, v, db, result);
    case Releasing(_, _, _) => ServeReleaseCall(c, now, o, v, db, result);
  }

  lemma ServedRequestOk(s: Sys, r: nat, result: P.GatewayResult)
    requires OwnFlow(s, r) && RequestOk(s, r) && Waiting(s.requests[r].pc)
    ensures RequestOk(NextServeFlow(s, r, result), r)
  {
  }

  lemma ServeFlowEffect(c: Config, s: Sys, r: nat, result: P.GatewayResult)
    requires Separated(c) && StockOk(s) && OwnFlow(s, r)
    requires OrderOk(c, s.now, s.requests[r].pc.order, ViewOf(s, s.requests[r].pc.order))
    requires Waiting(s.requests[r].pc) && !Served(s.requests[r].pc.call.stage)
    ensures var t, o := NextServeFlow(s, r, result), s.requests[r].pc.order;
      && Touches(s, t, o) && StockOk(t) && OrderOk(c, s.now, o, ViewOf(t, o))
      && Respects(c, s.now, ViewOf(s, o), ViewOf(t, o)) && Yields(ViewOf(s, o), ViewOf(t, o))
  {
    var o := s.requests[r].pc.order;
    ServeFlowView(s, r, result);
    ServeCallKeeps(c, s.now, o, ViewOf(s, o), s.db, result);
  }

  lemma ServeFlowKeeps(c: Config, s: Sys, r: nat, result: P.GatewayResult)
    requires Separated(c) && Inv(c, s)
    requires InFlow(s, r) && Waiting(s.requests[r].pc) && !Served(s.requests[r].pc.call.stage)
    ensures Inv(c, NextServeFlow(s, r, result))
  {
    InvOwnFlow(c, s, r);
    ServeFlowEffect(c, s, r, result);
    ServedRequestOk(s, r, result);
    LiftFlow(c, s, NextServeFlow(s, r, result), r);
  }

  lemma LandView(s: Sys, o: OrderId, kind: Kind, result: P.GatewayResult)
    requires StockOk(s) && o < |s.orders| && Late(s.orders[o], kind).Some?
    ensures var t, v := NextLand(s, o, kind, result), ViewOf(s, o);
      var sv := Serve(kind, o, v.ord, s.db, v.pay, Late(v.ord, kind).value.stage, result);
      Touches(s, t, o) && StockOk(t) && ViewOf(t, o) == LateServed(v, kind, sv, o)
  {
    var t, v := NextLand(s, o, kind, result), ViewOf(s, o);
    var stage := Late(v.ord, kind).value.stage;
    ServingElsewhere(s, t, o, kind, stage, result);
    PayElsewhere(s.pays, o, Serve(kind, o, v.ord, s.db, v.pay, stage, result).pay);
  }

  lemma LandCallKeeps(c: Config, now: Time, o: OrderId, v: View, kind: Kind, db: I.Db, result: P.GatewayResult)
    requires Separated(c) && OrderOk(c, now, o, v) && v.rows == I.RowsOf(db.rows, o) && Late(v.ord, kind).Some?
    ensures var stage := Late(v.ord, kind).value.stage;
      var w := LateServed(v, kind, Serve(kind, o, v.ord, db, v.pay, stage, result), o);
      OrderOk(c, now, o, w) && Respects(c, now, v, w) && Yields(v, w)
  {
    match kind
    case ToReserve => LandReserveKeeps(c, now, o, v, db, result);
    case ToCharge => LandChargeKeeps(c, now, o, v, db, result);
    case ToCommit => LandCommitKeeps(c, now, o, v, db, result);
  }

  lemma LandKeeps(c: Config, s: Sys, o: OrderId, kind: Kind, result: P.GatewayResult)
    requires Separated(c) && Inv(c, s) && o < |s.orders| && Late(s.orders[o], kind).Some?
    ensures Inv(c, NextLand(s, o, kind, result))
  {
    LandView(s, o, kind, result);
    LandCallKeeps(c, s.now, o, ViewOf(s, o), kind, s.db, result);
    Lift(c, s, NextLand(s, o, kind, result), o);
  }

  lemma OrderView(s: Sys, o: OrderId, ord: Order)
    requires o < |s.orders| && ord.creator == s.orders[o].creator
    ensures var t := WithOrder(s, o, ord); Touches(s, t, o) && ViewOf(t, o) == ViewOf(s, o).(ord := ord)
  {
  }

  /** A step that only writes columns of one order, and no process notices. */
  lemma LiftOrder(c: Config, s: Sys, o: OrderId, ord: Order)
    requires Inv(c, s) && o < |s.orders|
    requires var v := ViewOf(s, o); var w := v.(ord := ord);
      OrderOk(c, s.now, o, w) && Respects(c, s.now, v, w) && Yields(v, w)
    ensures Inv(c, WithOrder(s, o, ord))
  {
    OrderView(s, o, ord);
    Lift(c, s, WithOrder(s, o, ord), o);
  }

  lemma DropStepKeeps(c: Config, s: Sys, o: OrderId, kind: Kind)
    requires Inv(c, s) && o < |s.orders| && Late(s.orders[o], kind).Some?
    ensures Inv(c, NextDrop(s, o, kind))
  {
    DropKeeps(c, s.now, o, ViewOf(s, o), kind);
    LiftOrder(c, s, o, SetLate(s.orders[o], kind, None));
  }

  /** A release served at inventory leaves the stock laws and every other order's rows. */
  lemma ReleaseElsewhere(s: Sys, o: OrderId)
    requires StockOk(s) && o < |s.orders|
    ensures forall p :: p != o ==> I.RowsOf(ReleaseAt(s, o).db.rows, p) == I.RowsOf(s.db.rows, p)
    ensures StockOk(ReleaseAt(s, o))
  {
    var result := P.Declined("");
    forall p | p != o ensures I.RowsOf(ReleaseAt(s, o).db.rows, p) == I.RowsOf(s.db.rows, p) {
      ServeOthers(ToRelease, o, s.orders[o], s.db, None, Sent, result, p);
    }
    ServeStock(ToRelease, o, s.orders[o], s.db, None, Sent, result, s.supply, |s.orders|);
  }

  lemma ReleaseStepKeeps(c: Config, s: Sys, o: OrderId)
    requires Inv(c, s) && o < |s.orders|
    requires s.orders[o].releaseSent && (s.orders[o].lateRelease || !Unfinished(s.orders[o].row.status))
    ensures Inv(c, ReleaseAt(s, o))
  {
    LandReleaseKeeps(c, s.now, o, ViewOf(s, o), s.db);
    ReleaseView(s, ReleaseAt(s, o), o);
    Lift(c, s, ReleaseAt(s, o), o);
  }

  lemma LandReleaseStepKeeps(c: Config, s: Sys, o: OrderId)
    requires Inv(c, s) && o < |s.orders| && s.orders[o].lateRelease
    ensures Inv(c, ReleaseAt(s, o))
  {
    assert OrderOk(c, s.now, o, ViewOf(s, o));
    ReleaseStepKeeps(c, s, o);
  }

  lemma OperatorReleaseKeeps(c: Config, s: Sys, o: OrderId)
    requires Inv(c, s) && o < |s.orders| && !Unfinished(s.orders[o].row.status)
    ensures Inv(c, NextOperatorRelease(s, o))
  {
    var m := WithOrder(s, o, s.orders[o].(releaseSent := true));
    MarkReleaseKeeps(c, s.now, o, ViewOf(s, o));
    LiftOrder(c, s, o, m.orders[o]);
    assert !Unfinished(m.orders[o].row.status);
    ReleaseStepKeeps(c, m, o);
  }

  // ------------------------------------------------------------------ steps that touch no order

  lemma TickView(c: Config, now: Time, later: Time, o: OrderId, v: View)
    requires OrderOk(c, now, o, v) && now <= later
    requires Running(v.pc) ==> later <= Deadline(v.pc)
    requires forall k :: Late(v.ord, k).Some? ==> later <= Late(v.ord, k).value.due + c.landing
    ensures OrderOk(c, later, o, v)
  {
    assert Late(v.ord, ToReserve) == v.ord.lateReserve;
    assert Late(v.ord, ToCharge) == v.ord.lateCharge;
    assert Late(v.ord, ToCommit) == v.ord.lateCommit;
  }

  lemma TickKeeps(c: Config, s: Sys, d: Time)
    requires Inv(c, s) && OnTime(c, s, s.now + d)
    ensures Inv(c, s.(now := s.now + d))
  {
    var t := s.(now := s.now + d);
    forall o | 0 <= o < |s.orders| ensures OrderOk(c, t.now, o, ViewOf(t, o)) {
      assert ViewOf(t, o) == ViewOf(s, o);
      TickView(c, s.now, t.now, o, ViewOf(s, o));
    }
    forall r | 0 <= r < |t.requests| ensures RequestOk(t, r) { assert RequestOk(s, r); }
    forall k | 0 <= k < |t.cancels| ensures CancelOk(t, k) { assert CancelOk(s, k); }
    forall e | 0 <= e < |t.expiries| ensures ExpiryOk(c, t, e) { assert ExpiryOk(c, s, e); }
    assert CancelsSerial(s);
  }

  /** Stock moved in or out by the operator: no order, row, payment or process sees it. */
  lemma SupplyKeeps(c: Config, s: Sys, op: I.Op)
    requires Inv(c, s) && (op.DoAdjust? || op.DoCreate?)
    ensures Inv(c, NextSupply(s, op))
  {
    SupplyIsStock(s, op);
    StockOnly(c, s, NextSupply(s, op));
  }

  lemma SupplyIsStock(s: Sys, op: I.Op)
    requires StockOk(s) && (op.DoAdjust? || op.DoCreate?)
    ensures var t := NextSupply(s, op);
      t == s.(db := t.db, supply := t.supply) && t.db.rows == s.db.rows && StockOk(t)
  {
    L.ApplyConserves(s.db, s.supply, op);
    L.ApplyKeepsTables(s.db, op);
  }

  lemma StockOnly(c: Config, s: Sys, t: Sys)
    requires Inv(c, s) && t == s.(db := t.db, supply := t.supply) && t.db.rows == s.db.rows && StockOk(t)
    ensures Inv(c, t)
  {
    forall o | 0 <= o < |s.orders| ensures OrderOk(c, t.now, o, ViewOf(t, o)) {
      assert ViewOf(t, o) == ViewOf(s, o);
    }
    forall r | 0 <= r < |t.requests| ensures RequestOk(t, r) { assert RequestOk(s, r); }
    forall k | 0 <= k < |t.cancels| ensures CancelOk(t, k) { assert CancelOk(s, k); }
    forall e | 0 <= e < |t.expiries| ensures ExpiryOk(c, t, e) { assert ExpiryOk(c, s, e); }
    assert CancelsSerial(s);
  }

  /** A request that has no order yet, or is answered from one, moves without touching any. */
  lemma RequestsOnly(c: Config, s: Sys, t: Sys)
    requires Inv(c, s) && t == s.(requests := t.requests) && |s.requests| <= |t.requests|
    requires forall r :: 0 <= r < |s.requests| ==>
      && t.requests[r].key == s.requests[r].key
      && t.requests[r].email == s.requests[r].email
      && t.requests[r].items == s.requests[r].items
    requires forall o :: 0 <= o < |s.orders| ==> FlowOf(t, o) == FlowOf(s, o)
    requires forall r :: 0 <= r < |t.requests| ==>
      (r < |s.requests| && t.requests[r] == s.requests[r]) || RequestOk(t, r)
    ensures Inv(c, t)
  {
    forall o | 0 <= o < |s.orders|
      ensures OrderOk(c, t.now, o, ViewOf(t, o))
      ensures t.orders[o].creator < |t.requests| && SameOrder(t.orders[o], t.requests[t.orders[o].creator])
    {
      assert ViewOf(t, o) == ViewOf(s, o);
      assert SameOrder(s.orders[o], s.requests[s.orders[o].creator]);
    }
    forall r | 0 <= r < |t.requests| ensures RequestOk(t, r) {
      if r < |s.requests| && t.requests[r] == s.requests[r] { assert RequestOk(s, r); }
    }
    forall k | 0 <= k < |t.cancels| ensures CancelOk(t, k) { assert CancelOk(s, k); }
    forall e | 0 <= e < |t.expiries| ensures ExpiryOk(c, t, e) { assert ExpiryOk(c, s, e); }
    assert CancelsSerial(s);
  }

  lemma ArriveKeeps(c: Config, s: Sys, q: Request)
    requires Inv(c, s) && ValidItems(q.items) && q.pc.Arrived?
    ensures Inv(c, s.(requests := s.requests + [q]))
  {
    var t := s.(requests := s.requests + [q]);
    assert forall o :: 0 <= o < |s.orders| ==> s.orders[o].creator < |s.requests|;
    RequestsOnly(c, s, t);
  }

  /** A request that runs no flow moves to a point where it still runs none. */
  lemma PcKeeps(c: Config, s: Sys, r: nat, pc: Pc)
    requires Inv(c, s) && r < |s.requests| && !Running(s.requests[r].pc) && !Running(pc)
    requires pc.Returned? ==>
      && pc.order < |s.orders| && SameOrder(s.orders[pc.order], s.requests[r])
      && !Unfinished(s.orders[pc.order].row.status)
    ensures Inv(c, WithPc(s, r, pc))
  {
    assert RequestOk(s, r);
    RequestsOnly(c, s, WithPc(s, r, pc));
  }

  lemma LookupKeeps(c: Config, s: Sys, r: nat, fallback: Pc)
    requires Inv(c, s) && r < |s.requests| && !Running(s.requests[r].pc)
    requires !Running(fallback) && !fallback.Returned?
    ensures Inv(c, WithPc(s, r, if HasKey(s, s.requests[r].key) then Replay(s, s.requests[r]) else fallback))
  {
    PcKeeps(c, s, r, if HasKey(s, s.requests[r].key) then Replay(s, s.requests[r]) else fallback);
  }

  // ------------------------------------------------------------------ a new order

  lemma NewOrderOk(c: Config, now: Time, o: OrderId, q: Request, total: nat, r: nat)
    requires ValidItems(q.items)
    ensures var (ord, pc) := SendReserve(c, now, NewOrder(q, total, now, r), o);
      OrderOk(c, now, o, View(ord, pc, [], None))
  {
  }

  lemma NoRowsYet(rows: seq<I.Row>, n: nat)
    requires forall x :: x in rows ==> x.order < n
    ensures I.RowsOf(rows, n) == []
  {
    L.InRowsOf(rows, n);
    if I.RowsOf(rows, n) != [] { assert I.RowsOf(rows, n)[0] in I.RowsOf(rows, n); }
  }

  lemma InsertViews(c: Config, s: Sys, r: nat, total: nat)
    requires OrdersOk(s) && StockOk(s)
    requires r < |s.requests| && !Running(s.requests[r].pc) && !HasKey(s, s.requests[r].key)
    ensures var t := NextInsert(c, s, r, total);
      && (forall p :: 0 <= p < |s.orders| ==> ViewOf(t, p) == ViewOf(s, p))
      && ViewOf(t, |s.orders|)
         == View(SendReserve(c, s.now, NewOrder(s.requests[r], total, s.now, r), |s.orders|).0,
                 SendReserve(c, s.now, NewOrder(s.requests[r], total, s.now, r), |s.orders|).1, [], None)
  {
    var t := NextInsert(c, s, r, total);
    NoRowsYet(s.db.rows, |s.orders|);
    forall p | 0 <= p < |s.orders| ensures ViewOf(t, p) == ViewOf(s, p) {
      assert t.orders[p] == s.orders[p];
    }
  }

  lemma InsertOrdersOk(c: Config, s: Sys, r: nat, total: nat)
    requires OrdersOk(s) && r < |s.requests| && !HasKey(s, s.requests[r].key)
    ensures OrdersOk(NextInsert(c, s, r, total))
  {
    var t := NextInsert(c, s, r, total);
    forall p | 0 <= p < |t.orders|
      ensures t.orders[p].creator < |t.requests| && SameOrder(t.orders[p], t.requests[t.orders[p].creator])
    {
      if p < |s.orders| { assert SameOrder(s.orders[p], s.requests[s.orders[p].creator]); }
    }
  }

  lemma InsertKeeps(c: Config, s: Sys, r: nat, total: nat)
    requires Inv(c, s) && r < |s.requests| && !Running(s.requests[r].pc) && !HasKey(s, s.requests[r].key)
    ensures Inv(c, NextInsert(c, s, r, total))
  {
    var t := NextInsert(c, s, r, total);
    InsertViews(c, s, r, total);
    InsertOrdersOk(c, s, r, total);
    assert RequestOk(s, r);
    NewOrderOk(c, s.now, |s.orders|, s.requests[r], total, r);
    forall p | 0 <= p < |t.orders| ensures OrderOk(c, t.now, p, ViewOf(t, p)) {
      if p < |s.orders| { assert ViewOf(t, p) == ViewOf(s, p); }
    }
    forall i | 0 <= i < |t.requests| ensures RequestOk(t, i) { assert RequestOk(s, i); }
    forall k | 0 <= k < |t.cancels| ensures CancelOk(t, k) { assert CancelOk(s, k); }
    forall e | 0 <= e < |t.expiries| ensures ExpiryOk(c, t, e) { assert ExpiryOk(c, s, e); }
    assert CancelsSerial(s);
  }

  // ------------------------------------------------------------------ cancellation

  /** One cancellation moves: no other cancellation, and no expiry run, is at work on its order. */
  ghost predicate CancelMoves(c: Config, s: Sys, t: Sys, k: nat) {
    && ActiveCancel(s, k) && Touches(s, t, s.cancels[k].order)
    && t.requests == s.requests && t.expiries == s.expiries
    && |t.cancels| == |s.cancels| && t.cancels[k].order == s.cancels[k].order
    && (forall j :: 0 <= j < |s.cancels| && j != k ==> t.cancels[j] == s.cancels[j])
    && (var o := s.cancels[k].order; var v, w := ViewOf(s, o), ViewOf(t, o);
        Respects(c, s.now, v, w) && (Yields(v, w) || v.ord.lock.None?))
  }

  lemma OtherCancelsStay(c: Config, s: Sys, t: Sys, k: nat)
    requires Inv(c, s) && CancelMoves(c, s, t, k) && CancelOk(t, k)
    ensures forall j :: 0 <= j < |t.cancels| ==> CancelOk(t, j)
    ensures CancelsSerial(t)
  {
    var o := s.cancels[k].order;
    assert CancelsSerial(s);
    forall j | 0 <= j < |t.cancels| ensures CancelOk(t, j) && (ActiveCancel(t, j) ==> ActiveCancel(s, j)) {
      if j != k {
        assert ActiveCancel(s, j) ==> s.cancels[j].order != o;
        CancelStays(c, s, t, o, j);
      }
    }
  }

  lemma LiftCancel(c: Config, s: Sys, t: Sys, k: nat)
    requires Inv(c, s) && CancelMoves(c, s, t, k) && CancelOk(t, k) && StockOk(t)
    requires OrderOk(c, s.now, s.cancels[k].order, ViewOf(t, s.cancels[k].order))
    ensures Inv(c, t)
  {
    var o := s.cancels[k].order;
    OtherCancelsStay(c, s, t, k);
    forall e | 0 <= e < |t.expiries| ensures ExpiryOk(c, t, e) {
      assert ExpiryOk(c, s, e);
      ExpiryStays(c, s, t, o, e);
    }
    Lift(c, s, t, o);
  }

  lemma CancelAdded(c: Config, s: Sys, o: OrderId)
    requires Inv(c, s) && o < |s.orders| && s.orders[o].row.status == CONFIRMED && s.orders[o].releaseSent
    requires forall k :: 0 <= k < |s.cancels| && ActiveCancel(s, k) ==> s.cancels[k].order != o
    ensures Inv(c, s.(cancels := s.cancels + [Cancel(o, AwaitingRelease(Sent))]))
  {
    var t := s.(cancels := s.cancels + [Cancel(o, AwaitingRelease(Sent))]);
    forall p | 0 <= p < |t.orders| ensures OrderOk(c, t.now, p, ViewOf(t, p)) {
      assert ViewOf(t, p) == ViewOf(s, p);
    }
    forall r | 0 <= r < |t.requests| ensures RequestOk(t, r) { assert RequestOk(s, r); }
    forall j | 0 <= j < |t.cancels| ensures CancelOk(t, j) { if j < |s.cancels| { assert CancelOk(s, j); } }
    forall e | 0 <= e < |t.expiries| ensures ExpiryOk(c, t, e) { assert ExpiryOk(c, s, e); }
    assert CancelsSerial(s);
    assert forall j :: 0 <= j < |s.cancels| ==> ActiveCancel(t, j) == ActiveCancel(s, j);
  }

  lemma StartCancelKeeps(c: Config, s: Sys, o: OrderId)
    requires Inv(c, s) && Cancellable(s, o)
    ensures Inv(c, NextStartCancel(s, o))
  {
    MarkReleaseKeeps(c, s.now, o, ViewOf(s, o));
    var m := WithOrder(s, o, s.orders[o].(releaseSent := true));
    LiftOrder(c, s, o, m.orders[o]);
    assert forall j :: 0 <= j < |m.cancels| ==> ActiveCancel(m, j) == ActiveCancel(s, j);
    CancelAdded(c, m, o);
  }

  lemma ReleaseView(s: Sys, t: Sys, o: OrderId)
    requires StockOk(s) && o < |s.orders| && t == ReleaseAt(s, o).(cancels := t.cancels, expiries := t.expiries)
    ensures Touches(s, t, o) && StockOk(t)
    ensures ViewOf(t, o) == ViewOf(s, o).(rows := I.RowsOf(I.Release(s.db, o).db.rows, o))
  {
    ReleaseElsewhere(s, o);
  }

  lemma OrderOnlyView(s: Sys, t: Sys, o: OrderId, ord: Order)
    requires o < |s.orders| && ord.creator == s.orders[o].creator
    requires t == WithOrder(s, o, ord).(cancels := t.cancels, expiries := t.expiries)
    ensures Touches(s, t, o) && ViewOf(t, o) == ViewOf(s, o).(ord := ord)
  {
  }

  lemma ServeCancelKeeps(c: Config, s: Sys, k: nat)
    requires Inv(c, s) && CancelHolds(s, k) && s.cancels[k].pc == AwaitingRelease(Sent)
    ensures Inv(c, NextServeCancel(s, k))
  {
    assert CancelOk(s, k);
    var t, o := NextServeCancel(s, k), s.cancels[k].order;
    ReleaseView(s, t, o);
    assert OrderOk(c, s.now, o, ViewOf(s, o));
    LandReleaseKeeps(c, s.now, o, ViewOf(s, o), s.db);
    assert CancelOk(t, k);
    LiftCancel(c, s, t, k);
  }

  lemma HearCancelKeeps(c: Config, s: Sys, k: nat)
    requires Inv(c, s) && CancelHolds(s, k) && s.cancels[k].pc.AwaitingRelease? && s.cancels[k].pc.stage.Answered?
    ensures Inv(c, NextHearCancel(s, k))
  {
    assert CancelOk(s, k);
    var t, o := NextHearCancel(s, k), s.cancels[k].order;
    OrderOnlyView(s, t, o, s.orders[o].(releaseFailed := false));
    CancelColumnsKeep(c, s.now, o, ViewOf(s, o), false, s.orders[o].lateRelease);
    assert CancelOk(t, k);
    LiftCancel(c, s, t, k);
  }

  lemma FaultCancelKeeps(c: Config, s: Sys, k: nat)
    requires Inv(c, s) && CancelHolds(s, k)
    ensures Inv(c, NextFaultCancel(s, k))
  {
    assert CancelOk(s, k);
    var t, o := NextFaultCancel(s, k), s.cancels[k].order;
    OrderOnlyView(s, t, o, t.orders[o]);
    CancelColumnsKeep(c, s.now, o, ViewOf(s, o), t.orders[o].releaseFailed, t.orders[o].lateRelease);
    assert CancelOk(t, k);
    LiftCancel(c, s, t, k);
  }

  lemma WriteCancelKeeps(c: Config, s: Sys, k: nat)
    requires Inv(c, s) && CancelHolds(s, k) && s.cancels[k].pc.StockReturned? && s.orders[s.cancels[k].order].lock.None?
    ensures Inv(c, NextWriteCancel(s, k))
  {
    assert CancelOk(s, k);
    var t, o := NextWriteCancel(s, k), s.cancels[k].order;
    OrderOnlyView(s, t, o, t.orders[o]);
    CancelKeeps(c, s.now, o, ViewOf(s, o));
    assert CancelOk(t, k);
    LiftCancel(c, s, t, k);
  }

  // ------------------------------------------------------------------ expiry

  /** One expiry run moves: it alone holds the lock on its order, which nobody can be cancelling. */
  lemma LiftExpiry(c: Config, s: Sys, t: Sys, e: nat, o: OrderId)
    requires Inv(c, s) && e < |s.expiries| && Touches(s, t, o) && StockOk(t)
    requires t.requests == s.requests && t.cancels == s.cancels
    requires |t.expiries| == |s.expiries|
    requires forall j :: 0 <= j < |s.expiries| && j != e ==> t.expiries[j] == s.expiries[j]
    requires var v, w := ViewOf(s, o), ViewOf(t, o);
      && OrderOk(c, s.now, o, w) && Respects(c, s.now, v, w)
      && Unfinished(v.ord.row.status) && (v.ord.lock.None? || v.ord.lock == Some(e))
    requires ExpiryOk(c, t, e)
    ensures Inv(c, t)
  {
    forall j | 0 <= j < |t.cancels| ensures CancelOk(t, j) {
      assert CancelOk(s, j);
      CancelStays(c, s, t, o, j);
    }
    forall j | 0 <= j < |t.expiries| ensures ExpiryOk(c, t, j) {
      if j != e {
        assert ExpiryOk(c, s, j);
        ExpiryStays(c, s, t, o, j);
      }
    }
    assert CancelsSerial(s);
    assert forall j :: 0 <= j < |s.cancels| ==> ActiveCancel(t, j) == ActiveCancel(s, j);
    Lift(c, s, t, o);
  }

  /** A run starts, or passes over an order: no order is touched. */
  lemma ExpiriesOnly(c: Config, s: Sys, t: Sys)
    requires Inv(c, s) && t == s.(expiries := t.expiries)
    requires forall e :: 0 <= e < |t.expiries| ==>
      (e < |s.expiries| && t.expiries[e] == s.expiries[e]) || ExpiryOk(c, t, e)
    ensures Inv(c, t)
  {
    forall p | 0 <= p < |t.orders| ensures OrderOk(c, t.now, p, ViewOf(t, p)) {
      assert ViewOf(t, p) == ViewOf(s, p);
    }
    forall r | 0 <= r < |t.requests| ensures RequestOk(t, r) { assert RequestOk(s, r); }
    forall k | 0 <= k < |t.cancels| ensures CancelOk(t, k) { assert CancelOk(s, k); }
    forall e | 0 <= e < |t.expiries| ensures ExpiryOk(c, t, e) {
      if e < |s.expiries| && t.expiries[e] == s.expiries[e] { assert ExpiryOk(c, s, e); }
    }
    assert CancelsSerial(s);
  }

  lemma StartExpiryKeeps(c: Config, s: Sys, todo: seq<OrderId>)
    requires Inv(c, s) && Listable(c, s, todo)
    ensures Inv(c, s.(expiries := s.expiries + [Expiry(s.now, todo, Between)]))
  {
    var t := s.(expiries := s.expiries + [Expiry(s.now, todo, Between)]);
    assert ExpiryOk(c, t, |s.expiries|);
    ExpiriesOnly(c, s, t);
  }

  predicate Takes(s: Sys, e: nat) {
    && e < |s.expiries| && s.expiries[e].todo != [] && s.expiries[e].todo[0] < |s.orders|
    && s.orders[s.expiries[e].todo[0]].lock.None?
    && Unfinished(s.orders[s.expiries[e].todo[0]].row.status)
  }

  lemma PassKeeps(c: Config, s: Sys, e: nat)
    requires Inv(c, s) && HasNext(s, e) && !Takes(s, e)
    ensures Inv(c, NextTake(s, e))
  {
    var t := NextTake(s, e);
    assert ExpiryOk(c, s, e);
    assert forall o :: o in t.expiries[e].todo ==> o in s.expiries[e].todo;
    assert ExpiryOk(c, t, e);
    ExpiriesOnly(c, s, t);
  }

  lemma TakenOk(c: Config, s: Sys, e: nat)
    requires Takes(s, e) && ExpiryOk(c, s, e)
    ensures ExpiryOk(c, NextTake(s, e), e)
  {
    var t, o := NextTake(s, e), s.expiries[e].todo[0];
    assert o in s.expiries[e].todo;
    forall p | p in t.expiries[e].todo ensures p < |t.orders| && Stale(c, t.orders[p], t.now) {
      assert p in s.expiries[e].todo;
    }
  }

  lemma TakeView(c: Config, s: Sys, e: nat)
    requires Separated(c) && Inv(c, s) && Takes(s, e)
    ensures var t, o := NextTake(s, e), s.expiries[e].todo[0];
      Touches(s, t, o) && OrderOk(c, s.now, o, ViewOf(t, o)) && Respects(c, s.now, ViewOf(s, o), ViewOf(t, o))
  {
    var t, o := NextTake(s, e), s.expiries[e].todo[0];
    assert ExpiryOk(c, s, e);
    assert o in s.expiries[e].todo;
    TakeKeeps(c, s.now, o, ViewOf(s, o), e);
    OrderOnlyView(s, t, o, s.orders[o].(lock := Some(e), releaseSent := true));
  }

  lemma TakeStepKeeps(c: Config, s: Sys, e: nat)
    requires Separated(c) && Inv(c, s) && HasNext(s, e) && Takes(s, e)
    ensures Inv(c, NextTake(s, e))
  {
    assert ExpiryOk(c, s, e);
    TakenOk(c, s, e);
    TakeView(c, s, e);
    LiftExpiry(c, s, NextTake(s, e), e, s.expiries[e].todo[0]);
  }

  lemma ServeExpiryKeeps(c: Config, s: Sys, e: nat)
    requires Separated(c) && Inv(c, s) && ExpiryHolds(s, e) && s.expiries[e].pc.stage.Sent?
    ensures Inv(c, NextServeExpiry(s, e))
  {
    var t, o := NextServeExpiry(s, e), s.expiries[e].pc.order;
    assert ExpiryOk(c, s, e);
    StaleIsQuiet(c, s.now, o, ViewOf(s, o));
    LandReleaseKeeps(c, s.now, o, ViewOf(s, o), s.db);
    ReleaseView(s, t, o);
    assert ExpiryOk(c, t, e);
    LiftExpiry(c, s, t, e, o);
  }

  lemma HearExpiryKeeps(c: Config, s: Sys, e: nat)
    requires Separated(c) && Inv(c, s) && ExpiryHolds(s, e) && s.expiries[e].pc.stage.Answered?
    ensures Inv(c, NextHearExpiry(s, e))
  {
    var t, o := NextHearExpiry(s, e), s.expiries[e].pc.order;
    assert ExpiryOk(c, s, e);
    ExpireKeeps(c, s.now, o, ViewOf(s, o));
    OrderOnlyView(s, t, o, t.orders[o]);
    assert ExpiryOk(c, t, e);
    LiftExpiry(c, s, t, e, o);
  }

  lemma FaultExpiryStepKeeps(c: Config, s: Sys, e: nat)
    requires Separated(c) && Inv(c, s) && ExpiryHolds(s, e)
    ensures Inv(c, NextFaultExpiry(c, s, e))
  {
    var t, o := NextFaultExpiry(c, s, e), s.expiries[e].pc.order;
    assert ExpiryOk(c, s, e);
    FaultExpiryKeeps(c, s.now, o, ViewOf(s, o), s.expiries[e].pc.stage,
                     !(s.orders[o].createdAt + c.releaseGiveUp > s.expiries[e].moment));
    OrderOnlyView(s, t, o, t.orders[o]);
    assert ExpiryOk(c, t, e);
    LiftExpiry(c, s, t, e, o);
  }

  lemma AbortExpiryStepKeeps(c: Config, s: Sys, e: nat)
    requires Separated(c) && Inv(c, s) && ExpiryHolds(s, e)
    ensures Inv(c, NextAbortExpiry(s, e))
  {
    var t, o := NextAbortExpiry(s, e), s.expiries[e].pc.order;
    assert ExpiryOk(c, s, e);
    AbortExpiryKeeps(c, s.now, o, ViewOf(s, o), s.expiries[e].pc.stage);
    OrderOnlyView(s, t, o, t.orders[o]);
    assert ExpiryOk(c, t, e);
    LiftExpiry(c, s, t, e, o);
  }

  // ------------------------------------------------------------------ every step, every run

  lemma StockStepKeeps(c: Config, s: Sys, l: Label)
    requires Inv(c, s) && Enabled(c, s, l) && StockLabel(l)
    ensures Inv(c, Next(c, s, l))
  {
    SupplyKeeps(c, s, if l.CreateProduct? then I.DoCreate(l.sku, l.units) else I.DoAdjust(l.sku, l.delta));
  }

  lemma RequestStepKeeps(c: Config, s: Sys, l: Label)
    requires Inv(c, s) && Enabled(c, s, l) && RequestLabel(l)
    ensures Inv(c, Next(c, s, l))
  {
    match l
    case Arrive(key, email, items) => ArriveKeeps(c, s, Request(key, email, items, Arrived));
    case Lookup(r) => LookupKeeps(c, s, r, KeyIsNew);
    case Price(r, total) => PcKeeps(c, s, r, Priced(total));
    case DieEarly(r) => PcKeeps(c, s, r, Dead);
  }

  lemma InsertStepKeeps(c: Config, s: Sys, r: nat, total: nat)
    requires Inv(c, s) && r < |s.requests| && !Running(s.requests[r].pc)
    ensures Inv(c, NextInsert(c, s, r, total))
  {
    if HasKey(s, s.requests[r].key) { LookupKeeps(c, s, r, KeyIsNew); } else { InsertKeeps(c, s, r, total); }
  }

  lemma TakeNextKeeps(c: Config, s: Sys, e: nat)
    requires Separated(c) && Inv(c, s) && HasNext(s, e)
    ensures Inv(c, NextTake(s, e))
  {
    if Takes(s, e) { TakeStepKeeps(c, s, e); } else { PassKeeps(c, s, e); }
  }

  lemma CancelStepKeeps(c: Config, s: Sys, l: Label)
    requires Inv(c, s) && Enabled(c, s, l) && CancelLabel(l)
    ensures Inv(c, Next(c, s, l))
  {
    match l
    case StartCancel(o) => StartCancelKeeps(c, s, o);
    case ServeCancel(k) => ServeCancelKeeps(c, s, k);
    case HearCancel(k) => HearCancelKeeps(c, s, k);
    case FaultCancel(k) => FaultCancelKeeps(c, s, k);
    case WriteCancel(k) => WriteCancelKeeps(c, s, k);
  }

  lemma ExpiryStepKeeps(c: Config, s: Sys, l: Label)
    requires Separated(c) && Inv(c, s) && Enabled(c, s, l) && ExpiryLabel(l)
    ensures Inv(c, Next(c, s, l))
  {
    match l
    case StartExpiry(todo) => StartExpiryKeeps(c, s, todo);
    case TakeNext(e) => TakeNextKeeps(c, s, e);
    case ServeExpiry(e) => ServeExpiryKeeps(c, s, e);
    case HearExpiry(e) => HearExpiryKeeps(c, s, e);
    case FaultExpiry(e) => FaultExpiryStepKeeps(c, s, e);
    case AbortExpiry(e) => AbortExpiryStepKeeps(c, s, e);
  }

  lemma OrderStepKeeps(c: Config, s: Sys, l: Label)
    requires Separated(c) && Inv(c, s) && Enabled(c, s, l) && OrderLabel(l)
    ensures Inv(c, Next(c, s, l))
  {
    match l
    case Insert(r) => InsertStepKeeps(c, s, r, s.requests[r].pc.total);
    case FlowStep(r, ev) => FlowStepKeeps(c, s, r, ev);
    case ServeFlow(r, result) => ServeFlowKeeps(c, s, r, result);
    case Land(o, k, result) => LandKeeps(c, s, o, k, result);
    case LandRelease(o) => LandReleaseStepKeeps(c, s, o);
    case Drop(o, k) => DropStepKeeps(c, s, o, k);
    case OperatorRelease(o) => OperatorReleaseKeeps(c, s, o);
  }

  lemma StepKeeps(c: Config, s: Sys, l: Label)
    requires Separated(c) && Inv(c, s) && Enabled(c, s, l)
    ensures Inv(c, Next(c, s, l))
  {
    if l.Tick? {
      TickKeeps(c, s, l.d);
    } else if StockLabel(l) {
      StockStepKeeps(c, s, l);
    } else if RequestLabel(l) {
      RequestStepKeeps(c, s, l);
    } else if CancelLabel(l) {
      CancelStepKeeps(c, s, l);
    } else if ExpiryLabel(l) {
      ExpiryStepKeeps(c, s, l);
    } else {
      OrderStepKeeps(c, s, l);
    }
  }

  lemma {:induction false} RunKeeps(c: Config, s: Sys, ls: seq<Label>)
    requires Separated(c) && Inv(c, s) && CanRun(c, s, ls)
    ensures Inv(c, After(c, s, ls))
    decreases |ls|
  {
    if ls != [] {
      StepKeeps(c, s, ls[0]);
      RunKeeps(c, Next(c, s, ls[0]), ls[1..]);
    }
  }
}
