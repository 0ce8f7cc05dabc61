/** What the invariant gives over whole runs: the promises of the order flow, start to finish. */
module SagaTheorems {
  import opened Wrappers
  import opened OrderState
  import opened Saga
  import opened SagaInvariant
  import opened SagaSteps
  import opened SagaSafety
  import opened SagaAlways
  import opened SagaLawful
  import I = Inventory
  import L = InventoryLaws
  import P = Payments

  lemma ReachableInv(c: Config, s: Sys)
    requires Separated(c) && Reachable(c, s)
    ensures Inv(c, s)
  {
    var ls :| CanRun(c, EMPTY, ls) && After(c, EMPTY, ls) == s;
    RunKeeps(c, EMPTY, ls);
  }

  // ------------------------------------------------------------------ one order, one charge

  /**
    However many requests share an idempotency key, whatever dies or is lost, whatever the
    settings: one order per key, one request that ever runs its flow, at most one reserve, one
    charge and one gateway call. A confirmed order is paid exactly its total.
  */
  lemma ChargedOnce(c: Config, s: Sys)
    requires Reachable(c, s)
    ensures forall o, p :: 0 <= o < p < |s.orders| ==> s.orders[o].key != s.orders[p].key
    ensures forall r :: 0 <= r < |s.requests| && Running(s.requests[r].pc) ==>
      s.requests[r].pc.order < |s.orders| && s.orders[s.requests[r].pc.order].creator == r
    ensures forall o :: 0 <= o < |s.orders| ==>
      s.orders[o].reserves <= 1 && s.orders[o].charges <= 1 && s.orders[o].asked <= 1
    ensures forall o :: 0 <= o < |s.orders| && s.orders[o].row.status == CONFIRMED ==>
      o in s.pays && s.pays[o].status.Succeeded? && s.pays[o].amount == s.orders[o].total
    ensures forall o :: o in s.pays ==> o < |s.orders| && s.pays[o].amount == s.orders[o].total
  {
    ReachableAlways(c, s);
    forall r | 0 <= r < |s.requests| && Running(s.requests[r].pc)
      ensures s.requests[r].pc.order < |s.orders| && s.orders[s.requests[r].pc.order].creator == r
    {
      assert RequestTied(s, r);
    }
    forall o | 0 <= o < |s.orders|
      ensures s.orders[o].reserves <= 1 && s.orders[o].charges <= 1 && s.orders[o].asked <= 1
      ensures s.orders[o].row.status == CONFIRMED ==> PaidFor(ViewOf(s, o))
      ensures o in s.pays ==> s.pays[o].amount == s.orders[o].total
    {
      assert AlwaysOk(c, s.now, o, ViewOf(s, o));
    }
  }

  /**
    A failed order whose payment nevertheless succeeded is one whose charge call failed, was
    lost or timed out: never one that was declined, and never one that was refused its stock.
  */
  lemma PaidYetFailed(c: Config, s: Sys, o: OrderId)
    requires Reachable(c, s) && o < |s.orders| && s.orders[o].row.status == FAILED
    requires o in s.pays && s.pays[o].status.Succeeded?
    ensures s.orders[o].row.failureReason == Some(PaymentFault)
  {
    ReachableAlways(c, s);
    assert AlwaysOk(c, s.now, o, ViewOf(s, o));
  }

  /**
    A request that is answered with an order is answered with the one its own key and body
    placed, and under the time bound with a finished one.
  */
  lemma AnswersOwnOrder(c: Config, s: Sys, r: nat)
    requires Reachable(c, s) && r < |s.requests| && s.requests[r].pc.Returned?
    ensures var q := s.requests[r];
      && q.pc.order < |s.orders| && SameOrder(s.orders[q.pc.order], q)
      && (Separated(c) ==> !Unfinished(s.orders[q.pc.order].row.status))
  {
    ReachableAlways(c, s);
    assert RequestTied(s, r);
    if Separated(c) {
      ReachableInv(c, s);
      assert RequestOk(s, r);
    }
  }

  // ------------------------------------------------------------------ expiry and running flows

  /**
    An expiry run only ever works on an order that nobody is placing or cancelling and no other
    run works on; and if the window outlasts the landing delay too, no late call can reach it.
  */
  lemma ExpiryNeverMeetsAFlow(c: Config, s: Sys, e: nat)
    requires FlowBound(c) <= c.window && Reachable(c, s) && e < |s.expiries| && s.expiries[e].pc.Holding?
    ensures var o := s.expiries[e].pc.order;
      && o < |s.orders|
      && (forall r :: 0 <= r < |s.requests| && Running(s.requests[r].pc) ==> s.requests[r].pc.order != o)
      && (forall k :: 0 <= k < |s.cancels| && ActiveCancel(s, k) ==> s.cancels[k].order != o)
      && (forall f :: 0 <= f < |s.expiries| && f != e && s.expiries[f].pc.Holding? ==> s.expiries[f].pc.order != o)
      && (Separated(c) ==> forall k :: Late(s.orders[o], k).None?)
  {
    ExpiryIsAlone(c, s, e);
    if Separated(c) {
      ReachableInv(c, s);
      assert ExpiryOk(c, s, e);
      StaleIsQuiet(c, s.now, s.expiries[e].pc.order, ViewOf(s, s.expiries[e].pc.order));
    }
  }

  /** In milliseconds: the shipped timeouts against the lowest window the settings accept. */
  lemma DefaultsAreSeparated(c: Config)
    requires c.inventoryTimeout == 2000 && c.paymentsTimeout == 3000 && c.window >= 60_000
    requires 5 * c.local + c.landing <= 53_000
    ensures Separated(c)
  {
  }

  // ------------------------------------------------------------------ stock

  function SumHeld(rows: seq<I.Row>, n: nat, k: I.Sku): (r: nat) {
    if n == 0 then 0 else SumHeld(rows, n - 1, k) + I.Held(I.RowsOf(rows, n - 1), k)
  }

  lemma {:induction false} SumHeldNext(x: I.Row, rows: seq<I.Row>, n: nat, k: I.Sku)
    ensures SumHeld([x] + rows, n, k) == SumHeld(rows, n, k) + if x.order < n then I.Held([x], k) else 0
  {
    if n > 0 {
      SumHeldNext(x, rows, n - 1, k);
      assert ([x] + rows)[1..] == rows;
      if x.order == n - 1 {
        L.HeldConcat([x], I.RowsOf(rows, n - 1), k);
      } else {
        assert [] + I.RowsOf(rows, n - 1) == I.RowsOf(rows, n - 1);
      }
    }
  }

  /** The units the rows hold, order by order. */
  lemma {:induction false} HeldIsPerOrder(rows: seq<I.Row>, n: nat, k: I.Sku)
    requires forall x :: x in rows ==> x.order < n
    ensures I.Held(rows, k) == SumHeld(rows, n, k)
  {
    if rows == [] {
      NothingHeld(n, k);
    } else {
      assert rows == [rows[0]] + rows[1..];
      HeldIsPerOrder(rows[1..], n, k);
      SumHeldNext(rows[0], rows[1..], n, k);
      L.HeldConcat([rows[0]], rows[1..], k);
    }
  }

  lemma {:induction false} NothingHeld(n: nat, k: I.Sku)
    ensures SumHeld([], n, k) == 0
  {
    if n > 0 { NothingHeld(n - 1, k); }
  }

  predicate LiveHold(h: Hold) {
    h == Has(I.Active) || h == Has(I.Committed)
  }

  lemma {:induction false} HeldInStatus(o: OrderId, items: seq<I.Item>, st: I.RowStatus, k: I.Sku)
    ensures I.Held(I.NewRows(o, items, st), k) == if st.Released? then 0 else I.Qty(items, k)
  {
    if items != [] {
      HeldInStatus(o, items[1..], st, k);
      assert I.NewRows(o, items, st)[1..] == I.NewRows(o, items[1..], st);
    }
  }

  /** An order with live rows holds exactly its own items; any other holds nothing. */
  lemma OwnItems(c: Config, s: Sys, o: OrderId, k: I.Sku)
    requires Always(c, s) && o < |s.orders|
    ensures var rows := I.RowsOf(s.db.rows, o);
      I.Held(rows, k) == if LiveHold(HoldOf(rows)) then I.Qty(s.orders[o].items, k) else 0
  {
    var v := ViewOf(s, o);
    assert AlwaysOk(c, s.now, o, v);
    HeldInStatus(o, I.InSkuOrder(v.ord.items), if HoldOf(v.rows).Has? then HoldOf(v.rows).status else I.Active, k);
    L.QtyInSkuOrder(v.ord.items, k);
  }

  /** An order never holds two reservations: no rows, or one row for each of its lines, all in one status. */
  lemma OneReservation(c: Config, s: Sys, o: OrderId)
    requires Reachable(c, s) && o < |s.orders|
    ensures var rows := I.RowsOf(s.db.rows, o);
      && (rows == [] || rows == I.NewRows(o, I.InSkuOrder(s.orders[o].items), rows[0].status))
      && (rows != [] ==> multiset(I.InSkuOrder(s.orders[o].items)) == multiset(s.orders[o].items))
  {
    ReachableAlways(c, s);
    assert AlwaysOk(c, s.now, o, ViewOf(s, o));
    L.SkuOrderPermutes(s.orders[o].items);
  }

  function HeldBy(s: Sys, o: OrderId, k: I.Sku): (r: nat)
    requires o < |s.orders|
  {
    if LiveHold(HoldOf(I.RowsOf(s.db.rows, o))) then I.Qty(s.orders[o].items, k) else 0
  }

  /** Units on orders whose reservation is live. */
  function HeldByOrders(s: Sys, n: nat, k: I.Sku): (r: nat)
    requires n <= |s.orders|
  {
    if n == 0 then 0 else HeldByOrders(s, n - 1, k) + HeldBy(s, n - 1, k)
  }

  lemma {:induction false} HeldByOrdersIsSum(s: Sys, n: nat, k: I.Sku)
    requires n <= |s.orders|
    requires forall o :: 0 <= o < n ==> I.Held(I.RowsOf(s.db.rows, o), k) == HeldBy(s, o, k)
    ensures HeldByOrders(s, n, k) == SumHeld(s.db.rows, n, k)
  {
    if n > 0 { HeldByOrdersIsSum(s, n - 1, k); }
  }

  /**
    In every reachable state, whatever the settings: stock is not negative, and every unit ever
    supplied is on the shelf or held by an order for its own items.
  */
  lemma StockIsConserved(c: Config, s: Sys, k: I.Sku)
    requires Reachable(c, s) && k in s.supply
    ensures k in s.db.stock && s.db.stock[k] >= 0
    ensures s.db.stock[k] + HeldByOrders(s, |s.orders|, k) == s.supply[k]
  {
    ReachableAlways(c, s);
    HeldIsPerOrder(s.db.rows, |s.orders|, k);
    forall o | 0 <= o < |s.orders| ensures I.Held(I.RowsOf(s.db.rows, o), k) == HeldBy(s, o, k) {
      OwnItems(c, s, o, k);
    }
    HeldByOrdersIsSum(s, |s.orders|, k);
  }

  function OnConfirmed(s: Sys, n: nat, k: I.Sku): (r: nat)
    requires n <= |s.orders|
  {
    if n == 0 then 0
    else
      OnConfirmed(s, n - 1, k)
      + (if s.orders[n - 1].row.status == CONFIRMED then I.Qty(s.orders[n - 1].items, k) else 0)
  }

  /**
    All orders are closed or confirmed, and no release was lost or asked for by an operator or
    an open cancellation.
  */
  predicate Settled(s: Sys) {
    forall o :: 0 <= o < |s.orders| ==>
      && !Unfinished(s.orders[o].row.status)
      && (IsFailure(s.orders[o].row.status) ==> !s.orders[o].releaseFailed)
      && (s.orders[o].row.status == CONFIRMED ==> !s.orders[o].releaseSent)
  }

  lemma StrandedHold(c: Config, now: Time, o: OrderId, v: View)
    requires OrderOk(c, now, o, v) && !Unfinished(v.ord.row.status)
    ensures var ord, h := v.ord, HoldOf(v.rows);
      && (IsFailure(ord.row.status) && !ord.releaseFailed ==> !LiveHold(h))
      && (IsFailure(ord.row.status) && !ord.crashed && LiveHold(h) ==> ord.releaseFailed && h == Has(I.Active))
      && (ord.row.status == EXPIRED && ord.row.failureReason == Some(NotCompleted) ==> !LiveHold(h))
      && (ord.row.status == CANCELLED ==> !LiveHold(h))
      && (ord.row.status == CONFIRMED && !ord.releaseSent ==> LiveHold(h))
  {
    var h := HoldOf(v.rows);
    assert !Running(v.pc);
    match h {
      case Nothing =>
      case Has(st) => assert st.Active? || st.Committed? || st.Released?;
    }
  }

  lemma SettledHold(c: Config, s: Sys, o: OrderId)
    requires Inv(c, s) && Settled(s) && o < |s.orders|
    ensures LiveHold(HoldOf(I.RowsOf(s.db.rows, o))) <==> s.orders[o].row.status == CONFIRMED
  {
    StrandedHold(c, s.now, o, ViewOf(s, o));
  }

  lemma {:induction false} SettledSum(c: Config, s: Sys, n: nat, k: I.Sku)
    requires Inv(c, s) && Settled(s) && n <= |s.orders|
    ensures HeldByOrders(s, n, k) == OnConfirmed(s, n, k)
  {
    if n > 0 {
      SettledSum(c, s, n - 1, k);
      SettledHold(c, s, n - 1);
    }
  }

  /** When the dust settles, what is not on the shelf is exactly what confirmed customers bought. */
  lemma SettledStock(c: Config, s: Sys, k: I.Sku)
    requires Separated(c) && Reachable(c, s) && Settled(s) && k in s.supply
    ensures k in s.db.stock && s.db.stock[k] + OnConfirmed(s, |s.orders|, k) == s.supply[k]
  {
    StockIsConserved(c, s, k);
    ReachableInv(c, s);
    SettledSum(c, s, |s.orders|, k);
  }

  /**
    Stranded stock, exactly: short of a crash, a failed or expired order keeps live rows only
    when its last release was reported failed, and then they are all active; an order expired
    with the plain reason keeps none, and neither does a cancelled one.
  */
  lemma StrandedStock(c: Config, s: Sys, o: OrderId)
    requires Separated(c) && Reachable(c, s) && o < |s.orders|
    ensures var ord, h := s.orders[o], HoldOf(I.RowsOf(s.db.rows, o));
      && (IsFailure(ord.row.status) && !ord.crashed && LiveHold(h) ==> ord.releaseFailed && h == Has(I.Active))
      && (ord.row.status == EXPIRED && ord.row.failureReason == Some(NotCompleted) ==> !LiveHold(h))
      && (ord.row.status == CANCELLED ==> !LiveHold(h))
      && (ord.row.status == CONFIRMED && !ord.releaseSent ==> LiveHold(h))
  {
    ReachableInv(c, s);
    if !Unfinished(s.orders[o].row.status) { StrandedHold(c, s.now, o, ViewOf(s, o)); }
  }
}
