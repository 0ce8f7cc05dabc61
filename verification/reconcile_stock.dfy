/**
  The stock repair tool: find the active reservation rows whose order is finished or gone, and
  release those orders (tools/reconcile_stock.py, INC-009).
*/
module ReconcileStock {
  import opened Wrappers
  import opened OrderState
  import opened Inventory
  import opened InventoryLaws
  import S = Saga
  import SI = SagaInvariant
  import SS = SagaSafety
  import ST = SagaTheorems
  import IS = InventoryService

  /** `status` is None when the orders service answers 404. */
  datatype Finding = Finding(row: Inventory.Row, status: Option<Status>)

  const TERMINAL: set<Status> := {CONFIRMED, FAILED, EXPIRED, CANCELLED}

  function StatusOf(orders: map<OrderId, Status>, o: OrderId): (r: Option<Status>) {
    if o in orders then Some(orders[o]) else None
  }

  predicate Done(status: Option<Status>) {
    status.None? || status.value in TERMINAL
  }

  predicate IsStranded(x: Inventory.Row, orders: map<OrderId, Status>) {
    x.status.Active? && Done(StatusOf(orders, x.order))
  }

  /** GET /reservations/active. */
  function ActiveRows(rows: seq<Inventory.Row>): (r: seq<Inventory.Row>) {
    if rows == [] then [] else (if rows[0].status.Active? then [rows[0]] else []) + ActiveRows(rows[1..])
  }

  function Findings(active: seq<Inventory.Row>, orders: map<OrderId, Status>): (r: seq<Finding>) {
    if active == [] then []
    else
      var status := StatusOf(orders, active[0].order);
      (if Done(status) then [Finding(active[0], status)] else []) + Findings(active[1..], orders)
  }

  lemma FindingsOneMore(found: seq<Finding>, active: seq<Inventory.Row>, i: nat, orders: map<OrderId, Status>)
    requires i < |active|
    ensures var status := StatusOf(orders, active[i].order);
      found + Findings(active[i..], orders)
      == (if Done(status) then found + [Finding(active[i], status)] else found) + Findings(active[i + 1..], orders)
  {
    assert active[i..][1..] == active[i + 1..];
  }

  method FindStranded(active: seq<Inventory.Row>, orders: map<OrderId, Status>) returns (stranded: seq<Finding>)
    ensures stranded == Findings(active, orders)
  {
    stranded := [];
    for i := 0 to |active|
      invariant stranded + Findings(active[i..], orders) == Findings(active, orders)
    {
      var row := active[i];
      FindingsOneMore(stranded, active, i, orders);
      if row.order !in orders {
        stranded := stranded + [Finding(row, None)];
        continue;
      }
      var status := orders[row.order];
      if status in TERMINAL { stranded := stranded + [Finding(row, Some(status))]; }
    }
  }

  lemma {:induction false} InActive(rows: seq<Inventory.Row>)
    ensures forall x :: x in ActiveRows(rows) <==> x in rows && x.status.Active?
  {
    if rows != [] {
      InActive(rows[1..]);
      assert rows == [rows[0]] + rows[1..];
    }
  }

  lemma {:induction false} InFindings(active: seq<Inventory.Row>, orders: map<OrderId, Status>)
    ensures forall f :: f in Findings(active, orders) <==>
      f.row in active && Done(StatusOf(orders, f.row.order)) && f.status == StatusOf(orders, f.row.order)
  {
    if active != [] {
      InFindings(active[1..], orders);
      assert active == [active[0]] + active[1..];
    }
  }

  /** The report lists exactly the active rows whose order is finished or missing, with that status. */
  lemma ReportIsExact(rows: seq<Inventory.Row>, orders: map<OrderId, Status>, f: Finding)
    ensures f in Findings(ActiveRows(rows), orders) <==>
      f.row in rows && IsStranded(f.row, orders) && f.status == StatusOf(orders, f.row.order)
  {
    InActive(rows);
    InFindings(ActiveRows(rows), orders);
  }

  // ------------------------------------------------------------------ totals

  function UnitsOf(fs: seq<Finding>, s: Sku): (n: nat) {
    if fs == [] then 0 else (if fs[0].row.sku == s then fs[0].row.qty else 0) + UnitsOf(fs[1..], s)
  }

  method BySku(stranded: seq<Finding>) returns (units: map<Sku, nat>)
    ensures units.Keys == set f | f in stranded :: f.row.sku
    ensures forall s :: s in units ==> units[s] == UnitsOf(stranded, s)
  {
    units := map[];
    for i := 0 to |stranded|
      invariant units.Keys == set f | f in stranded[..i] :: f.row.sku
      invariant forall s ::
        (if s in units then units[s] else 0) + UnitsOf(stranded[i..], s) == UnitsOf(stranded, s)
    {
      var row := stranded[i].row;
      assert stranded[..i + 1] == stranded[..i] + [stranded[i]];
      assert stranded[i..][1..] == stranded[i + 1..];
      units := units[row.sku := (if row.sku in units then units[row.sku] else 0) + row.qty];
    }
    assert stranded[..|stranded|] == stranded;
  }

  // ------------------------------------------------------------------ the release loop

  function MarkAll(rows: seq<Inventory.Row>, os: set<OrderId>): (r: seq<Inventory.Row>)
    ensures |r| == |rows|
    ensures forall i :: 0 <= i < |rows| ==>
      r[i] == if rows[i].order in os then rows[i].(status := Released) else rows[i]
  {
    if rows == [] then []
    else [if rows[0].order in os then rows[0].(status := Released) else rows[0]] + MarkAll(rows[1..], os)
  }

  /** Units of one SKU on the live rows of these orders. */
  function HeldIn(rows: seq<Inventory.Row>, os: set<OrderId>, s: Sku): (n: nat) {
    if rows == [] then 0
    else (if IsLive(rows[0]) && rows[0].order in os && rows[0].sku == s then rows[0].qty else 0)
         + HeldIn(rows[1..], os, s)
  }

  function ReleaseAll(db: Db, os: set<OrderId>): (r: Db) {
    Db(map s | s in db.stock :: db.stock[s] + HeldIn(db.rows, os, s), MarkAll(db.rows, os))
  }

  lemma {:induction false} HeldInOneMore(rows: seq<Inventory.Row>, os: set<OrderId>, o: OrderId, s: Sku)
    ensures HeldIn(rows, os + {o}, s) == HeldIn(rows, os, s) + Held(RowsOf(MarkAll(rows, os), o), s)
  {
    if rows != [] {
      HeldInOneMore(rows[1..], os, o, s);
      var marked := MarkAll(rows, os);
      assert marked[1..] == MarkAll(rows[1..], os);
      if rows[0].order == o {
        assert RowsOf(marked, o)[0] == marked[0] && RowsOf(marked, o)[1..] == RowsOf(marked[1..], o);
      } else {
        assert RowsOf(marked, o) == RowsOf(marked[1..], o);
      }
    }
  }

  lemma MarkOneMore(rows: seq<Inventory.Row>, os: set<OrderId>, o: OrderId)
    ensures SetStatus(MarkAll(rows, os), o, Released) == MarkAll(rows, os + {o})
  {
  }

  lemma ReleaseOneMore(db: Db, os: set<OrderId>, o: OrderId)
    ensures Release(ReleaseAll(db, os), o).db == ReleaseAll(db, os + {o})
  {
    MarkOneMore(db.rows, os, o);
    forall s ensures HeldIn(db.rows, os, s) + Held(RowsOf(MarkAll(db.rows, os), o), s) == HeldIn(db.rows, os + {o}, s) {
      HeldInOneMore(db.rows, os, o, s);
    }
  }

  lemma {:induction false} HeldInNone(rows: seq<Inventory.Row>, s: Sku)
    ensures HeldIn(rows, {}, s) == 0
  {
    if rows != [] { HeldInNone(rows[1..], s); }
  }

  lemma ReleaseNone(db: Db)
    ensures ReleaseAll(db, {}) == db
  {
    forall s ensures HeldIn(db.rows, {}, s) == 0 { HeldInNone(db.rows, s); }
    assert MarkAll(db.rows, {}) == db.rows;
  }

  /** Releases the orders in whatever order the set yields; the first refused call stops the tool. */
  method ReleaseOrders(inventory: IS.Service, orders: set<OrderId>, refused: set<OrderId>)
    returns (released: set<OrderId>)
    requires forall x :: x in inventory.rows ==> x.sku in inventory.stock
    modifies inventory
    ensures released <= orders && released !! refused
    ensures orders !! refused ==> released == orders
    ensures inventory.Tables() == ReleaseAll(old(inventory.Tables()), released)
  {
    ghost var before := inventory.Tables();
    var todo := orders;
    released := {};
    ReleaseNone(before);
    while todo != {}
      invariant todo + released == orders && todo !! released && released !! refused
      invariant inventory.Tables() == ReleaseAll(before, released)
      invariant forall x :: x in inventory.rows ==> x.sku in inventory.stock
      decreases todo
    {
      var o :| o in todo;
      todo := todo - {o};
      if o in refused { return; }
      ReleaseOneMore(before, released, o);
      var _, _ := inventory.Release(o);
      released := released + {o};
      assert forall i :: 0 <= i < |before.rows| ==> before.rows[i] in before.rows;
    }
  }

  // ------------------------------------------------------------------ what a full repair does

  function OrdersIn(fs: seq<Finding>): (os: set<OrderId>) {
    set f | f in fs :: f.row.order
  }

  /** In orders the report names, exactly the stranded rows are live: active and committed rows never mix. */
  lemma StrandedIsLive(db: Db, orders: map<OrderId, Status>, x: Inventory.Row)
    requires AllLifecycles(db) && x in db.rows
    ensures IsLive(x) && x.order in OrdersIn(Findings(ActiveRows(db.rows), orders)) <==> IsStranded(x, orders)
  {
    var fs := Findings(ActiveRows(db.rows), orders);
    ReportIsExact(db.rows, orders, Finding(x, StatusOf(orders, x.order)));
    if IsLive(x) && x.order in OrdersIn(fs) {
      var f :| f in fs && f.row.order == x.order;
      ReportIsExact(db.rows, orders, f);
      InRowsOf(db.rows, x.order);
      var rows := RowsOf(db.rows, x.order);
      assert Lifecycle(rows);
      assert x in rows && f.row in rows;
      var i :| 0 <= i < |rows| && rows[i] == x;
      var j :| 0 <= j < |rows| && rows[j] == f.row;
    }
  }

  function StrandedUnits(rows: seq<Inventory.Row>, orders: map<OrderId, Status>, s: Sku): (n: nat) {
    if rows == [] then 0
    else (if IsStranded(rows[0], orders) && rows[0].sku == s then rows[0].qty else 0)
         + StrandedUnits(rows[1..], orders, s)
  }

  lemma {:induction false} HeldInIsStranded(rows: seq<Inventory.Row>, orders: map<OrderId, Status>,
                                            os: set<OrderId>, s: Sku)
    requires forall x :: x in rows ==> (IsLive(x) && x.order in os <==> IsStranded(x, orders))
    ensures HeldIn(rows, os, s) == StrandedUnits(rows, orders, s)
  {
    if rows != [] {
      HeldInIsStranded(rows[1..], orders, os, s);
      assert rows[0] in rows;
    }
  }

  lemma {:induction false} ReportUnits(rows: seq<Inventory.Row>, orders: map<OrderId, Status>, s: Sku)
    ensures UnitsOf(Findings(ActiveRows(rows), orders), s) == StrandedUnits(rows, orders, s)
  {
    if rows != [] {
      var x, rest := rows[0], ActiveRows(rows[1..]);
      ReportUnits(rows[1..], orders, s);
      if x.status.Active? {
        var status := StatusOf(orders, x.order);
        assert ActiveRows(rows)[1..] == rest;
        assert Findings(ActiveRows(rows), orders)
            == (if Done(status) then [Finding(x, status)] else []) + Findings(rest, orders);
        if Done(status) {
          assert Findings(ActiveRows(rows), orders)[1..] == Findings(rest, orders);
        } else {
          assert Findings(ActiveRows(rows), orders) == Findings(rest, orders);
        }
      } else {
        assert ActiveRows(rows) == rest;
      }
    }
  }

  /**
    Releasing every order of the report returns, per SKU, exactly the units it printed, leaves
    nothing stranded, and touches no other order. Needs what every run of inventory keeps:
    that an order's live rows share one status.
  */
  lemma RepairIsExact(db: Db, orders: map<OrderId, Status>)
    requires AllLifecycles(db)
    ensures var fs := Findings(ActiveRows(db.rows), orders);
      var after := ReleaseAll(db, OrdersIn(fs));
      && (forall s :: s in db.stock ==> after.stock[s] == db.stock[s] + UnitsOf(fs, s))
      && (forall x :: x in after.rows ==> !IsStranded(x, orders))
      && (forall i :: 0 <= i < |db.rows| ==>
            after.rows[i] == if IsStranded(db.rows[i], orders) then db.rows[i].(status := Released) else db.rows[i])
  {
    var fs := Findings(ActiveRows(db.rows), orders);
    var after := ReleaseAll(db, OrdersIn(fs));
    forall x | x in db.rows
      ensures IsLive(x) && x.order in OrdersIn(fs) <==> IsStranded(x, orders)
    {
      StrandedIsLive(db, orders, x);
    }
    forall s | s in db.stock ensures after.stock[s] == db.stock[s] + UnitsOf(fs, s) {
      HeldInIsStranded(db.rows, orders, OrdersIn(fs), s);
      ReportUnits(db.rows, orders, s);
    }
    forall i | 0 <= i < |db.rows|
      ensures after.rows[i] == if IsStranded(db.rows[i], orders) then db.rows[i].(status := Released) else db.rows[i]
    {
      assert db.rows[i] in db.rows;
    }
  }

  // ------------------------------------------------------------------ repair of a quiet shop

  lemma {:induction false} RepairHeld(rows: seq<Inventory.Row>, os: set<OrderId>, s: Sku)
    ensures Held(MarkAll(rows, os), s) + HeldIn(rows, os, s) == Held(rows, s)
  {
    if rows != [] {
      RepairHeld(rows[1..], os, s);
      assert MarkAll(rows, os)[1..] == MarkAll(rows[1..], os);
    }
  }

  /** One row per line, in SKU order, all in one status. */
  lemma TiedIsLifecycle(o: OrderId, items: seq<Item>, h: SI.Hold)
    requires Distinct(items)
    ensures Lifecycle(SI.RowsFor(o, items, h))
  {
    SkuOrderAscends(items);
  }

  lemma SagaLifecycles(c: S.Config, s: S.Sys)
    requires SI.Inv(c, s)
    ensures AllLifecycles(s.db)
  {
    forall o: OrderId ensures Lifecycle(RowsOf(s.db.rows, o)) {
      if o < |s.orders| {
        RowsAreTied(c, s, o);
        TiedIsLifecycle(o, s.orders[o].items, SI.HoldOf(RowsOf(s.db.rows, o)));
      } else {
        SS.NoRowsYet(s.db.rows, o);
      }
    }
  }

  lemma RowsAreTied(c: S.Config, s: S.Sys, o: OrderId)
    requires SI.Inv(c, s) && o < |s.orders|
    ensures Distinct(s.orders[o].items)
    ensures RowsOf(s.db.rows, o) == SI.RowsFor(o, s.orders[o].items, SI.HoldOf(RowsOf(s.db.rows, o)))
  {
    assert SI.OrderOk(c, s.now, o, SI.ViewOf(s, o));
  }

  /** Every order is finished, no create flow ever crashed, and nothing was cancelled half way. */
  predicate Quiet(s: S.Sys) {
    forall o :: 0 <= o < |s.orders| ==> !Unfinished(s.orders[o].row.status) && !s.orders[o].crashed
  }

  function Statuses(s: S.Sys): (m: map<OrderId, Status>) {
    map o: nat | o < |s.orders| :: s.orders[o].row.status
  }

  lemma RowHolds(c: S.Config, s: S.Sys, x: Inventory.Row)
    requires SI.Inv(c, s) && x in s.db.rows
    ensures x.order < |s.orders| && SI.HoldOf(RowsOf(s.db.rows, x.order)) == SI.Has(x.status)
  {
    InRowsOf(s.db.rows, x.order);
    RowsAreTied(c, s, x.order);
    var i :| 0 <= i < |RowsOf(s.db.rows, x.order)| && RowsOf(s.db.rows, x.order)[i] == x;
  }

  lemma CommittedIsConfirmed(c: S.Config, now: S.Time, o: OrderId, v: SI.View)
    requires SI.OrderOk(c, now, o, v) && !Unfinished(v.ord.row.status) && !v.ord.crashed
    ensures SI.HoldOf(v.rows) == SI.Has(Committed) ==> v.ord.row.status == CONFIRMED
  {
  }

  lemma QuietRows(c: S.Config, s: S.Sys, x: Inventory.Row)
    requires SI.Inv(c, s) && Quiet(s) && x in s.db.rows
    ensures x.order < |s.orders|
    ensures x.status.Committed? ==> s.orders[x.order].row.status == CONFIRMED
    ensures x.status.Active? <==> IsStranded(x, Statuses(s))
  {
    RowHolds(c, s, x);
    CommittedIsConfirmed(c, s.now, x.order, SI.ViewOf(s, x.order));
  }

  /**
    After a repair of a quiet shop, every unit supplied is on the shelf or on a committed row
    of a confirmed order. (A confirmed order whose commit call failed loses its stock here.)
  */
  lemma RepairCompletes(c: S.Config, s: S.Sys, k: Sku)
    requires S.Separated(c) && S.Reachable(c, s) && Quiet(s) && k in s.supply
    ensures var after := ReleaseAll(s.db, OrdersIn(Findings(ActiveRows(s.db.rows), Statuses(s))));
      && k in after.stock && after.stock[k] + Held(after.rows, k) == s.supply[k]
      && (forall x :: x in after.rows && IsLive(x) ==>
            x.status.Committed? && x.order < |s.orders| && s.orders[x.order].row.status == CONFIRMED)
  {
    ST.ReachableInv(c, s);
    SagaLifecycles(c, s);
    RepairIsExact(s.db, Statuses(s));
    var os := OrdersIn(Findings(ActiveRows(s.db.rows), Statuses(s)));
    var after := ReleaseAll(s.db, os);
    RepairHeld(s.db.rows, os, k);
    forall x | x in after.rows && IsLive(x)
      ensures x.status.Committed? && x.order < |s.orders| && s.orders[x.order].row.status == CONFIRMED
    {
      var i :| 0 <= i < |after.rows| && after.rows[i] == x;
      assert s.db.rows[i] in s.db.rows;
      QuietRows(c, s, s.db.rows[i]);
    }
  }
}
