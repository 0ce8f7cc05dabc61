/**
  The inventory service as it runs: one request at a time, statement by statement, over
  tables it updates in place. Every method is proved against its function in `Inventory`.
*/
module InventoryService {
  import opened Wrappers
  import opened Inventory
  import opened InventoryLaws

  class Service {
    var stock: map<Sku, int>
    var rows: seq<Row>

    function Tables(): (db: Db)
      reads this
    {
      Db(stock, rows)
    }

    constructor ()
      ensures Tables() == Db(map[], [])
    {
      stock, rows := map[], [];
    }

    /** UPDATE products SET stock = stock - qty WHERE id = ... AND stock >= qty. */
    method TakeIfEnough(s: Sku, qty: nat) returns (updated: bool)
      modifies this`stock
      ensures updated == (Available(old(stock), s) >= qty && s in old(stock))
      ensures stock == if updated then old(stock)[s := old(stock)[s] - qty] else old(stock)
    {
      updated := s in stock && stock[s] >= qty;
      if updated { stock := stock[s := stock[s] - qty]; }
    }

    /** The UPDATE per line; stops at the first line that matches no row. */
    method TakeLines(lines: seq<Item>) returns (short: Option<Item>)
      requires Ascending(lines) && forall x :: x in lines ==> x.sku in stock
      modifies this`stock
      ensures short == FirstShort(old(stock), lines)
      ensures short.None? ==> stock == Take(old(stock), lines)
      ensures short.Some? ==> Available(stock, short.value.sku) == Available(old(stock), short.value.sku)
    {
      ghost var before := stock;
      for k := 0 to |lines|
        invariant stock.Keys == before.Keys
        invariant forall j :: 0 <= j < k ==> before[lines[j].sku] >= lines[j].qty
        invariant stock == Take(before, lines[..k])
      {
        var line := lines[k];
        NotYetTaken(lines, k);
        var updated := TakeIfEnough(line.sku, line.qty);
        if !updated {
          FirstShortAt(before, lines, k);
          return Some(line);
        }
        TakeOneMore(before, lines, k);
      }
      assert lines[..|lines|] == lines;
      FirstShortDecides(before, lines);
      return None;
    }

    method Reserve(o: OrderId, items: seq<Item>) returns (result: Result<seq<Row>, Refusal>)
      modifies this
      ensures Tables() == Inventory.Reserve(old(Tables()), o, items).db
      ensures result == Inventory.Reserve(old(Tables()), o, items).result
    {
      if !Distinct(items) { return Err(DuplicateSku); }
      var live := Live(RowsOf(rows, o));
      if live != [] { return Ok(live); }
      var unknown := Unknown(stock, items);
      if unknown != {} { return Err(UnknownSku(unknown)); }

      var snapshot := stock;
      var lines := InSkuOrder(items);
      SkuOrderAscends(items);
      SkuOrderPermutes(items);
      KnownLines(stock, items);
      var short := TakeLines(lines);
      FirstShortDecides(snapshot, lines);
      if short.Some? {
        // get_session rolls the transaction back on any exception.
        result := Err(OutOfStock(short.value.sku, Available(stock, short.value.sku), short.value.qty));
        stock := snapshot;
        return;
      }
      var added := NewRows(o, lines);
      rows := rows + added;
      SortedTake(snapshot, items);
      return Ok(added);
    }

    method Commit(o: OrderId) returns (result: Result<seq<Row>, Refusal>)
      modifies this`rows
      ensures Tables() == Inventory.Commit(old(Tables()), o).db
      ensures result == Inventory.Commit(old(Tables()), o).result
    {
      var mine := RowsOf(rows, o);
      if mine == [] { return Err(UnknownReservation); }
      if exists x :: x in mine && x.status.Released? { return Err(AlreadyReleased); }
      ghost var before := rows;
      for i := 0 to |rows|
        invariant |rows| == |before|
        invariant forall j :: 0 <= j < |rows| ==>
          rows[j] == if j < i && before[j].order == o then before[j].(status := Committed) else before[j]
      {
        if rows[i].order == o { rows := rows[i := rows[i].(status := Committed)]; }
      }
      assert rows == SetStatus(before, o, Committed);
      return Ok(RowsOf(rows, o));
    }

    /** One row handed back: the product UPDATE, then the status. What is left to hand back shrinks by it. */
    method GiveBack(i: nat) returns (units: nat)
      requires i < |rows| && rows[i].sku in stock
      modifies this
      ensures stock.Keys == old(stock).Keys && rows == old(rows)[i := old(rows)[i].(status := Released)]
      ensures units == if IsLive(old(rows)[i]) then old(rows)[i].qty else 0
      ensures var o := old(rows)[i].order; Inventory.Release(Tables(), o).db == Inventory.Release(old(Tables()), o).db
    {
      if !IsLive(rows[i]) { return 0; }
      ReleaseStep(Tables(), i);
      units := rows[i].qty;
      stock := stock[rows[i].sku := stock[rows[i].sku] + units];
      rows := rows[i := rows[i].(status := Released)];
    }

    /** Hand back an order's stock in lock order; a second call finds nothing to do. */
    method Release(o: OrderId) returns (result: Result<seq<Row>, Refusal>, returned: nat)
      requires forall x :: x in rows ==> x.sku in stock
      modifies this
      ensures Tables() == Inventory.Release(old(Tables()), o).db
      ensures result == Inventory.Release(old(Tables()), o).result
      ensures returned == LiveUnits(old(rows), o)
    {
      ghost var goal := Inventory.Release(Tables(), o).db;
      ghost var before := rows;
      var idx := InLockOrder(rows, o, |rows|);
      LockOrderCovers(rows, o, |rows|);
      returned := 0;
      for k := 0 to |idx|
        invariant rows == Marked(before, idx[..k]) && stock.Keys == old(stock).Keys
        invariant Inventory.Release(Tables(), o).db == goal
        invariant returned + LiveUnits(rows, o) == LiveUnits(before, o)
      {
        OneMoreMarked(before, o, idx, k);
        LiveUnitsStep(rows, idx[k], o);
        var units := GiveBack(idx[k]);
        returned := returned + units;
      }
      assert idx[..|idx|] == idx;
      AllHandedBack(before, o, idx);
      NoUnitsLeft(rows, o);
      NothingToRelease(Tables(), o);
      result := Ok(RowsOf(rows, o));
    }

    method Adjust(s: Sku, delta: int) returns (result: Result<seq<Row>, Refusal>)
      modifies this`stock
      ensures Tables() == Inventory.Adjust(old(Tables()), s, delta).db
      ensures result == Inventory.Adjust(old(Tables()), s, delta).result
    {
      if s !in stock { return Err(NoSuchProduct); }
      if delta == 0 { return Ok([]); }
      if delta < 0 && !(stock[s] >= -delta) { return Err(OutOfStock(s, stock[s], -delta)); }
      stock := stock[s := stock[s] + delta];
      return Ok([]);
    }

    method Create(s: Sku, units: nat) returns (result: Result<seq<Row>, Refusal>)
      modifies this`stock
      ensures Tables() == Inventory.Create(old(Tables()), s, units).db
      ensures result == Inventory.Create(old(Tables()), s, units).result
    {
      if s in stock { return Err(SkuExists); }
      stock := stock[s := units];
      return Ok([]);
    }
  }

  // ------------------------------------------------------------------ lock order of a release

  function PlaceBySku(rows: seq<Row>, n: nat, i: nat, idx: seq<nat>): (r: seq<nat>)
    requires i < n <= |rows| && forall a :: 0 <= a < |idx| ==> idx[a] < n
    ensures forall a :: 0 <= a < |r| ==> r[a] < n
  {
    if idx == [] then [i]
    else if rows[i].sku < rows[idx[0]].sku then [i] + idx
    else [idx[0]] + PlaceBySku(rows, n, i, idx[1..])
  }

  lemma {:induction false} PlaceBySkuKeeps(rows: seq<Row>, n: nat, i: nat, idx: seq<nat>)
    requires i < n <= |rows| && forall a :: 0 <= a < |idx| ==> idx[a] < n
    ensures forall k :: k in PlaceBySku(rows, n, i, idx) <==> k == i || k in idx
  {
    if idx != [] && rows[i].sku >= rows[idx[0]].sku {
      PlaceBySkuKeeps(rows, n, i, idx[1..]);
      assert idx == [idx[0]] + idx[1..];
    }
  }

  /** The positions of an order's rows among the first n, in SKU order. */
  function InLockOrder(rows: seq<Row>, o: OrderId, n: nat): (idx: seq<nat>)
    requires n <= |rows|
    ensures forall a :: 0 <= a < |idx| ==> idx[a] < n
  {
    if n == 0 then []
    else if rows[n - 1].order == o then PlaceBySku(rows, n, n - 1, InLockOrder(rows, o, n - 1))
    else InLockOrder(rows, o, n - 1)
  }

  lemma {:induction false} LockOrderCovers(rows: seq<Row>, o: OrderId, n: nat)
    requires n <= |rows|
    ensures forall k :: k in InLockOrder(rows, o, n) <==> 0 <= k < n && rows[k].order == o
  {
    if n > 0 {
      LockOrderCovers(rows, o, n - 1);
      if rows[n - 1].order == o { PlaceBySkuKeeps(rows, n, n - 1, InLockOrder(rows, o, n - 1)); }
    }
  }

  function Marked(rows: seq<Row>, idx: seq<nat>): (r: seq<Row>)
    requires forall a :: 0 <= a < |idx| ==> idx[a] < |rows|
    ensures |r| == |rows|
  {
    if idx == [] then rows
    else
      var i := idx[|idx| - 1];
      Marked(rows, idx[..|idx| - 1])[i := Marked(rows, idx[..|idx| - 1])[i].(status := Released)]
  }

  lemma {:induction false} MarkedAt(rows: seq<Row>, idx: seq<nat>, i: nat)
    requires (forall a :: 0 <= a < |idx| ==> idx[a] < |rows|) && i < |rows|
    ensures Marked(rows, idx)[i] == if i in idx then rows[i].(status := Released) else rows[i]
  {
    if idx != [] {
      MarkedAt(rows, idx[..|idx| - 1], i);
      assert idx == idx[..|idx| - 1] + [idx[|idx| - 1]];
    }
  }

  lemma AllHandedBack(rows: seq<Row>, o: OrderId, idx: seq<nat>)
    requires idx == InLockOrder(rows, o, |rows|)
    ensures forall x :: x in Marked(rows, idx) && x.order == o ==> !IsLive(x)
  {
    LockOrderCovers(rows, o, |rows|);
    var after := Marked(rows, idx);
    forall x | x in after && x.order == o ensures !IsLive(x) {
      var i :| 0 <= i < |after| && after[i] == x;
      MarkedAt(rows, idx, i);
    }
  }

  // ------------------------------------------------------------------ loop lemmas

  lemma OneMoreMarked(rows: seq<Row>, o: OrderId, idx: seq<nat>, k: nat)
    requires idx == InLockOrder(rows, o, |rows|) && k < |idx|
    ensures var i, was := idx[k], Marked(rows, idx[..k]);
      && rows[i] in rows && rows[i].order == o && was[i].order == o && was[i].sku == rows[i].sku
      && Marked(rows, idx[..k + 1]) == was[i := was[i].(status := Released)]
  {
    LockOrderCovers(rows, o, |rows|);
    assert idx[..k + 1][..k] == idx[..k] && idx[k] in idx;
    MarkedAt(rows, idx[..k], idx[k]);
  }

  /** Units on one order's live rows, over all products. */
  function LiveUnits(rows: seq<Row>, o: OrderId): (n: nat) {
    if rows == [] then 0
    else (if rows[0].order == o && IsLive(rows[0]) then rows[0].qty else 0) + LiveUnits(rows[1..], o)
  }

  lemma {:induction false} LiveUnitsStep(rows: seq<Row>, i: nat, o: OrderId)
    requires i < |rows| && rows[i].order == o
    ensures LiveUnits(rows[i := rows[i].(status := Released)], o)
         == LiveUnits(rows, o) - if IsLive(rows[i]) then rows[i].qty else 0
  {
    var after := rows[i := rows[i].(status := Released)];
    if i == 0 {
      assert after[1..] == rows[1..];
    } else {
      LiveUnitsStep(rows[1..], i - 1, o);
      assert after[1..] == rows[1..][i - 1 := rows[i].(status := Released)];
    }
  }

  lemma {:induction false} NoUnitsLeft(rows: seq<Row>, o: OrderId)
    requires forall x :: x in rows && x.order == o ==> !IsLive(x)
    ensures LiveUnits(rows, o) == 0
  {
    if rows != [] { NoUnitsLeft(rows[1..], o); }
  }

  lemma NotYetTaken(lines: seq<Item>, k: nat)
    requires k < |lines| && Ascending(lines)
    ensures Qty(lines[..k], lines[k].sku) == 0
  {
    QtyOfLine(lines[..k], lines[k].sku);
  }

  lemma TakeOneMore(before: map<Sku, int>, lines: seq<Item>, k: nat)
    requires k < |lines| && lines[k].sku in before
    ensures Take(before, lines[..k + 1])
         == Take(before, lines[..k])[lines[k].sku := Take(before, lines[..k])[lines[k].sku] - lines[k].qty]
  {
    forall s | s in before
      ensures Qty(lines[..k + 1], s) == Qty(lines[..k], s) + (if lines[k].sku == s then lines[k].qty else 0)
    {
      QtyOfPrefix(lines, k, s);
    }
  }

  lemma SortedTake(stock: map<Sku, int>, items: seq<Item>)
    ensures Take(stock, InSkuOrder(items)) == Take(stock, items)
  {
    forall s | s in stock ensures Qty(InSkuOrder(items), s) == Qty(items, s) { QtyInSkuOrder(items, s); }
  }

  lemma {:induction false} HeldStep(rows: seq<Row>, i: nat, s: Sku)
    requires i < |rows| && IsLive(rows[i])
    ensures Held(RowsOf(rows[i := rows[i].(status := Released)], rows[i].order), s)
         == Held(RowsOf(rows, rows[i].order), s) - (if rows[i].sku == s then rows[i].qty else 0)
  {
    var after := rows[i := rows[i].(status := Released)];
    var a, b := RowsOf(rows, rows[i].order), RowsOf(after, rows[i].order);
    if i == 0 {
      assert after[1..] == rows[1..];
      assert a[1..] == RowsOf(rows[1..], rows[i].order) == b[1..];
    } else {
      HeldStep(rows[1..], i - 1, s);
      assert after[1..] == rows[1..][i - 1 := rows[i].(status := Released)];
      if rows[0].order == rows[i].order {
        assert a[0] == rows[0] == b[0];
        assert a[1..] == RowsOf(rows[1..], rows[i].order) && b[1..] == RowsOf(after[1..], rows[i].order);
      } else {
        assert a == RowsOf(rows[1..], rows[i].order) && b == RowsOf(after[1..], rows[i].order);
      }
    }
  }

  function ReleaseOne(db: Db, i: nat): (r: Db)
    requires i < |db.rows| && db.rows[i].sku in db.stock
  {
    var x := db.rows[i];
    Db(db.stock[x.sku := db.stock[x.sku] + x.qty], db.rows[i := x.(status := Released)])
  }

  lemma ReleaseStep(db: Db, i: nat)
    requires i < |db.rows| && IsLive(db.rows[i]) && db.rows[i].sku in db.stock
    ensures Inventory.Release(ReleaseOne(db, i), db.rows[i].order).db == Inventory.Release(db, db.rows[i].order).db
  {
    var x, after := db.rows[i], ReleaseOne(db, i);
    forall s | s in db.stock
      ensures after.stock[s] + Held(RowsOf(after.rows, x.order), s) == db.stock[s] + Held(RowsOf(db.rows, x.order), s)
    {
      HeldStep(db.rows, i, s);
    }
    assert SetStatus(after.rows, x.order, Released) == SetStatus(db.rows, x.order, Released);
  }

  lemma NothingToRelease(db: Db, o: OrderId)
    requires forall x :: x in db.rows && x.order == o ==> !IsLive(x)
    ensures Inventory.Release(db, o).db == db
  {
    InRowsOf(db.rows, o);
    forall s ensures Held(RowsOf(db.rows, o), s) == 0 { NoneHeld(RowsOf(db.rows, o), s); }
    forall i | 0 <= i < |db.rows| ensures SetStatus(db.rows, o, Released)[i] == db.rows[i] {
      assert db.rows[i] in db.rows;
    }
  }
}
