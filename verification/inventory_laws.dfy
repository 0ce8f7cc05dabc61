/** What holds of the inventory tables over every run of requests. */
module InventoryLaws {
  import opened Wrappers
  import opened Inventory

  // ------------------------------------------------------------------ sums and lookups

  lemma {:induction false} HeldConcat(a: seq<Row>, b: seq<Row>, s: Sku)
    ensures Held(a + b, s) == Held(a, s) + Held(b, s)
  {
    if a == [] {
      assert a + b == b;
    } else {
      HeldConcat(a[1..], b, s);
      assert (a + b)[1..] == a[1..] + b;
    }
  }

  lemma {:induction false} RowsOfConcat(a: seq<Row>, b: seq<Row>, o: OrderId)
    ensures RowsOf(a + b, o) == RowsOf(a, o) + RowsOf(b, o)
  {
    if a == [] {
      assert a + b == b;
    } else {
      var first := if a[0].order == o then [a[0]] else [];
      RowsOfConcat(a[1..], b, o);
      assert (a + b)[0] == a[0] && (a + b)[1..] == a[1..] + b;
      assert RowsOf(a + b, o) == first + (RowsOf(a[1..], o) + RowsOf(b, o)) == first + RowsOf(a[1..], o) + RowsOf(b, o);
    }
  }

  lemma {:induction false} InRowsOf(rows: seq<Row>, o: OrderId)
    ensures forall x :: x in RowsOf(rows, o) <==> x in rows && x.order == o
  {
    if rows != [] {
      InRowsOf(rows[1..], o);
      assert rows == [rows[0]] + rows[1..];
    }
  }

  lemma {:induction false} InLive(rows: seq<Row>)
    ensures forall x :: x in Live(rows) <==> x in rows && IsLive(x)
    ensures Live(rows) == [] <==> forall x :: x in rows ==> !IsLive(x)
  {
    if rows != [] {
      InLive(rows[1..]);
      assert rows == [rows[0]] + rows[1..];
      if Live(rows) != [] { assert Live(rows)[0] in Live(rows); }
    }
  }

  lemma {:induction false} NewRowsLookup(o: OrderId, items: seq<Item>, p: OrderId, s: Sku)
    ensures Held(NewRows(o, items), s) == Qty(items, s)
    ensures RowsOf(NewRows(o, items), p) == if p == o then NewRows(o, items) else []
  {
    if items != [] {
      NewRowsLookup(o, items[1..], p, s);
      assert NewRows(o, items)[1..] == NewRows(o, items[1..]);
    }
  }

  /** A status write reaches exactly one order's rows. */
  lemma {:induction false} SetStatusLookup(rows: seq<Row>, o: OrderId, st: RowStatus, p: OrderId)
    ensures RowsOf(SetStatus(rows, o, st), p)
         == if p == o then SetStatus(RowsOf(rows, o), o, st) else RowsOf(rows, p)
  {
    if rows != [] {
      SetStatusLookup(rows[1..], o, st, p);
      assert SetStatus(rows, o, st)[1..] == SetStatus(rows[1..], o, st);
      if rows[0].order == o {
        assert RowsOf(rows, o)[1..] == RowsOf(rows[1..], o);
      }
    }
  }

  lemma {:induction false} SetStatusHeld(rows: seq<Row>, o: OrderId, st: RowStatus, s: Sku)
    requires st.Released? || (st.Committed? && forall x :: x in RowsOf(rows, o) ==> IsLive(x))
    ensures Held(SetStatus(rows, o, st), s)
         == Held(rows, s) - (if st.Released? then Held(RowsOf(rows, o), s) else 0)
  {
    if rows != [] {
      assert forall x :: x in RowsOf(rows[1..], o) ==> x in RowsOf(rows, o);
      SetStatusHeld(rows[1..], o, st, s);
      var after := SetStatus(rows, o, st);
      assert after[1..] == SetStatus(rows[1..], o, st);
      assert after != [] && Held(after, s)
          == (if IsLive(after[0]) && after[0].sku == s then after[0].qty else 0) + Held(after[1..], s);
      if rows[0].order == o {
        assert after[0] == rows[0].(status := st);
        assert RowsOf(rows, o)[0] == rows[0] && RowsOf(rows, o)[1..] == RowsOf(rows[1..], o);
        assert rows[0] in RowsOf(rows, o);
      } else {
        assert after[0] == rows[0] && RowsOf(rows, o) == RowsOf(rows[1..], o);
      }
    }
  }

  lemma {:induction false} QtyOfInsert(x: Item, items: seq<Item>, s: Sku)
    ensures Qty(Insert(x, items), s) == Qty(items, s) + (if x.sku == s then x.qty else 0)
  {
    if items != [] && x.sku > items[0].sku {
      QtyOfInsert(x, items[1..], s);
      assert Insert(x, items)[1..] == Insert(x, items[1..]);
    } else {
      assert Insert(x, items)[1..] == items;
    }
  }

  lemma {:induction false} QtyInSkuOrder(items: seq<Item>, s: Sku)
    ensures Qty(InSkuOrder(items), s) == Qty(items, s)
  {
    if items != [] {
      QtyInSkuOrder(items[1..], s);
      QtyOfInsert(items[0], InSkuOrder(items[1..]), s);
    }
  }

  lemma {:induction false} QtyOfLine(items: seq<Item>, s: Sku)
    requires Distinct(items)
    ensures forall x :: x in items && x.sku == s ==> Qty(items, s) == x.qty
    ensures (forall x :: x in items ==> x.sku != s) ==> Qty(items, s) == 0
  {
    if items != [] {
      assert items == [items[0]] + items[1..];
      QtyOfLine(items[1..], s);
    }
  }

  lemma {:induction false} QtyOfPrefix(lines: seq<Item>, k: nat, s: Sku)
    requires k < |lines|
    ensures Qty(lines[..k + 1], s) == Qty(lines[..k], s) + (if lines[k].sku == s then lines[k].qty else 0)
  {
    if k > 0 {
      QtyOfPrefix(lines[1..], k - 1, s);
      assert lines[..k + 1][1..] == lines[1..][..k] && lines[..k][1..] == lines[1..][..k - 1];
    }
  }

  // ------------------------------------------------------------------ lock order

  lemma {:induction false} InsertPermutes(x: Item, items: seq<Item>)
    ensures multiset(Insert(x, items)) == multiset(items) + multiset{x}
  {
    if items != [] && x.sku > items[0].sku {
      InsertPermutes(x, items[1..]);
      assert items == [items[0]] + items[1..];
    }
  }

  lemma {:induction false} SkuOrderPermutes(items: seq<Item>)
    ensures multiset(InSkuOrder(items)) == multiset(items)
    ensures forall x :: x in InSkuOrder(items) <==> x in items
  {
    if items != [] {
      SkuOrderPermutes(items[1..]);
      InsertPermutes(items[0], InSkuOrder(items[1..]));
      assert items == [items[0]] + items[1..];
    }
    forall x ensures x in InSkuOrder(items) <==> x in items {
      assert x in multiset(items) <==> x in multiset(InSkuOrder(items));
    }
  }

  lemma {:induction false} FirstShortDecides(stock: map<Sku, int>, items: seq<Item>)
    ensures var r := FirstShort(stock, items);
      && (r.None? <==> forall x :: x in items ==> Available(stock, x.sku) >= x.qty)
      && (r.Some? ==> r.value in items && Available(stock, r.value.sku) < r.value.qty)
  {
    if items != [] {
      FirstShortDecides(stock, items[1..]);
      assert items == [items[0]] + items[1..];
    }
  }

  lemma {:induction false} FirstShortAt(stock: map<Sku, int>, lines: seq<Item>, k: nat)
    requires k < |lines| && Available(stock, lines[k].sku) < lines[k].qty
    requires forall j :: 0 <= j < k ==> Available(stock, lines[j].sku) >= lines[j].qty
    ensures FirstShort(stock, lines) == Some(lines[k])
  {
    if k > 0 { FirstShortAt(stock, lines[1..], k - 1); }
  }

  lemma KnownLines(stock: map<Sku, int>, items: seq<Item>)
    ensures Unknown(stock, items) == {} <==> forall x :: x in items ==> x.sku in stock
  {
    assert forall x :: x in items && x.sku !in stock ==> x.sku in Unknown(stock, items);
  }

  lemma {:induction false} InsertAscends(x: Item, items: seq<Item>)
    requires Ascending(items) && forall y :: y in items ==> y.sku != x.sku
    ensures Ascending(Insert(x, items))
  {
    if items != [] && x.sku > items[0].sku {
      assert items == [items[0]] + items[1..];
      InsertAscends(x, items[1..]);
      InsertPermutes(x, items[1..]);
      var r := Insert(x, items[1..]);
      forall y | y in r ensures items[0].sku < y.sku {
        assert y in multiset(r);
        assert y == x || y in items[1..];
      }
    }
  }

  /** Lines with distinct SKUs come out strictly ascending: no row is locked twice. */
  lemma {:induction false} SkuOrderAscends(items: seq<Item>)
    requires Distinct(items)
    ensures Ascending(InSkuOrder(items))
  {
    if items != [] {
      assert items == [items[0]] + items[1..];
      SkuOrderAscends(items[1..]);
      SkuOrderPermutes(items[1..]);
      InsertAscends(items[0], InSkuOrder(items[1..]));
    }
  }

  lemma FirstIsLeast(a: seq<Item>, b: seq<Item>)
    requires Ascending(a) && Ascending(b) && multiset(a) == multiset(b) && a != [] && b != []
    ensures a[0] == b[0]
  {
    assert a[0] in multiset(b) && b[0] in multiset(a);
    var i :| 0 <= i < |b| && b[i] == a[0];
    var j :| 0 <= j < |a| && a[j] == b[0];
    assert a[0].sku <= a[j].sku && b[0].sku <= b[i].sku;
  }

  lemma {:induction false} AscendingIsCanonical(a: seq<Item>, b: seq<Item>)
    requires Ascending(a) && Ascending(b) && multiset(a) == multiset(b)
    ensures a == b
  {
    assert |a| == |multiset(a)| == |multiset(b)| == |b|;
    if a != [] {
      FirstIsLeast(a, b);
      assert a == [a[0]] + a[1..] && b == [b[0]] + b[1..];
      assert multiset(a[1..]) == multiset(a) - multiset{a[0]} == multiset(b[1..]);
      AscendingIsCanonical(a[1..], b[1..]);
    }
  }

  lemma {:induction false} DistinctIsPermutable(a: seq<Item>, b: seq<Item>)
    requires multiset(a) == multiset(b) && Distinct(a)
    ensures Distinct(b)
  {
    forall i, j | 0 <= i < j < |b| ensures b[i].sku != b[j].sku {
      if b[i].sku == b[j].sku {
        assert b[i] in multiset(a) && b[j] in multiset(a);
        if b[i] == b[j] {
          assert b == b[..i] + [b[i]] + b[i+1..j] + [b[j]] + b[j+1..];
          assert multiset(b)[b[i]] >= 2;
          OccursTwice(a, b[i]);
        }
      }
    }
  }

  lemma {:induction false} OccursTwice(a: seq<Item>, x: Item)
    requires multiset(a)[x] >= 2
    ensures exists i, j :: 0 <= i < j < |a| && a[i] == x && a[j] == x
  {
    assert a == [a[0]] + a[1..];
    if a[0] == x {
      assert x in multiset(a[1..]);
      var j :| 0 <= j < |a[1..]| && a[1..][j] == x;
      assert a[j + 1] == x;
    } else {
      OccursTwice(a[1..], x);
      var i, j :| 0 <= i < j < |a[1..]| && a[1..][i] == x && a[1..][j] == x;
      assert a[i + 1] == x && a[j + 1] == x;
    }
  }

  // ------------------------------------------------------------------ reserve

  lemma ReserveSucceeds(db: Db, o: OrderId, items: seq<Item>)
    requires Live(RowsOf(db.rows, o)) == []
    ensures Reserve(db, o, items).result.Ok? <==>
      Distinct(items) && forall x :: x in items ==> x.sku in db.stock && db.stock[x.sku] >= x.qty
  {
    KnownLines(db.stock, items);
    SkuOrderPermutes(items);
    FirstShortDecides(db.stock, InSkuOrder(items));
  }

  /** All lines or none: exactly when it succeeds, and exactly what it then moves. */
  lemma ReserveDecides(db: Db, o: OrderId, items: seq<Item>)
    requires Live(RowsOf(db.rows, o)) == []
    ensures Reserve(db, o, items).result.Ok? <==>
      Distinct(items) && forall x :: x in items ==> x.sku in db.stock && db.stock[x.sku] >= x.qty
    ensures Reserve(db, o, items).result.Err? ==> Reserve(db, o, items).db == db
    ensures Reserve(db, o, items).result.Ok? ==>
      var db' := Reserve(db, o, items).db;
      && db'.stock.Keys == db.stock.Keys
      && (forall x :: x in items ==> db'.stock[x.sku] == db.stock[x.sku] - x.qty)
      && (forall s :: s in db.stock && (forall x :: x in items ==> x.sku != s) ==> db'.stock[s] == db.stock[s])
      && RowsOf(db'.rows, o) == RowsOf(db.rows, o) + NewRows(o, InSkuOrder(items))
  {
    ReserveSucceeds(db, o, items);
    if Reserve(db, o, items).result.Ok? {
      forall s | s in db.stock
        ensures forall x :: x in items && x.sku == s ==> Take(db.stock, items)[s] == db.stock[s] - x.qty
        ensures (forall x :: x in items ==> x.sku != s) ==> Take(db.stock, items)[s] == db.stock[s]
      {
        QtyOfLine(items, s);
      }
      RowsOfConcat(db.rows, NewRows(o, InSkuOrder(items)), o);
      NewRowsLookup(o, InSkuOrder(items), o, 0);
    }
  }

  lemma SameOrder(a: seq<Item>, b: seq<Item>)
    requires multiset(a) == multiset(b) && Distinct(a)
    ensures Distinct(b) && InSkuOrder(a) == InSkuOrder(b)
  {
    DistinctIsPermutable(a, b);
    SkuOrderAscends(a);
    SkuOrderAscends(b);
    SkuOrderPermutes(a);
    SkuOrderPermutes(b);
    AscendingIsCanonical(InSkuOrder(a), InSkuOrder(b));
  }

  lemma SameQty(a: seq<Item>, b: seq<Item>, s: Sku)
    requires InSkuOrder(a) == InSkuOrder(b)
    ensures Qty(a, s) == Qty(b, s)
  {
    QtyInSkuOrder(a, s);
    QtyInSkuOrder(b, s);
  }

  lemma SameTake(stock: map<Sku, int>, a: seq<Item>, b: seq<Item>)
    requires InSkuOrder(a) == InSkuOrder(b)
    ensures Take(stock, a) == Take(stock, b)
  {
    forall s | s in stock ensures Qty(a, s) == Qty(b, s) {
      SameQty(a, b, s);
    }
  }

  lemma SameUnknown(stock: map<Sku, int>, a: seq<Item>, b: seq<Item>)
    requires multiset(a) == multiset(b)
    ensures Unknown(stock, a) == Unknown(stock, b)
  {
    assert forall x :: (x in a <==> x in multiset(a)) && (x in b <==> x in multiset(b));
    assert forall x :: x in a <==> x in b;
  }

  /** The order in which a request lists its lines is never visible. */
  lemma ReserveIgnoresLineOrder(db: Db, o: OrderId, a: seq<Item>, b: seq<Item>)
    requires multiset(a) == multiset(b)
    ensures Reserve(db, o, a) == Reserve(db, o, b)
  {
    if Distinct(a) {
      SameOrder(a, b);
      SameTake(db.stock, a, b);
      SameUnknown(db.stock, a, b);
    } else if Distinct(b) {
      DistinctIsPermutable(b, a);
    }
  }

  /** A retry while rows are live answers them and takes nothing. */
  lemma ReserveReplays(db: Db, o: OrderId, items: seq<Item>)
    requires Reserve(db, o, items).result.Ok? && items != []
    ensures var once := Reserve(db, o, items);
      Reserve(once.db, o, items) == Reply(once.db, Ok(Live(RowsOf(once.db.rows, o))))
  {
    var once := Reserve(db, o, items);
    if Live(RowsOf(db.rows, o)) == [] {
      var lines := InSkuOrder(items);
      SkuOrderPermutes(items);
      assert items[0] in lines;
      RowsOfConcat(db.rows, NewRows(o, lines), o);
      NewRowsLookup(o, lines, o, 0);
      assert NewRows(o, lines)[0] in RowsOf(once.db.rows, o);
      InLive(RowsOf(once.db.rows, o));
    }
  }

  // ------------------------------------------------------------------ invariants of every run

  /** Stock on the shelf plus stock held by rows is the stock ever brought in. */
  ghost predicate Conserves(db: Db, supply: map<Sku, int>) {
    && supply.Keys == db.stock.Keys
    && (forall s :: s in supply ==> db.stock[s] + Held(db.rows, s) == supply[s])
  }

  /** Foreign key of a row to its product, and the check constraint on stock. */
  ghost predicate TablesOk(db: Db) {
    && (forall x :: x in db.rows ==> x.sku in db.stock)
    && (forall s :: s in db.stock ==> db.stock[s] >= 0)
  }

  /** One order's rows: live rows agree, name distinct products, and are alone if committed. */
  ghost predicate Lifecycle(rows: seq<Row>) {
    && (forall i, j :: 0 <= i < |rows| && 0 <= j < |rows| && IsLive(rows[i]) && IsLive(rows[j])
          ==> rows[i].status == rows[j].status && (rows[i].sku == rows[j].sku ==> i == j))
    && (forall i, j :: 0 <= i < |rows| && 0 <= j < |rows| && rows[i].status.Committed?
          ==> rows[j].status.Committed?)
  }

  ghost predicate AllLifecycles(db: Db) {
    forall o :: Lifecycle(RowsOf(db.rows, o))
  }

  lemma ReserveConserves(db: Db, supply: map<Sku, int>, o: OrderId, items: seq<Item>)
    requires Conserves(db, supply)
    ensures Conserves(Reserve(db, o, items).db, supply)
  {
    var added := NewRows(o, InSkuOrder(items));
    forall s | s in supply
      ensures Held(db.rows + added, s) == Held(db.rows, s) + Qty(items, s)
    {
      HeldConcat(db.rows, added, s);
      NewRowsLookup(o, InSkuOrder(items), o, s);
      QtyInSkuOrder(items, s);
    }
  }

  lemma ReleaseConserves(db: Db, supply: map<Sku, int>, o: OrderId)
    requires Conserves(db, supply)
    ensures Conserves(Release(db, o).db, supply)
  {
    forall s | s in supply
      ensures Held(SetStatus(db.rows, o, Released), s) == Held(db.rows, s) - Held(RowsOf(db.rows, o), s)
    {
      SetStatusHeld(db.rows, o, Released, s);
    }
  }

  lemma CommitConserves(db: Db, supply: map<Sku, int>, o: OrderId)
    requires Conserves(db, supply)
    ensures Conserves(Commit(db, o).db, supply)
  {
    if Commit(db, o).result.Ok? {
      forall s | s in supply ensures Held(SetStatus(db.rows, o, Committed), s) == Held(db.rows, s) {
        SetStatusHeld(db.rows, o, Committed, s);
      }
    }
  }

  lemma {:induction false} HeldUnknown(rows: seq<Row>, s: Sku)
    requires forall x :: x in rows ==> x.sku != s
    ensures Held(rows, s) == 0
  {
    if rows != [] { HeldUnknown(rows[1..], s); }
  }

  lemma ApplyConserves(db: Db, supply: map<Sku, int>, op: Op)
    requires Conserves(db, supply) && TablesOk(db)
    ensures Conserves(Apply(db, op).db, SupplyAfter(db, supply, op))
  {
    match op
    case DoReserve(o, items) => ReserveConserves(db, supply, o, items);
    case DoCommit(o) => CommitConserves(db, supply, o);
    case DoRelease(o) => ReleaseConserves(db, supply, o);
    case DoAdjust(_, _) =>
    case DoCreate(s, _) => if s !in db.stock { HeldUnknown(db.rows, s); }
  }

  lemma ReserveKeepsTables(db: Db, o: OrderId, items: seq<Item>)
    requires TablesOk(db)
    ensures TablesOk(Reserve(db, o, items).db)
  {
    if Reserve(db, o, items).result.Ok? && Live(RowsOf(db.rows, o)) == [] {
      var added := NewRows(o, InSkuOrder(items));
      SkuOrderPermutes(items);
      ReserveSucceeds(db, o, items);
      forall s | s in db.stock ensures Take(db.stock, items)[s] >= 0 {
        QtyOfLine(items, s);
      }
      forall x | x in added ensures x.sku in db.stock {
        var i :| 0 <= i < |added| && added[i] == x;
        assert InSkuOrder(items)[i] in items;
      }
    }
  }

  lemma SetStatusKeepsKeys(rows: seq<Row>, o: OrderId, st: RowStatus, stock: map<Sku, int>)
    requires forall x :: x in rows ==> x.sku in stock
    ensures forall x :: x in SetStatus(rows, o, st) ==> x.sku in stock
  {
    forall x | x in SetStatus(rows, o, st) ensures x.sku in stock {
      var i :| 0 <= i < |rows| && SetStatus(rows, o, st)[i] == x;
      assert rows[i] in rows;
    }
  }

  lemma ApplyKeepsTables(db: Db, op: Op)
    requires TablesOk(db)
    ensures TablesOk(Apply(db, op).db)
  {
    match op
    case DoReserve(o, items) => ReserveKeepsTables(db, o, items);
    case DoCommit(o) => SetStatusKeepsKeys(db.rows, o, Committed, db.stock);
    case DoRelease(o) => SetStatusKeepsKeys(db.rows, o, Released, db.stock);
    case DoAdjust(_, _) =>
    case DoCreate(_, _) =>
  }

  lemma ReserveKeepsLifecycle(rows: seq<Row>, o: OrderId, lines: seq<Item>)
    requires Lifecycle(rows) && Live(rows) == [] && Ascending(lines)
    ensures Lifecycle(rows + NewRows(o, lines))
  {
    var after := rows + NewRows(o, lines);
    forall i | 0 <= i < |after|
      ensures !after[i].status.Committed?
      ensures IsLive(after[i]) ==> |rows| <= i && after[i] == NewRows(o, lines)[i - |rows|]
    {
      if i < |rows| {
        InLive(rows);
        assert after[i] == rows[i] && rows[i] in rows;
      }
    }
  }

  predicate Takes(db: Db, o: OrderId, items: seq<Item>) {
    Reserve(db, o, items).result.Ok? && Live(RowsOf(db.rows, o)) == []
  }

  /** What a reserve does to the rows of any order. */
  lemma ReserveRows(db: Db, o: OrderId, items: seq<Item>, p: OrderId)
    ensures RowsOf(Reserve(db, o, items).db.rows, p)
         == RowsOf(db.rows, p) + (if Takes(db, o, items) && p == o then NewRows(o, InSkuOrder(items)) else [])
  {
    if Takes(db, o, items) {
      RowsOfConcat(db.rows, NewRows(o, InSkuOrder(items)), p);
      NewRowsLookup(o, InSkuOrder(items), p, 0);
    }
  }

  lemma ReserveKeepsLifecycleOf(db: Db, o: OrderId, items: seq<Item>, p: OrderId)
    requires Lifecycle(RowsOf(db.rows, p))
    ensures Lifecycle(RowsOf(Reserve(db, o, items).db.rows, p))
  {
    ReserveRows(db, o, items, p);
    if Takes(db, o, items) && p == o {
      SkuOrderAscends(items);
      ReserveKeepsLifecycle(RowsOf(db.rows, p), o, InSkuOrder(items));
    } else {
      assert RowsOf(db.rows, p) + [] == RowsOf(db.rows, p);
    }
  }

  lemma {:induction false} RowsOfOwn(rows: seq<Row>, o: OrderId)
    ensures forall i :: 0 <= i < |RowsOf(rows, o)| ==> RowsOf(rows, o)[i].order == o
  {
    if rows != [] { RowsOfOwn(rows[1..], o); }
  }

  lemma StampKeepsLifecycle(rows: seq<Row>, o: OrderId, st: RowStatus)
    requires Lifecycle(rows) && forall i :: 0 <= i < |rows| ==> rows[i].order == o
    requires st.Released? || (st.Committed? && forall i :: 0 <= i < |rows| ==> IsLive(rows[i]))
    ensures Lifecycle(SetStatus(rows, o, st))
  {
    var after := SetStatus(rows, o, st);
    assert forall i :: 0 <= i < |rows| ==> after[i] == rows[i].(status := st);
  }

  lemma CommitKeepsLifecycle(db: Db, o: OrderId)
    requires Lifecycle(RowsOf(db.rows, o))
    ensures Lifecycle(RowsOf(Commit(db, o).db.rows, o))
  {
    var rows := RowsOf(db.rows, o);
    if rows != [] && forall x :: x in rows ==> !x.status.Released? {
      SetStatusLookup(db.rows, o, Committed, o);
      RowsOfOwn(db.rows, o);
      assert forall i :: 0 <= i < |rows| ==> rows[i] in rows;
      StampKeepsLifecycle(rows, o, Committed);
    }
  }

  lemma ReleaseKeepsLifecycle(db: Db, o: OrderId, p: OrderId)
    requires Lifecycle(RowsOf(db.rows, p))
    ensures Lifecycle(RowsOf(Release(db, o).db.rows, p))
  {
    SetStatusLookup(db.rows, o, Released, p);
    if p == o {
      RowsOfOwn(db.rows, o);
      StampKeepsLifecycle(RowsOf(db.rows, o), o, Released);
    }
  }

  lemma ApplyKeepsLifecycle(db: Db, op: Op, p: OrderId)
    requires Lifecycle(RowsOf(db.rows, p))
    ensures Lifecycle(RowsOf(Apply(db, op).db.rows, p))
  {
    match op
    case DoReserve(o, items) => ReserveKeepsLifecycleOf(db, o, items, p);
    case DoCommit(o) =>
      if p == o { CommitKeepsLifecycle(db, o); } else { SetStatusLookup(db.rows, o, Committed, p); }
    case DoRelease(o) => ReleaseKeepsLifecycle(db, o, p);
    case DoAdjust(_, _) =>
    case DoCreate(_, _) =>
  }

  function SupplyRun(db: Db, supply: map<Sku, int>, ops: seq<Op>): (r: map<Sku, int>)
    requires supply.Keys == db.stock.Keys
    decreases |ops|
  {
    if ops == [] then supply
    else SupplyRun(Apply(db, ops[0]).db, SupplyAfter(db, supply, ops[0]), ops[1..])
  }

  /** Every run: stock is conserved and never negative, and each order's rows stay in step. */
  lemma {:induction false} RunKeeps(db: Db, supply: map<Sku, int>, ops: seq<Op>)
    requires Conserves(db, supply) && TablesOk(db) && AllLifecycles(db)
    ensures Conserves(Run(db, ops), SupplyRun(db, supply, ops))
    ensures TablesOk(Run(db, ops)) && AllLifecycles(Run(db, ops))
    decreases |ops|
  {
    if ops != [] {
      ApplyConserves(db, supply, ops[0]);
      ApplyKeepsTables(db, ops[0]);
      forall o ensures Lifecycle(RowsOf(Apply(db, ops[0]).db.rows, o)) {
        ApplyKeepsLifecycle(db, ops[0], o);
      }
      RunKeeps(Apply(db, ops[0]).db, SupplyAfter(db, supply, ops[0]), ops[1..]);
    }
  }

  // ------------------------------------------------------------------ release and commit

  ghost predicate EverReleased(db: Db, o: OrderId) {
    exists x :: x in RowsOf(db.rows, o) && x.status.Released?
  }

  lemma ReserveKeepsReleased(db: Db, p: OrderId, items: seq<Item>, o: OrderId)
    requires EverReleased(db, o)
    ensures EverReleased(Reserve(db, p, items).db, o)
  {
    var x :| x in RowsOf(db.rows, o) && x.status.Released?;
    ReserveRows(db, p, items, o);
    assert x in RowsOf(Reserve(db, p, items).db.rows, o);
  }

  lemma ReleaseKeepsReleased(db: Db, p: OrderId, o: OrderId)
    requires EverReleased(db, o)
    ensures EverReleased(Release(db, p).db, o)
  {
    var rows := RowsOf(db.rows, o);
    var x :| x in rows && x.status.Released?;
    SetStatusLookup(db.rows, p, Released, o);
    if p == o {
      var i :| 0 <= i < |rows| && rows[i] == x;
      var y := SetStatus(rows, o, Released)[i];
      assert y in RowsOf(Release(db, p).db.rows, o) && y.status.Released?;
    } else {
      assert x in RowsOf(Release(db, p).db.rows, o);
    }
  }

  lemma CommitKeepsReleased(db: Db, p: OrderId, o: OrderId)
    requires EverReleased(db, o)
    ensures EverReleased(Commit(db, p).db, o)
  {
    SetStatusLookup(db.rows, p, Committed, o);
  }

  lemma ReleasedStays(db: Db, op: Op, o: OrderId)
    requires EverReleased(db, o)
    ensures EverReleased(Apply(db, op).db, o)
  {
    match op
    case DoReserve(p, items) => ReserveKeepsReleased(db, p, items, o);
    case DoCommit(p) => CommitKeepsReleased(db, p, o);
    case DoRelease(p) => ReleaseKeepsReleased(db, p, o);
    case DoAdjust(_, _) =>
    case DoCreate(_, _) =>
  }

  /** After a release, no later request makes a commit acceptable, a new reserve included. */
  lemma {:induction false} CommitRefusedForEver(db: Db, o: OrderId, ops: seq<Op>)
    requires EverReleased(db, o)
    ensures Commit(Run(db, ops), o).result == Err(AlreadyReleased)
    decreases |ops|
  {
    if ops == [] {
      var x :| x in RowsOf(db.rows, o) && x.status.Released?;
    } else {
      ReleasedStays(db, ops[0], o);
      CommitRefusedForEver(Apply(db, ops[0]).db, o, ops[1..]);
    }
  }

  lemma {:induction false} NoneHeld(rows: seq<Row>, s: Sku)
    requires forall x :: x in rows ==> !IsLive(x)
    ensures Held(rows, s) == 0
  {
    if rows != [] { NoneHeld(rows[1..], s); }
  }

  lemma {:induction false} HeldStamped(rows: seq<Row>, o: OrderId, s: Sku)
    requires forall i :: 0 <= i < |rows| ==> rows[i].order == o
    ensures Held(SetStatus(rows, o, Released), s) == 0
  {
    if rows != [] {
      HeldStamped(rows[1..], o, s);
      assert SetStatus(rows, o, Released)[1..] == SetStatus(rows[1..], o, Released);
    }
  }

  /** Releasing twice is releasing once. */
  lemma ReleaseIsIdempotent(db: Db, o: OrderId)
    ensures Release(Release(db, o).db, o) == Release(db, o)
  {
    var once := Release(db, o).db;
    SetStatusLookup(db.rows, o, Released, o);
    RowsOfOwn(db.rows, o);
    forall s ensures Held(RowsOf(once.rows, o), s) == 0 { HeldStamped(RowsOf(db.rows, o), o, s); }
    assert SetStatus(once.rows, o, Released) == once.rows;
  }

  lemma HeldAfterReserve(db: Db, o: OrderId, items: seq<Item>, s: Sku)
    requires Live(RowsOf(db.rows, o)) == []
    ensures Held(RowsOf(db.rows + NewRows(o, InSkuOrder(items)), o), s) == Qty(items, s)
  {
    var added := NewRows(o, InSkuOrder(items));
    RowsOfConcat(db.rows, added, o);
    NewRowsLookup(o, InSkuOrder(items), o, s);
    InLive(RowsOf(db.rows, o));
    HeldConcat(RowsOf(db.rows, o), added, s);
    NoneHeld(RowsOf(db.rows, o), s);
    QtyInSkuOrder(items, s);
  }

  /** Releasing what a reserve took puts every unit back. */
  lemma ReleaseUndoesReserve(db: Db, o: OrderId, items: seq<Item>)
    requires Live(RowsOf(db.rows, o)) == []
    requires Reserve(db, o, items).result.Ok?
    ensures Release(Reserve(db, o, items).db, o).db.stock == db.stock
  {
    var taken := Reserve(db, o, items).db;
    var rows := RowsOf(taken.rows, o);
    forall s | s in db.stock ensures Held(rows, s) == Qty(items, s) {
      HeldAfterReserve(db, o, items, s);
    }
    assert forall s :: s in db.stock ==> taken.stock[s] + Held(rows, s) == db.stock[s];
  }
}
