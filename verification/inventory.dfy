/**
  The inventory tables and what each request does to them, as functions on values
  (services/inventory/app/service.py). `InventoryService` shows that the statement loops
  compute these functions; `RowLocks` shows that concurrent transactions still do.

  A SKU is its rank in the sort order; a product row is its stock, keyed by SKU.
*/
module Inventory {
  import opened Wrappers

  type Sku = nat
  type OrderId = nat

  datatype Item = Item(sku: Sku, qty: nat)

  datatype RowStatus = Active | Committed | Released

  datatype Row = Row(order: OrderId, sku: Sku, qty: nat, status: RowStatus)

  datatype Db = Db(stock: map<Sku, int>, rows: seq<Row>)

  datatype Refusal =
    | DuplicateSku
    | UnknownSku(skus: set<Sku>)
    | OutOfStock(sku: Sku, available: int, requested: int)
    | UnknownReservation
    | AlreadyReleased
    | NoSuchProduct
    | SkuExists

  /** What a request answers, and the tables its transaction leaves behind. */
  datatype Reply = Reply(db: Db, result: Result<seq<Row>, Refusal>)

  // ------------------------------------------------------------------ lines

  predicate Distinct(items: seq<Item>) {
    forall i, j :: 0 <= i < j < |items| ==> items[i].sku != items[j].sku
  }

  predicate Ascending(items: seq<Item>) {
    forall i, j :: 0 <= i < j < |items| ==> items[i].sku < items[j].sku
  }

  /** Units of one SKU over all lines. */
  function Qty(items: seq<Item>, s: Sku): (n: nat) {
    if items == [] then 0
    else (if items[0].sku == s then items[0].qty else 0) + Qty(items[1..], s)
  }

  function Insert(x: Item, items: seq<Item>): (r: seq<Item>) {
    if items == [] then [x]
    else if x.sku <= items[0].sku then [x] + items
    else [items[0]] + Insert(x, items[1..])
  }

  /** The lines in SKU order: the order in which row locks are taken. */
  function InSkuOrder(items: seq<Item>): (r: seq<Item>) {
    if items == [] then [] else Insert(items[0], InSkuOrder(items[1..]))
  }

  function Unknown(stock: map<Sku, int>, items: seq<Item>): (r: set<Sku>) {
    set x | x in items && x.sku !in stock :: x.sku
  }

  function Available(stock: map<Sku, int>, s: Sku): (n: int) {
    if s in stock then stock[s] else 0
  }

  /** The first line, in the order given, that the stock cannot meet. */
  function FirstShort(stock: map<Sku, int>, items: seq<Item>): (r: Option<Item>) {
    if items == [] then None
    else if Available(stock, items[0].sku) < items[0].qty then Some(items[0])
    else FirstShort(stock, items[1..])
  }

  // ------------------------------------------------------------------ reservation rows

  predicate IsLive(r: Row) {
    !r.status.Released?
  }

  function RowsOf(rows: seq<Row>, o: OrderId): (r: seq<Row>) {
    if rows == [] then []
    else (if rows[0].order == o then [rows[0]] else []) + RowsOf(rows[1..], o)
  }

  function Live(rows: seq<Row>): (r: seq<Row>) {
    if rows == [] then [] else (if IsLive(rows[0]) then [rows[0]] else []) + Live(rows[1..])
  }

  /** Units of one SKU held by rows that have not been released. */
  function Held(rows: seq<Row>, s: Sku): (n: nat) {
    if rows == [] then 0
    else (if IsLive(rows[0]) && rows[0].sku == s then rows[0].qty else 0) + Held(rows[1..], s)
  }

  function SetStatus(rows: seq<Row>, o: OrderId, st: RowStatus): (r: seq<Row>)
    ensures |r| == |rows|
    ensures forall i :: 0 <= i < |rows| ==>
      r[i] == if rows[i].order == o then rows[i].(status := st) else rows[i]
  {
    if rows == [] then []
    else [if rows[0].order == o then rows[0].(status := st) else rows[0]] + SetStatus(rows[1..], o, st)
  }

  function NewRows(o: OrderId, items: seq<Item>, st: RowStatus := Active): (r: seq<Row>)
    ensures |r| == |items|
    ensures forall i :: 0 <= i < |items| ==> r[i] == Row(o, items[i].sku, items[i].qty, st)
  {
    if items == [] then [] else [Row(o, items[0].sku, items[0].qty, st)] + NewRows(o, items[1..], st)
  }

  // ------------------------------------------------------------------ requests

  function Take(stock: map<Sku, int>, items: seq<Item>): (r: map<Sku, int>) {
    map s | s in stock :: stock[s] - Qty(items, s)
  }

  function Reserve(db: Db, o: OrderId, items: seq<Item>): (r: Reply) {
    if !Distinct(items) then Reply(db, Err(DuplicateSku))
    else if Live(RowsOf(db.rows, o)) != [] then Reply(db, Ok(Live(RowsOf(db.rows, o))))
    else if Unknown(db.stock, items) != {} then Reply(db, Err(UnknownSku(Unknown(db.stock, items))))
    else match FirstShort(db.stock, InSkuOrder(items))
      case Some(x) => Reply(db, Err(OutOfStock(x.sku, Available(db.stock, x.sku), x.qty)))
      case None =>
        var added := NewRows(o, InSkuOrder(items));
        Reply(Db(Take(db.stock, items), db.rows + added), Ok(added))
  }

  function Commit(db: Db, o: OrderId): (r: Reply) {
    if RowsOf(db.rows, o) == [] then Reply(db, Err(UnknownReservation))
    else if exists x :: x in RowsOf(db.rows, o) && x.status.Released? then Reply(db, Err(AlreadyReleased))
    else
      var rows := SetStatus(db.rows, o, Committed);
      Reply(db.(rows := rows), Ok(RowsOf(rows, o)))
  }

  function Release(db: Db, o: OrderId): (r: Reply) {
    var rows := SetStatus(db.rows, o, Released);
    Reply(Db(map s | s in db.stock :: db.stock[s] + Held(RowsOf(db.rows, o), s), rows),
          Ok(RowsOf(rows, o)))
  }

  function Adjust(db: Db, s: Sku, delta: int): (r: Reply) {
    if s !in db.stock then Reply(db, Err(NoSuchProduct))
    else if delta < 0 && db.stock[s] < -delta then Reply(db, Err(OutOfStock(s, db.stock[s], -delta)))
    else Reply(db.(stock := db.stock[s := db.stock[s] + delta]), Ok([]))
  }

  function Create(db: Db, s: Sku, units: nat): (r: Reply) {
    if s in db.stock then Reply(db, Err(SkuExists)) else Reply(db.(stock := db.stock[s := units]), Ok([]))
  }

  // ------------------------------------------------------------------ runs

  datatype Op =
    | DoReserve(order: OrderId, items: seq<Item>)
    | DoCommit(order: OrderId)
    | DoRelease(order: OrderId)
    | DoAdjust(sku: Sku, delta: int)
    | DoCreate(sku: Sku, units: nat)

  function Apply(db: Db, op: Op): (r: Reply) {
    match op
    case DoReserve(o, items) => Reserve(db, o, items)
    case DoCommit(o) => Commit(db, o)
    case DoRelease(o) => Release(db, o)
    case DoAdjust(s, delta) => Adjust(db, s, delta)
    case DoCreate(s, units) => Create(db, s, units)
  }

  function Run(db: Db, ops: seq<Op>): (r: Db)
    decreases |ops|
  {
    if ops == [] then db else Run(Apply(db, ops[0]).db, ops[1..])
  }

  /** Units ever brought in, by SKU: creations and accepted adjustments. */
  function SupplyAfter(db: Db, supply: map<Sku, int>, op: Op): (r: map<Sku, int>)
    requires supply.Keys == db.stock.Keys
  {
    if Apply(db, op).result.Err? then supply
    else match op
      case DoAdjust(s, delta) => supply[s := supply[s] + delta]
      case DoCreate(s, units) => supply[s := units]
      case _ => supply
  }
}
