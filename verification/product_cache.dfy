/**
  The cache-aside product cache and the inventory endpoints around it
  (services/inventory/app/cache.py, api/products.py, api/reservations.py).
*/
module ProductCache {
  import opened Wrappers
  import opened Inventory
  import opened InventoryLaws
  import IS = InventoryService

  datatype Info = Info(name: string, price: nat)

  datatype ProductOut = ProductOut(sku: Sku, info: Info, stock: int)

  datatype Key = ListKey | ProductKey(sku: Sku)

  /** What redis can hold under a key: our two shapes, or bytes that are not JSON. */
  datatype Payload = One(product: ProductOut) | Many(products: seq<ProductOut>) | Garbage

  type Store = map<Key, Payload>

  // ------------------------------------------------------------------ the cache

  class Cache {
    var store: Store

    constructor ()
      ensures store == map[]
    {
      store := map[];
    }

    /** `up` says whether this redis call goes through. */
    method Read(key: Key, up: bool) returns (r: Option<Payload>)
      modifies this
      ensures store == if up && key in old(store) && old(store)[key].Garbage? then old(store) - {key} else old(store)
      ensures r == if up && key in store then Some(store[key]) else None
    {
      if !up || key !in store { return None; }
      if store[key].Garbage? {
        Drop({key}, up);
        return None;
      }
      return Some(store[key]);
    }

    method Write(key: Key, payload: Payload, up: bool)
      modifies this
      ensures store == if up then old(store)[key := payload] else old(store)
    {
      if up { store := store[key := payload]; }
    }

    method Drop(keys: set<Key>, up: bool)
      modifies this
      ensures store == if up then old(store) - keys else old(store)
    {
      if up { store := store - keys; }
    }

    method GetProduct(s: Sku, up: bool) returns (r: Option<ProductOut>)
      modifies this
      ensures store.Keys <= old(store).Keys && forall k :: k in store ==> store[k] == old(store)[k]
      ensures r.Some? ==> ProductKey(s) in old(store) && old(store)[ProductKey(s)] == One(r.value)
    {
      var payload := Read(ProductKey(s), up);
      return if payload.Some? && payload.value.One? then Some(payload.value.product) else None;
    }

    method GetList(up: bool) returns (r: Option<seq<ProductOut>>)
      modifies this
      ensures store.Keys <= old(store).Keys && forall k :: k in store ==> store[k] == old(store)[k]
      ensures r.Some? ==> ListKey in old(store) && old(store)[ListKey] == Many(r.value)
    {
      var payload := Read(ListKey, up);
      return if payload.Some? && payload.value.Many? then Some(payload.value.products) else None;
    }

    method Invalidate(s: Sku, up: bool)
      modifies this
      ensures store == if up then old(store) - {ProductKey(s), ListKey} else old(store)
    {
      Drop({ProductKey(s), ListKey}, up);
    }

    /** The ttl ran out, or redis evicted the key. */
    method Expire(key: Key)
      modifies this
      ensures store == old(store) - {key}
    {
      store := store - {key};
    }
  }

  // ------------------------------------------------------------------ the table as the endpoints show it

  datatype Tables = Tables(db: Db, info: map<Sku, Info>)

  ghost predicate Sound(t: Tables) {
    && t.info.Keys == t.db.stock.Keys
    && TablesOk(t.db)
  }

  function RowOut(t: Tables, s: Sku): (r: ProductOut)
    requires s in t.db.stock && s in t.info
  {
    ProductOut(s, t.info[s], t.db.stock[s])
  }

  predicate Least(m: Sku, keys: set<Sku>) {
    m in keys && forall k :: k in keys ==> m <= k
  }

  lemma HasLeast(keys: set<Sku>)
    requires keys != {}
    ensures exists m :: Least(m, keys)
  {
    var x :| x in keys;
    var rest := keys - {x};
    if rest == {} {
      assert keys == {x} && Least(x, keys);
    } else {
      HasLeast(rest);
      var m :| Least(m, rest);
      assert keys == rest + {x};
      assert Least(if m < x then m else x, keys);
    }
  }

  function InOrder(keys: set<Sku>): (r: seq<Sku>) {
    if keys == {} then []
    else
      HasLeast(keys);
      var m :| Least(m, keys);
      [m] + InOrder(keys - {m})
  }

  predicate Climbs(keys: seq<Sku>) {
    forall i, j :: 0 <= i < j < |keys| ==> keys[i] < keys[j]
  }

  lemma ClimbsOneMore(m: Sku, rest: seq<Sku>)
    requires Climbs(rest) && forall k :: k in rest ==> m < k
    ensures Climbs([m] + rest)
  {
    assert forall i :: 0 <= i < |rest| ==> rest[i] in rest;
  }

  /** ORDER BY sku: every product once, ascending. */
  lemma {:induction false} InOrderIsExact(keys: set<Sku>)
    ensures forall k :: k in InOrder(keys) <==> k in keys
    ensures Climbs(InOrder(keys))
  {
    if keys != {} {
      HasLeast(keys);
      var m :| Least(m, keys);
      InOrderIsExact(keys - {m});
      ClimbsOneMore(m, InOrder(keys - {m}));
      assert InOrder(keys) == [m] + InOrder(keys - {m});
    }
  }

  function RowsOut(t: Tables, skus: seq<Sku>): (r: seq<ProductOut>)
    requires forall s :: s in skus ==> s in t.db.stock && s in t.info
  {
    if skus == [] then [] else [RowOut(t, skus[0])] + RowsOut(t, skus[1..])
  }

  function Catalogue(t: Tables): (r: seq<ProductOut>)
    requires t.info.Keys == t.db.stock.Keys
  {
    InOrderIsExact(t.db.stock.Keys);
    RowsOut(t, InOrder(t.db.stock.Keys))
  }

  // ------------------------------------------------------------------ agreement

  /** Whatever the cache would answer, the table answers too. */
  ghost predicate Agrees(store: Store, t: Tables)
    requires Sound(t)
  {
    && (forall s :: ProductKey(s) in store && store[ProductKey(s)].One? ==>
          s in t.db.stock && store[ProductKey(s)].product == RowOut(t, s))
    && (ListKey in store && store[ListKey].Many? ==> store[ListKey].products == Catalogue(t))
  }

  function KeysOf(skus: set<Sku>): (keys: set<Key>) {
    (set s | s in skus :: ProductKey(s)) + if skus == {} then {} else {ListKey}
  }

  /** The two tables show the same product rows outside `skus`. */
  ghost predicate SameOutside(t: Tables, u: Tables, skus: set<Sku>)
    requires Sound(t) && Sound(u)
  {
    && (forall s :: s !in skus ==> (s in t.db.stock <==> s in u.db.stock))
    && (forall s :: s !in skus && s in t.db.stock ==> RowOut(t, s) == RowOut(u, s))
  }

  lemma {:induction false} SameRowsOut(t: Tables, u: Tables, skus: seq<Sku>)
    requires forall s :: s in skus ==> s in t.db.stock && s in t.info && s in u.db.stock && s in u.info
    requires forall s :: s in skus ==> RowOut(t, s) == RowOut(u, s)
    ensures RowsOut(t, skus) == RowsOut(u, skus)
  {
    if skus != [] { SameRowsOut(t, u, skus[1..]); }
  }

  /** Dropping the products a commit changed, and the list if it changed any, is enough. */
  lemma InvalidationRestores(store: Store, t: Tables, u: Tables, skus: set<Sku>)
    requires Sound(t) && Sound(u) && Agrees(store, t) && SameOutside(t, u, skus)
    ensures Agrees(store - KeysOf(skus), u)
  {
    var left := store - KeysOf(skus);
    forall s | ProductKey(s) in left ensures s !in skus {
      assert s in skus ==> ProductKey(s) in KeysOf(skus);
    }
    if ListKey in left {
      assert skus == {};
      assert t.db.stock.Keys == u.db.stock.Keys;
      InOrderIsExact(t.db.stock.Keys);
      SameRowsOut(t, u, InOrder(t.db.stock.Keys));
    }
  }

  /** It is also needed: an entry left behind by a lost delete answers with the old stock. */
  lemma LostDeleteIsSeen(t: Tables, u: Tables, s: Sku)
    requires Sound(t) && Sound(u) && s in t.db.stock && s in u.db.stock && t.db.stock[s] != u.db.stock[s]
    ensures Agrees(map[ProductKey(s) := One(RowOut(t, s))], t)
    ensures !Agrees(map[ProductKey(s) := One(RowOut(t, s))], u)
  {
    var store: Store := map[ProductKey(s) := One(RowOut(t, s))];
    assert ProductKey(s) in store;
  }

  // ------------------------------------------------------------------ what each write changes

  function SkusOf(rows: seq<Row>): (r: set<Sku>) {
    set x | x in rows :: x.sku
  }

  lemma ReserveTouches(db: Db, o: OrderId, items: seq<Item>, s: Sku)
    requires Reserve(db, o, items).result.Ok? && s in db.stock
    requires s !in SkusOf(Reserve(db, o, items).result.value)
    ensures Reserve(db, o, items).db.stock[s] == db.stock[s]
  {
    if Live(RowsOf(db.rows, o)) == [] {
      SkuOrderPermutes(items);
      QtyOfLine(items, s);
      var lines := InSkuOrder(items);
      forall x | x in items ensures x.sku != s {
        var i :| 0 <= i < |lines| && lines[i] == x;
        assert NewRows(o, lines)[i] in NewRows(o, lines);
      }
    }
  }

  lemma ReleaseTouches(db: Db, o: OrderId, s: Sku)
    requires s in db.stock && s !in SkusOf(Release(db, o).result.value)
    ensures Release(db, o).db.stock[s] == db.stock[s]
  {
    SetStatusLookup(db.rows, o, Released, o);
    var rows, after := RowsOf(db.rows, o), SetStatus(RowsOf(db.rows, o), o, Released);
    forall x | x in rows ensures x.sku != s {
      var i :| 0 <= i < |rows| && rows[i] == x;
      assert after[i] in after && after[i].sku == x.sku;
    }
    HeldUnknown(rows, s);
  }

  /** An accepted request changes no product row outside these. */
  function Touched(op: Op, result: Result<seq<Row>, Refusal>): (skus: set<Sku>) {
    match op
    case DoReserve(_, _) => if result.Ok? then SkusOf(result.value) else {}
    case DoRelease(_) => if result.Ok? then SkusOf(result.value) else {}
    case DoAdjust(s, _) => {s}
    case DoCreate(s, _) => {s}
    case DoCommit(_) => {}
  }

  lemma WriteTouches(t: Tables, op: Op, u: Tables)
    requires Sound(t) && Apply(t.db, op).result.Ok? && u.db == Apply(t.db, op).db
    requires op.DoCreate? ==> op.sku in u.info && u.info == t.info[op.sku := u.info[op.sku]]
    requires !op.DoCreate? ==> u.info == t.info
    ensures Sound(u) && SameOutside(t, u, Touched(op, Apply(t.db, op).result))
  {
    ApplyKeepsTables(t.db, op);
    var skus := Touched(op, Apply(t.db, op).result);
    assert u.info.Keys == u.db.stock.Keys;
    forall s | s !in skus && s in t.db.stock ensures u.db.stock[s] == t.db.stock[s] {
      match op
      case DoReserve(o, items) => ReserveTouches(t.db, o, items, s);
      case DoRelease(o) => ReleaseTouches(t.db, o, s);
      case _ =>
    }
  }

  lemma KeysOneMore(skus: set<Sku>, s: Sku)
    ensures KeysOf(skus + {s}) == KeysOf(skus) + {ProductKey(s), ListKey}
  {
    forall k | k in KeysOf(skus) + {ProductKey(s), ListKey} ensures k in KeysOf(skus + {s}) {
      if k.ProductKey? { assert k.sku in skus + {s}; }
    }
  }

  // ------------------------------------------------------------------ the endpoints

  /** Redis reads and writes may fail on any call; `deleted` says whether the invalidations went through. */
  class Api {
    const inventory: IS.Service
    const cache: Cache
    var info: map<Sku, Info>

    constructor ()
      ensures fresh(inventory) && fresh(cache)
      ensures View() == Tables(Db(map[], []), map[]) && cache.store == map[]
    {
      inventory := new IS.Service();
      cache := new Cache();
      info := map[];
    }

    function View(): (t: Tables)
      reads this, inventory
    {
      Tables(inventory.Tables(), info)
    }

    ghost predicate Valid()
      reads this, inventory, cache
    {
      Sound(View()) && Agrees(cache.store, View())
    }

    method GetProduct(s: Sku, up: bool, upLater: bool) returns (r: Result<ProductOut, Refusal>)
      requires Valid()
      modifies cache
      ensures Valid()
      ensures r == if s in View().db.stock then Ok(RowOut(View(), s)) else Err(NoSuchProduct)
    {
      var cached := cache.GetProduct(s, up);
      if cached.Some? { return Ok(cached.value); }
      if s !in inventory.stock { return Err(NoSuchProduct); }
      var result := RowOut(View(), s);
      cache.Write(ProductKey(s), One(result), upLater);
      return Ok(result);
    }

    method ListProducts(limit: Option<nat>, up: bool, upLater: bool) returns (r: seq<ProductOut>)
      requires Valid()
      modifies cache
      ensures Valid()
      ensures r == if limit.Some? && limit.value < |Catalogue(View())| then Catalogue(View())[..limit.value]
                   else Catalogue(View())
    {
      var cached := cache.GetList(up);
      var products: seq<ProductOut>;
      if cached.Some? {
        products := cached.value;
      } else {
        products := Catalogue(View());
        cache.Write(ListKey, Many(products), upLater);
      }
      return if limit.Some? && limit.value < |products| then products[..limit.value] else products;
    }

    method InvalidateAll(skus: set<Sku>, deleted: bool)
      modifies cache
      ensures cache.store == if deleted then old(cache.store) - KeysOf(skus) else old(cache.store)
    {
      var todo := skus;
      ghost var gone: set<Sku> := {};
      while todo != {}
        invariant todo + gone == skus
        invariant cache.store == if deleted then old(cache.store) - KeysOf(gone) else old(cache.store)
        decreases todo
      {
        var s :| s in todo;
        KeysOneMore(gone, s);
        cache.Invalidate(s, deleted);
        todo, gone := todo - {s}, gone + {s};
      }
    }

    method CreateProduct(s: Sku, shown: Info, units: nat, deleted: bool) returns (result: Result<seq<Row>, Refusal>)
      requires Valid()
      modifies this`info, inventory, cache
      ensures View().db == Create(old(View()).db, s, units).db && result == Create(old(View()).db, s, units).result
      ensures info == if result.Ok? then old(info)[s := shown] else old(info)
      ensures Sound(View()) && (deleted ==> Valid())
    {
      ghost var before := View();
      result := inventory.Create(s, units);
      if result.Err? { return; }
      info := info[s := shown];
      WriteTouches(before, DoCreate(s, units), View());
      InvalidationRestores(cache.store, before, View(), {s});
      InvalidateAll({s}, deleted);
    }

    method AdjustStock(s: Sku, delta: int, deleted: bool) returns (result: Result<seq<Row>, Refusal>)
      requires Valid()
      modifies inventory, cache
      ensures View().db == Adjust(old(View()).db, s, delta).db && result == Adjust(old(View()).db, s, delta).result
      ensures Sound(View()) && (deleted ==> Valid())
    {
      ghost var before := View();
      result := inventory.Adjust(s, delta);
      if result.Err? { return; }
      WriteTouches(before, DoAdjust(s, delta), View());
      InvalidationRestores(cache.store, before, View(), {s});
      InvalidateAll({s}, deleted);
    }

    method CreateReservation(o: OrderId, items: seq<Item>, deleted: bool) returns (result: Result<seq<Row>, Refusal>)
      requires Valid()
      modifies inventory, cache
      ensures View().db == Reserve(old(View()).db, o, items).db
      ensures result == Reserve(old(View()).db, o, items).result
      ensures Sound(View()) && (deleted ==> Valid())
    {
      ghost var before := View();
      result := inventory.Reserve(o, items);
      if result.Err? { return; }
      WriteTouches(before, DoReserve(o, items), View());
      InvalidationRestores(cache.store, before, View(), SkusOf(result.value));
      InvalidateAll(SkusOf(result.value), deleted);
    }

    /** Committing changes no product row, and drops no key. */
    method CommitReservation(o: OrderId) returns (result: Result<seq<Row>, Refusal>)
      requires Valid()
      modifies inventory
      ensures View().db == Commit(old(View()).db, o).db && result == Commit(old(View()).db, o).result
      ensures Valid()
    {
      ghost var before := View();
      result := inventory.Commit(o);
      if result.Ok? {
        WriteTouches(before, DoCommit(o), View());
        InvalidationRestores(cache.store, before, View(), {});
        assert cache.store - KeysOf({}) == cache.store;
      }
    }

    method ReleaseReservation(o: OrderId, deleted: bool) returns (result: Result<seq<Row>, Refusal>)
      requires Valid()
      modifies inventory, cache
      ensures View().db == Release(old(View()).db, o).db && result == Release(old(View()).db, o).result
      ensures Sound(View()) && (deleted ==> Valid())
    {
      ghost var before := View();
      var returned;
      result, returned := inventory.Release(o);
      WriteTouches(before, DoRelease(o), View());
      InvalidationRestores(cache.store, before, View(), SkusOf(result.value));
      InvalidateAll(SkusOf(result.value), deleted);
    }
  }
}
