/**
  Concurrent inventory transactions, UPDATE by UPDATE, under row locks held to commit
  (services/inventory/app/service.py:123-160, 188-198 under READ COMMITTED).

  The main result is that the interleaving is invisible: at every moment the committed
  tables are those of a one-at-a-time run of `Inventory`, each request taking effect at its
  commit and each refusal being the one `Inventory` gives at that moment.

  Two requests for one order are assumed not to overlap: the code reads an order's rows
  without locking them.
*/
module RowLocks {
  import opened Wrappers
  import opened Inventory
  import opened InventoryLaws

  datatype Kind = Reserving(items: seq<Item>) | Releasing | Removing | Adding

  datatype Phase = Running | Done | RolledBack

  /** A transaction that updates one product row per line, in SKU order; `done` lines have run. */
  datatype Txn = Txn(kind: Kind, order: OrderId, lines: seq<Item>, done: nat, phase: Phase)

  /** `stock` is the product table with every uncommitted update applied. */
  datatype State = State(stock: map<Sku, int>, rows: seq<Row>, txns: seq<Txn>)

  predicate TakesStock(k: Kind) {
    k.Reserving? || k.Removing?
  }

  predicate OnOrder(t: Txn) {
    t.phase.Running? && (t.kind.Reserving? || t.kind.Releasing?)
  }

  function Change(k: Kind, units: int): (d: int) {
    if TakesStock(k) then -units else units
  }

  /** Uncommitted change of one transaction to one product. */
  function Pending(t: Txn, s: Sku): (d: int)
    requires t.done <= |t.lines|
  {
    if t.phase.Running? then Change(t.kind, Qty(t.lines[..t.done], s)) else 0
  }

  predicate Shaped(txns: seq<Txn>) {
    forall i :: 0 <= i < |txns| ==> txns[i].done <= |txns[i].lines|
  }

  function InFlight(txns: seq<Txn>, s: Sku): (d: int)
    requires Shaped(txns)
  {
    if txns == [] then 0 else Pending(txns[0], s) + InFlight(txns[1..], s)
  }

  /** The tables as the last commit left them. */
  function View(st: State): (db: Db)
    requires Shaped(st.txns)
  {
    Db(map s | s in st.stock :: st.stock[s] - InFlight(st.txns, s), st.rows)
  }

  /** Row locks: every product the transaction has updated, until it ends. */
  predicate Locks(t: Txn, s: Sku)
    requires t.done <= |t.lines|
  {
    t.phase.Running? && exists x :: x in t.lines[..t.done] && x.sku == s
  }

  // ------------------------------------------------------------------ steps

  datatype Step =
    | BeginReserve(order: OrderId, items: seq<Item>)
    | BeginRelease(order: OrderId)
    | BeginAdjust(sku: Sku, delta: int)
    | CommitRows(order: OrderId)
    | Exec(t: nat)
    | Refuse(t: nat)
    | Finish(t: nat)
    | Abort(t: nat)

  predicate Idle(st: State, o: OrderId) {
    forall i :: 0 <= i < |st.txns| && OnOrder(st.txns[i]) ==> st.txns[i].order != o
  }

  predicate Midway(st: State, t: nat) {
    t < |st.txns| && st.txns[t].phase.Running? && st.txns[t].done < |st.txns[t].lines|
  }

  predicate Free(st: State, t: nat, s: Sku)
    requires Shaped(st.txns)
  {
    forall u :: 0 <= u < |st.txns| && u != t ==> !Locks(st.txns[u], s)
  }

  function LinesOf(rows: seq<Row>): (r: seq<Item>) {
    if rows == [] then [] else [Item(rows[0].sku, rows[0].qty)] + LinesOf(rows[1..])
  }

  /** The line's product is unlocked, and a line that takes stock finds enough of it. */
  predicate CanExec(st: State, t: nat)
    requires Shaped(st.txns)
  {
    && Midway(st, t)
    && var line := st.txns[t].lines[st.txns[t].done];
    && Free(st, t, line.sku)
    && (TakesStock(st.txns[t].kind) ==> Available(st.stock, line.sku) >= line.qty)
  }

  predicate Enabled(st: State, step: Step)
    requires Shaped(st.txns)
  {
    match step
    case BeginReserve(o, items) =>
      Idle(st, o) && Distinct(items) && Live(RowsOf(st.rows, o)) == [] && Unknown(st.stock, items) == {}
    case BeginRelease(o) => Idle(st, o)
    case BeginAdjust(s, delta) => s in st.stock && delta != 0
    case CommitRows(o) => Idle(st, o)
    case Exec(t) => CanExec(st, t)
    case Refuse(t) =>
      // The UPDATE matches no row: its snapshot, the committed value, is already too low.
      && Midway(st, t)
      && TakesStock(st.txns[t].kind)
      && var line := st.txns[t].lines[st.txns[t].done];
      && Available(View(st).stock, line.sku) < line.qty
    case Finish(t) => t < |st.txns| && st.txns[t].phase.Running? && st.txns[t].done == |st.txns[t].lines|
    case Abort(t) => t < |st.txns| && st.txns[t].phase.Running?
  }

  function Begin(st: State, t: Txn): (r: State) {
    st.(txns := st.txns + [t])
  }

  function End(st: State, t: nat, phase: Phase): (r: seq<Txn>)
    requires t < |st.txns|
  {
    st.txns[t := st.txns[t].(phase := phase)]
  }

  function RollBack(st: State, t: nat): (r: State)
    requires Shaped(st.txns) && t < |st.txns|
  {
    st.(stock := map s | s in st.stock :: st.stock[s] - Pending(st.txns[t], s), txns := End(st, t, RolledBack))
  }

  function ReserveTxn(o: OrderId, items: seq<Item>): (t: Txn) {
    Txn(Reserving(items), o, InSkuOrder(items), 0, Running)
  }

  function ReleaseTxn(st: State, o: OrderId): (t: Txn) {
    Txn(Releasing, o, InSkuOrder(LinesOf(Live(RowsOf(st.rows, o)))), 0, Running)
  }

  function AdjustTxn(s: Sku, delta: int): (t: Txn) {
    if delta < 0 then Txn(Removing, 0, [Item(s, -delta)], 0, Running)
    else Txn(Adding, 0, [Item(s, delta)], 0, Running)
  }

  /** The next UPDATE of a transaction, and its row lock. */
  function NextExec(st: State, t: nat): (r: State)
    requires Midway(st, t)
  {
    var txn := st.txns[t];
    var line := txn.lines[txn.done];
    st.(stock := st.stock[line.sku := Available(st.stock, line.sku) + Change(txn.kind, line.qty)],
        txns := st.txns[t := txn.(done := txn.done + 1)])
  }

  function Next(st: State, step: Step): (r: State)
    requires Shaped(st.txns) && Enabled(st, step)
    ensures Shaped(r.txns)
  {
    match step
    case BeginReserve(o, items) => Begin(st, ReserveTxn(o, items))
    case BeginRelease(o) => Begin(st, ReleaseTxn(st, o))
    case BeginAdjust(s, delta) => Begin(st, AdjustTxn(s, delta))
    case CommitRows(o) => st.(rows := Commit(View(st), o).db.rows)
    case Exec(t) => NextExec(st, t)
    case Refuse(t) => RollBack(st, t)
    case Abort(t) => RollBack(st, t)
    case Finish(t) =>
      var txn := st.txns[t];
      var rows := match txn.kind
        case Reserving(_) => st.rows + NewRows(txn.order, txn.lines)
        case Releasing => SetStatus(st.rows, txn.order, Released)
        case _ => st.rows;
      st.(rows := rows, txns := End(st, t, Done))
  }

  /** The request that takes effect at this step, if any. */
  function Effect(st: State, step: Step): (r: seq<Op>)
    requires Shaped(st.txns) && Enabled(st, step)
  {
    match step
    case CommitRows(o) => [DoCommit(o)]
    case Finish(t) =>
      var txn := st.txns[t];
      (match txn.kind
       case Reserving(items) => [DoReserve(txn.order, items)]
       case Releasing => [DoRelease(txn.order)]
       case _ => if |txn.lines| == 1 then [DoAdjust(txn.lines[0].sku, Change(txn.kind, txn.lines[0].qty))] else [])
    case _ => []
  }

  // ------------------------------------------------------------------ invariant

  ghost predicate TxnOk(t: Txn, st: State) {
    && t.done <= |t.lines|
    && Ascending(t.lines)
    && (forall x :: x in t.lines ==> x.sku in st.stock)
    && (t.phase.Running? ==>
          match t.kind
          case Reserving(items) =>
            t.lines == InSkuOrder(items) && Distinct(items) && Live(RowsOf(st.rows, t.order)) == []
          case Releasing => forall s :: Qty(t.lines, s) == Held(RowsOf(st.rows, t.order), s)
          case _ => |t.lines| == 1)
  }

  /** No product row is locked twice, and no order has two requests running. */
  ghost predicate Exclusive(txns: seq<Txn>)
    requires Shaped(txns)
  {
    forall i, j :: 0 <= i < j < |txns| ==>
      && (forall s :: !(Locks(txns[i], s) && Locks(txns[j], s)))
      && (OnOrder(txns[i]) && OnOrder(txns[j]) ==> txns[i].order != txns[j].order)
  }

  /** Never oversold: neither the table as it stands nor the table as committed. */
  ghost predicate NeverNegative(st: State)
    requires Shaped(st.txns)
  {
    forall s :: s in st.stock ==> st.stock[s] >= 0 && st.stock[s] - InFlight(st.txns, s) >= 0
  }

  ghost predicate Sound(st: State) {
    && (forall i :: 0 <= i < |st.txns| ==> TxnOk(st.txns[i], st))
    && Exclusive(st.txns)
    && NeverNegative(st)
    && TablesOk(View(st))
    && AllLifecycles(View(st))
  }

  // ------------------------------------------------------------------ uncommitted changes

  lemma {:induction false} InFlightUpdate(txns: seq<Txn>, t: nat, x: Txn, s: Sku)
    requires Shaped(txns) && t < |txns| && x.done <= |x.lines|
    ensures InFlight(txns[t := x], s) == InFlight(txns, s) - Pending(txns[t], s) + Pending(x, s)
  {
    if t == 0 {
      assert txns[t := x][1..] == txns[1..];
    } else {
      InFlightUpdate(txns[1..], t - 1, x, s);
      assert txns[t := x][1..] == txns[1..][t - 1 := x];
    }
  }

  lemma {:induction false} InFlightAppend(txns: seq<Txn>, x: Txn, s: Sku)
    requires Shaped(txns) && x.done <= |x.lines|
    ensures InFlight(txns + [x], s) == InFlight(txns, s) + Pending(x, s)
  {
    if txns == [] {
      assert txns + [x] == [x];
    } else {
      InFlightAppend(txns[1..], x, s);
      assert (txns + [x])[1..] == txns[1..] + [x];
    }
  }

  lemma {:induction false} UntouchedQty(items: seq<Item>, s: Sku)
    requires forall x :: x in items ==> x.sku != s
    ensures Qty(items, s) == 0
  {
    if items != [] { UntouchedQty(items[1..], s); }
  }

  lemma {:induction false} UnlockedIsSettled(txns: seq<Txn>, s: Sku)
    requires Shaped(txns) && forall i :: 0 <= i < |txns| ==> !Locks(txns[i], s)
    ensures InFlight(txns, s) == 0
  {
    if txns != [] {
      if txns[0].phase.Running? { UntouchedQty(txns[0].lines[..txns[0].done], s); }
      UnlockedIsSettled(txns[1..], s);
    }
  }

  lemma Apart(txns: seq<Txn>, i: nat, j: nat, s: Sku)
    requires Shaped(txns) && Exclusive(txns) && i < |txns| && j < |txns| && i != j
    ensures !(Locks(txns[i], s) && Locks(txns[j], s))
  {
    var a, b := if i < j then i else j, if i < j then j else i;
    assert !(Locks(txns[a], s) && Locks(txns[b], s));
  }

  /** A product locked by one transaction carries that transaction's change and no other. */
  lemma LockedBySole(txns: seq<Txn>, t: nat, s: Sku)
    requires Shaped(txns) && Exclusive(txns) && t < |txns| && Locks(txns[t], s)
    ensures InFlight(txns, s) == Pending(txns[t], s)
  {
    var ended := txns[t := txns[t].(phase := Done)];
    forall i | 0 <= i < |ended| ensures !Locks(ended[i], s) {
      if i != t { Apart(txns, i, t, s); }
    }
    UnlockedIsSettled(ended, s);
    InFlightUpdate(txns, t, txns[t].(phase := Done), s);
  }

  lemma NotLockedBy(t: Txn, s: Sku)
    requires t.done <= |t.lines| && !Locks(t, s)
    ensures Pending(t, s) == 0
  {
    if t.phase.Running? { UntouchedQty(t.lines[..t.done], s); }
  }

  // ------------------------------------------------------------------ every step

  /** Ending one transaction, however it ends, leaves no change of its own in flight. */
  lemma EndSettles(st: State, t: nat, phase: Phase, s: Sku)
    requires Sound(st) && t < |st.txns| && !phase.Running? && s in st.stock
    ensures Shaped(End(st, t, phase))
    ensures InFlight(End(st, t, phase), s) == InFlight(st.txns, s) - Pending(st.txns[t], s)
    ensures Locks(st.txns[t], s) ==> InFlight(End(st, t, phase), s) == 0
    ensures !Locks(st.txns[t], s) ==> Pending(st.txns[t], s) == 0
  {
    InFlightUpdate(st.txns, t, st.txns[t].(phase := phase), s);
    if Locks(st.txns[t], s) { LockedBySole(st.txns, t, s); } else { NotLockedBy(st.txns[t], s); }
  }

  lemma EndIsExclusive(st: State, t: nat, phase: Phase)
    requires Sound(st) && t < |st.txns| && !phase.Running?
    ensures Shaped(End(st, t, phase)) && Exclusive(End(st, t, phase))
  {
  }

  lemma RollBackOk(st: State, t: nat)
    requires Sound(st) && t < |st.txns| && st.txns[t].phase.Running?
    ensures Sound(RollBack(st, t)) && View(RollBack(st, t)) == View(st)
  {
    var st' := RollBack(st, t);
    EndIsExclusive(st, t, RolledBack);
    forall s | s in st.stock
      ensures st'.stock[s] >= 0 && st'.stock[s] - InFlight(st'.txns, s) == st.stock[s] - InFlight(st.txns, s)
    {
      EndSettles(st, t, RolledBack, s);
    }
    assert forall i :: 0 <= i < |st'.txns| && i != t ==> st'.txns[i] == st.txns[i];
    assert View(st').stock == View(st).stock;
  }

  lemma ExecStock(st: State, t: nat, s: Sku)
    requires Sound(st) && CanExec(st, t) && s in st.stock
    ensures var st' := NextExec(st, t);
      s in st'.stock && st'.stock[s] >= 0
      && Shaped(st'.txns) && st'.stock[s] - InFlight(st'.txns, s) == st.stock[s] - InFlight(st.txns, s)
  {
    var txn := st.txns[t];
    assert txn.lines[txn.done] in txn.lines;
    InFlightUpdate(st.txns, t, NextExec(st, t).txns[t], s);
    QtyOfPrefix(txn.lines, txn.done, s);
  }

  lemma ExecOk(st: State, t: nat)
    requires Sound(st) && CanExec(st, t)
    ensures Sound(NextExec(st, t)) && View(NextExec(st, t)) == View(st)
  {
    var st' := NextExec(st, t);
    var txn := st.txns[t];
    assert txn.lines[txn.done] in txn.lines;
    forall s | s in st.stock
      ensures st'.stock[s] >= 0 && st'.stock[s] - InFlight(st'.txns, s) == st.stock[s] - InFlight(st.txns, s)
    {
      ExecStock(st, t, s);
    }
    ExecIsExclusive(st, t);
    assert forall i :: 0 <= i < |st'.txns| && i != t ==> st'.txns[i] == st.txns[i];
    assert View(st').stock == View(st).stock;
  }

  /** What a transaction has locked after its next UPDATE, nobody else has. */
  lemma ExecLocks(st: State, t: nat, s: Sku)
    requires Sound(st) && CanExec(st, t) && Locks(NextExec(st, t).txns[t], s)
    ensures Free(st, t, s)
  {
    var txn, txn' := st.txns[t], NextExec(st, t).txns[t];
    var line := txn.lines[txn.done];
    assert txn.lines[..txn.done + 1] == txn.lines[..txn.done] + [line];
    if s != line.sku {
      var x :| x in txn'.lines[..txn'.done] && x.sku == s;
      assert Locks(txn, s);
      forall u | 0 <= u < |st.txns| && u != t ensures !Locks(st.txns[u], s) { Apart(st.txns, u, t, s); }
    }
  }

  lemma ExecIsExclusive(st: State, t: nat)
    requires Sound(st) && CanExec(st, t)
    ensures Shaped(NextExec(st, t).txns) && Exclusive(NextExec(st, t).txns)
  {
    var txns := NextExec(st, t).txns;
    forall s | Locks(txns[t], s) ensures Free(st, t, s) { ExecLocks(st, t, s); }
    forall i, j | 0 <= i < j < |txns|
      ensures forall s :: !(Locks(txns[i], s) && Locks(txns[j], s))
      ensures OnOrder(txns[i]) && OnOrder(txns[j]) ==> txns[i].order != txns[j].order
    {
      forall s ensures !(Locks(txns[i], s) && Locks(txns[j], s)) {
        if i != t && j != t { Apart(st.txns, i, j, s); }
      }
    }
  }


  // ---- commit points

  /** A line already run is one the committed stock can meet: nothing else can have touched it. */
  lemma RunLinesAreMet(st: State, t: nat, j: nat)
    requires Sound(st) && t < |st.txns| && st.txns[t].phase.Running? && TakesStock(st.txns[t].kind)
    requires j < st.txns[t].done
    ensures var line := st.txns[t].lines[j];
      line.sku in st.stock && Available(View(st).stock, line.sku) >= line.qty
  {
    var txn := st.txns[t];
    var line := txn.lines[j];
    assert line in txn.lines && txn.lines[..txn.done][j] == line;
    LockedBySole(st.txns, t, line.sku);
    QtyOfLine(txn.lines[..txn.done], line.sku);
  }

  /** A refused UPDATE is the refusal the whole request would get from the committed tables. */
  lemma RefusalIsAtomic(st: State, t: nat)
    requires Sound(st) && Enabled(st, Refuse(t)) && st.txns[t].kind.Reserving?
    ensures var txn := st.txns[t];
      var line := txn.lines[txn.done];
      Reserve(View(st), txn.order, txn.kind.items)
        == Reply(View(st), Err(OutOfStock(line.sku, View(st).stock[line.sku], line.qty)))
  {
    var txn := st.txns[t];
    assert txn.lines[txn.done] in txn.lines;
    forall j | 0 <= j < txn.done ensures Available(View(st).stock, txn.lines[j].sku) >= txn.lines[j].qty {
      RunLinesAreMet(st, t, j);
    }
    FirstShortAt(View(st).stock, txn.lines, txn.done);
    SkuOrderPermutes(txn.kind.items);
    KnownLines(View(st).stock, txn.kind.items);
  }

  lemma AllRunIsMet(st: State, t: nat)
    requires Sound(st) && Enabled(st, Finish(t)) && st.txns[t].kind.Reserving?
    ensures Unknown(View(st).stock, st.txns[t].kind.items) == {}
    ensures FirstShort(View(st).stock, st.txns[t].lines).None?
  {
    var txn := st.txns[t];
    SkuOrderPermutes(txn.kind.items);
    KnownLines(View(st).stock, txn.kind.items);
    forall j | 0 <= j < |txn.lines| ensures Available(View(st).stock, txn.lines[j].sku) >= txn.lines[j].qty {
      RunLinesAreMet(st, t, j);
    }
    FirstShortDecides(View(st).stock, txn.lines);
  }

  lemma FinishStock(st: State, t: nat, s: Sku)
    requires Sound(st) && Enabled(st, Finish(t)) && s in st.stock
    ensures View(Next(st, Finish(t))).stock[s]
         == View(st).stock[s] + Change(st.txns[t].kind, Qty(st.txns[t].lines, s))
  {
    assert st.txns[t].lines[..st.txns[t].done] == st.txns[t].lines;
    EndSettles(st, t, Done, s);
  }

  lemma FinishReserve(st: State, t: nat)
    requires Sound(st) && Enabled(st, Finish(t)) && st.txns[t].kind.Reserving?
    ensures var txn, after := st.txns[t], View(Next(st, Finish(t)));
      Reserve(View(st), txn.order, txn.kind.items) == Reply(after, Ok(NewRows(txn.order, txn.lines)))
  {
    var items := st.txns[t].kind.items;
    var st' := Next(st, Finish(t));
    AllRunIsMet(st, t);
    forall s | s in st.stock ensures View(st').stock[s] == View(st).stock[s] - Qty(items, s) {
      FinishStock(st, t, s);
      QtyInSkuOrder(items, s);
    }
    assert View(st').stock == Take(View(st).stock, items);
  }

  lemma FinishRelease(st: State, t: nat)
    requires Sound(st) && Enabled(st, Finish(t)) && st.txns[t].kind.Releasing?
    ensures Release(View(st), st.txns[t].order).db == View(Next(st, Finish(t)))
  {
    var txn := st.txns[t];
    var st' := Next(st, Finish(t));
    forall s | s in st.stock
      ensures View(st').stock[s] == View(st).stock[s] + Held(RowsOf(st.rows, txn.order), s)
    {
      FinishStock(st, t, s);
      assert Qty(txn.lines, s) == Held(RowsOf(st.rows, txn.order), s);
    }
  }

  lemma FinishAdjust(st: State, t: nat)
    requires Sound(st) && Enabled(st, Finish(t)) && (st.txns[t].kind.Adding? || st.txns[t].kind.Removing?)
    ensures var txn := st.txns[t];
      Adjust(View(st), txn.lines[0].sku, Change(txn.kind, txn.lines[0].qty)) == Reply(View(Next(st, Finish(t))), Ok([]))
  {
    var txn := st.txns[t];
    var st' := Next(st, Finish(t));
    var line := txn.lines[0];
    assert txn.lines == [line] && line in txn.lines;
    if txn.kind.Removing? { RunLinesAreMet(st, t, 0); }
    forall s | s in st.stock
      ensures View(st').stock[s] == View(st).stock[s] + (if s == line.sku then Change(txn.kind, line.qty) else 0)
    {
      FinishStock(st, t, s);
      QtyOfLine([line], s);
    }
  }

  /** At its commit, and only there, a request acts on the committed tables as `Inventory` says. */
  lemma FinishIsAtomic(st: State, t: nat)
    requires Sound(st) && Enabled(st, Finish(t))
    ensures |Effect(st, Finish(t))| == 1
    ensures var op := Effect(st, Finish(t))[0];
      Apply(View(st), op).db == View(Next(st, Finish(t))) && Apply(View(st), op).result.Ok?
  {
    match st.txns[t].kind
    case Reserving(_) => FinishReserve(st, t);
    case Releasing => FinishRelease(st, t);
    case Removing => FinishAdjust(st, t);
    case Adding => FinishAdjust(st, t);
  }

  /** Ending a transaction leaves every other running request's own rows alone. */
  lemma OthersRows(st: State, t: nat, u: nat)
    requires Sound(st) && Enabled(st, Finish(t)) && u < |st.txns| && u != t && OnOrder(st.txns[u])
    ensures RowsOf(Next(st, Finish(t)).rows, st.txns[u].order) == RowsOf(st.rows, st.txns[u].order)
  {
    var txn, o := st.txns[t], st.txns[u].order;
    assert OnOrder(txn) ==> txn.order != o by {
      if u < t { assert OnOrder(st.txns[u]); }
    }
    match txn.kind
    case Reserving(_) =>
      RowsOfConcat(st.rows, NewRows(txn.order, txn.lines), o);
      NewRowsLookup(txn.order, txn.lines, o, 0);
    case Releasing => SetStatusLookup(st.rows, txn.order, Released, o);
    case Removing =>
    case Adding =>
  }

  lemma FinishSound(st: State, t: nat)
    requires Sound(st) && Enabled(st, Finish(t))
    ensures Sound(Next(st, Finish(t)))
  {
    var st' := Next(st, Finish(t));
    EndIsExclusive(st, t, Done);
    FinishIsAtomic(st, t);
    ApplyKeepsTables(View(st), Effect(st, Finish(t))[0]);
    forall o ensures Lifecycle(RowsOf(View(st').rows, o)) {
      ApplyKeepsLifecycle(View(st), Effect(st, Finish(t))[0], o);
    }
    forall s | s in st'.stock ensures st'.stock[s] - InFlight(st'.txns, s) >= 0 {
      assert View(st').stock[s] >= 0;
    }
    forall u | 0 <= u < |st'.txns| ensures TxnOk(st'.txns[u], st') {
      if u != t && OnOrder(st.txns[u]) { OthersRows(st, t, u); }
    }
  }

  // ---- begins and row commits

  lemma {:induction false} LinesOfRows(rows: seq<Row>, s: Sku)
    ensures |LinesOf(rows)| == |rows|
    ensures forall i :: 0 <= i < |rows| ==> LinesOf(rows)[i] == Item(rows[i].sku, rows[i].qty)
    ensures (forall x :: x in rows ==> IsLive(x)) ==> Qty(LinesOf(rows), s) == Held(rows, s)
  {
    if rows != [] {
      LinesOfRows(rows[1..], s);
      assert LinesOf(rows)[1..] == LinesOf(rows[1..]);
    }
  }

  lemma {:induction false} HeldByLive(rows: seq<Row>, s: Sku)
    ensures Held(Live(rows), s) == Held(rows, s)
  {
    if rows != [] {
      HeldByLive(rows[1..], s);
      if IsLive(rows[0]) {
        assert Live(rows) == [rows[0]] + Live(rows[1..]);
        assert Live(rows)[1..] == Live(rows[1..]);
      } else {
        assert Live(rows) == Live(rows[1..]);
      }
    }
  }

  predicate DistinctSkus(rows: seq<Row>) {
    forall i, j :: 0 <= i < j < |rows| ==> rows[i].sku != rows[j].sku
  }

  lemma DistinctOneMore(x: Row, rows: seq<Row>)
    requires DistinctSkus(rows) && forall y :: y in rows ==> y.sku != x.sku
    ensures DistinctSkus([x] + rows)
  {
    assert forall j :: 0 <= j < |rows| ==> rows[j] in rows;
  }

  lemma {:induction false} LiveOfLifecycle(rows: seq<Row>)
    requires Lifecycle(rows)
    ensures DistinctSkus(Live(rows))
  {
    if rows != [] {
      var rest := rows[1..];
      assert Lifecycle(rest) by {
        assert forall i :: 0 <= i < |rest| ==> rest[i] == rows[i + 1];
      }
      LiveOfLifecycle(rest);
      if IsLive(rows[0]) {
        InLive(rest);
        forall y | y in Live(rest) ensures y.sku != rows[0].sku {
          var i :| 0 <= i < |rest| && rest[i] == y;
          assert rows[i + 1] == y && IsLive(y);
        }
        DistinctOneMore(rows[0], Live(rest));
      } else {
        assert Live(rows) == Live(rest);
      }
    }
  }

  lemma LiveLinesAdd(rows: seq<Row>, s: Sku)
    ensures Qty(InSkuOrder(LinesOf(Live(rows))), s) == Held(rows, s)
  {
    InLive(rows);
    QtyInSkuOrder(LinesOf(Live(rows)), s);
    LinesOfRows(Live(rows), s);
    HeldByLive(rows, s);
  }

  lemma LiveLinesAscend(rows: seq<Row>)
    requires Lifecycle(rows)
    ensures Ascending(InSkuOrder(LinesOf(Live(rows))))
  {
    LiveOfLifecycle(rows);
    LinesOfRows(Live(rows), 0);
    SkuOrderAscends(LinesOf(Live(rows)));
  }

  lemma LiveLinesAreOfRows(rows: seq<Row>, x: Item)
    requires x in InSkuOrder(LinesOf(Live(rows)))
    ensures exists row :: row in rows && row.sku == x.sku
  {
    var live := Live(rows);
    SkuOrderPermutes(LinesOf(live));
    LinesOfRows(live, 0);
    assert x in multiset(LinesOf(live));
    var i :| 0 <= i < |live| && LinesOf(live)[i] == x;
    InLive(rows);
    assert live[i] in rows;
  }

  /** A release locks each product once: the live rows of one order name distinct products. */
  lemma ReleaseLines(st: State, o: OrderId)
    requires Sound(st)
    ensures var lines := InSkuOrder(LinesOf(Live(RowsOf(st.rows, o))));
      && Ascending(lines)
      && (forall x :: x in lines ==> x.sku in st.stock)
      && (forall s :: Qty(lines, s) == Held(RowsOf(st.rows, o), s))
  {
    var rows := RowsOf(st.rows, o);
    assert rows == RowsOf(View(st).rows, o);
    LiveLinesAscend(rows);
    forall s ensures Qty(InSkuOrder(LinesOf(Live(rows))), s) == Held(rows, s) { LiveLinesAdd(rows, s); }
    forall x | x in InSkuOrder(LinesOf(Live(rows))) ensures x.sku in st.stock {
      LiveLinesAreOfRows(rows, x);
      var row :| row in rows && row.sku == x.sku;
      InRowsOf(st.rows, o);
      assert row in View(st).rows;
    }
  }

  lemma BeginSound(st: State, t: Txn)
    requires Sound(st) && TxnOk(t, st) && t.done == 0 && t.phase.Running?
    requires OnOrder(t) ==> Idle(st, t.order)
    ensures Sound(Begin(st, t)) && View(Begin(st, t)) == View(st)
  {
    var st' := Begin(st, t);
    forall s ensures InFlight(st'.txns, s) == InFlight(st.txns, s) {
      InFlightAppend(st.txns, t, s);
    }
    assert forall i :: 0 <= i < |st.txns| ==> st'.txns[i] == st.txns[i];
    assert forall s :: !Locks(t, s);
    assert View(st').stock == View(st).stock;
  }

  lemma TxnStays(t: Txn, st: State, rows: seq<Row>)
    requires TxnOk(t, st) && (OnOrder(t) ==> RowsOf(rows, t.order) == RowsOf(st.rows, t.order))
    ensures TxnOk(t, st.(rows := rows))
  {
  }

  lemma CommitLeavesOthers(st: State, o: OrderId, t: Txn)
    requires Sound(st) && Idle(st, o) && TxnOk(t, st) && (OnOrder(t) ==> t.order != o)
    ensures TxnOk(t, Next(st, CommitRows(o)))
  {
    if OnOrder(t) { SetStatusLookup(st.rows, o, Committed, t.order); }
    TxnStays(t, st, Commit(View(st), o).db.rows);
  }

  lemma CommitRowsSound(st: State, o: OrderId)
    requires Sound(st) && Enabled(st, CommitRows(o))
    ensures Sound(Next(st, CommitRows(o))) && View(Next(st, CommitRows(o))) == Commit(View(st), o).db
  {
    var st' := Next(st, CommitRows(o));
    ApplyKeepsTables(View(st), DoCommit(o));
    forall p ensures Lifecycle(RowsOf(st'.rows, p)) {
      ApplyKeepsLifecycle(View(st), DoCommit(o), p);
    }
    forall u | 0 <= u < |st'.txns| ensures TxnOk(st'.txns[u], st') {
      CommitLeavesOthers(st, o, st.txns[u]);
    }
    assert View(st').stock == View(st).stock;
  }

  lemma BeginReserveRefines(st: State, o: OrderId, items: seq<Item>)
    requires Sound(st) && Idle(st, o) && Distinct(items)
    requires Live(RowsOf(st.rows, o)) == [] && Unknown(st.stock, items) == {}
    ensures Sound(Begin(st, ReserveTxn(o, items))) && View(Begin(st, ReserveTxn(o, items))) == View(st)
  {
    SkuOrderAscends(items);
    SkuOrderPermutes(items);
    KnownLines(st.stock, items);
    BeginSound(st, ReserveTxn(o, items));
  }

  lemma BeginReleaseRefines(st: State, o: OrderId)
    requires Sound(st) && Idle(st, o)
    ensures Sound(Begin(st, ReleaseTxn(st, o))) && View(Begin(st, ReleaseTxn(st, o))) == View(st)
  {
    ReleaseLines(st, o);
    BeginSound(st, ReleaseTxn(st, o));
  }

  lemma BeginAdjustRefines(st: State, s: Sku, delta: int)
    requires Sound(st) && s in st.stock
    ensures Sound(Begin(st, AdjustTxn(s, delta))) && View(Begin(st, AdjustTxn(s, delta))) == View(st)
  {
    BeginSound(st, AdjustTxn(s, delta));
  }

  lemma BeginRefines(st: State, step: Step)
    requires Sound(st) && Enabled(st, step) && (step.BeginReserve? || step.BeginRelease? || step.BeginAdjust?)
    ensures Sound(Next(st, step)) && View(Next(st, step)) == View(st)
  {
    match step
    case BeginReserve(o, items) => BeginReserveRefines(st, o, items);
    case BeginRelease(o) => BeginReleaseRefines(st, o);
    case BeginAdjust(s, delta) => BeginAdjustRefines(st, s, delta);
  }

  /** With nothing running, sound tables are a sound state. */
  lemma StartIsSound(db: Db)
    requires TablesOk(db) && AllLifecycles(db)
    ensures Sound(State(db.stock, db.rows, [])) && View(State(db.stock, db.rows, [])) == db
  {
    assert View(State(db.stock, db.rows, [])).stock == db.stock;
  }

  // ------------------------------------------------------------------ every run

  /** One step keeps the invariant, and the committed tables move only by its effect. */
  lemma StepRefines(st: State, step: Step)
    requires Sound(st) && Enabled(st, step)
    ensures Sound(Next(st, step))
    ensures View(Next(st, step)) == Run(View(st), Effect(st, step))
  {
    match step
    case BeginReserve(_, _) => BeginRefines(st, step);
    case BeginRelease(_) => BeginRefines(st, step);
    case BeginAdjust(_, _) => BeginRefines(st, step);
    case CommitRows(o) => CommitRowsSound(st, o);
    case Exec(t) => ExecOk(st, t);
    case Refuse(t) => RollBackOk(st, t);
    case Abort(t) => RollBackOk(st, t);
    case Finish(t) =>
      FinishSound(st, t);
      FinishIsAtomic(st, t);
  }

  ghost predicate CanRun(st: State, steps: seq<Step>)
    requires Shaped(st.txns)
    decreases |steps|
  {
    steps == [] || (Enabled(st, steps[0]) && CanRun(Next(st, steps[0]), steps[1..]))
  }

  ghost function After(st: State, steps: seq<Step>): (r: State)
    requires Shaped(st.txns) && CanRun(st, steps)
    ensures Shaped(r.txns)
    decreases |steps|
  {
    if steps == [] then st else After(Next(st, steps[0]), steps[1..])
  }

  /** The requests of a run in the order of their commits. */
  ghost function Effects(st: State, steps: seq<Step>): (r: seq<Op>)
    requires Shaped(st.txns) && CanRun(st, steps)
    decreases |steps|
  {
    if steps == [] then [] else Effect(st, steps[0]) + Effects(Next(st, steps[0]), steps[1..])
  }

  lemma {:induction false} RunConcat(db: Db, a: seq<Op>, b: seq<Op>)
    ensures Run(db, a + b) == Run(Run(db, a), b)
    decreases |a|
  {
    if a == [] {
      assert a + b == b;
    } else {
      var first := Apply(db, a[0]).db;
      assert (a + b)[0] == a[0] && (a + b)[1..] == a[1..] + b;
      assert Run(db, a + b) == Run(first, a[1..] + b) && Run(db, a) == Run(first, a[1..]);
      RunConcat(first, a[1..], b);
    }
  }

  /**
    Any interleaving, however long: the committed tables are those of the same requests run
    one at a time in commit order, and stock is never negative, committed or not.
  */
  lemma {:induction false} InterleavingIsSerial(st: State, steps: seq<Step>)
    requires Sound(st) && CanRun(st, steps)
    ensures View(After(st, steps)) == Run(View(st), Effects(st, steps))
    ensures Sound(After(st, steps)) && NeverNegative(After(st, steps))
    decreases |steps|
  {
    if steps != [] {
      var st' := Next(st, steps[0]);
      StepRefines(st, steps[0]);
      InterleavingIsSerial(st', steps[1..]);
      RunConcat(View(st), Effect(st, steps[0]), Effects(st', steps[1..]));
    }
  }

  /** From lawful tables with nothing running: whatever interleaves, the outcome is that of some serial run. */
  lemma FromQuietTables(db: Db, steps: seq<Step>)
    requires TablesOk(db) && AllLifecycles(db) && CanRun(State(db.stock, db.rows, []), steps)
    ensures var end := After(State(db.stock, db.rows, []), steps);
      && Sound(end) && NeverNegative(end)
      && View(end) == Run(db, Effects(State(db.stock, db.rows, []), steps))
  {
    StartIsSound(db);
    InterleavingIsSerial(State(db.stock, db.rows, []), steps);
  }

  /** Stock on the table, less what is in flight, plus what live rows hold, is what was brought in. */
  lemma NothingIsLost(st: State, steps: seq<Step>, supply: map<Sku, int>, s: Sku)
    requires Sound(st) && CanRun(st, steps) && Conserves(View(st), supply)
    requires s in After(st, steps).stock
    ensures var end, brought := After(st, steps), SupplyRun(View(st), supply, Effects(st, steps));
      s in brought && end.stock[s] - InFlight(end.txns, s) + Held(end.rows, s) == brought[s]
  {
    InterleavingIsSerial(st, steps);
    RunKeeps(View(st), supply, Effects(st, steps));
  }

  // ------------------------------------------------------------------ deadlock

  predicate WaitsFor(st: State, t: nat, u: nat)
    requires Shaped(st.txns)
  {
    Midway(st, t) && u < |st.txns| && u != t && Locks(st.txns[u], st.txns[t].lines[st.txns[t].done].sku)
  }

  lemma WaitingClimbs(st: State, t: nat, u: nat)
    requires Sound(st) && WaitsFor(st, t, u) && Midway(st, u)
    ensures st.txns[t].lines[st.txns[t].done].sku < st.txns[u].lines[st.txns[u].done].sku
  {
    var txn := st.txns[u];
    var x :| x in txn.lines[..txn.done] && x.sku == st.txns[t].lines[st.txns[t].done].sku;
    var k :| 0 <= k < txn.done && txn.lines[k] == x;
  }

  ghost predicate WaitChain(st: State, p: seq<nat>)
    requires Shaped(st.txns)
  {
    forall i :: 0 <= i < |p| - 1 ==> WaitsFor(st, p[i], p[i + 1])
  }

  /** The wait-for graph has no cycle. */
  lemma {:induction false} NoWaitCycle(st: State, p: seq<nat>)
    requires Sound(st) && |p| >= 2 && WaitChain(st, p)
    ensures p[0] != p[|p| - 1]
  {
    if Midway(st, p[|p| - 1]) { ChainClimbs(st, p); }
    assert WaitsFor(st, p[0], p[1]);
  }

  lemma {:induction false} ChainClimbs(st: State, p: seq<nat>)
    requires Sound(st) && |p| >= 2 && WaitChain(st, p) && Midway(st, p[|p| - 1])
    ensures Midway(st, p[0])
    ensures var a, b := st.txns[p[0]], st.txns[p[|p| - 1]]; a.lines[a.done].sku < b.lines[b.done].sku
  {
    assert WaitsFor(st, p[0], p[1]);
    if |p| == 2 {
      WaitingClimbs(st, p[0], p[1]);
    } else {
      ChainClimbs(st, p[1..]);
      WaitingClimbs(st, p[0], p[1]);
    }
  }

  /** The running transaction furthest along in SKU order; one with no line left beats all. */
  lemma {:induction false} Furthest(st: State, n: nat) returns (t: nat)
    requires Sound(st) && n <= |st.txns| && exists i :: 0 <= i < n && st.txns[i].phase.Running?
    ensures t < n && st.txns[t].phase.Running?
    ensures Midway(st, t) ==> forall u :: 0 <= u < n && st.txns[u].phase.Running? ==>
      Midway(st, u) && st.txns[u].lines[st.txns[u].done].sku <= st.txns[t].lines[st.txns[t].done].sku
  {
    var last := n - 1;
    if exists i :: 0 <= i < last && st.txns[i].phase.Running? {
      t := Furthest(st, last);
      if st.txns[last].phase.Running? && Midway(st, t)
        && (!Midway(st, last)
            || st.txns[last].lines[st.txns[last].done].sku > st.txns[t].lines[st.txns[t].done].sku) {
        t := last;
      }
    } else {
      t := last;
    }
  }

  /** Everyone else running is behind it, so nobody has locked the product it wants. */
  lemma FurthestIsFree(st: State, t: nat)
    requires Sound(st) && Midway(st, t)
    requires forall u :: 0 <= u < |st.txns| && st.txns[u].phase.Running? ==>
      Midway(st, u) && st.txns[u].lines[st.txns[u].done].sku <= st.txns[t].lines[st.txns[t].done].sku
    ensures Free(st, t, st.txns[t].lines[st.txns[t].done].sku)
  {
    var s := st.txns[t].lines[st.txns[t].done].sku;
    forall u | 0 <= u < |st.txns| && u != t ensures !Locks(st.txns[u], s) {
      if Locks(st.txns[u], s) { WaitingClimbs(st, t, u); }
    }
  }

  lemma FreeIsCommitted(st: State, t: nat)
    requires Sound(st) && Midway(st, t) && Free(st, t, st.txns[t].lines[st.txns[t].done].sku)
    ensures var s := st.txns[t].lines[st.txns[t].done].sku; s in st.stock && View(st).stock[s] == st.stock[s]
  {
    var line := st.txns[t].lines[st.txns[t].done];
    UnlockedByItself(st, t);
    UnlockedIsSettled(st.txns, line.sku);
    assert TxnOk(st.txns[t], st) && line in st.txns[t].lines;
  }

  /** An unlocked line either runs, or is refused from the committed value, which is then the current one. */
  lemma FreeCanStep(st: State, t: nat)
    requires Sound(st) && Midway(st, t) && Free(st, t, st.txns[t].lines[st.txns[t].done].sku)
    ensures Enabled(st, Exec(t)) || Enabled(st, Refuse(t))
  {
    var line := st.txns[t].lines[st.txns[t].done];
    FreeIsCommitted(st, t);
    if TakesStock(st.txns[t].kind) && Available(st.stock, line.sku) < line.qty {
      assert Available(View(st).stock, line.sku) == Available(st.stock, line.sku);
    } else {
      assert CanExec(st, t);
    }
  }

  /** Whenever a transaction is running, some transaction can run its next UPDATE, be refused, or commit. */
  lemma NoDeadlock(st: State)
    requires Sound(st) && exists i :: 0 <= i < |st.txns| && st.txns[i].phase.Running?
    ensures exists t :: Enabled(st, Exec(t)) || Enabled(st, Refuse(t)) || Enabled(st, Finish(t))
  {
    var t := Furthest(st, |st.txns|);
    if Midway(st, t) {
      FurthestIsFree(st, t);
      FreeCanStep(st, t);
    } else {
      assert Enabled(st, Finish(t));
    }
  }

  lemma UnlockedByItself(st: State, t: nat)
    requires Sound(st) && Midway(st, t)
    ensures !Locks(st.txns[t], st.txns[t].lines[st.txns[t].done].sku)
  {
    var txn := st.txns[t];
    forall x | x in txn.lines[..txn.done] ensures x.sku < txn.lines[txn.done].sku {
      var k :| 0 <= k < txn.done && txn.lines[k] == x;
    }
  }
}
