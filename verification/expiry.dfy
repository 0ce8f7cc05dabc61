/**
  The expiry job: one run over the oldest stale orders, and how many runs a backlog takes
  (services/orders/app/service.py, expire_stale_orders and _expire_one).
*/
module Expiry {
  import opened Wrappers
  import opened OrderState

  const EXPIRY_BATCH := 200

  /** An orders row; the table is kept in the order of `createdAt`, the order of the query. */
  datatype Entry = Entry(createdAt: nat, row: Row)

  datatype Policy = Policy(window: nat, releaseGiveUp: nat)

  /**
    One run's surroundings: its moment, the orders whose release inventory accepts, those
    another run has locked, and those whose commit fails.
  */
  datatype Round = Round(now: nat, accepted: set<nat>, locked: set<nat>, faulty: set<nat>)

  predicate Stale(p: Policy, e: Entry, now: nat) {
    Unfinished(e.row.status) && e.createdAt + p.window < now
  }

  /** The ids of the query: stale orders, oldest first, at most `limit`. */
  function Pick(p: Policy, table: seq<Entry>, now: nat, i: nat, limit: nat): (ids: seq<nat>)
    requires i <= |table|
    ensures |ids| <= limit
    decreases |table| - i
  {
    if i == |table| || limit == 0 then []
    else if Stale(p, table[i], now) then [i] + Pick(p, table, now, i + 1, limit - 1)
    else Pick(p, table, now, i + 1, limit)
  }

  function Batch(p: Policy, table: seq<Entry>, now: nat): (ids: seq<nat>) {
    Pick(p, table, now, 0, EXPIRY_BATCH)
  }

  /** Old enough to be closed although its stock did not come back. */
  predicate PastGivingUp(p: Policy, e: Entry, now: nat) {
    e.createdAt + p.releaseGiveUp <= now
  }

  /** Whether this run closes this order, if it comes to it. */
  predicate Closes(p: Policy, e: Entry, i: nat, round: Round) {
    && i !in round.locked && i !in round.faulty && Unfinished(e.row.status)
    && (i in round.accepted || PastGivingUp(p, e, round.now))
  }

  function Closed(e: Entry, i: nat, round: Round): (r: Entry) {
    e.(row := Written(e.row, e.row.status, EXPIRED,
                      if i in round.accepted then NotCompleted else NotCompletedStockNotReleased))
  }

  class Job {
    const policy: Policy
    var table: seq<Entry>

    constructor (p: Policy, t: seq<Entry>)
      ensures policy == p && table == t
    {
      policy, table := p, t;
    }

    /** Err is the AppError or SQLAlchemyError that ends this order's transaction. */
    method ExpireOne(i: nat, round: Round) returns (done: Result<bool, ()>)
      requires i < |table|
      modifies this`table
      ensures done == Ok(true) <==> Closes(policy, old(table)[i], i, round)
      ensures table == if done == Ok(true) then old(table)[i := Closed(old(table)[i], i, round)] else old(table)
    {
      if i in round.locked { return Ok(false); }
      var order := table[i];
      if !Unfinished(order.row.status) { return Ok(false); }
      var reason := NotCompleted;
      if i !in round.accepted {
        if order.createdAt + policy.releaseGiveUp > round.now { return Ok(false); }
        reason := NotCompletedStockNotReleased;
      }
      if i in round.faulty { return Err(()); }
      table := table[i := order.(row := Written(order.row, order.row.status, EXPIRED, reason))];
      return Ok(true);
    }

    /** Closes exactly the picked orders that can be closed, each once, and counts them. */
    method ExpireStale(round: Round) returns (expired: nat)
      modifies this`table
      ensures table == AfterRun(policy, old(table), round)
      ensures expired == |Closing(policy, old(table), round)|
    {
      ghost var before := table;
      var stale := Batch(policy, table, round.now);
      BatchIsExact(policy, table, round.now);
      expired := 0;
      for k := 0 to |stale|
        invariant table == AfterIds(policy, before, stale[..k], round)
        invariant expired == |ClosingOf(policy, before, stale[..k], round)|
      {
        assert stale[..k + 1] == stale[..k] + [stale[k]];
        OneMore(policy, before, stale[..k], stale[k], round);
        var done := ExpireOne(stale[k], round);
        match done {
          case Ok(closed) => if closed { expired := expired + 1; }
          case Err(_) => continue;
        }
      }
      assert stale[..|stale|] == stale;
    }
  }

  // ------------------------------------------------------------------ one run

  ghost function ClosingOf(p: Policy, table: seq<Entry>, ids: seq<nat>, round: Round): (r: set<nat>) {
    set i | i in ids && i < |table| && Closes(p, table[i], i, round)
  }

  ghost function Closing(p: Policy, table: seq<Entry>, round: Round): (r: set<nat>) {
    ClosingOf(p, table, Batch(p, table, round.now), round)
  }

  ghost function AfterIds(p: Policy, table: seq<Entry>, ids: seq<nat>, round: Round): (r: seq<Entry>) {
    seq(|table|, i requires 0 <= i < |table| =>
      if i in ClosingOf(p, table, ids, round) then Closed(table[i], i, round) else table[i])
  }

  ghost function AfterRun(p: Policy, table: seq<Entry>, round: Round): (r: seq<Entry>) {
    AfterIds(p, table, Batch(p, table, round.now), round)
  }

  lemma OneMore(p: Policy, table: seq<Entry>, ids: seq<nat>, i: nat, round: Round)
    requires i < |table| && i !in ids
    ensures AfterIds(p, table, ids, round)[i] == table[i]
    ensures AfterIds(p, table, ids + [i], round)
         == if Closes(p, table[i], i, round) then AfterIds(p, table, ids, round)[i := Closed(table[i], i, round)]
            else AfterIds(p, table, ids, round)
    ensures |ClosingOf(p, table, ids + [i], round)|
         == |ClosingOf(p, table, ids, round)| + if Closes(p, table[i], i, round) then 1 else 0
  {
    var a, b := ClosingOf(p, table, ids, round), ClosingOf(p, table, ids + [i], round);
    assert b == if Closes(p, table[i], i, round) then a + {i} else a;
  }

  /** Positions from `i` on, ascending, of stale orders. */
  predicate Chosen(p: Policy, table: seq<Entry>, now: nat, i: nat, ids: seq<nat>) {
    && (forall a :: 0 <= a < |ids| ==> i <= ids[a] < |table| && Stale(p, table[ids[a]], now))
    && (forall a, b :: 0 <= a < b < |ids| ==> ids[a] < ids[b])
  }

  lemma {:induction false} PickAscends(p: Policy, table: seq<Entry>, now: nat, i: nat, limit: nat)
    requires i <= |table|
    ensures Chosen(p, table, now, i, Pick(p, table, now, i, limit))
    decreases |table| - i
  {
    if i < |table| && limit > 0 {
      if Stale(p, table[i], now) {
        PickAscends(p, table, now, i + 1, limit - 1);
        assert Pick(p, table, now, i, limit) == [i] + Pick(p, table, now, i + 1, limit - 1);
      } else {
        PickAscends(p, table, now, i + 1, limit);
      }
    }
  }

  /** No stale order is left out before the limit is reached, and then only younger ones are. */
  lemma {:induction false} PickMissesNone(p: Policy, table: seq<Entry>, now: nat, i: nat, limit: nat, j: nat)
    requires i <= j < |table| && Stale(p, table[j], now) && j !in Pick(p, table, now, i, limit)
    ensures |Pick(p, table, now, i, limit)| == limit
    ensures forall a :: 0 <= a < limit ==> Pick(p, table, now, i, limit)[a] < j
    decreases |table| - i
  {
    if limit > 0 {
      if Stale(p, table[i], now) {
        var rest := Pick(p, table, now, i + 1, limit - 1);
        assert Pick(p, table, now, i, limit) == [i] + rest;
        PickMissesNone(p, table, now, i + 1, limit - 1, j);
      } else {
        PickMissesNone(p, table, now, i + 1, limit, j);
      }
    }
  }

  /** The query: ascending, only stale orders, and none missed that is older than one picked. */
  lemma BatchIsExact(p: Policy, table: seq<Entry>, now: nat)
    ensures Chosen(p, table, now, 0, Batch(p, table, now))
    ensures forall j :: 0 <= j < |table| && Stale(p, table[j], now) && j !in Batch(p, table, now) ==>
      |Batch(p, table, now)| == EXPIRY_BATCH && forall i :: i in Batch(p, table, now) ==> i < j
  {
    PickAscends(p, table, now, 0, EXPIRY_BATCH);
    forall j | 0 <= j < |table| && Stale(p, table[j], now) && j !in Batch(p, table, now)
      ensures |Batch(p, table, now)| == EXPIRY_BATCH && forall i :: i in Batch(p, table, now) ==> i < j
    {
      PickMissesNone(p, table, now, 0, EXPIRY_BATCH, j);
    }
  }

  // ------------------------------------------------------------------ a backlog

  predicate ByAge(table: seq<Entry>) {
    forall i, j :: 0 <= i < j < |table| ==> table[i].createdAt <= table[j].createdAt
  }

  /** What else happens between two runs: orders are placed, and orders finish by themselves. */
  ghost predicate Drifts(a: seq<Entry>, b: seq<Entry>) {
    && |a| <= |b| && ByAge(b)
    && (forall i :: 0 <= i < |a| ==>
          b[i].createdAt == a[i].createdAt && (Unfinished(b[i].row.status) ==> Unfinished(a[i].row.status)))
  }

  /** The first `m` orders that are still unfinished. */
  ghost function Open(table: seq<Entry>, m: nat): (r: set<nat>) {
    set i | 0 <= i < m && i < |table| && Unfinished(table[i].row.status)
  }

  /** The run can close every stale order among the first `m`. */
  ghost predicate Able(p: Policy, table: seq<Entry>, m: nat, round: Round) {
    && round.locked == {} && round.faulty == {}
    && (forall i :: 0 <= i < m && i < |table| ==>
          && table[i].createdAt + p.window < round.now
          && (i in round.accepted || PastGivingUp(p, table[i], round.now)))
  }

  ghost function Ids(ids: seq<nat>): (r: set<nat>) {
    set i | i in ids
  }

  lemma {:induction false} DistinctIds(ids: seq<nat>)
    requires forall a, b :: 0 <= a < b < |ids| ==> ids[a] < ids[b]
    ensures |Ids(ids)| == |ids|
  {
    if ids != [] {
      var n := |ids| - 1;
      var init := ids[..n];
      DistinctIds(init);
      assert ids == init + [ids[n]];
      assert Ids(ids) == Ids(init) + {ids[n]};
      assert ids[n] !in Ids(init);
    }
  }

  /** An open order the run left behind was not picked, and everything picked was older and is now closed. */
  lemma LeftBehind(p: Policy, table: seq<Entry>, m: nat, round: Round, j: nat)
    requires m <= |table| && Able(p, table, m, round) && j in Open(AfterRun(p, table, round), m)
    ensures var ids := Batch(p, table, round.now);
      && |ids| == EXPIRY_BATCH
      && Ids(ids) <= Open(table, m)
      && Open(AfterRun(p, table, round), m) <= Open(table, m) - Ids(ids)
  {
    var ids := Batch(p, table, round.now);
    BatchIsExact(p, table, round.now);
    assert j !in Closing(p, table, round);
    assert Stale(p, table[j], round.now);
    assert j !in ids;
    forall i | i in ids ensures i in Open(table, m) && i in Closing(p, table, round) {
      var a :| 0 <= a < |ids| && ids[a] == i;
      assert i < j && Stale(p, table[i], round.now);
    }
    forall i | i in Ids(ids) ensures i !in Open(AfterRun(p, table, round), m) {
      assert AfterRun(p, table, round)[i] == Closed(table[i], i, round);
    }
  }

  /** One run closes the whole backlog, or two hundred orders of it. */
  lemma RunShrinks(p: Policy, table: seq<Entry>, m: nat, round: Round)
    requires m <= |table| && Able(p, table, m, round)
    ensures var left := Open(AfterRun(p, table, round), m);
      left == {} || |left| + EXPIRY_BATCH <= |Open(table, m)|
  {
    var after := AfterRun(p, table, round);
    if j :| j in Open(after, m) {
      var ids := Batch(p, table, round.now);
      LeftBehind(p, table, m, round, j);
      BatchIsExact(p, table, round.now);
      DistinctIds(ids);
      Smaller(Open(after, m), Open(table, m) - Ids(ids));
    }
  }

  /** And never more: ceil(n / 200) runs is also the least a backlog can take. */
  lemma RunClosesAtMostABatch(p: Policy, table: seq<Entry>, m: nat, round: Round)
    ensures |Open(table, m)| <= |Open(AfterRun(p, table, round), m)| + EXPIRY_BATCH
  {
    var ids := Batch(p, table, round.now);
    var closed := Ids(ids) * Open(table, m);
    BatchIsExact(p, table, round.now);
    DistinctIds(ids);
    Smaller(closed, Ids(ids));
    Smaller(Open(table, m) - closed, Open(AfterRun(p, table, round), m));
  }

  lemma {:induction false} Smaller(a: set<nat>, b: set<nat>)
    requires a <= b
    ensures |a| <= |b|
  {
    assert b == a + (b - a);
  }

  lemma DriftShrinks(a: seq<Entry>, b: seq<Entry>, m: nat)
    requires Drifts(a, b) && m <= |a|
    ensures |Open(b, m)| <= |Open(a, m)|
  {
    Smaller(Open(b, m), Open(a, m));
  }

  /** `tables[k]` is what run k finds; other work drifts in between. */
  ghost predicate Episode(p: Policy, tables: seq<seq<Entry>>, rounds: seq<Round>, m: nat) {
    && |tables| == |rounds| + 1 && ByAge(tables[0])
    && (forall k :: 0 <= k < |rounds| ==>
          Drifts(AfterRun(p, tables[k], rounds[k]), tables[k + 1]) && Able(p, tables[k], m, rounds[k]))
  }

  /**
    A backlog of n orders is gone after ceil(n / 200) runs, whatever is placed meanwhile, if
    inventory accepts the releases, and whatever inventory answers once all are past the
    giving-up age.
  */
  lemma {:induction false} BacklogClears(p: Policy, tables: seq<seq<Entry>>, rounds: seq<Round>, m: nat)
    requires Episode(p, tables, rounds, m) && m <= |tables[0]|
    requires |Open(tables[0], m)| <= EXPIRY_BATCH * |rounds|
    ensures Open(tables[|rounds|], m) == {}
    decreases |rounds|
  {
    if rounds != [] {
      assert Able(p, tables[0], m, rounds[0]);
      RunShrinks(p, tables[0], m, rounds[0]);
      DriftShrinks(AfterRun(p, tables[0], rounds[0]), tables[1], m);
      assert Episode(p, tables[1..], rounds[1..], m);
      BacklogClears(p, tables[1..], rounds[1..], m);
    }
  }
}
