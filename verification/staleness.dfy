/**
  How old an answer from the product cache can be when readers interleave with writers and
  any invalidation may be lost (services/inventory/app/cache.py, services/inventory/app/service.py).

  One cache key: a product row, or the whole catalogue. Redis calls and database commits are
  single steps; a reader can be held up between any two of its own.
*/
module Staleness {
  import opened Wrappers

  const MAX_PRODUCT_CACHE_TTL := 300

  function Spread(ttl: nat): (n: nat) {
    ttl / 5
  }

  /** `draw` is what randint(-spread, spread) returned. */
  method JitteredTtl(ttl: nat, draw: int) returns (r: int)
    requires ttl >= 1 && 0 <= draw + Spread(ttl) && draw <= Spread(ttl)
    ensures 1 <= r && ttl - Spread(ttl) <= r <= ttl + Spread(ttl)
    ensures ttl <= MAX_PRODUCT_CACHE_TTL ==> r <= 360
  {
    var spread := ttl / 5;
    return if spread == 0 then ttl else ttl + draw;
  }

  // ------------------------------------------------------------------ the machine

  datatype Version<T> = Version(at: nat, row: T)

  /** A cached value, and when its row was read and it was written. */
  datatype Entry<T> = Entry(value: T, readAt: nat, writtenAt: nat, expires: nat)

  datatype Reader<T> =
    | Missed
    | HasRow(value: T, readAt: nat)
    | Hit(value: T, at: nat, readAt: nat, writtenAt: nat)
    | FromTable(value: T, at: nat, readAt: nat)

  /** `versions` is every committed row so far, newest last. */
  datatype State<T> = State(now: nat, versions: seq<Version<T>>, entry: Option<Entry<T>>, readers: seq<Reader<T>>)

  datatype Label<T> =
    | Tick(d: nat)
    | Commit(row: T)
    | Delete
    | Look(up: bool)
    | ReadRow(r: nat)
    | Answer(r: nat, up: bool, ttl: nat)

  predicate Lives<T>(s: State<T>) {
    s.entry.Some? && s.now < s.entry.value.expires
  }

  predicate Enabled<T>(ttl: nat, s: State<T>, l: Label<T>) {
    match l
    case ReadRow(r) => r < |s.readers| && s.readers[r].Missed? && s.versions != []
    case Answer(r, _, t) =>
      r < |s.readers| && s.readers[r].HasRow? && ttl - Spread(ttl) <= t <= ttl + Spread(ttl)
    case _ => true
  }

  function Next<T>(ttl: nat, s: State<T>, l: Label<T>): (t: State<T>)
    requires Enabled(ttl, s, l)
  {
    match l
    case Tick(d) => s.(now := s.now + d)
    case Commit(row) => s.(versions := s.versions + [Version(s.now, row)])
    case Delete => s.(entry := None)
    case Look(up) =>
      var e := s.entry;
      s.(readers := s.readers
           + [if up && Lives(s) then Hit(e.value.value, s.now, e.value.readAt, e.value.writtenAt) else Missed])
    case ReadRow(r) => s.(readers := s.readers[r := HasRow(s.versions[|s.versions| - 1].row, s.now)])
    case Answer(r, up, t) =>
      var got := s.readers[r];
      var written := if up then Some(Entry(got.value, got.readAt, s.now, s.now + t)) else s.entry;
      s.(readers := s.readers[r := FromTable(got.value, s.now, got.readAt)], entry := written)
  }

  ghost predicate CanRun<T(!new)>(ttl: nat, s: State<T>, ls: seq<Label<T>>)
    decreases |ls|
  {
    ls == [] || (Enabled(ttl, s, ls[0]) && CanRun(ttl, Next(ttl, s, ls[0]), ls[1..]))
  }

  ghost function After<T(!new)>(ttl: nat, s: State<T>, ls: seq<Label<T>>): (t: State<T>)
    requires CanRun(ttl, s, ls)
    decreases |ls|
  {
    if ls == [] then s else After(ttl, Next(ttl, s, ls[0]), ls[1..])
  }

  function Start<T>(): (s: State<T>) {
    State(0, [], None, [])
  }

  // ------------------------------------------------------------------ bounded age

  /** At time `u` this was the committed row. */
  ghost predicate RowAt<T>(versions: seq<Version<T>>, u: nat, row: T) {
    exists i :: RowIs(versions, u, row, i)
  }

  ghost predicate RowIs<T>(versions: seq<Version<T>>, u: nat, row: T, i: nat) {
    && i < |versions| && versions[i].row == row && versions[i].at <= u
    && (i + 1 < |versions| ==> u <= versions[i + 1].at)
  }

  ghost predicate ReaderOk<T>(ttl: nat, s: State<T>, r: Reader<T>) {
    match r
    case Missed => true
    case HasRow(v, readAt) => readAt <= s.now && RowAt(s.versions, readAt, v)
    case FromTable(v, at, readAt) => readAt <= at <= s.now && RowAt(s.versions, readAt, v)
    case Hit(v, at, readAt, writtenAt) =>
      && readAt <= writtenAt <= at <= s.now && RowAt(s.versions, readAt, v)
      && at < writtenAt + ttl + Spread(ttl)
  }

  ghost predicate Inv<T>(ttl: nat, s: State<T>) {
    && (forall i :: 0 <= i < |s.versions| ==> s.versions[i].at <= s.now)
    && (forall r :: 0 <= r < |s.readers| ==> ReaderOk(ttl, s, s.readers[r]))
    && (s.entry.Some? ==>
          var e := s.entry.value;
          && e.readAt <= e.writtenAt <= s.now && e.expires <= e.writtenAt + ttl + Spread(ttl)
          && RowAt(s.versions, e.readAt, e.value))
  }

  lemma HistoryStays<T>(versions: seq<Version<T>>, v: Version<T>, u: nat, row: T)
    requires RowAt(versions, u, row) && u <= v.at
    ensures RowAt(versions + [v], u, row)
  {
    var i :| RowIs(versions, u, row, i);
    assert RowIs(versions + [v], u, row, i);
  }

  lemma CommitKeeps<T>(ttl: nat, s: State<T>, row: T)
    requires Inv(ttl, s)
    ensures Inv(ttl, Next(ttl, s, Commit(row)))
  {
    var v := Version(s.now, row);
    var t := Next(ttl, s, Commit(row));
    forall r | 0 <= r < |t.readers| ensures ReaderOk(ttl, t, t.readers[r]) {
      assert ReaderOk(ttl, s, s.readers[r]);
      if !t.readers[r].Missed? { HistoryStays(s.versions, v, t.readers[r].readAt, t.readers[r].value); }
    }
    if s.entry.Some? { HistoryStays(s.versions, v, s.entry.value.readAt, s.entry.value.value); }
  }

  lemma StepKeeps<T>(ttl: nat, s: State<T>, l: Label<T>)
    requires Inv(ttl, s) && Enabled(ttl, s, l)
    ensures Inv(ttl, Next(ttl, s, l))
  {
    match l
    case Commit(row) => CommitKeeps(ttl, s, row);
    case ReadRow(r) =>
      var n := |s.versions| - 1;
      assert RowIs(s.versions, s.now, s.versions[n].row, n);
      assert forall q :: 0 <= q < |s.readers| ==> ReaderOk(ttl, s, s.readers[q]);
    case Answer(r, up, t) =>
      assert ReaderOk(ttl, s, s.readers[r]);
      assert forall q :: 0 <= q < |s.readers| ==> ReaderOk(ttl, s, s.readers[q]);
    case _ =>
      assert forall q :: 0 <= q < |s.readers| ==> ReaderOk(ttl, s, s.readers[q]);
  }

  lemma {:induction false} RunKeeps<T(!new)>(ttl: nat, s: State<T>, ls: seq<Label<T>>)
    requires Inv(ttl, s) && CanRun(ttl, s, ls)
    ensures Inv(ttl, After(ttl, s, ls))
    decreases |ls|
  {
    if ls != [] {
      StepKeeps(ttl, s, ls[0]);
      RunKeeps(ttl, Next(ttl, s, ls[0]), ls[1..]);
    }
  }

  /**
    Whatever is lost: a value served from the cache at time t was the committed row at some time
    after t - (ttl + ttl/5) - d, where d is how long the reader that cached it sat on it.
  */
  lemma AnswersAreRecent<T(!new)>(ttl: nat, ls: seq<Label<T>>, r: nat)
    requires CanRun(ttl, Start(), ls) && r < |After(ttl, Start(), ls).readers|
    ensures var s := After(ttl, Start(), ls);
      match s.readers[r]
      case Hit(v, at, readAt, writtenAt) =>
        readAt <= writtenAt && at < readAt + (writtenAt - readAt) + ttl + Spread(ttl) && RowAt(s.versions, readAt, v)
      case FromTable(v, at, readAt) => readAt <= at && RowAt(s.versions, readAt, v)
      case _ => true
  {
    RunKeeps(ttl, Start(), ls);
    var s := After(ttl, Start(), ls);
    assert ReaderOk(ttl, s, s.readers[r]);
  }

  function SharpRun(ttl: nat, d: nat): (ls: seq<Label<int>>)
    requires ttl >= 1
  {
    var life := ttl + Spread(ttl);
    [Commit(1), Look(true), ReadRow(0), Commit(2), Tick(d), Answer(0, true, life), Tick(life - 1), Look(true)]
  }

  /** The bound is met: the row is superseded as it is read, held for d, and served on its last second. */
  lemma BoundIsSharp(ttl: nat, d: nat)
    requires ttl >= 1
    ensures CanRun(ttl, Start(), SharpRun(ttl, d))
    ensures After(ttl, Start(), SharpRun(ttl, d)).versions == [Version(0, 1), Version(0, 2)]
    ensures After(ttl, Start(), SharpRun(ttl, d)).readers
         == [FromTable(1, d, 0), Hit(1, d + ttl + Spread(ttl) - 1, 0, d)]
  {
    var life := ttl + Spread(ttl);
    var ls := SharpRun(ttl, d);
    var s1 := State(0, [Version(0, 1)], None, []);
    var s2 := s1.(readers := [Missed]);
    var s3 := s1.(readers := [HasRow(1, 0)]);
    var s4 := s3.(versions := [Version(0, 1), Version(0, 2)]);
    var s5 := s4.(now := d);
    var s6 := s5.(readers := [FromTable(1, d, 0)], entry := Some(Entry(1, 0, d, d + life)));
    var s7 := s6.(now := d + life - 1);
    var s8 := s7.(readers := [FromTable(1, d, 0), Hit(1, d + life - 1, 0, d)]);
    LastStep(ttl, s7, Look(true), s8);
    OneStep(ttl, s6, Tick(life - 1), s7, [Look(true)], s8);
    OneStep(ttl, s5, Answer(0, true, life), s6, [Tick(life - 1), Look(true)], s8);
    OneStep(ttl, s4, Tick(d), s5, ls[5..], s8);
    OneStep(ttl, s3, Commit(2), s4, ls[4..], s8);
    OneStep(ttl, s2, ReadRow(0), s3, ls[3..], s8);
    OneStep(ttl, s1, Look(true), s2, ls[2..], s8);
    OneStep(ttl, Start(), Commit(1), s1, ls[1..], s8);
  }

  lemma LastStep<T(!new)>(ttl: nat, s: State<T>, l: Label<T>, t: State<T>)
    requires Enabled(ttl, s, l) && Next(ttl, s, l) == t
    ensures CanRun(ttl, s, [l]) && After(ttl, s, [l]) == t
  {
    assert [l][1..] == [];
  }

  lemma OneStep<T(!new)>(ttl: nat, s: State<T>, l: Label<T>, m: State<T>, ls: seq<Label<T>>, t: State<T>)
    requires Enabled(ttl, s, l) && Next(ttl, s, l) == m && CanRun(ttl, m, ls) && After(ttl, m, ls) == t
    ensures CanRun(ttl, s, [l] + ls) && After(ttl, s, [l] + ls) == t
  {
    assert ([l] + ls)[1..] == ls;
  }
}
