/**
  Which status writes a run can make. With an expiry window that covers the longest create
  flow every write is a move of the status table, made from the status really stored, in every
  run; with any shorter window some run breaks the table.
*/
module SagaLawful {
  import opened Wrappers
  import opened OrderState
  import opened Saga
  import opened SagaInvariant
  import opened SagaAlways
  import opened SagaTiming
  import P = Payments

  // ------------------------------------------------------------------ moves

  /** The same order, moved on by at most one status write that the table allows. */
  predicate Follows(a: Order, b: Order) {
    SameIdentity(a, b) && Moves(a.row, b.row)
  }

  ghost predicate AllFollow(s: Sys, t: Sys) {
    && |s.orders| <= |t.orders|
    && forall o :: 0 <= o < |s.orders| ==> Follows(s.orders[o], t.orders[o])
  }

  lemma OneFollows(s: Sys, t: Sys, p: OrderId)
    requires p < |s.orders| == |t.orders| && t.orders == s.orders[p := t.orders[p]]
    requires Follows(s.orders[p], t.orders[p])
    ensures AllFollow(s, t)
  {
  }

  // ------------------------------------------------------------------ who may write what

  /** The status an order must have while its flow is at this point: that of the copy the flow holds. */
  function StatusAt(pc: Pc): (st: Status)
    requires Running(pc)
  {
    if pc.Reserving? || pc.Refusing? || pc.Accepted? then PENDING else RESERVED
  }

  ghost predicate FlowLawful(s: Sys, r: nat)
    requires r < |s.requests|
  {
    var pc := s.requests[r].pc;
    Running(pc) ==> pc.order < |s.orders| && s.orders[pc.order].row.status == StatusAt(pc)
  }

  ghost predicate HoldLawful(s: Sys, e: nat)
    requires e < |s.expiries|
  {
    var x := s.expiries[e];
    x.pc.Holding? ==>
      && x.pc.order < |s.orders|
      && s.orders[x.pc.order].lock == Some(e)
      && Unfinished(s.orders[x.pc.order].row.status)
  }

  ghost predicate CancelLawful(s: Sys, k: nat)
    requires k < |s.cancels|
  {
    ActiveCancel(s, k) ==> s.cancels[k].order < |s.orders| && s.orders[s.cancels[k].order].row.status == CONFIRMED
  }

  ghost predicate Lawful(s: Sys) {
    && (forall r :: 0 <= r < |s.requests| ==> FlowLawful(s, r))
    && (forall e :: 0 <= e < |s.expiries| ==> HoldLawful(s, e))
    && (forall k :: 0 <= k < |s.cancels| ==> CancelLawful(s, k))
    && CancelsSerial(s)
  }

  /** Everything known in a run whose window covers the longest flow. */
  ghost predicate Covered(c: Config, s: Sys) {
    FlowBound(c) <= c.window && Always(c, s) && Punctual(c, s) && Lawful(s)
  }

  predicate SameRow(a: Order, b: Order) {
    b.row == a.row && b.lock == a.lock
  }

  predicate SameFlow(a: Pc, b: Pc) {
    Running(b) ==> Running(a) && b.order == a.order && StatusAt(b) == StatusAt(a)
  }

  predicate SameHold(a: ExpiryPc, b: ExpiryPc) {
    b.Holding? ==> a.Holding? && b.order == a.order
  }

  predicate SameCancel(a: Cancel, b: Cancel) {
    !b.pc.Over? ==> !a.pc.Over? && b.order == a.order
  }

  ghost predicate SameProcesses(s: Sys, t: Sys) {
    && (forall r :: 0 <= r < |t.requests| && Running(t.requests[r].pc) ==>
          r < |s.requests| && SameFlow(s.requests[r].pc, t.requests[r].pc))
    && (forall e :: 0 <= e < |t.expiries| && t.expiries[e].pc.Holding? ==>
          e < |s.expiries| && SameHold(s.expiries[e].pc, t.expiries[e].pc))
    && |t.cancels| == |s.cancels|
    && (forall k :: 0 <= k < |t.cancels| ==> SameCancel(s.cancels[k], t.cancels[k]))
  }

  /** Neither a row nor a lock is written, and nobody starts on anything. */
  lemma QuietLawful(s: Sys, t: Sys)
    requires Lawful(s) && SameProcesses(s, t) && |s.orders| <= |t.orders|
    requires forall o :: 0 <= o < |s.orders| ==> SameRow(s.orders[o], t.orders[o])
    ensures Lawful(t)
  {
    forall r | 0 <= r < |t.requests| ensures FlowLawful(t, r) {
      if Running(t.requests[r].pc) { assert FlowLawful(s, r); }
    }
    forall e | 0 <= e < |t.expiries| ensures HoldLawful(t, e) {
      if t.expiries[e].pc.Holding? { assert HoldLawful(s, e); }
    }
    forall k | 0 <= k < |t.cancels| ensures CancelLawful(t, k) && (ActiveCancel(t, k) ==> ActiveCancel(s, k)) {
      assert CancelLawful(s, k) && SameCancel(s.cancels[k], t.cancels[k]);
    }
  }

  /** No process is at work on this order. */
  ghost predicate Untouched(s: Sys, o: OrderId) {
    && (forall r :: 0 <= r < |s.requests| && Running(s.requests[r].pc) ==> s.requests[r].pc.order != o)
    && (forall e :: 0 <= e < |s.expiries| && s.expiries[e].pc.Holding? ==> s.expiries[e].pc.order != o)
    && (forall k :: 0 <= k < |s.cancels| && ActiveCancel(s, k) ==> s.cancels[k].order != o)
  }

  /** A write to one order that ends with nobody at work on it. */
  lemma LeaveLawful(s: Sys, t: Sys, o: OrderId)
    requires Lawful(s) && SameProcesses(s, t) && o < |s.orders| == |t.orders| && Untouched(t, o)
    requires forall p :: 0 <= p < |s.orders| && p != o ==> SameRow(s.orders[p], t.orders[p])
    ensures Lawful(t)
  {
    forall r | 0 <= r < |t.requests| ensures FlowLawful(t, r) {
      if Running(t.requests[r].pc) { assert FlowLawful(s, r); }
    }
    forall e | 0 <= e < |t.expiries| ensures HoldLawful(t, e) {
      if t.expiries[e].pc.Holding? { assert HoldLawful(s, e); }
    }
    forall k | 0 <= k < |t.cancels| ensures CancelLawful(t, k) && (ActiveCancel(t, k) ==> ActiveCancel(s, k)) {
      assert CancelLawful(s, k) && SameCancel(s.cancels[k], t.cancels[k]);
    }
  }

  // ------------------------------------------------------------------ nobody meets

  /** Past the window no flow of the order can still be running. */
  lemma HoldMeetsNoFlow(c: Config, s: Sys, e: nat, r: nat)
    requires Covered(c, s) && ExpiryHolds(s, e) && r < |s.requests| && Running(s.requests[r].pc)
    ensures s.requests[r].pc.order != s.expiries[e].pc.order
  {
    assert ExpiryLate(c, s, e) && FlowPunctual(c, s, r);
  }

  lemma HoldIsAlone(c: Config, s: Sys, e: nat)
    requires Covered(c, s) && ExpiryHolds(s, e)
    ensures Untouched(s.(expiries := s.expiries[e := s.expiries[e].(pc := Between)]), s.expiries[e].pc.order)
  {
    var o := s.expiries[e].pc.order;
    assert HoldLawful(s, e);
    forall r | 0 <= r < |s.requests| && Running(s.requests[r].pc) ensures s.requests[r].pc.order != o {
      HoldMeetsNoFlow(c, s, e, r);
    }
    forall f | 0 <= f < |s.expiries| && f != e && s.expiries[f].pc.Holding? ensures s.expiries[f].pc.order != o {
      assert HoldLawful(s, f);
    }
    forall k | 0 <= k < |s.cancels| && ActiveCancel(s, k) ensures s.cancels[k].order != o {
      assert CancelLawful(s, k);
    }
  }

  lemma CancelIsAlone(s: Sys, k: nat)
    requires Lawful(s) && CancelHolds(s, k)
    ensures Untouched(s.(cancels := s.cancels[k := s.cancels[k].(pc := Over)]), s.cancels[k].order)
  {
    var o := s.cancels[k].order;
    var t := s.(cancels := s.cancels[k := s.cancels[k].(pc := Over)]);
    assert CancelLawful(s, k);
    forall r | 0 <= r < |s.requests| && Running(s.requests[r].pc) ensures s.requests[r].pc.order != o {
      assert FlowLawful(s, r);
    }
    forall e | 0 <= e < |s.expiries| && s.expiries[e].pc.Holding? ensures s.expiries[e].pc.order != o {
      assert HoldLawful(s, e);
    }
    forall j | 0 <= j < |t.cancels| && ActiveCancel(t, j) ensures t.cancels[j].order != o {
      assert j != k && ActiveCancel(s, j) && ActiveCancel(s, k);
    }
  }

  /** While an order is unlocked and its flow runs, the flow is alone on it. */
  lemma FlowIsAlone(c: Config, s: Sys, r: nat)
    requires Always(c, s) && Lawful(s) && InFlow(s, r) && s.orders[s.requests[r].pc.order].lock.None?
    ensures Untouched(WithPc(s, r, Dead), s.requests[r].pc.order)
  {
    var o := s.requests[r].pc.order;
    assert RequestTied(s, r) && FlowLawful(s, r);
    forall q | 0 <= q < |s.requests| && q != r && Running(s.requests[q].pc) ensures s.requests[q].pc.order != o {
      assert RequestTied(s, q);
    }
    forall e | 0 <= e < |s.expiries| && s.expiries[e].pc.Holding? ensures s.expiries[e].pc.order != o {
      assert HoldLawful(s, e);
    }
    forall k | 0 <= k < |s.cancels| && ActiveCancel(s, k) ensures s.cancels[k].order != o {
      assert CancelLawful(s, k);
    }
  }

  // ------------------------------------------------------------------ the writing steps

  lemma WriteMoves(c: Config, now: Time, ord: Order, pc: Pc)
    requires Running(pc) && Commit(c, now, ord, pc).Some? && ord.row.status == StatusAt(pc)
    ensures var (after, next) := Commit(c, now, ord, pc).value;
      && Follows(ord, after) && after.lock == ord.lock
      && (Running(next) ==> next.order == pc.order && after.row.status == StatusAt(next))
  {
  }

  /** The order is written and its flow taken off it. */
  function Idle(c: Config, s: Sys, r: nat): (t: Sys)
    requires CanFlow(c, s, r, WriteStatus)
  {
    WithPc(NextFlowStep(c, s, r, WriteStatus), r, Dead)
  }

  lemma IdleIsLawful(c: Config, s: Sys, r: nat)
    requires Covered(c, s) && CanFlow(c, s, r, WriteStatus)
    ensures Lawful(Idle(c, s, r))
  {
    var o, t := s.requests[r].pc.order, Idle(c, s, r);
    FlowIsAlone(c, s, r);
    var u := WithPc(s, r, Dead);
    assert t.requests == u.requests && t.expiries == u.expiries && t.cancels == u.cancels;
    assert forall k :: 0 <= k < |t.cancels| ==> ActiveCancel(t, k) == ActiveCancel(u, k);
    LeaveLawful(s, t, o);
  }

  lemma BackAtWork(c: Config, t: Sys, r: nat, pc: Pc)
    requires Lawful(t) && r < |t.requests|
    requires Running(pc) ==> pc.order < |t.orders| && t.orders[pc.order].row.status == StatusAt(pc)
    ensures Lawful(WithPc(t, r, pc))
  {
    var u := WithPc(t, r, pc);
    forall q | 0 <= q < |u.requests| ensures FlowLawful(u, q) { assert FlowLawful(t, q); }
    forall e | 0 <= e < |u.expiries| ensures HoldLawful(u, e) { assert HoldLawful(t, e); }
    forall k | 0 <= k < |u.cancels| ensures CancelLawful(u, k) { assert CancelLawful(t, k); }
    assert forall k :: 0 <= k < |u.cancels| ==> ActiveCancel(u, k) == ActiveCancel(t, k);
  }

  lemma WriteStepLawful(c: Config, s: Sys, r: nat)
    requires Covered(c, s) && CanFlow(c, s, r, WriteStatus)
    ensures Lawful(NextFlowStep(c, s, r, WriteStatus)) && AllFollow(s, NextFlowStep(c, s, r, WriteStatus))
  {
    var t, o := NextFlowStep(c, s, r, WriteStatus), s.requests[r].pc.order;
    assert FlowLawful(s, r);
    WriteMoves(c, s.now, s.orders[o], s.requests[r].pc);
    OneFollows(s, t, o);
    IdleIsLawful(c, s, r);
    BackAtWork(c, Idle(c, s, r), r, t.requests[r].pc);
    assert WithPc(Idle(c, s, r), r, t.requests[r].pc).requests == t.requests;
  }

  lemma OtherFlowStepLawful(c: Config, s: Sys, r: nat, ev: FlowEvent)
    requires Lawful(s) && CanFlow(c, s, r, ev) && !ev.WriteStatus?
    ensures Lawful(NextFlowStep(c, s, r, ev)) && AllFollow(s, NextFlowStep(c, s, r, ev))
  {
    var t, o := NextFlowStep(c, s, r, ev), s.requests[r].pc.order;
    OneFollows(s, t, o);
    QuietLawful(s, t);
  }

  lemma WriteCancelLawful(c: Config, s: Sys, k: nat)
    requires Lawful(s) && CancelHolds(s, k)
    ensures Lawful(NextWriteCancel(s, k)) && AllFollow(s, NextWriteCancel(s, k))
  {
    var t, o := NextWriteCancel(s, k), s.cancels[k].order;
    assert CancelLawful(s, k);
    OneFollows(s, t, o);
    CancelIsAlone(s, k);
    assert Untouched(t, o) by { assert t.cancels == s.cancels[k := s.cancels[k].(pc := Over)]; }
    LeaveLawful(s, t, o);
  }

  lemma TakeLawful(c: Config, s: Sys, e: nat)
    requires Lawful(s) && HasNext(s, e)
    ensures Lawful(NextTake(s, e)) && AllFollow(s, NextTake(s, e))
  {
    var t, o := NextTake(s, e), s.expiries[e].todo[0];
    OneFollows(s, t, o);
    forall r | 0 <= r < |t.requests| ensures FlowLawful(t, r) { assert FlowLawful(s, r); }
    forall f | 0 <= f < |t.expiries| ensures HoldLawful(t, f) { assert HoldLawful(s, f); }
    forall k | 0 <= k < |t.cancels| ensures CancelLawful(t, k) { assert CancelLawful(s, k); }
    assert forall k :: 0 <= k < |t.cancels| ==> ActiveCancel(t, k) == ActiveCancel(s, k);
  }

  /** An expiry run lets go of its order, having expired it or not. */
  lemma LetGoLawful(c: Config, s: Sys, t: Sys, e: nat, ord: Order)
    requires Covered(c, s) && ExpiryHolds(s, e)
    requires t == WithExpiry(WithOrder(s, s.expiries[e].pc.order, ord), e, s.expiries[e].(pc := Between))
    requires Follows(s.orders[s.expiries[e].pc.order], ord)
    ensures Lawful(t) && AllFollow(s, t)
  {
    var o := s.expiries[e].pc.order;
    OneFollows(s, t, o);
    HoldIsAlone(c, s, e);
    assert Untouched(t, o) by {
      assert Untouched(s.(expiries := s.expiries[e := s.expiries[e].(pc := Between)]), o);
    }
    LeaveLawful(s, t, o);
  }

  lemma ExpiryLawful(c: Config, s: Sys, e: nat)
    requires Covered(c, s) && ExpiryHolds(s, e)
    ensures Lawful(NextHearExpiry(s, e)) && AllFollow(s, NextHearExpiry(s, e))
    ensures Lawful(NextFaultExpiry(c, s, e)) && AllFollow(s, NextFaultExpiry(c, s, e))
    ensures Lawful(NextAbortExpiry(s, e)) && AllFollow(s, NextAbortExpiry(s, e))
  {
    assert HoldLawful(s, e);
    var o := s.expiries[e].pc.order;
    LetGoLawful(c, s, NextHearExpiry(s, e), e, NextHearExpiry(s, e).orders[o]);
    LetGoLawful(c, s, NextFaultExpiry(c, s, e), e, NextFaultExpiry(c, s, e).orders[o]);
    LetGoLawful(c, s, NextAbortExpiry(s, e), e, NextAbortExpiry(s, e).orders[o]);
  }

  // ------------------------------------------------------------------ the other steps

  lemma InsertLawful(c: Config, s: Sys, r: nat, total: nat)
    requires Lawful(s) && r < |s.requests| && !Running(s.requests[r].pc)
    ensures Lawful(NextInsert(c, s, r, total)) && AllFollow(s, NextInsert(c, s, r, total))
  {
    var t := NextInsert(c, s, r, total);
    forall q | 0 <= q < |t.requests| ensures FlowLawful(t, q) { assert FlowLawful(s, q); }
    forall e | 0 <= e < |t.expiries| ensures HoldLawful(t, e) { assert HoldLawful(s, e); }
    forall k | 0 <= k < |t.cancels| ensures CancelLawful(t, k) { assert CancelLawful(s, k); }
    assert forall k :: 0 <= k < |t.cancels| ==> ActiveCancel(t, k) == ActiveCancel(s, k);
  }

  lemma StartCancelLawful(s: Sys, o: OrderId)
    requires Lawful(s) && Cancellable(s, o)
    ensures Lawful(NextStartCancel(s, o)) && AllFollow(s, NextStartCancel(s, o))
  {
    var t := NextStartCancel(s, o);
    OneFollows(s, t, o);
    forall r | 0 <= r < |t.requests| ensures FlowLawful(t, r) { assert FlowLawful(s, r); }
    forall e | 0 <= e < |t.expiries| ensures HoldLawful(t, e) { assert HoldLawful(s, e); }
    forall k | 0 <= k < |t.cancels| ensures CancelLawful(t, k) { if k < |s.cancels| { assert CancelLawful(s, k); } }
    assert forall k :: 0 <= k < |s.cancels| ==> ActiveCancel(t, k) == ActiveCancel(s, k);
  }

  lemma CancelStepLawful(s: Sys, k: nat)
    requires Lawful(s) && CancelHolds(s, k)
    ensures Lawful(NextServeCancel(s, k)) && AllFollow(s, NextServeCancel(s, k))
    ensures Lawful(NextHearCancel(s, k)) && AllFollow(s, NextHearCancel(s, k))
    ensures Lawful(NextFaultCancel(s, k)) && AllFollow(s, NextFaultCancel(s, k))
  {
    var o := s.cancels[k].order;
    QuietLawful(s, NextServeCancel(s, k));
    QuietLawful(s, NextHearCancel(s, k));
    QuietLawful(s, NextFaultCancel(s, k));
    OneFollows(s, NextHearCancel(s, k), o);
    OneFollows(s, NextFaultCancel(s, k), o);
  }

  lemma CallLawful(s: Sys, o: OrderId, kind: Kind, result: P.GatewayResult)
    requires Lawful(s) && o < |s.orders| && Late(s.orders[o], kind).Some?
    ensures Lawful(NextLand(s, o, kind, result)) && AllFollow(s, NextLand(s, o, kind, result))
    ensures Lawful(NextDrop(s, o, kind)) && AllFollow(s, NextDrop(s, o, kind))
  {
    QuietLawful(s, NextLand(s, o, kind, result));
    QuietLawful(s, NextDrop(s, o, kind));
    OneFollows(s, NextLand(s, o, kind, result), o);
    OneFollows(s, NextDrop(s, o, kind), o);
  }

  lemma ServeLawful(s: Sys, r: nat, result: P.GatewayResult)
    requires Lawful(s) && InFlow(s, r) && Waiting(s.requests[r].pc)
    ensures Lawful(NextServeFlow(s, r, result)) && AllFollow(s, NextServeFlow(s, r, result))
  {
    QuietLawful(s, NextServeFlow(s, r, result));
    OneFollows(s, NextServeFlow(s, r, result), s.requests[r].pc.order);
  }

  lemma ReleaseLawful(s: Sys, o: OrderId)
    requires Lawful(s) && o < |s.orders|
    ensures Lawful(NextOperatorRelease(s, o)) && AllFollow(s, NextOperatorRelease(s, o))
    ensures Lawful(ReleaseAt(s, o)) && AllFollow(s, ReleaseAt(s, o))
  {
    QuietLawful(s, NextOperatorRelease(s, o));
    QuietLawful(s, ReleaseAt(s, o));
    OneFollows(s, NextOperatorRelease(s, o), o);
  }

  lemma ServeExpiryLawful(s: Sys, e: nat)
    requires Lawful(s) && ExpiryHolds(s, e)
    ensures Lawful(NextServeExpiry(s, e)) && AllFollow(s, NextServeExpiry(s, e))
  {
    QuietLawful(s, NextServeExpiry(s, e));
  }

  lemma TableLawful(c: Config, s: Sys, l: Label)
    requires Lawful(s) && Enabled(c, s, l)
    requires l.Tick? || StockLabel(l) || RequestLabel(l) || l.StartExpiry?
    ensures Lawful(Next(c, s, l)) && AllFollow(s, Next(c, s, l))
  {
    QuietLawful(s, Next(c, s, l));
  }

  lemma CancelLabelLawful(c: Config, s: Sys, l: Label)
    requires Covered(c, s) && Enabled(c, s, l) && CancelLabel(l)
    ensures Lawful(Next(c, s, l)) && AllFollow(s, Next(c, s, l))
  {
    match l
    case StartCancel(o) => StartCancelLawful(s, o);
    case ServeCancel(k) => CancelStepLawful(s, k);
    case HearCancel(k) => CancelStepLawful(s, k);
    case FaultCancel(k) => CancelStepLawful(s, k);
    case WriteCancel(k) => WriteCancelLawful(c, s, k);
  }

  lemma ExpiryLabelLawful(c: Config, s: Sys, l: Label)
    requires Covered(c, s) && Enabled(c, s, l) && ExpiryLabel(l) && !l.StartExpiry?
    ensures Lawful(Next(c, s, l)) && AllFollow(s, Next(c, s, l))
  {
    match l
    case TakeNext(e) => TakeLawful(c, s, e);
    case ServeExpiry(e) => ServeExpiryLawful(s, e);
    case HearExpiry(e) => ExpiryLawful(c, s, e);
    case FaultExpiry(e) => ExpiryLawful(c, s, e);
    case AbortExpiry(e) => ExpiryLawful(c, s, e);
  }

  lemma OrderLabelLawful(c: Config, s: Sys, l: Label)
    requires Covered(c, s) && Enabled(c, s, l) && OrderLabel(l)
    ensures Lawful(Next(c, s, l)) && AllFollow(s, Next(c, s, l))
  {
    match l
    case Insert(r) => InsertLawful(c, s, r, s.requests[r].pc.total);
    case FlowStep(r, ev) => if ev.WriteStatus? { WriteStepLawful(c, s, r); } else { OtherFlowStepLawful(c, s, r, ev); }
    case ServeFlow(r, result) => ServeLawful(s, r, result);
    case Land(o, kind, result) => CallLawful(s, o, kind, result);
    case Drop(o, kind) => CallLawful(s, o, kind, P.Declined(""));
    case LandRelease(o) => ReleaseLawful(s, o);
    case OperatorRelease(o) => ReleaseLawful(s, o);
  }

  lemma StepLawful(c: Config, s: Sys, l: Label)
    requires Covered(c, s) && Enabled(c, s, l)
    ensures Lawful(Next(c, s, l)) && AllFollow(s, Next(c, s, l))
  {
    if CancelLabel(l) {
      CancelLabelLawful(c, s, l);
    } else if OrderLabel(l) {
      OrderLabelLawful(c, s, l);
    } else if ExpiryLabel(l) && !l.StartExpiry? {
      ExpiryLabelLawful(c, s, l);
    } else {
      TableLawful(c, s, l);
    }
  }

  // ------------------------------------------------------------------ every run

  lemma StepCovered(c: Config, s: Sys, l: Label)
    requires Covered(c, s) && Enabled(c, s, l)
    ensures Covered(c, Next(c, s, l))
  {
    StepAlways(c, s, l);
    StepIsPunctual(c, s, l);
    StepLawful(c, s, l);
  }

  lemma {:induction false} RunCovered(c: Config, s: Sys, ls: seq<Label>)
    requires Covered(c, s) && CanRun(c, s, ls)
    ensures Covered(c, After(c, s, ls))
    decreases |ls|
  {
    if ls != [] {
      StepCovered(c, s, ls[0]);
      RunCovered(c, Next(c, s, ls[0]), ls[1..]);
    }
  }

  lemma ReachableCovered(c: Config, s: Sys)
    requires FlowBound(c) <= c.window && Reachable(c, s)
    ensures Covered(c, s)
  {
    var ls :| CanRun(c, EMPTY, ls) && After(c, EMPTY, ls) == s;
    RunCovered(c, EMPTY, ls);
  }

  /** Every status commit, by whatever process, is a move of the table, made from the status really left. */
  lemma EveryWriteIsAllowed(c: Config, s: Sys, l: Label)
    requires FlowBound(c) <= c.window && Reachable(c, s) && Enabled(c, s, l)
    ensures AllFollow(s, Next(c, s, l))
  {
    ReachableCovered(c, s);
    StepLawful(c, s, l);
  }

  /** In no run is the table ever broken, exactly when the window covers the longest flow. */
  lemma WritesAreLawfulIff(c: Config)
    ensures (forall s, l :: Reachable(c, s) && Enabled(c, s, l) ==> AllFollow(s, Next(c, s, l)))
      <==> FlowBound(c) <= c.window
  {
    if FlowBound(c) <= c.window {
      forall s, l | Reachable(c, s) && Enabled(c, s, l) ensures AllFollow(s, Next(c, s, l)) {
        EveryWriteIsAllowed(c, s, l);
      }
    } else {
      ShortWindowReopens(c);
      var s, l := Overtaken(c), FlowStep(0, WriteStatus);
      assert !Follows(s.orders[0], Next(c, s, l).orders[0]);
      assert !AllFollow(s, Next(c, s, l));
    }
  }

  lemma MovesExtend(a: Row, b: Row)
    requires Moves(a, b)
    ensures a.events <= b.events
    ensures Allowed(a.status) == {} ==> b == a
    ensures TrailOk(a) ==> TrailOk(b)
  {
    if b != a { if TrailOk(a) { WriteKeepsTrail(a, b.status, b.events[|b.events| - 1].reason); } }
  }

  /** What later states may say about an order: more history, and nothing new once it is closed. */
  predicate Continues(a: Order, b: Order) {
    && SameIdentity(a, b)
    && a.row.events <= b.row.events
    && (Allowed(a.row.status) == {} ==> b.row == a.row)
  }

  lemma {:induction false} CoveredContinues(c: Config, s: Sys, ls: seq<Label>, o: OrderId)
    requires Covered(c, s) && CanRun(c, s, ls) && o < |s.orders|
    ensures o < |After(c, s, ls).orders| && Continues(s.orders[o], After(c, s, ls).orders[o])
    decreases |ls|
  {
    if ls != [] {
      var t := Next(c, s, ls[0]);
      StepLawful(c, s, ls[0]);
      assert Follows(s.orders[o], t.orders[o]);
      MovesExtend(s.orders[o].row, t.orders[o].row);
      StepCovered(c, s, ls[0]);
      CoveredContinues(c, t, ls[1..], o);
    }
  }

  /** Over any run: no order is lost or rewritten, and FAILED, EXPIRED and CANCELLED are never left. */
  lemma ClosedForEver(c: Config, s: Sys, ls: seq<Label>, o: OrderId)
    requires FlowBound(c) <= c.window && Reachable(c, s) && CanRun(c, s, ls) && o < |s.orders|
    ensures o < |After(c, s, ls).orders| && Continues(s.orders[o], After(c, s, ls).orders[o])
  {
    ReachableCovered(c, s);
    CoveredContinues(c, s, ls, o);
  }

  ghost predicate TrailsOk(s: Sys) {
    forall o :: 0 <= o < |s.orders| ==> TrailOk(s.orders[o].row)
  }

  lemma StepKeepsTrails(c: Config, s: Sys, l: Label)
    requires Covered(c, s) && TrailsOk(s) && Enabled(c, s, l)
    ensures TrailsOk(Next(c, s, l))
  {
    var t := Next(c, s, l);
    StepLawful(c, s, l);
    NewOrdersArePlaced(c, s, l);
    forall o | 0 <= o < |t.orders| ensures TrailOk(t.orders[o].row) {
      if o < |s.orders| {
        assert Follows(s.orders[o], t.orders[o]);
        MovesExtend(s.orders[o].row, t.orders[o].row);
      }
    }
  }

  lemma NewOrdersArePlaced(c: Config, s: Sys, l: Label)
    requires Enabled(c, s, l)
    ensures forall o :: |s.orders| <= o < |Next(c, s, l).orders| ==> Next(c, s, l).orders[o].row == Placed()
  {
  }

  lemma {:induction false} RunKeepsTrails(c: Config, s: Sys, ls: seq<Label>)
    requires Covered(c, s) && TrailsOk(s) && CanRun(c, s, ls)
    ensures TrailsOk(After(c, s, ls))
    decreases |ls|
  {
    if ls != [] {
      StepKeepsTrails(c, s, ls[0]);
      StepCovered(c, s, ls[0]);
      RunKeepsTrails(c, Next(c, s, ls[0]), ls[1..]);
    }
  }

  /** Every audit trail is lawful and short; no order is expired twice, however many runs overlap. */
  lemma TrailsAreLawful(c: Config, s: Sys, o: OrderId)
    requires FlowBound(c) <= c.window && Reachable(c, s) && o < |s.orders|
    ensures TrailOk(s.orders[o].row) && |s.orders[o].row.events| <= 4
    ensures var es := s.orders[o].row.events;
      forall i, j :: 0 <= i < j < |es| ==> es[i].to != es[j].to
  {
    var ls :| CanRun(c, EMPTY, ls) && After(c, EMPTY, ls) == s;
    RunKeepsTrails(c, EMPTY, ls);
    TrailIsShort(s.orders[o].row);
  }

  /** An expiry run only ever works on an order nobody is still placing, and no other run works on it. */
  lemma ExpiryIsAlone(c: Config, s: Sys, e: nat)
    requires FlowBound(c) <= c.window && Reachable(c, s) && e < |s.expiries| && s.expiries[e].pc.Holding?
    ensures var o := s.expiries[e].pc.order;
      && o < |s.orders|
      && (forall r :: 0 <= r < |s.requests| && Running(s.requests[r].pc) ==> s.requests[r].pc.order != o)
      && (forall k :: 0 <= k < |s.cancels| && ActiveCancel(s, k) ==> s.cancels[k].order != o)
      && (forall f :: 0 <= f < |s.expiries| && f != e && s.expiries[f].pc.Holding? ==> s.expiries[f].pc.order != o)
  {
    ReachableCovered(c, s);
    assert HoldLawful(s, e);
    HoldIsAlone(c, s, e);
    var t := s.(expiries := s.expiries[e := s.expiries[e].(pc := Between)]);
    assert forall f :: 0 <= f < |s.expiries| && f != e ==> t.expiries[f] == s.expiries[f];
    assert forall k :: 0 <= k < |s.cancels| ==> ActiveCancel(t, k) == ActiveCancel(s, k);
  }
}
