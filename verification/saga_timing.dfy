/**
  How wide the expiry window has to be: an expiry run can meet a create flow that is still
  running exactly when the window is shorter than the longest flow (INC-008).
*/
module SagaTiming {
  import opened Wrappers
  import opened OrderState
  import opened Saga
  import opened SagaInvariant
  import I = Inventory
  import P = Payments

  // ------------------------------------------------------------------ no later than the bound

  /** Flows meet their deadlines, and expiry runs look at old orders only; nothing else is assumed. */
  ghost predicate Punctual(c: Config, s: Sys) {
    && (forall r :: 0 <= r < |s.requests| && Running(s.requests[r].pc) ==> FlowPunctual(c, s, r))
    && (forall e :: 0 <= e < |s.expiries| ==> ExpiryLate(c, s, e))
  }

  ghost predicate FlowPunctual(c: Config, s: Sys, r: nat)
    requires r < |s.requests| && Running(s.requests[r].pc)
  {
    var pc := s.requests[r].pc;
    pc.order < |s.orders| && s.now <= Deadline(pc) <= s.orders[pc.order].createdAt + Offset(c, pc)
  }

  ghost predicate ExpiryLate(c: Config, s: Sys, e: nat)
    requires e < |s.expiries|
  {
    var x := s.expiries[e];
    && (forall o :: o in x.todo ==> o < |s.orders| && Stale(c, s.orders[o], s.now))
    && (x.pc.Holding? ==> x.pc.order < |s.orders| && Stale(c, s.orders[x.pc.order], s.now))
  }

  /** No step forgets an order or when it was placed, and only a tick moves the clock. */
  ghost predicate KeepsAges(s: Sys, t: Sys) {
    && |s.orders| <= |t.orders| && s.now <= t.now
    && (forall o :: 0 <= o < |s.orders| ==> t.orders[o].createdAt == s.orders[o].createdAt)
  }

  lemma CancelsKeepAges(s: Sys, k: nat)
    requires CancelHolds(s, k)
    ensures KeepsAges(s, NextServeCancel(s, k)) && KeepsAges(s, NextHearCancel(s, k))
    ensures KeepsAges(s, NextFaultCancel(s, k)) && KeepsAges(s, NextWriteCancel(s, k))
  {
  }

  lemma ExpiriesKeepAges(c: Config, s: Sys, e: nat)
    requires ExpiryHolds(s, e)
    ensures KeepsAges(s, NextServeExpiry(s, e)) && KeepsAges(s, NextAbortExpiry(s, e))
    ensures KeepsAges(s, NextHearExpiry(s, e)) && KeepsAges(s, NextFaultExpiry(c, s, e))
  {
  }

  lemma TakesKeepAges(s: Sys, e: nat)
    requires HasNext(s, e)
    ensures KeepsAges(s, NextTake(s, e))
  {
  }

  lemma FlowKeepsAges(c: Config, s: Sys, r: nat, ev: FlowEvent)
    requires CanFlow(c, s, r, ev)
    ensures KeepsAges(s, NextFlowStep(c, s, r, ev))
  {
  }

  lemma ServingKeepsAges(s: Sys, r: nat, result: P.GatewayResult)
    requires InFlow(s, r) && Waiting(s.requests[r].pc)
    ensures KeepsAges(s, NextServeFlow(s, r, result))
  {
  }

  lemma LandingKeepsAges(s: Sys, o: OrderId, kind: Kind, result: P.GatewayResult)
    requires o < |s.orders| && Late(s.orders[o], kind).Some?
    ensures KeepsAges(s, NextLand(s, o, kind, result)) && KeepsAges(s, NextDrop(s, o, kind))
  {
  }

  lemma StepKeepsAges(c: Config, s: Sys, l: Label)
    requires Enabled(c, s, l)
    ensures KeepsAges(s, Next(c, s, l))
  {
    match l
    case FlowStep(r, ev) => FlowKeepsAges(c, s, r, ev);
    case ServeFlow(r, result) => ServingKeepsAges(s, r, result);
    case Land(o, kind, result) => LandingKeepsAges(s, o, kind, result);
    case Drop(o, kind) => LandingKeepsAges(s, o, kind, P.Declined(""));
    case ServeCancel(k) => CancelsKeepAges(s, k);
    case HearCancel(k) => CancelsKeepAges(s, k);
    case FaultCancel(k) => CancelsKeepAges(s, k);
    case WriteCancel(k) => CancelsKeepAges(s, k);
    case TakeNext(e) => TakesKeepAges(s, e);
    case ServeExpiry(e) => ExpiriesKeepAges(c, s, e);
    case HearExpiry(e) => ExpiriesKeepAges(c, s, e);
    case FaultExpiry(e) => ExpiriesKeepAges(c, s, e);
    case AbortExpiry(e) => ExpiriesKeepAges(c, s, e);
    case _ =>
  }

  /** A step of the flow leaves it enough time: each wait starts before the last one's deadline. */
  lemma FlowIsPunctual(c: Config, now: Time, ord: Order, pc: Pc, ev: FlowEvent)
    requires Running(pc) && now <= Deadline(pc) <= ord.createdAt + Offset(c, pc)
    requires Flow(c, now, ord, pc, ev).Some?
    ensures var (_, after) := Flow(c, now, ord, pc, ev).value;
      Running(after) ==> after.order == pc.order && now <= Deadline(after) <= ord.createdAt + Offset(c, after)
  {
  }

  predicate FlowLabel(l: Label) {
    l.FlowStep? || l.ServeFlow? || l.Insert?
  }

  lemma OthersLeaveFlows(c: Config, s: Sys, l: Label, r: nat)
    requires Enabled(c, s, l) && !FlowLabel(l)
    requires var t := Next(c, s, l); r < |t.requests| && Running(t.requests[r].pc)
    ensures r < |s.requests| && Next(c, s, l).requests[r].pc == s.requests[r].pc
    ensures l.Tick? || Next(c, s, l).now == s.now
  {
  }

  lemma OwnStepIsPunctual(c: Config, s: Sys, q: nat, ev: FlowEvent, r: nat)
    requires Punctual(c, s) && CanFlow(c, s, q, ev) && r < |s.requests|
    requires Running(NextFlowStep(c, s, q, ev).requests[r].pc)
    ensures FlowPunctual(c, NextFlowStep(c, s, q, ev), r)
  {
    FlowKeepsAges(c, s, q, ev);
    assert Running(s.requests[r].pc) ==> FlowPunctual(c, s, r);
    if q == r { FlowIsPunctual(c, s.now, s.orders[s.requests[q].pc.order], s.requests[q].pc, ev); }
  }

  lemma ServedFlowIsPunctual(c: Config, s: Sys, q: nat, result: P.GatewayResult, r: nat)
    requires Punctual(c, s) && InFlow(s, q) && Waiting(s.requests[q].pc) && r < |s.requests|
    requires Running(NextServeFlow(s, q, result).requests[r].pc)
    ensures FlowPunctual(c, NextServeFlow(s, q, result), r)
  {
    assert FlowPunctual(c, s, r);
  }

  lemma InsertIsPunctual(c: Config, s: Sys, q: nat, total: nat, r: nat)
    requires Punctual(c, s) && q < |s.requests| && !Running(s.requests[q].pc) && r < |s.requests|
    requires Running(NextInsert(c, s, q, total).requests[r].pc)
    ensures FlowPunctual(c, NextInsert(c, s, q, total), r)
  {
    assert r != q ==> FlowPunctual(c, s, r);
  }

  lemma OneFlowMoves(c: Config, s: Sys, l: Label, r: nat)
    requires Punctual(c, s) && Enabled(c, s, l) && FlowLabel(l)
    requires var t := Next(c, s, l); r < |t.requests| && Running(t.requests[r].pc)
    ensures FlowPunctual(c, Next(c, s, l), r)
  {
    match l
    case FlowStep(q, ev) => OwnStepIsPunctual(c, s, q, ev, r);
    case ServeFlow(q, result) => ServedFlowIsPunctual(c, s, q, result, r);
    case Insert(q) => InsertIsPunctual(c, s, q, s.requests[q].pc.total, r);
  }

  lemma FlowsStayPunctual(c: Config, s: Sys, l: Label, r: nat)
    requires Punctual(c, s) && Enabled(c, s, l)
    requires var t := Next(c, s, l); r < |t.requests| && Running(t.requests[r].pc)
    ensures FlowPunctual(c, Next(c, s, l), r)
  {
    if FlowLabel(l) {
      OneFlowMoves(c, s, l, r);
    } else {
      OthersLeaveFlows(c, s, l, r);
      StepKeepsAges(c, s, l);
      assert FlowPunctual(c, s, r);
      if l.Tick? { assert OnTime(c, s, s.now + l.d); }
    }
  }

  lemma OldStaysOld(c: Config, s: Sys, t: Sys, o: OrderId)
    requires KeepsAges(s, t) && o < |s.orders| && Stale(c, s.orders[o], s.now)
    ensures o < |t.orders| && Stale(c, t.orders[o], t.now)
  {
  }

  lemma OthersLeaveExpiries(c: Config, s: Sys, l: Label)
    requires Enabled(c, s, l) && !ExpiryLabel(l)
    ensures Next(c, s, l).expiries == s.expiries
  {
  }

  /** What an expiry run looks at after a step was on its list, or in its hands, before. */
  predicate WorksDown(a: Expiry, b: Expiry) {
    && (forall o :: o in b.todo ==> o in a.todo)
    && (b.pc.Holding? ==> b.pc.order in a.todo || (a.pc.Holding? && b.pc.order == a.pc.order))
  }

  ghost predicate AllWorkDown(s: Sys, t: Sys) {
    |t.expiries| == |s.expiries| && forall e :: 0 <= e < |s.expiries| ==> WorksDown(s.expiries[e], t.expiries[e])
  }

  lemma TakeWorksDown(s: Sys, k: nat)
    requires HasNext(s, k)
    ensures AllWorkDown(s, NextTake(s, k))
  {
    assert s.expiries[k].todo[0] in s.expiries[k].todo;
    assert forall o :: o in s.expiries[k].todo[1..] ==> o in s.expiries[k].todo;
  }

  lemma RestWorksDown(c: Config, s: Sys, k: nat)
    requires ExpiryHolds(s, k)
    ensures AllWorkDown(s, NextServeExpiry(s, k)) && AllWorkDown(s, NextHearExpiry(s, k))
    ensures AllWorkDown(s, NextFaultExpiry(c, s, k)) && AllWorkDown(s, NextAbortExpiry(s, k))
  {
  }

  lemma ExpiryWorksDown(c: Config, s: Sys, l: Label)
    requires Enabled(c, s, l) && ExpiryLabel(l) && !l.StartExpiry?
    ensures AllWorkDown(s, Next(c, s, l))
  {
    match l
    case TakeNext(k) => TakeWorksDown(s, k);
    case ServeExpiry(k) => RestWorksDown(c, s, k);
    case HearExpiry(k) => RestWorksDown(c, s, k);
    case FaultExpiry(k) => RestWorksDown(c, s, k);
    case AbortExpiry(k) => RestWorksDown(c, s, k);
  }

  lemma RunStarts(c: Config, s: Sys, todo: seq<OrderId>, e: nat)
    requires Punctual(c, s) && Listable(c, s, todo) && e <= |s.expiries|
    ensures ExpiryLate(c, s.(expiries := s.expiries + [Expiry(s.now, todo, Between)]), e)
  {
    if e < |s.expiries| { assert ExpiryLate(c, s, e); }
  }

  lemma WorkStaysLate(c: Config, s: Sys, t: Sys, e: nat)
    requires KeepsAges(s, t) && e < |s.expiries| && e < |t.expiries| && ExpiryLate(c, s, e)
    requires WorksDown(s.expiries[e], t.expiries[e])
    ensures ExpiryLate(c, t, e)
  {
    forall o | o in t.expiries[e].todo || (t.expiries[e].pc.Holding? && o == t.expiries[e].pc.order)
      ensures o < |t.orders| && Stale(c, t.orders[o], t.now)
    {
      OldStaysOld(c, s, t, o);
    }
  }

  lemma ExpiriesStayLate(c: Config, s: Sys, l: Label, e: nat)
    requires Punctual(c, s) && Enabled(c, s, l) && e < |Next(c, s, l).expiries|
    ensures ExpiryLate(c, Next(c, s, l), e)
  {
    if l.StartExpiry? {
      RunStarts(c, s, l.todo, e);
    } else {
      StepKeepsAges(c, s, l);
      if ExpiryLabel(l) { ExpiryWorksDown(c, s, l); } else { OthersLeaveExpiries(c, s, l); }
      assert ExpiryLate(c, s, e);
      WorkStaysLate(c, s, Next(c, s, l), e);
    }
  }

  lemma StepIsPunctual(c: Config, s: Sys, l: Label)
    requires Punctual(c, s) && Enabled(c, s, l)
    ensures Punctual(c, Next(c, s, l))
  {
    var t := Next(c, s, l);
    forall r | 0 <= r < |t.requests| && Running(t.requests[r].pc) ensures FlowPunctual(c, t, r) {
      FlowsStayPunctual(c, s, l, r);
    }
    forall e | 0 <= e < |t.expiries| ensures ExpiryLate(c, t, e) { ExpiriesStayLate(c, s, l, e); }
  }

  lemma {:induction false} RunsArePunctual(c: Config, s: Sys, ls: seq<Label>)
    requires Punctual(c, s) && CanRun(c, s, ls)
    ensures Punctual(c, After(c, s, ls))
    decreases |ls|
  {
    if ls != [] {
      StepIsPunctual(c, s, ls[0]);
      RunsArePunctual(c, Next(c, s, ls[0]), ls[1..]);
    }
  }

  // ------------------------------------------------------------------ no earlier than the bound

  lemma {:induction false} RunOn(c: Config, s: Sys, ls: seq<Label>, l: Label)
    requires CanRun(c, s, ls) && Enabled(c, After(c, s, ls), l)
    ensures CanRun(c, s, ls + [l]) && After(c, s, ls + [l]) == Next(c, After(c, s, ls), l)
    decreases |ls|
  {
    if ls == [] {
      assert ls + [l] == [l];
      assert [l][1..] == [];
    } else {
      RunOn(c, Next(c, s, ls[0]), ls[1..], l);
      assert (ls + [l])[1..] == ls[1..] + [l];
    }
  }

  lemma Reach(c: Config, s: Sys, l: Label, t: Sys)
    requires Reachable(c, s) && Enabled(c, s, l) && Next(c, s, l) == t
    ensures Reachable(c, t)
  {
    var ls :| CanRun(c, EMPTY, ls) && After(c, EMPTY, ls) == s;
    RunOn(c, EMPTY, ls, l);
  }

  const ONE: seq<I.Item> := [I.Item(0, 1)]

  /** One product, one customer, one order, one unit. */
  function At(now: Time, ord: Order, pc: Pc, stock: int, rows: seq<I.Row>, pays: map<OrderId, P.Payment>,
              expiries: seq<Expiry>): (s: Sys)
  {
    Sys(now, [ord], I.Db(map[0 := stock], rows), pays, [Request("k", "e", ONE, pc)], [], expiries, map[0 := 1])
  }

  function Before(pc: Pc): (s: Sys) {
    Sys(0, [], I.Db(map[0 := 1], []), map[], [Request("k", "e", ONE, pc)], [], [], map[0 := 1])
  }

  function First(): (ord: Order) {
    NewOrder(Request("k", "e", ONE, Priced(5)), 5, 0, 0).(reserves := 1)
  }

  function OneRow(st: I.RowStatus): (rows: seq<I.Row>) {
    [I.Row(0, 0, 1, st)]
  }

  lemma Arriving(c: Config)
    ensures Reachable(c, Before(KeyIsNew))
  {
    assert CanRun(c, EMPTY, []) && After(c, EMPTY, []) == EMPTY;
    var stocked := EMPTY.(db := I.Db(map[0 := 1], []), supply := map[0 := 1]);
    Reach(c, EMPTY, CreateProduct(0, 1), stocked);
    Reach(c, stocked, Arrive("k", "e", ONE), Before(Arrived));
    Reach(c, Before(Arrived), Lookup(0), Before(KeyIsNew));
  }

  lemma Placing(c: Config)
    ensures Reachable(c, At(0, First(), Reserving(0, Call(c.local + c.inventoryTimeout, Sent)), 1, [], map[], []))
  {
    Arriving(c);
    Reach(c, Before(KeyIsNew), Price(0, 5), Before(Priced(5)));
    Reach(c, Before(Priced(5)), Insert(0),
          At(0, First(), Reserving(0, Call(c.local + c.inventoryTimeout, Sent)), 1, [], map[], []));
  }

  function Second(): (ord: Order) {
    First().(row := Written(Placed(), PENDING, RESERVED, StockReserved), charges := 1)
  }

  function ReservedBy(c: Config): (t: Time) {
    2 * c.local + c.inventoryTimeout
  }

  function PaidBy(c: Config): (t: Time) {
    ReservedBy(c) + c.local + c.paymentsTimeout
  }

  lemma Taken(c: Config)
    ensures Reachable(c, At(0, First(), Reserving(0, Call(c.local + c.inventoryTimeout, Answered(true))), 0,
                            OneRow(I.Active), map[], []))
  {
    Placing(c);
    var due := c.local + c.inventoryTimeout;
    var sent := At(0, First(), Reserving(0, Call(due, Sent)), 1, [], map[], []);
    assert I.InSkuOrder(ONE) == ONE && I.Qty(ONE, 0) == 1;
    assert I.Unknown(map[0 := 1], ONE) == {};
    var taken := I.Reserve(sent.db, 0, ONE);
    assert taken.db.stock == map[0 := 0] && taken.db.rows == OneRow(I.Active) && taken.result.Ok?;
    var served := At(0, First(), Reserving(0, Call(due, Answered(true))), 0, OneRow(I.Active), map[], []);
    assert NextServeFlow(sent, 0, P.Declined("")) == served;
    Reach(c, sent, ServeFlow(0, P.Declined("")), served);
  }

  lemma Waits(c: Config, now: Time, ord: Order, pc: Pc, stock: int, rows: seq<I.Row>, pays: map<OrderId, P.Payment>,
              later: Time)
    requires Reachable(c, At(now, ord, pc, stock, rows, pays, [])) && now <= later
    requires Running(pc) && later <= Deadline(pc) && forall k :: Late(ord, k).None?
    ensures Reachable(c, At(later, ord, pc, stock, rows, pays, []))
  {
    Reach(c, At(now, ord, pc, stock, rows, pays, []), Tick(later - now), At(later, ord, pc, stock, rows, pays, []));
  }

  lemma Steps(c: Config, now: Time, ord: Order, pc: Pc, stock: int, rows: seq<I.Row>, pays: map<OrderId, P.Payment>,
              ev: FlowEvent)
    requires Reachable(c, At(now, ord, pc, stock, rows, pays, []))
    requires Running(pc) && pc.order == 0 && Flow(c, now, ord, pc, ev).Some?
    ensures var (after, at) := Flow(c, now, ord, pc, ev).value; Reachable(c, At(now, after, at, stock, rows, pays, []))
  {
    var s := At(now, ord, pc, stock, rows, pays, []);
    var (after, at) := Flow(c, now, ord, pc, ev).value;
    Reach(c, s, FlowStep(0, ev), At(now, after, at, stock, rows, pays, []));
  }

  lemma Heard(c: Config)
    ensures var due := c.local + c.inventoryTimeout;
      Reachable(c, At(due, First(), Accepted(0, due + c.local), 0, OneRow(I.Active), map[], []))
  {
    Taken(c);
    var due := c.local + c.inventoryTimeout;
    Waits(c, 0, First(), Reserving(0, Call(due, Answered(true))), 0, OneRow(I.Active), map[], due);
    Steps(c, due, First(), Reserving(0, Call(due, Answered(true))), 0, OneRow(I.Active), map[], Hear);
  }

  lemma Reserved(c: Config)
    ensures Reachable(c, At(ReservedBy(c), Second(), Charging(0, Call(PaidBy(c), Sent)), 0,
                            OneRow(I.Active), map[], []))
  {
    Heard(c);
    var due := c.local + c.inventoryTimeout;
    Waits(c, due, First(), Accepted(0, due + c.local), 0, OneRow(I.Active), map[], ReservedBy(c));
    Steps(c, ReservedBy(c), First(), Accepted(0, due + c.local), 0, OneRow(I.Active), map[], WriteStatus);
  }

  const YES := P.Approved("ref")

  function Third(): (ord: Order) {
    Second().(asked := 1)
  }

  const PAID: map<OrderId, P.Payment> := map[0 := P.Close(P.Opened(5), 0, YES)]

  lemma Asked(c: Config)
    ensures Reachable(c, At(ReservedBy(c), Third(), Charging(0, Call(PaidBy(c), GatewayAsked(YES))), 0,
                            OneRow(I.Active), map[0 := P.Opened(5)], []))
  {
    Reserved(c);
    var due := PaidBy(c);
    var rows := OneRow(I.Active);
    var sent := At(ReservedBy(c), Second(), Charging(0, Call(due, Sent)), 0, rows, map[], []);
    var begun := At(ReservedBy(c), Second(), Charging(0, Call(due, RowOpened)), 0, rows, map[0 := P.Opened(5)], []);
    assert NextServeFlow(sent, 0, YES) == begun;
    Reach(c, sent, ServeFlow(0, YES), begun);
    Reach(c, begun, ServeFlow(0, YES), NextServeFlow(begun, 0, YES));
  }

  lemma Closed(c: Config)
    ensures Reachable(c, At(ReservedBy(c), Third(), Charging(0, Call(PaidBy(c), Answered(true))), 0,
                            OneRow(I.Active), PAID, []))
  {
    Asked(c);
    var asked := At(ReservedBy(c), Third(), Charging(0, Call(PaidBy(c), GatewayAsked(YES))), 0, OneRow(I.Active),
                    map[0 := P.Opened(5)], []);
    var closed := At(ReservedBy(c), Third(), Charging(0, Call(PaidBy(c), Answered(true))), 0,
                     OneRow(I.Active), PAID, []);
    assert NextServeFlow(asked, 0, YES) == closed;
    Reach(c, asked, ServeFlow(0, YES), closed);
  }

  lemma Answering(c: Config)
    ensures Reachable(c, At(PaidBy(c), Third(), Charging(0, Call(PaidBy(c), Answered(true))), 0,
                            OneRow(I.Active), PAID, []))
  {
    Closed(c);
    var pc := Charging(0, Call(PaidBy(c), Answered(true)));
    Waits(c, ReservedBy(c), Third(), pc, 0, OneRow(I.Active), PAID, PaidBy(c));
  }

  lemma Charged(c: Config)
    ensures Reachable(c, At(PaidBy(c), Third(), Committing(0, Call(PaidBy(c) + c.local + c.inventoryTimeout, Sent)),
                            0, OneRow(I.Active), PAID, []))
  {
    Answering(c);
    var due := PaidBy(c);
    Steps(c, due, Third(), Charging(0, Call(due, Answered(true))), 0, OneRow(I.Active), PAID, Hear);
  }

  function LastMoment(c: Config, expiries: seq<Expiry>): (s: Sys) {
    At(FlowBound(c), Third(), Paying(0, FlowBound(c)), 0, OneRow(I.Committed), PAID, expiries)
  }

  lemma Bought(c: Config)
    ensures Reachable(c, At(PaidBy(c), Third(),
                            Committing(0, Call(PaidBy(c) + c.local + c.inventoryTimeout, Answered(true))), 0,
                            OneRow(I.Committed), PAID, []))
  {
    Charged(c);
    var due := PaidBy(c) + c.local + c.inventoryTimeout;
    var sent := At(PaidBy(c), Third(), Committing(0, Call(due, Sent)), 0, OneRow(I.Active), PAID, []);
    var served := At(PaidBy(c), Third(), Committing(0, Call(due, Answered(true))), 0, OneRow(I.Committed), PAID, []);
    assert I.SetStatus(OneRow(I.Active), 0, I.Committed) == OneRow(I.Committed);
    assert NextServeFlow(sent, 0, YES) == served;
    Reach(c, sent, ServeFlow(0, YES), served);
  }

  function PayingAt(c: Config): (t: Time) {
    PaidBy(c) + c.local + c.inventoryTimeout
  }

  lemma Waited(c: Config)
    ensures Reachable(c, At(PayingAt(c), Third(), Paying(0, FlowBound(c)), 0, OneRow(I.Committed), PAID, []))
  {
    Bought(c);
    var due := PayingAt(c);
    Waits(c, PaidBy(c), Third(), Committing(0, Call(due, Answered(true))), 0, OneRow(I.Committed), PAID, due);
    Steps(c, due, Third(), Committing(0, Call(due, Answered(true))), 0, OneRow(I.Committed), PAID, Hear);
  }

  lemma AlmostDone(c: Config)
    ensures Reachable(c, LastMoment(c, []))
  {
    Waited(c);
    Waits(c, PayingAt(c), Third(), Paying(0, FlowBound(c)), 0, OneRow(I.Committed), PAID, FlowBound(c));
  }

  // ------------------------------------------------------------------ exactly the bound

  /** An expiry run holds an order whose create flow is still running. */
  ghost predicate Meets(s: Sys) {
    exists e, r ::
      && 0 <= e < |s.expiries| && s.expiries[e].pc.Holding?
      && 0 <= r < |s.requests| && Running(s.requests[r].pc)
      && s.requests[r].pc.order == s.expiries[e].pc.order
  }

  function Caught(c: Config): (s: Sys) {
    At(FlowBound(c), Third().(lock := Some(0), releaseSent := true), Paying(0, FlowBound(c)), 0, OneRow(I.Committed),
       PAID, [Expiry(FlowBound(c), [], Holding(0, Sent))])
  }

  lemma ShortWindowCatches(c: Config)
    requires c.window < FlowBound(c)
    ensures Reachable(c, Caught(c)) && Meets(Caught(c))
  {
    AlmostDone(c);
    var started := LastMoment(c, [Expiry(FlowBound(c), [0], Between)]);
    Reach(c, LastMoment(c, []), StartExpiry([0]), started);
    assert [0][1..] == [];
    Reach(c, started, TakeNext(0), Caught(c));
    assert Running(Caught(c).requests[0].pc) && Caught(c).expiries[0].pc.Holding?;
  }

  /** The window separates expiry from running flows, over every run, exactly when it covers the longest flow. */
  lemma MeetsOnlyIfTooShort(c: Config)
    ensures (exists s :: Reachable(c, s) && Meets(s)) <==> c.window < FlowBound(c)
  {
    if s :| Reachable(c, s) && Meets(s) {
      var ls :| CanRun(c, EMPTY, ls) && After(c, EMPTY, ls) == s;
      RunsArePunctual(c, EMPTY, ls);
      var e, r :| 0 <= e < |s.expiries| && s.expiries[e].pc.Holding?
        && 0 <= r < |s.requests| && Running(s.requests[r].pc) && s.requests[r].pc.order == s.expiries[e].pc.order;
      assert ExpiryLate(c, s, e) && FlowPunctual(c, s, r);
    }
    if c.window < FlowBound(c) { ShortWindowCatches(c); }
  }

  function Overtaken(c: Config): (s: Sys) {
    At(FlowBound(c), Expire(Third().(releaseSent := true), NotCompleted), Paying(0, FlowBound(c)), 1,
       OneRow(I.Released), PAID, [Expiry(FlowBound(c), [], Between)])
  }

  function StockTaken(c: Config): (s: Sys) {
    At(FlowBound(c), Third().(lock := Some(0), releaseSent := true), Paying(0, FlowBound(c)), 1, OneRow(I.Released),
       PAID, [Expiry(FlowBound(c), [], Holding(0, Answered(true)))])
  }

  lemma ShortWindowReleases(c: Config)
    requires c.window < FlowBound(c)
    ensures Reachable(c, StockTaken(c))
  {
    ShortWindowCatches(c);
    assert I.RowsOf(OneRow(I.Committed), 0) == OneRow(I.Committed) && I.Held(OneRow(I.Committed), 0) == 1;
    assert I.SetStatus(OneRow(I.Committed), 0, I.Released) == OneRow(I.Released);
    assert I.Release(Caught(c).db, 0).db.stock == map[0 := 1];
    Reach(c, Caught(c), ServeExpiry(0), StockTaken(c));
  }

  lemma ShortWindowExpires(c: Config)
    requires c.window < FlowBound(c)
    ensures Reachable(c, Overtaken(c))
  {
    ShortWindowReleases(c);
    Reach(c, StockTaken(c), HearExpiry(0), Overtaken(c));
  }

  /** What the short window costs: an expired order is written over as confirmed, with none of its stock. */
  lemma ShortWindowReopens(c: Config)
    requires c.window < FlowBound(c)
    ensures Reachable(c, Overtaken(c)) && Overtaken(c).orders[0].row.status == EXPIRED
    ensures Enabled(c, Overtaken(c), FlowStep(0, WriteStatus))
    ensures var t := Next(c, Overtaken(c), FlowStep(0, WriteStatus));
      && t.orders[0].row.status == CONFIRMED
      && t.db.stock == map[0 := 1] && I.Live(t.db.rows) == []
  {
    ShortWindowExpires(c);
  }
}
