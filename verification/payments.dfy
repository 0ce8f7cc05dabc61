/**
  One order's payment row and the charge requests that race for it
  (services/payments/app/service.py). `Charge` is one request run alone; the machine below
  lets any number of requests interleave commit by commit, and lets each die anywhere.
*/
module Payments {
  import opened Wrappers

  datatype Status = Pending | Succeeded | Failed

  datatype Payment = Payment(amount: nat, status: Status, attempts: nat, providerRef: Option<string>,
                             failureReason: Option<string>)

  datatype GatewayResult = Approved(ref: string) | Declined(reason: string)

  datatype Answer =
    | Settled(payment: Payment)
    | Replayed(payment: Payment)
    | AmountMismatch
    | InProgress

  /** What a request does about a row it did not insert itself. */
  datatype Verdict = Reply(answer: Answer) | Retry

  function Opened(amount: nat): (p: Payment) {
    Payment(amount, Pending, 0, None, None)
  }

  function Judge(p: Payment, amount: nat): (v: Verdict) {
    if p.amount != amount then Reply(AmountMismatch)
    else match p.status
      case Succeeded => Reply(Replayed(p))
      case Pending => Reply(InProgress)
      case Failed => Retry
  }

  function Reopened(p: Payment): (r: Payment) {
    p.(status := Pending, failureReason := None)
  }

  /** The settling commit; `attempts` is the count the request loaded. */
  function Close(p: Payment, attempts: nat, result: GatewayResult): (r: Payment) {
    match result
    case Approved(ref) =>
      p.(status := Succeeded, providerRef := Some(ref), failureReason := None, attempts := attempts + 1)
    case Declined(why) => p.(status := Failed, failureReason := Some(why), attempts := attempts + 1)
  }

  // ------------------------------------------------------------------ one request alone

  class Service {
    var table: map<nat, Payment>
    var gatewayCalls: nat

    constructor ()
      ensures table == map[] && gatewayCalls == 0
    {
      table, gatewayCalls := map[], 0;
    }

    method CallGateway(order: nat, result: GatewayResult) returns (payment: Payment)
      requires order in table
      modifies this
      ensures table == old(table)[order := Close(old(table)[order], old(table)[order].attempts, result)]
      ensures payment == table[order] && gatewayCalls == old(gatewayCalls) + 1
    {
      gatewayCalls := gatewayCalls + 1;
      var p := table[order];
      p := p.(attempts := p.attempts + 1);
      match result {
        case Approved(ref) => p := p.(status := Succeeded, providerRef := Some(ref), failureReason := None);
        case Declined(why) => p := p.(status := Failed, failureReason := Some(why));
      }
      table := table[order := p];
      return p;
    }

    /** The gateway is called exactly when the row is new or a matching decline, and then once. */
    method Charge(order: nat, amount: nat, result: GatewayResult) returns (answer: Answer)
      modifies this
      ensures forall o :: o in old(table) && o != order ==> o in table && table[o] == old(table)[o]
      ensures table.Keys == old(table).Keys + {order}
      ensures gatewayCalls == old(gatewayCalls) + if answer.Settled? then 1 else 0
      ensures answer.Settled? <==> order !in old(table) || Judge(old(table)[order], amount).Retry?
      ensures answer.Settled? ==>
        var p := if order in old(table) then Reopened(old(table)[order]) else Opened(amount);
        table[order] == Close(p, p.attempts, result) && answer.payment == table[order] && p.amount == amount
      ensures !answer.Settled? ==> table == old(table) && Judge(old(table)[order], amount) == Reply(answer)
    {
      if order !in table {
        table := table[order := Opened(amount)];
      } else {
        var p := table[order];
        if p.amount != amount { return AmountMismatch; }
        if p.status.Succeeded? { return Replayed(p); }
        if p.status.Pending? { return InProgress; }
        table := table[order := Reopened(p)];
      }
      var payment := CallGateway(order, result);
      return Settled(payment);
    }
  }

  // ------------------------------------------------------------------ requests interleaved

  /** Every process carries the amount its request asked for. */
  datatype Proc =
    | Arrived(amount: nat)                       // about to look the row up
    | Inserting(amount: nat)                     // saw no row
    | Loaded(amount: nat, copy: Payment)         // holds a row it did not insert
    | Calling(amount: nat, copy: Payment)        // holds the slot, gateway not yet asked
    | Settling(amount: nat, copy: Payment, result: GatewayResult)
    | Ended(answer: Answer)
    | Dead

  /** `calls`, `approvals`, `declines` and `lost` are the history of the gateway and of its answers. */
  datatype State = State(row: Option<Payment>, procs: seq<Proc>,
                         calls: nat, approvals: nat, declines: nat, lost: nat)

  const START := State(None, [], 0, 0, 0, 0)

  datatype Step =
    | Arrive(amount: nat)
    | Find(p: nat)
    | Insert(p: nat)
    | Act(p: nat)
    | Ask(p: nat, result: GatewayResult)
    | Settle(p: nat)
    | Die(p: nat)

  predicate At(st: State, p: nat) {
    p < |st.procs|
  }

  predicate Enabled(st: State, step: Step) {
    match step
    case Arrive(_) => true
    case Find(p) => At(st, p) && st.procs[p].Arrived?
    case Insert(p) => At(st, p) && st.procs[p].Inserting?
    case Act(p) => At(st, p) && st.procs[p].Loaded?
    case Ask(p, _) => At(st, p) && st.procs[p].Calling?
    case Settle(p) => At(st, p) && st.procs[p].Settling? && st.row.Some?
    case Die(p) => At(st, p)
  }

  function Move(st: State, p: nat, to: Proc): (r: State)
    requires At(st, p)
  {
    st.(procs := st.procs[p := to])
  }

  function NextAct(st: State, p: nat): (r: State)
    requires At(st, p) && st.procs[p].Loaded?
  {
    var proc := st.procs[p];
    match Judge(proc.copy, proc.amount)
    case Reply(answer) => Move(st, p, Ended(answer))
    case Retry =>
      // UPDATE of the two changed columns, whatever the row says by now.
      Move(st, p, Calling(proc.amount, Reopened(proc.copy)))
        .(row := match st.row case Some(r) => Some(Reopened(r)) case None => None)
  }

  function NextSettle(st: State, p: nat): (r: State)
    requires At(st, p) && st.procs[p].Settling? && st.row.Some?
  {
    var proc := st.procs[p];
    var row := Close(st.row.value, proc.copy.attempts, proc.result);
    Move(st, p, Ended(Settled(row)))
      .(row := Some(row), declines := st.declines + if proc.result.Declined? then 1 else 0)
  }

  function Next(st: State, step: Step): (r: State)
    requires Enabled(st, step)
  {
    match step
    case Arrive(amount) => st.(procs := st.procs + [Arrived(amount)])
    case Find(p) =>
      var amount := st.procs[p].amount;
      Move(st, p, if st.row.Some? then Loaded(amount, st.row.value) else Inserting(amount))
    case Insert(p) =>
      // The unique index on order_id decides the race; the loser loads the winner's row.
      var amount := st.procs[p].amount;
      if st.row.Some? then Move(st, p, Loaded(amount, st.row.value))
      else Move(st, p, Calling(amount, Opened(amount))).(row := Some(Opened(amount)))
    case Act(p) => NextAct(st, p)
    case Ask(p, result) =>
      Move(st, p, Settling(st.procs[p].amount, st.procs[p].copy, result))
        .(calls := st.calls + 1, approvals := st.approvals + if result.Approved? then 1 else 0)
    case Settle(p) => NextSettle(st, p)
    case Die(p) =>
      Move(st, p, Dead).(lost := st.lost + if st.procs[p].Settling? then 1 else 0)
  }

  predicate Holds(p: Proc) {
    p.Calling? || p.Settling?
  }

  predicate Alive(p: Proc) {
    !p.Ended? && !p.Dead?
  }

  predicate Retries(st: State, step: Step) {
    step.Act? && Enabled(st, step) && Judge(st.procs[step.p].copy, st.procs[step.p].amount).Retry?
  }

  // ------------------------------------------------------------------ runs, and three conditions on them

  ghost predicate CanRun(st: State, steps: seq<Step>)
    decreases |steps|
  {
    steps == [] || (Enabled(st, steps[0]) && CanRun(Next(st, steps[0]), steps[1..]))
  }

  ghost function After(st: State, steps: seq<Step>): (r: State)
    requires CanRun(st, steps)
    decreases |steps|
  {
    if steps == [] then st else After(Next(st, steps[0]), steps[1..])
  }

  /** The row still says FAILED when a retry reopens it. */
  predicate Rechecks(st: State, step: Step) {
    Retries(st, step) ==> st.row.Some? && st.row.value.status.Failed?
  }

  /** The row is still the very one the retry loaded. */
  predicate Unchanged(st: State, step: Step) {
    Retries(st, step) ==> st.row == Some(st.procs[step.p].copy)
  }

  /** A request is sent only when every earlier one for the order is over. */
  predicate Alone(st: State, step: Step) {
    step.Arrive? ==> forall p :: 0 <= p < |st.procs| ==> !Alive(st.procs[p])
  }

  ghost predicate RunsRechecked(st: State, steps: seq<Step>)
    decreases |steps|
  {
    steps == [] || (Enabled(st, steps[0]) && Rechecks(st, steps[0]) && RunsRechecked(Next(st, steps[0]), steps[1..]))
  }

  ghost predicate RunsUnchanged(st: State, steps: seq<Step>)
    decreases |steps|
  {
    steps == [] || (Enabled(st, steps[0]) && Unchanged(st, steps[0]) && RunsUnchanged(Next(st, steps[0]), steps[1..]))
  }

  ghost predicate RunsAlone(st: State, steps: seq<Step>)
    decreases |steps|
  {
    steps == [] || (Enabled(st, steps[0]) && Alone(st, steps[0]) && RunsAlone(Next(st, steps[0]), steps[1..]))
  }

  lemma {:induction false} RecheckedIsRun(st: State, steps: seq<Step>)
    requires RunsRechecked(st, steps)
    ensures CanRun(st, steps)
    decreases |steps|
  {
    if steps != [] { RecheckedIsRun(Next(st, steps[0]), steps[1..]); }
  }

  /** An unchanged row is a FAILED one: only a declined copy is retried. */
  lemma {:induction false} UnchangedIsRechecked(st: State, steps: seq<Step>)
    requires RunsUnchanged(st, steps)
    ensures RunsRechecked(st, steps)
    decreases |steps|
  {
    if steps != [] { UnchangedIsRechecked(Next(st, steps[0]), steps[1..]); }
  }

  // ------------------------------------------------------------------ amounts, in any run

  /** Every copy of the row, and every request that got hold of it, is about the row's own amount. */
  ghost predicate AmountsOk(st: State) {
    forall p :: 0 <= p < |st.procs| ==> AmountOk(st, st.procs[p])
  }

  predicate AmountOk(st: State, p: Proc) {
    match p
    case Loaded(_, copy) => st.row.Some? && copy.amount == st.row.value.amount
    case Calling(amount, copy) => st.row.Some? && copy.amount == amount == st.row.value.amount
    case Settling(amount, copy, _) => st.row.Some? && copy.amount == amount == st.row.value.amount
    case _ => true
  }

  lemma AmountsStay(st: State, step: Step)
    requires AmountsOk(st) && Enabled(st, step)
    ensures AmountsOk(Next(st, step))
    ensures st.row.Some? ==> Next(st, step).row.Some? && Next(st, step).row.value.amount == st.row.value.amount
  {
    if step.Act? || step.Settle? || step.Ask? { assert AmountOk(st, st.procs[step.p]); }
  }

  /**
    With no condition on the run: the recorded amount never changes, and whoever holds the slot
    asked for exactly that amount. A request for another amount never reaches the gateway.
  */
  lemma {:induction false} GatewayIsAskedForTheRow(st: State, steps: seq<Step>)
    requires AmountsOk(st) && CanRun(st, steps)
    ensures var t := After(st, steps);
      && AmountsOk(t)
      && (st.row.Some? ==> t.row.Some? && t.row.value.amount == st.row.value.amount)
      && (forall p :: 0 <= p < |t.procs| && Holds(t.procs[p]) ==>
            t.row.Some? && t.procs[p].amount == t.row.value.amount)
    decreases |steps|
  {
    if steps == [] {
      assert forall p :: 0 <= p < |st.procs| ==> AmountOk(st, st.procs[p]);
    } else {
      AmountsStay(st, steps[0]);
      GatewayIsAskedForTheRow(Next(st, steps[0]), steps[1..]);
    }
  }

  lemma {:induction false} OverIsOver(st: State, steps: seq<Step>, p: nat)
    requires At(st, p) && !Alive(st.procs[p]) && CanRun(st, steps)
    ensures At(After(st, steps), p) && !Alive(After(st, steps).procs[p])
    decreases |steps|
  {
    if steps != [] { OverIsOver(Next(st, steps[0]), steps[1..], p); }
  }

  /** A request for another amount, or one that loads an attempt in progress, never holds the slot in any later run. */
  lemma RefusedWithoutCalling(st: State, p: nat, more: seq<Step>)
    requires Enabled(st, Act(p)) && CanRun(Next(st, Act(p)), more)
    requires st.procs[p].amount != st.procs[p].copy.amount || st.procs[p].copy.status.Pending?
    ensures Next(st, Act(p)).row == st.row
    ensures At(After(Next(st, Act(p)), more), p) && !Holds(After(Next(st, Act(p)), more).procs[p])
  {
    OverIsOver(Next(st, Act(p)), more, p);
  }

  // ------------------------------------------------------------------ one holder, one approval

  ghost predicate OneHolder(procs: seq<Proc>) {
    forall i, j :: 0 <= i < |procs| && 0 <= j < |procs| && Holds(procs[i]) && Holds(procs[j]) ==> i == j
  }

  ghost predicate NoHolder(procs: seq<Proc>) {
    forall i :: 0 <= i < |procs| ==> !Holds(procs[i])
  }

  /** What each status of the row says about approvals given and about who holds the slot. */
  ghost predicate SlotOk(st: State) {
    && OneHolder(st.procs)
    && (forall p :: 0 <= p < |st.procs| ==> HolderOk(st, st.procs[p]))
    && st.approvals <= 1
    && (st.row.None? ==> st.approvals == 0)
    && (st.row.Some? && st.row.value.status.Failed? ==> st.approvals == 0)
    && (st.row.Some? && st.row.value.status.Succeeded? ==> st.approvals == 1)
  }

  predicate HolderOk(st: State, p: Proc) {
    match p
    case Calling(_, _) => st.row.Some? && st.row.value.status.Pending? && st.approvals == 0
    case Settling(_, _, result) =>
      st.row.Some? && st.row.value.status.Pending? && st.approvals == if result.Approved? then 1 else 0
    case _ => true
  }

  /** A recorded success stays exactly as it is. */
  predicate Keeps(before: Option<Payment>, after: Option<Payment>) {
    before.Some? && before.value.status.Succeeded? ==> after == before
  }

  lemma LookupKeepsSlot(st: State, step: Step)
    requires SlotOk(st) && Enabled(st, step) && (step.Arrive? || step.Find? || step.Die?)
    ensures SlotOk(Next(st, step)) && Keeps(st.row, Next(st, step).row)
  {
    assert forall p :: 0 <= p < |st.procs| ==> HolderOk(st, st.procs[p]);
  }

  lemma InsertKeepsSlot(st: State, p: nat)
    requires SlotOk(st) && Enabled(st, Insert(p))
    ensures SlotOk(Next(st, Insert(p))) && Keeps(st.row, Next(st, Insert(p)).row)
  {
    assert forall q :: 0 <= q < |st.procs| ==> HolderOk(st, st.procs[q]);
  }

  lemma ActKeepsSlot(st: State, p: nat)
    requires SlotOk(st) && Enabled(st, Act(p)) && Rechecks(st, Act(p))
    ensures SlotOk(NextAct(st, p)) && Keeps(st.row, NextAct(st, p).row)
  {
    assert forall q :: 0 <= q < |st.procs| ==> HolderOk(st, st.procs[q]);
  }

  lemma HolderKeepsSlot(st: State, step: Step)
    requires SlotOk(st) && Enabled(st, step) && (step.Ask? || step.Settle?)
    ensures SlotOk(Next(st, step)) && Keeps(st.row, Next(st, step).row)
  {
    assert HolderOk(st, st.procs[step.p]);
    assert forall q :: 0 <= q < |st.procs| && q != step.p ==> !Holds(st.procs[q]);
  }

  lemma StepKeepsSlot(st: State, step: Step)
    requires SlotOk(st) && Enabled(st, step) && Rechecks(st, step)
    ensures SlotOk(Next(st, step)) && Keeps(st.row, Next(st, step).row)
  {
    match step
    case Insert(p) => InsertKeepsSlot(st, p);
    case Act(p) => ActKeepsSlot(st, p);
    case Ask(_, _) => HolderKeepsSlot(st, step);
    case Settle(_) => HolderKeepsSlot(st, step);
    case _ => LookupKeepsSlot(st, step);
  }

  lemma {:induction false} RunKeepsSlot(st: State, steps: seq<Step>)
    requires SlotOk(st) && RunsRechecked(st, steps)
    ensures CanRun(st, steps) && SlotOk(After(st, steps)) && Keeps(st.row, After(st, steps).row)
    decreases |steps|
  {
    if steps != [] {
      StepKeepsSlot(st, steps[0]);
      RunKeepsSlot(Next(st, steps[0]), steps[1..]);
    }
  }

  /**
    Any number of requests, any amounts, any gateway answers, any deaths: as long as no retry
    reopens a row that is not FAILED, the card is approved at most once, at most one request
    holds the slot, and a row says SUCCEEDED only after an approval.
  */
  lemma ChargedAtMostOnce(steps: seq<Step>)
    requires RunsRechecked(START, steps)
    ensures CanRun(START, steps)
    ensures var st := After(START, steps);
      && st.approvals <= 1 && OneHolder(st.procs)
      && (st.row.Some? && st.row.value.status.Succeeded? ==> st.approvals == 1)
      && (st.row.Some? && st.row.value.status.Failed? ==> st.approvals == 0)
  {
    RunKeepsSlot(START, steps);
  }

  /** What is recorded as paid stays exactly as it is, whatever arrives later. */
  lemma SucceededIsFinal(steps: seq<Step>, more: seq<Step>)
    requires RunsRechecked(START, steps) && CanRun(START, steps) && RunsRechecked(After(START, steps), more)
    requires var st := After(START, steps); st.row.Some? && st.row.value.status.Succeeded?
    ensures CanRun(After(START, steps), more)
    ensures After(After(START, steps), more).row == After(START, steps).row
  {
    RunKeepsSlot(START, steps);
    RunKeepsSlot(After(START, steps), more);
  }

  // ------------------------------------------------------------------ exactly when a stale retry charges twice

  /** A retry about to reopen a row that has moved on since it was loaded. */
  predicate StaleRetry(st: State, p: nat) {
    Retries(st, Act(p)) && st.row.Some? && !st.row.value.status.Failed?
  }

  /** From here, with every later retry rechecking, the card can be approved a second time. */
  ghost predicate CanApproveTwice(st: State) {
    exists more :: Twice(st, more)
  }

  ghost predicate Twice(st: State, more: seq<Step>) {
    RunsRechecked(st, more) && CanRun(st, more) && After(st, more).approvals >= 2
  }

  lemma AlreadyTwice(st: State)
    requires st.approvals >= 2
    ensures CanApproveTwice(st)
  {
    assert Twice(st, []);
  }

  lemma OneStepTwice(st: State, step: Step)
    requires Enabled(st, step) && Rechecks(st, step) && CanApproveTwice(Next(st, step))
    ensures CanApproveTwice(st)
  {
    var more :| Twice(Next(st, step), more);
    var steps := [step] + more;
    assert steps[1..] == more;
    assert Twice(st, steps);
  }

  /** Whoever is calling can be approved. */
  lemma OneMoreApproval(st: State, p: nat)
    requires At(st, p) && st.procs[p].Calling? && st.approvals >= 1
    ensures CanApproveTwice(st)
  {
    AlreadyTwice(Next(st, Ask(p, Approved(""))));
    OneStepTwice(st, Ask(p, Approved("")));
  }

  lemma TwoCalling(st: State, p: nat, h: nat)
    requires At(st, p) && st.procs[p].Calling? && At(st, h) && st.procs[h].Calling? && p != h
    ensures CanApproveTwice(st)
  {
    OneMoreApproval(Next(st, Ask(h, Approved(""))), p);
    OneStepTwice(st, Ask(h, Approved("")));
  }

  /** A row that says FAILED although the card was approved is charged again by the next request. */
  lemma FailedAfterApproval(st: State)
    requires st.row.Some? && st.row.value.status.Failed? && st.approvals >= 1
    ensures CanApproveTwice(st)
  {
    var n, amount := |st.procs|, st.row.value.amount;
    var s1 := Next(st, Arrive(amount));
    var s2 := Next(s1, Find(n));
    OneMoreApproval(Next(s2, Act(n)), n);
    OneStepTwice(s2, Act(n));
    OneStepTwice(s1, Find(n));
    OneStepTwice(st, Arrive(amount));
  }

  /** The other holder's decline, settled late, writes FAILED over the recorded success. */
  lemma LateDecline(st: State, p: nat, h: nat)
    requires At(st, p) && st.procs[p].Calling? && At(st, h) && st.procs[h].Settling? && st.procs[h].result.Declined?
    requires p != h && st.row.Some?
    ensures CanApproveTwice(st)
  {
    var s1 := Next(st, Ask(p, Approved("")));
    var s2 := Next(s1, Settle(p));
    assert s2.row.value.status.Succeeded?;
    FailedAfterApproval(Next(s2, Settle(h)));
    OneStepTwice(s2, Settle(h));
    OneStepTwice(s1, Settle(p));
    OneStepTwice(st, Ask(p, Approved("")));
  }

  lemma StaleRetryIsHarmless(st: State, p: nat)
    requires SlotOk(st) && StaleRetry(st, p) && st.approvals == 0 && NoHolder(st.procs)
    ensures !CanApproveTwice(NextAct(st, p))
  {
    var t := NextAct(st, p);
    assert SlotOk(t);
    forall more | Twice(t, more) ensures false { RunKeepsSlot(t, more); }
  }

  lemma StaleRetryHarms(st: State, p: nat)
    requires SlotOk(st) && StaleRetry(st, p) && (st.approvals >= 1 || !NoHolder(st.procs))
    ensures CanApproveTwice(NextAct(st, p))
  {
    var t := NextAct(st, p);
    if st.approvals >= 1 {
      OneMoreApproval(t, p);
    } else {
      var h :| 0 <= h < |st.procs| && Holds(st.procs[h]);
      assert HolderOk(st, st.procs[h]) && t.procs[h] == st.procs[h];
      if st.procs[h].Calling? { TwoCalling(t, p, h); } else { LateDecline(t, p, h); }
    }
  }

  /**
    The exact condition: a retry that reopens a row no longer FAILED can lead to a second approval
    if and only if one was already given, recorded or not, or another request holds the slot.
  */
  lemma StaleRetryChargesTwiceIff(steps: seq<Step>, p: nat)
    requires RunsRechecked(START, steps) && CanRun(START, steps) && StaleRetry(After(START, steps), p)
    ensures var st := After(START, steps);
      CanApproveTwice(Next(st, Act(p))) <==> st.approvals >= 1 || exists h :: 0 <= h < |st.procs| && Holds(st.procs[h])
  {
    RunKeepsSlot(START, steps);
    var st := After(START, steps);
    if st.approvals >= 1 || !NoHolder(st.procs) { StaleRetryHarms(st, p); } else { StaleRetryIsHarmless(st, p); }
  }

  // ------------------------------------------------------------------ every call counted

  /** With unchanged rows, `attempts` is the number of gateway answers recorded. */
  ghost predicate CountsOk(st: State) {
    && (st.row.None? ==> st.calls == 0 && st.declines == 0 && st.lost == 0)
    && (st.row.Some? ==>
          && st.row.value.attempts == st.declines + (if st.row.value.status.Succeeded? then 1 else 0)
          && st.lost <= 1 && (st.lost == 1 ==> st.row.value.status.Pending? && NoHolder(st.procs))
          && (NoHolder(st.procs) ==> st.calls == st.row.value.attempts + st.lost))
    && (forall p :: 0 <= p < |st.procs| ==> CountOk(st, st.procs[p]))
  }

  predicate CountOk(st: State, p: Proc) {
    match p
    case Calling(_, copy) => st.row == Some(copy) && st.calls == copy.attempts
    case Settling(_, copy, _) => st.row == Some(copy) && st.calls == copy.attempts + 1
    case _ => true
  }

  lemma LookupKeepsCounts(st: State, step: Step)
    requires SlotOk(st) && CountsOk(st) && Enabled(st, step) && (step.Arrive? || step.Find?)
    ensures CountsOk(Next(st, step))
  {
    var t := Next(st, step);
    assert forall p :: 0 <= p < |st.procs| ==> CountOk(st, st.procs[p]);
    if NoHolder(t.procs) {
      assert forall p :: 0 <= p < |st.procs| && Holds(st.procs[p]) ==> Holds(t.procs[p]);
    }
  }

  lemma InsertKeepsCounts(st: State, p: nat)
    requires SlotOk(st) && CountsOk(st) && Enabled(st, Insert(p))
    ensures CountsOk(Next(st, Insert(p)))
  {
    var t := Next(st, Insert(p));
    assert forall q :: 0 <= q < |st.procs| ==> HolderOk(st, st.procs[q]) && CountOk(st, st.procs[q]);
    assert st.row.None? ==> Holds(t.procs[p]);
    if NoHolder(t.procs) {
      assert forall q :: 0 <= q < |st.procs| && Holds(st.procs[q]) ==> Holds(t.procs[q]);
    }
  }

  lemma DieKeepsCounts(st: State, p: nat)
    requires SlotOk(st) && CountsOk(st) && Enabled(st, Die(p))
    ensures CountsOk(Next(st, Die(p)))
  {
    var t := Next(st, Die(p));
    assert HolderOk(st, st.procs[p]) && CountOk(st, st.procs[p]);
    forall q | 0 <= q < |t.procs| ensures CountOk(t, t.procs[q]) { assert CountOk(st, st.procs[q]); }
    if Holds(st.procs[p]) {
      assert NoHolder(t.procs);
    } else {
      assert forall q :: 0 <= q < |st.procs| && Holds(st.procs[q]) ==> Holds(t.procs[q]);
    }
  }

  lemma ActKeepsCounts(st: State, p: nat)
    requires SlotOk(st) && CountsOk(st) && Enabled(st, Act(p)) && Unchanged(st, Act(p))
    ensures CountsOk(NextAct(st, p))
  {
    var t := NextAct(st, p);
    assert forall q :: 0 <= q < |st.procs| ==> HolderOk(st, st.procs[q]) && CountOk(st, st.procs[q]);
    if Retries(st, Act(p)) {
      assert NoHolder(st.procs) && Holds(t.procs[p]);
    } else if NoHolder(t.procs) {
      assert forall q :: 0 <= q < |st.procs| && Holds(st.procs[q]) ==> Holds(t.procs[q]);
    }
  }

  lemma HolderKeepsCounts(st: State, step: Step)
    requires SlotOk(st) && CountsOk(st) && Enabled(st, step) && (step.Ask? || step.Settle?)
    ensures CountsOk(Next(st, step))
  {
    var t := Next(st, step);
    assert HolderOk(st, st.procs[step.p]) && CountOk(st, st.procs[step.p]) && Holds(st.procs[step.p]);
    assert forall q :: 0 <= q < |st.procs| && q != step.p ==> !Holds(st.procs[q]) && t.procs[q] == st.procs[q];
    if step.Ask? { assert Holds(t.procs[step.p]); }
  }

  lemma {:induction false} RunKeepsCounts(st: State, steps: seq<Step>)
    requires SlotOk(st) && CountsOk(st) && RunsUnchanged(st, steps)
    ensures CanRun(st, steps) && SlotOk(After(st, steps)) && CountsOk(After(st, steps))
    decreases |steps|
  {
    if steps != [] {
      StepKeepsSlot(st, steps[0]);
      match steps[0] {
        case Insert(p) => InsertKeepsCounts(st, p);
        case Act(p) => ActKeepsCounts(st, p);
        case Ask(_, _) => HolderKeepsCounts(st, steps[0]);
        case Settle(_) => HolderKeepsCounts(st, steps[0]);
        case Die(p) => DieKeepsCounts(st, p);
        case _ => LookupKeepsCounts(st, steps[0]);
      }
      RunKeepsCounts(Next(st, steps[0]), steps[1..]);
    }
  }

  /**
    As long as every retry finds the row it loaded: the gateway is asked again only after a
    recorded decline, and each call is counted in `attempts`, still open, or lost with its process.
  */
  lemma EveryCallIsCounted(steps: seq<Step>)
    requires RunsUnchanged(START, steps)
    ensures CanRun(START, steps)
    ensures var st := After(START, steps);
      && st.approvals <= 1 && st.calls <= st.declines + 1
      && (st.row.Some? && NoHolder(st.procs) ==> st.calls == st.row.value.attempts + st.lost)
      && (forall p :: 0 <= p < |st.procs| && Holds(st.procs[p]) ==>
            && st.row.Some? && st.lost == 0
            && st.calls == st.row.value.attempts + (if st.procs[p].Settling? then 1 else 0))
      && (st.row.Some? && st.row.value.status.Succeeded? ==> st.approvals == 1 && st.row.value.attempts == st.calls)
  {
    RunKeepsCounts(START, steps);
    var st := After(START, steps);
    assert forall p :: 0 <= p < |st.procs| ==> CountOk(st, st.procs[p]);
    if !NoHolder(st.procs) {
      var p :| 0 <= p < |st.procs| && Holds(st.procs[p]);
      assert CountOk(st, st.procs[p]) && HolderOk(st, st.procs[p]);
    }
  }

  // ------------------------------------------------------------------ a condition the caller can meet

  ghost predicate AloneOk(st: State) {
    && (forall i, j :: 0 <= i < |st.procs| && 0 <= j < |st.procs| && Alive(st.procs[i]) && Alive(st.procs[j]) ==>
          i == j)
    && (forall p :: 0 <= p < |st.procs| && st.procs[p].Loaded? ==> st.row == Some(st.procs[p].copy))
  }

  lemma AloneStepKeeps(st: State, step: Step)
    requires AloneOk(st) && Enabled(st, step) && Alone(st, step)
    ensures AloneOk(Next(st, step)) && Unchanged(st, step)
  {
    if !step.Arrive? {
      var p := step.p;
      assert !step.Die? ==> Alive(st.procs[p]);
      assert forall q :: 0 <= q < |st.procs| && q != p ==> Next(st, step).procs[q] == st.procs[q];
    }
  }

  /** One charge request at a time per order is enough: then every retry finds the row it loaded. */
  lemma {:induction false} OneAtATimeIsEnough(st: State, steps: seq<Step>)
    requires AloneOk(st) && RunsAlone(st, steps)
    ensures RunsUnchanged(st, steps) && RunsRechecked(st, steps)
    decreases |steps|
  {
    if steps != [] {
      AloneStepKeeps(st, steps[0]);
      OneAtATimeIsEnough(Next(st, steps[0]), steps[1..]);
    }
    UnchangedIsRechecked(st, steps);
  }

  // ------------------------------------------------------------------ overlapping retries

  const DECLINED_ONCE := Payment(100, Failed, 1, None, Some("card_declined"))

  lemma Walk(st: State, step: Step, next: State, more: seq<Step>, end: State)
    requires Enabled(st, step) && Next(st, step) == next && CanRun(next, more) && After(next, more) == end
    ensures CanRun(st, [step] + more) && After(st, [step] + more) == end
  {
    assert ([step] + more)[1..] == more;
  }

  lemma {:induction false} RunsJoin(st: State, a: seq<Step>, b: seq<Step>)
    requires CanRun(st, a) && CanRun(After(st, a), b)
    ensures CanRun(st, a + b) && After(st, a + b) == After(After(st, a), b)
    decreases |a|
  {
    if a == [] {
      assert a + b == b;
    } else {
      RunsJoin(Next(st, a[0]), a[1..], b);
      assert (a + b)[1..] == a[1..] + b;
    }
  }

  const NO := Declined("card_declined")

  const DECLINE: seq<Step> := [Arrive(100), Find(0), Insert(0), Ask(0, NO), Settle(0)]

  /** One request, declined and over. */
  const DECLINED := State(Some(DECLINED_ONCE), [Ended(Settled(DECLINED_ONCE))], 1, 0, 1, 0)

  lemma OneDecline()
    ensures CanRun(START, DECLINE) && After(START, DECLINE) == DECLINED
  {
    var open := Opened(100);
    var s1 := State(None, [Arrived(100)], 0, 0, 0, 0);
    var s2 := State(None, [Inserting(100)], 0, 0, 0, 0);
    var s3 := State(Some(open), [Calling(100, open)], 0, 0, 0, 0);
    var s4 := State(Some(open), [Settling(100, open, NO)], 1, 0, 0, 0);
    Walk(s4, Settle(0), DECLINED, [], DECLINED);
    Walk(s3, Ask(0, NO), s4, [Settle(0)], DECLINED);
    Walk(s2, Insert(0), s3, [Ask(0, NO), Settle(0)], DECLINED);
    Walk(s1, Find(0), s2, [Insert(0), Ask(0, NO), Settle(0)], DECLINED);
    Walk(START, Arrive(100), s1, [Find(0), Insert(0), Ask(0, NO), Settle(0)], DECLINED);
  }

  const TWO_LOAD: seq<Step> := [Arrive(100), Arrive(100), Find(1), Find(2)]

  const LOADED := DECLINED.(procs := DECLINED.procs + [Loaded(100, DECLINED_ONCE), Loaded(100, DECLINED_ONCE)])

  lemma TwoRetriesLoad()
    ensures CanRun(DECLINED, TWO_LOAD) && After(DECLINED, TWO_LOAD) == LOADED
  {
    var over := DECLINED.procs[0];
    var s1 := DECLINED.(procs := [over, Arrived(100)]);
    var s2 := DECLINED.(procs := [over, Arrived(100), Arrived(100)]);
    var s3 := DECLINED.(procs := [over, Loaded(100, DECLINED_ONCE), Arrived(100)]);
    Walk(s3, Find(2), LOADED, [], LOADED);
    Walk(s2, Find(1), s3, [Find(2)], LOADED);
    Walk(s1, Arrive(100), s2, [Find(1), Find(2)], LOADED);
    Walk(DECLINED, Arrive(100), s1, [Arrive(100), Find(1), Find(2)], LOADED);
  }

  const ONE_PAYS: seq<Step> := [Act(1), Ask(1, Approved("a")), Settle(1)]

  const TWO_PAYS: seq<Step> := [Act(2), Ask(2, Approved("b"))]

  lemma OnePays()
    ensures CanRun(LOADED, ONE_PAYS)
    ensures var st := After(LOADED, ONE_PAYS);
      st.row.Some? && st.row.value.status.Succeeded? && st.approvals == 1 && |st.procs| == 3
      && st.procs[2] == Loaded(100, DECLINED_ONCE)
  {
    var s1 := Next(LOADED, Act(1));
    var s2 := Next(s1, Ask(1, Approved("a")));
    var s3 := Next(s2, Settle(1));
    Walk(s2, Settle(1), s3, [], s3);
    Walk(s1, Ask(1, Approved("a")), s2, [Settle(1)], s3);
    Walk(LOADED, Act(1), s1, [Ask(1, Approved("a")), Settle(1)], s3);
  }

  lemma OtherPays(st: State)
    requires st.row.Some? && |st.procs| == 3 && st.procs[2] == Loaded(100, DECLINED_ONCE)
    ensures CanRun(st, TWO_PAYS)
    ensures var t := After(st, TWO_PAYS);
      t.approvals == st.approvals + 1 && t.row.Some? && t.row.value.status.Pending?
  {
    var s1 := Next(st, Act(2));
    var s2 := Next(s1, Ask(2, Approved("b")));
    Walk(s1, Ask(2, Approved("b")), s2, [], s2);
    Walk(st, Act(2), s1, [Ask(2, Approved("b"))], s2);
  }

  /**
    Two retries that loaded the same declined row: the first is approved and recorded, the second
    reopens the recorded success and is approved too.
  */
  lemma OverlappingRetriesChargeTwice()
    ensures CanRun(START, DECLINE + TWO_LOAD) && After(START, DECLINE + TWO_LOAD) == LOADED
    ensures CanRun(LOADED, ONE_PAYS) && After(LOADED, ONE_PAYS).row.Some?
    ensures After(LOADED, ONE_PAYS).row.value.status.Succeeded?
    ensures CanRun(After(LOADED, ONE_PAYS), TWO_PAYS)
    ensures var end := After(After(LOADED, ONE_PAYS), TWO_PAYS);
      end.approvals == 2 && end.row.Some? && end.row.value.status.Pending?
  {
    OneDecline();
    TwoRetriesLoad();
    RunsJoin(START, DECLINE, TWO_LOAD);
    OnePays();
    OtherPays(After(LOADED, ONE_PAYS));
  }
}
