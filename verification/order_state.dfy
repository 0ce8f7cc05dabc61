/** The order state machine, its audit trail and its counters (services/orders/app/state.py). */
module OrderState {
  import opened Wrappers

  datatype Status = PENDING | RESERVED | CONFIRMED | FAILED | EXPIRED | CANCELLED

  datatype Reason =
    | OrderPlaced
    | StockReserved
    | Refused
    | Paid
    | PaymentFault
    | PaymentDeclined
    | NotCompleted
    | NotCompletedStockNotReleased
    | CancelledByCustomer

  datatype Event = Event(from: Option<Status>, to: Status, reason: Reason)

  /** The columns a status change writes. */
  datatype Row = Row(status: Status, failureReason: Option<Reason>, events: seq<Event>)

  function Allowed(s: Status): (r: set<Status>) {
    match s
    case PENDING => {RESERVED, FAILED, EXPIRED}
    case RESERVED => {CONFIRMED, FAILED, EXPIRED}
    case CONFIRMED => {CANCELLED}
    case FAILED => {}
    case EXPIRED => {}
    case CANCELLED => {}
  }

  predicate Unfinished(s: Status) {
    s == PENDING || s == RESERVED
  }

  predicate IsFailure(s: Status) {
    s == FAILED || s == EXPIRED
  }

  function Placed(): (r: Row) {
    Row(PENDING, None, [Event(None, PENDING, OrderPlaced)])
  }

  /** The write of a status change. `loaded` is the status of the copy the writer holds. */
  function Written(r: Row, loaded: Status, to: Status, reason: Reason): (w: Row) {
    Row(to, if IsFailure(to) then Some(reason) else r.failureReason,
        r.events + [Event(Some(loaded), to, reason)])
  }

  class OrderRow {
    var status: Status
    var failureReason: Option<Reason>
    var events: seq<Event>

    function Columns(): (r: Row)
      reads this
    {
      Row(status, failureReason, events)
    }

    constructor RecordCreation()
      ensures Columns() == Placed()
    {
      status, failureReason, events := PENDING, None, [Event(None, PENDING, OrderPlaced)];
    }

    /** Moves exactly when the table allows it, and otherwise changes nothing. */
    method Transition(to: Status, reason: Reason) returns (moved: bool)
      modifies this
      ensures moved == (to in Allowed(old(status)))
      ensures Columns() == if moved then Written(old(Columns()), old(status), to, reason) else old(Columns())
      ensures old(TrailOk(Columns())) ==> TrailOk(Columns())
    {
      if to !in Allowed(status) { return false; }
      ghost var before := Columns();
      events := events + [Event(Some(status), to, reason)];
      status := to;
      if to == FAILED || to == EXPIRED { failureReason := Some(reason); }
      if TrailOk(before) { WriteKeepsTrail(before, to, reason); }
      return true;
    }
  }

  // ------------------------------------------------------------------ audit trail

  /** A path of allowed moves from creation to the current status, with the reason copied on failure. */
  predicate TrailOk(r: Row) {
    && r.events != []
    && r.events[0].from.None? && r.events[0].to == PENDING
    && (forall i :: 0 < i < |r.events| ==>
          r.events[i].from == Some(r.events[i - 1].to) && r.events[i].to in Allowed(r.events[i - 1].to))
    && r.status == r.events[|r.events| - 1].to
    && r.failureReason == if IsFailure(r.status) then Some(r.events[|r.events| - 1].reason) else None
  }

  lemma WriteKeepsTrail(r: Row, to: Status, reason: Reason)
    requires TrailOk(r) && to in Allowed(r.status)
    ensures TrailOk(Written(r, r.status, to, reason))
  {
  }

  function Rank(s: Status): (n: nat) {
    match s
    case PENDING => 0
    case RESERVED => 1
    case CONFIRMED => 2
    case _ => 3
  }

  lemma {:induction false} TrailClimbs(r: Row, i: nat, j: nat)
    requires TrailOk(r) && i <= j < |r.events|
    ensures Rank(r.events[i].to) + (j - i) <= Rank(r.events[j].to)
    decreases j - i
  {
    if i < j {
      TrailClimbs(r, i, j - 1);
      assert r.events[j].to in Allowed(r.events[j - 1].to);
    }
  }

  /** No trail is longer than four events, and none enters a status twice. */
  lemma TrailIsShort(r: Row)
    requires TrailOk(r)
    ensures |r.events| <= 4
    ensures forall i, j :: 0 <= i < j < |r.events| ==> r.events[i].to != r.events[j].to
  {
    TrailClimbs(r, 0, |r.events| - 1);
    forall i, j | 0 <= i < j < |r.events| ensures r.events[i].to != r.events[j].to {
      TrailClimbs(r, i, j);
    }
  }

  // ------------------------------------------------------------------ counters

  /** Writes sent to the database; `commits` says whether the transaction went through. */
  datatype Write =
    | Place(commits: bool)
    | Change(order: nat, to: Status, reason: Reason, commits: bool)

  /** The orders table, and the events counted so far in orders_total. */
  datatype Ledger = Ledger(rows: seq<Row>, counted: seq<Event>)

  function Record(l: Ledger, w: Write): (r: Ledger) {
    if !w.commits then l
    else match w
      case Place(_) => Ledger(l.rows + [Placed()], l.counted + Placed().events)
      case Change(o, to, reason, _) =>
        if o < |l.rows| && to in Allowed(l.rows[o].status) then
          Ledger(l.rows[o := Written(l.rows[o], l.rows[o].status, to, reason)],
                 l.counted + [Event(Some(l.rows[o].status), to, reason)])
        else l
  }

  function RecordAll(l: Ledger, ws: seq<Write>): (r: Ledger)
    decreases |ws|
  {
    if ws == [] then l else RecordAll(Record(l, ws[0]), ws[1..])
  }

  class Books {
    var rows: seq<Row>
    var counted: seq<Event>

    function State(): (l: Ledger)
      reads this
    {
      Ledger(rows, counted)
    }

    constructor ()
      ensures State() == Ledger([], [])
    {
      rows, counted := [], [];
    }

    /** Build the event, commit, and only then count: a commit that fails raises in between. */
    method Write(w: Write)
      modifies this
      ensures State() == Record(old(State()), w)
    {
      match w {
        case Place(commits) =>
          var row := Placed();
          if !commits { return; }
          rows := rows + [row];
          counted := counted + row.events;
        case Change(o, to, reason, commits) =>
          if o >= |rows| || to !in Allowed(rows[o].status) { return; }
          var event := Event(Some(rows[o].status), to, reason);
          if !commits { return; }
          rows := rows[o := Written(rows[o], rows[o].status, to, reason)];
          counted := counted + [event];
      }
    }
  }

  /** The orders_by_status gauge, read from the table. */
  function Gauge(rows: seq<Row>, s: Status): (n: nat) {
    if rows == [] then 0 else (if rows[0].status == s then 1 else 0) + Gauge(rows[1..], s)
  }

  function Entries(es: seq<Event>, s: Status): (n: nat) {
    if es == [] then 0 else (if es[0].to == s then 1 else 0) + Entries(es[1..], s)
  }

  function Exits(es: seq<Event>, s: Status): (n: nat) {
    if es == [] then 0 else (if es[0].from == Some(s) then 1 else 0) + Exits(es[1..], s)
  }

  lemma {:induction false} CountOneMore(es: seq<Event>, e: Event, s: Status)
    ensures Entries(es + [e], s) == Entries(es, s) + if e.to == s then 1 else 0
    ensures Exits(es + [e], s) == Exits(es, s) + if e.from == Some(s) then 1 else 0
  {
    if es == [] {
      assert es + [e] == [e];
    } else {
      CountOneMore(es[1..], e, s);
      assert (es + [e])[1..] == es[1..] + [e];
    }
  }

  lemma {:induction false} GaugeChange(rows: seq<Row>, o: nat, r: Row, s: Status)
    requires o < |rows|
    ensures Gauge(rows[o := r], s)
         == Gauge(rows, s) - (if rows[o].status == s then 1 else 0) + (if r.status == s then 1 else 0)
  {
    if o == 0 {
      assert rows[o := r][1..] == rows[1..];
    } else {
      GaugeChange(rows[1..], o - 1, r, s);
      assert rows[o := r][1..] == rows[1..][o - 1 := r];
    }
  }

  lemma {:induction false} GaugeOneMore(rows: seq<Row>, r: Row, s: Status)
    ensures Gauge(rows + [r], s) == Gauge(rows, s) + if r.status == s then 1 else 0
  {
    if rows == [] {
      assert rows + [r] == [r];
    } else {
      GaugeOneMore(rows[1..], r, s);
      assert (rows + [r])[1..] == rows[1..] + [r];
    }
  }

  ghost predicate Balanced(l: Ledger) {
    && (forall s :: Gauge(l.rows, s) == Entries(l.counted, s) - Exits(l.counted, s))
    && (forall i :: 0 <= i < |l.rows| ==> TrailOk(l.rows[i]))
  }

  lemma PlaceKeepsBalance(l: Ledger)
    requires Balanced(l)
    ensures Balanced(Record(l, Place(true)))
  {
    forall s ensures Gauge(l.rows + [Placed()], s)
                  == Entries(l.counted + Placed().events, s) - Exits(l.counted + Placed().events, s)
    {
      GaugeOneMore(l.rows, Placed(), s);
      CountOneMore(l.counted, Placed().events[0], s);
    }
  }

  lemma ChangeKeepsBalance(l: Ledger, o: nat, to: Status, reason: Reason)
    requires Balanced(l) && o < |l.rows| && to in Allowed(l.rows[o].status)
    ensures Balanced(Record(l, Change(o, to, reason, true)))
  {
    var row := Written(l.rows[o], l.rows[o].status, to, reason);
    var event := Event(Some(l.rows[o].status), to, reason);
    forall s ensures Gauge(l.rows[o := row], s) == Entries(l.counted + [event], s) - Exits(l.counted + [event], s) {
      GaugeChange(l.rows, o, row, s);
      CountOneMore(l.counted, event, s);
    }
    WriteKeepsTrail(l.rows[o], to, reason);
  }

  lemma RecordKeepsBalance(l: Ledger, w: Write)
    requires Balanced(l)
    ensures Balanced(Record(l, w))
  {
    if Record(l, w) != l {
      match w
      case Place(_) => PlaceKeepsBalance(l);
      case Change(o, to, reason, _) => ChangeKeepsBalance(l, o, to, reason);
    }
  }

  /**
    Counting only what committed: over any mix of commits and rollbacks, each gauge is the
    entries counted less the exits counted, and every order keeps a lawful trail.
  */
  lemma {:induction false} CountersAgree(l: Ledger, ws: seq<Write>)
    requires Balanced(l)
    ensures Balanced(RecordAll(l, ws))
    decreases |ws|
  {
    if ws != [] {
      RecordKeepsBalance(l, ws[0]);
      CountersAgree(Record(l, ws[0]), ws[1..]);
    }
  }
}
