/**
  How an upstream's answer becomes the error the order flow branches on
  (services/orders/app/clients/base.py), and which of inventory's answers end an order.
*/
module Upstream {
  import opened Wrappers
  import I = Inventory
  import P = Payments
  import S = Saga

  // ------------------------------------------------------------------ what arrives

  datatype Json = Null | Text(s: string) | Object(fields: map<string, Json>) | Other

  /** `body` is None when it is not JSON. */
  datatype Arrival = TimedOut | Unreachable | Response(status: nat, body: Option<Json>)

  datatype Message = Given(text: string) | StatusOnly(status: nat) | NoAnswer | NotReached | BadBody

  datatype AppError = AppError(code: string, status: nat, message: Message, upstreamCode: Option<string>)

  const MAX_MESSAGE_LENGTH := 200

  datatype Outcome = Timeout | Unreached | Okay | Error

  predicate IsSuccess(status: nat) {
    200 <= status <= 299
  }

  /** The {"error": {"code": ..., "message": ...}} object, if the body is one. */
  function Envelope(body: Option<Json>): (e: Option<map<string, Json>>) {
    match body
    case Some(Object(fields)) =>
      if "error" !in fields then None
      else
        (match fields["error"]
         case Object(error) => if "code" in error && error["code"].Text? then Some(error) else None
         case _ => None)
    case _ => None
  }

  function Clipped(text: string): (r: string) {
    if |text| > MAX_MESSAGE_LENGTH then text[..MAX_MESSAGE_LENGTH] else text
  }

  /** Empty and missing messages fall back to the status line. `shown` prints a value that is no string. */
  function MessageOf(error: map<string, Json>, status: nat, shown: Json -> string): (m: Message) {
    if "message" !in error || error["message"].Null? || error["message"] == Text("") then StatusOnly(status)
    else Given(Clipped(if error["message"].Text? then error["message"].s else shown(error["message"])))
  }

  class Client {
    var counted: map<Outcome, nat>

    constructor ()
      ensures counted == map[]
    {
      counted := map[];
    }

    method Count(o: Outcome)
      modifies this
      ensures counted == old(counted)[o := (if o in old(counted) then old(counted)[o] else 0) + 1]
    {
      counted := counted[o := (if o in counted then counted[o] else 0) + 1];
    }

    /** Every call is counted once, under what came back and not under how it is then judged. */
    method Call(a: Arrival, shown: Json -> string) returns (r: Result<Json, AppError>)
      modifies this
      ensures r == Judged(a, shown)
      ensures var o := Counted(a);
        counted == old(counted)[o := (if o in old(counted) then old(counted)[o] else 0) + 1]
    {
      match a {
        case TimedOut =>
          Count(Timeout);
          return Err(AppError("UPSTREAM_TIMEOUT", 504, NoAnswer, None));
        case Unreachable =>
          Count(Unreached);
          return Err(AppError("UPSTREAM_ERROR", 502, NotReached, None));
        case Response(status, body) =>
          if IsSuccess(status) {
            Count(Okay);
            if body.None? { return Err(AppError("UPSTREAM_ERROR", 502, BadBody, None)); }
            return Ok(body.value);
          }
          Count(Error);
          var error := Envelope(body);
          if error.None? { return Err(AppError("UPSTREAM_ERROR", 502, StatusOnly(status), None)); }
          var message := MessageOf(error.value, status, shown);
          var code := error.value["code"].s;
          if status >= 500 { return Err(AppError("UPSTREAM_ERROR", 502, message, Some(code))); }
          return Err(AppError(code, status, message, None));
      }
    }
  }

  function Counted(a: Arrival): (o: Outcome) {
    match a
    case TimedOut => Timeout
    case Unreachable => Unreached
    case Response(status, _) => if IsSuccess(status) then Okay else Error
  }

  function Judged(a: Arrival, shown: Json -> string): (r: Result<Json, AppError>) {
    match a
    case TimedOut => Err(AppError("UPSTREAM_TIMEOUT", 504, NoAnswer, None))
    case Unreachable => Err(AppError("UPSTREAM_ERROR", 502, NotReached, None))
    case Response(status, body) =>
      if IsSuccess(status) then
        if body.None? then Err(AppError("UPSTREAM_ERROR", 502, BadBody, None)) else Ok(body.value)
      else
        match Envelope(body)
        case None => Err(AppError("UPSTREAM_ERROR", 502, StatusOnly(status), None))
        case Some(error) =>
          var message := MessageOf(error, status, shown);
          if status >= 500 then Err(AppError("UPSTREAM_ERROR", 502, message, Some(error["code"].s)))
          else Err(AppError(error["code"].s, status, message, None))
  }

  // ------------------------------------------------------------------ the branch of the order flow

  const RESERVATION_REFUSALS: set<string> := {"OUT_OF_STOCK", "UNKNOWN_SKU"}

  predicate Refuses(r: Result<Json, AppError>) {
    r.Err? && r.error.code in RESERVATION_REFUSALS
  }

  /** The envelope code of an answer below 500 that is not a success. */
  predicate Says(a: Arrival, codes: set<string>) {
    && a.Response? && !IsSuccess(a.status) && a.status < 500
    && Envelope(a.body).Some? && Envelope(a.body).value["code"].s in codes
  }

  /**
    An order is failed at the reservation exactly on a 4xx (or other non-success below 500)
    naming one of the two codes. A timeout, a lost connection, a 5xx naming the same code, or a
    body that is not our envelope never does.
  */
  lemma RefusalIsExact(a: Arrival, shown: Json -> string)
    ensures Refuses(Judged(a, shown)) <==> Says(a, RESERVATION_REFUSALS)
    ensures a.Response? && a.status >= 500 ==>
      Judged(a, shown).Err? && Judged(a, shown).error.code == "UPSTREAM_ERROR"
  {
  }

  // ------------------------------------------------------------------ inventory's answers

  function CodeOf(e: I.Refusal): (r: (nat, string)) {
    match e
    case DuplicateSku => (422, "VALIDATION_ERROR")
    case UnknownSku(_) => (404, "UNKNOWN_SKU")
    case OutOfStock(_, _, _) => (409, "OUT_OF_STOCK")
    case UnknownReservation => (404, "UNKNOWN_RESERVATION")
    case AlreadyReleased => (409, "CONFLICT")
    case NoSuchProduct => (404, "NOT_FOUND")
    case SkuExists => (409, "CONFLICT")
  }

  /** The error body every service of the platform answers with. */
  function Answer(e: I.Refusal, message: string): (a: Arrival) {
    var (status, code) := CodeOf(e);
    Response(status, Some(Object(map["error" := Object(map["code" := Text(code), "message" := Text(message)])])))
  }

  /** The saga's reserve call fails its order on exactly the answers the client turns into a refusal. */
  lemma SagaBranchesAsClient(o: nat, ord: S.Order, db: I.Db, pay: Option<P.Payment>, result: P.GatewayResult,
                             message: string, shown: Json -> string)
    requires I.Reserve(db, o, ord.items).result.Err?
    ensures S.Serve(S.ToReserve, o, ord, db, pay, S.Sent, result).stage == S.Answered(false)
      <==> Refuses(Judged(Answer(I.Reserve(db, o, ord.items).result.error, message), shown))
  {
  }
}
