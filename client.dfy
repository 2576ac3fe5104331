/** `generate_response_from_api`: submit a generation task to Gen-API, poll
    its status a bounded number of times and turn the outcome into a reply.
    The backend is not called: the reply to the submission and the reply to
    each status check are inputs, and the two-second sleeps are counted. */
module Client {
  import opened Json
  import opened Payload

  /** Number of status checks before giving up. */
  const MaxAttempts: nat := 15

  /** Seconds slept before each status check. */
  const PollDelay: nat := 2

  /** The body of an HTTP response: JSON, or something `.json()` rejects. */
  datatype Body = Malformed | Parsed(value: Json)

  /** What one HTTP call gives back: a response with its status code, or no
      response at all (connection refused, transport timeout). */
  datatype Reply = Response(code: int, body: Body) | NoResponse

  /** The unexpected exceptions that end a run in the generic error branch. */
  datatype Fault = ConnectionFailed | BodyNotJson | PayloadNotObject

  /** How a run ends; each variant is one of the reply strings that
      main.py returns. */
  datatype Outcome =
    | StartFailed(status: Json)
    | Generated(content: Json)
    | ParseFailed(error: SubscriptError)
    | TaskFailed(detail: Json)
    | Timeout
    | HttpError(code: int)
    | Unexpected(fault: Fault)

  /** `raise_for_status` raises for client (4xx) and server (5xx) errors. */
  predicate RaisesHttpError(code: int) {
    400 <= code < 600
  }

  /** `raise_for_status()`, then `.json()`, then the dict that `.get` needs:
      either the decoded object or the outcome that aborts the run. */
  function Decode(reply: Reply): (r: Result<Json, Outcome>)
    ensures r.Ok? ==> r.value.Obj?
    ensures r.Err? ==> r.error.HttpError? || r.error.Unexpected?
    ensures r.Err? && r.error.HttpError? <==> reply.Response? && RaisesHttpError(reply.code)
    ensures reply.Response? && RaisesHttpError(reply.code) ==> r == Err(HttpError(reply.code))
    ensures reply.NoResponse? ==> r == Err(Unexpected(ConnectionFailed))
    ensures reply.Response? && !RaisesHttpError(reply.code) ==>
              && (r.Ok? <==> reply.body.Parsed? && reply.body.value.Obj?)
              && (r.Ok? ==> r.value == reply.body.value)
              && (reply.body.Malformed? ==> r == Err(Unexpected(BodyNotJson)))
              && (reply.body.Parsed? && !reply.body.value.Obj? ==> r == Err(Unexpected(PayloadNotObject)))
  {
    match reply
    case NoResponse => Err(Unexpected(ConnectionFailed))
    case Response(code, body) =>
      if RaisesHttpError(code) then Err(HttpError(code))
      else match body
        case Malformed => Err(Unexpected(BodyNotJson))
        case Parsed(v) => if v.Obj? then Ok(v) else Err(Unexpected(PayloadNotObject))
  }

  /** The outcome of the submission when it ends the run, None when the task
      started and polling begins. */
  function Start(submit: Reply): (r: Option<Outcome>)
    ensures r.Some? ==> r.value.StartFailed? || r.value.HttpError? || r.value.Unexpected?
    ensures r.None? ==> && submit.Response? && !RaisesHttpError(submit.code)
                        && submit.body.Parsed? && submit.body.value.Obj?
                        && Accepted(submit.body.value)
  {
    match Decode(submit)
    case Err(o) => Some(o)
    case Ok(data) =>
      if Accepted(data) then None else Some(StartFailed(Get(data, "status")))
  }

  /** The outcome of one status check when it ends the run, None when the
      loop goes on to the next attempt. */
  function Step(reply: Reply): (r: Option<Outcome>)
    ensures r.Some? ==> !r.value.Timeout? && !r.value.StartFailed?
    ensures reply.Response? && RaisesHttpError(reply.code) ==> r == Some(HttpError(reply.code))
  {
    match Decode(reply)
    case Err(o) => Some(o)
    case Ok(data) =>
      match Classify(Get(data, "status"))
      case Success =>
        Some(match ExtractContent(data)
             case Ok(content) => Generated(content)
             case Err(e) => ParseFailed(e))
      case Failure => Some(TaskFailed(ErrorDetail(data)))
      case Processing => None
      case Unrecognized => None
  }

  /** How a run ends, and how many status checks it made. */
  datatype Completion = Completion(outcome: Outcome, checks: nat)

  /** The polling loop from attempt `k` on. */
  function PollFrom(polls: nat -> Reply, k: nat): (r: Completion)
    requires k <= MaxAttempts
    ensures k <= r.checks <= MaxAttempts
    ensures k < MaxAttempts ==> k < r.checks
    ensures r.outcome.Timeout? ==> r.checks == MaxAttempts
    ensures !r.outcome.StartFailed?
    decreases MaxAttempts - k
  {
    if k == MaxAttempts then Completion(Timeout, MaxAttempts)
    else match Step(polls(k))
      case Some(o) => Completion(o, k + 1)
      case None => PollFrom(polls, k + 1)
  }

  /** A whole run: `polls(k)` is the backend's reply to status check k. */
  function Run(submit: Reply, polls: nat -> Reply): (r: Completion)
    ensures r.checks <= MaxAttempts
    ensures r.checks == 0 <==> Start(submit).Some?
    ensures r.outcome.Timeout? ==> r.checks == MaxAttempts
  {
    match Start(submit)
    case Some(o) => Completion(o, 0)
    case None => PollFrom(polls, 0)
  }

  /** The client itself. Returns the outcome, the number of status checks
      made and the seconds slept before them. */
  method GenerateResponse(submit: Reply, polls: nat -> Reply)
    returns (outcome: Outcome, checks: nat, slept: nat)
    ensures Completion(outcome, checks) == Run(submit, polls)
    ensures slept == PollDelay * checks
  {
    checks, slept := 0, 0;
    // Submission: the task must be acknowledged as starting.
    var started := Decode(submit);
    if started.Err? {
      return started.error, checks, slept;
    }
    var data := started.value;
    if !Accepted(data) {
      return StartFailed(Get(data, "status")), checks, slept;
    }
    // Polling: at most MaxAttempts status checks, each after one delay.
    var attempt := 0;
    while attempt < MaxAttempts
      invariant attempt <= MaxAttempts
      invariant checks == attempt && slept == PollDelay * attempt
      invariant PollFrom(polls, attempt) == Run(submit, polls)
    {
      slept := slept + PollDelay;
      var reply := polls(attempt);
      checks := checks + 1;
      var decoded := Decode(reply);
      if decoded.Err? {
        return decoded.error, checks, slept;
      }
      var payload := decoded.value;
      var current := Get(payload, "status");
      if current == Str("success") {
        var content := ExtractContent(payload);
        if content.Ok? {
          return Generated(content.value), checks, slept;
        }
        return ParseFailed(content.error), checks, slept;
      } else if current == Str("processing") {
        attempt := attempt + 1;
        continue;
      } else if current == Str("failed") || current == Str("error") {
        return TaskFailed(ErrorDetail(payload)), checks, slept;
      }
      attempt := attempt + 1;
    }
    return Timeout, checks, slept;
  }

  /** A run from attempt `k` either times out after every remaining check
      let the loop go on, or ends on the first check that does not, with
      that check's outcome. */
  lemma {:induction false} PollFromEnds(polls: nat -> Reply, k: nat)
    requires k <= MaxAttempts
    ensures var r := PollFrom(polls, k);
      || (r == Completion(Timeout, MaxAttempts)
          && forall i :: k <= i < MaxAttempts ==> Step(polls(i)) == None)
      || (k < r.checks && Step(polls(r.checks - 1)) == Some(r.outcome)
          && forall i :: k <= i < r.checks - 1 ==> Step(polls(i)) == None)
    decreases MaxAttempts - k
  {
    if k < MaxAttempts && Step(polls(k)) == None {
      PollFromEnds(polls, k + 1);
    }
  }

  /** A started run times out exactly when no status check ends it; it then
      made all MaxAttempts checks. */
  lemma TimeoutIffNoCheckEnds(submit: Reply, polls: nat -> Reply)
    requires Start(submit) == None
    ensures Run(submit, polls).outcome == Timeout <==>
              forall i :: 0 <= i < MaxAttempts ==> Step(polls(i)) == None
    ensures Run(submit, polls).outcome == Timeout ==> Run(submit, polls).checks == MaxAttempts
  {
    PollFromEnds(polls, 0);
    var r := Run(submit, polls);
    if r.outcome != Timeout {
      assert Step(polls(r.checks - 1)) == Some(r.outcome);
    }
  }

  /** The first status check that ends the run decides it, and no check is
      made after it. */
  lemma {:induction false} FirstEndingCheckDecides(polls: nat -> Reply, k: nat, i: nat, o: Outcome)
    requires k <= i < MaxAttempts
    requires Step(polls(i)) == Some(o)
    requires forall j :: k <= j < i ==> Step(polls(j)) == None
    ensures PollFrom(polls, k) == Completion(o, i + 1)
    decreases i - k
  {
    if k < i {
      FirstEndingCheckDecides(polls, k + 1, i, o);
    }
  }

  /** The replies to checks that were never made do not matter. */
  lemma {:induction false} OnlyMadeChecksMatter(polls: nat -> Reply, other: nat -> Reply, k: nat)
    requires k <= MaxAttempts
    requires forall i :: k <= i < PollFrom(polls, k).checks ==> other(i) == polls(i)
    ensures PollFrom(other, k) == PollFrom(polls, k)
    decreases MaxAttempts - k
  {
    if k < MaxAttempts {
      assert other(k) == polls(k);
      if Step(polls(k)) == None {
        OnlyMadeChecksMatter(polls, other, k + 1);
      }
    }
  }

  /** A successful submission (a 2xx or 3xx reply, a dict payload) starts
      polling exactly when its request id is truthy and its status is
      "starting"; otherwise the run ends at once, echoing the status. */
  lemma StartVerdict(code: int, data: Json)
    requires !RaisesHttpError(code) && data.Obj?
    ensures Start(Response(code, Parsed(data))) == None <==>
              Truthy(Get(data, "request_id")) && Get(data, "status") == Str("starting")
    ensures Start(Response(code, Parsed(data))) != None ==>
              Start(Response(code, Parsed(data))) == Some(StartFailed(Get(data, "status")))
  {
  }

  /** An HTTP error status on the submission aborts the run with that code
      before any status check; so does no response at all, in the generic
      error branch. */
  lemma SubmitFaultAborts(code: int, body: Body, polls: nat -> Reply)
    ensures RaisesHttpError(code) ==> Run(Response(code, body), polls) == Completion(HttpError(code), 0)
    ensures Run(NoResponse, polls) == Completion(Unexpected(ConnectionFailed), 0)
    ensures !RaisesHttpError(code) && body.Malformed? ==>
              Run(Response(code, body), polls) == Completion(Unexpected(BodyNotJson), 0)
    ensures !RaisesHttpError(code) && body.Parsed? && !body.value.Obj? ==>
              Run(Response(code, body), polls) == Completion(Unexpected(PayloadNotObject), 0)
  {
  }

  /** A task acknowledged as already "processing" is rejected, whatever its
      request id and other fields, and no status check is made. */
  lemma ProcessingStartRejected(code: int, data: Json, polls: nat -> Reply)
    requires !RaisesHttpError(code) && data.Obj?
    requires Get(data, "status") == Str("processing")
    ensures Run(Response(code, Parsed(data)), polls) == Completion(StartFailed(Str("processing")), 0)
  {
  }

  /** For a dict payload under a non-error HTTP code, a status check goes on
      exactly when the status is none of "success", "failed" and "error". */
  lemma StepContinues(code: int, data: Json)
    requires !RaisesHttpError(code) && data.Obj?
    ensures Step(Response(code, Parsed(data))) == None <==>
              Get(data, "status") !in {Str("success"), Str("failed"), Str("error")}
  {
  }

  /** A status with surrounding spaces or another case is not recognised,
      so the loop polls again. */
  lemma PaddedStatusContinues(code: int, data: Json)
    requires !RaisesHttpError(code) && data.Obj?
    requires Get(data, "status") in {Str(" success"), Str("success\n"), Str("Success"), Str("Failed"), Str(" error")}
    ensures Step(Response(code, Parsed(data))) == None
  {
  }

  /** If no status check reports "success", "failed" or "error" (each is a
      dict under a non-error code, with status "processing", an unknown value
      or none), the run makes all fifteen checks and times out. */
  lemma NoTerminalStatusTimesOut(submit: Reply, polls: nat -> Reply)
    requires Start(submit) == None
    requires forall i :: 0 <= i < MaxAttempts ==>
               && polls(i).Response? && !RaisesHttpError(polls(i).code)
               && polls(i).body.Parsed? && polls(i).body.value.Obj?
               && Get(polls(i).body.value, "status") !in {Str("success"), Str("failed"), Str("error")}
    ensures Run(submit, polls) == Completion(Timeout, MaxAttempts)
  {
    forall i | 0 <= i < MaxAttempts
      ensures Step(polls(i)) == None
    {
      StepContinues(polls(i).code, polls(i).body.value);
    }
    TimeoutIffNoCheckEnds(submit, polls);
  }

  /** If every status check reports "processing", the run makes all fifteen
      checks and times out (so, by GenerateResponse, it sleeps thirty
      seconds in all). */
  lemma AllProcessingTimesOut(submit: Reply, polls: nat -> Reply)
    requires Start(submit) == None
    requires forall i :: 0 <= i < MaxAttempts ==>
               && polls(i).Response? && !RaisesHttpError(polls(i).code)
               && polls(i).body.Parsed? && polls(i).body.value.Obj?
               && Get(polls(i).body.value, "status") == Str("processing")
    ensures Run(submit, polls) == Completion(Timeout, 15)
    ensures PollDelay * Run(submit, polls).checks == 30
  {
    NoTerminalStatusTimesOut(submit, polls);
  }

  /** The first "success" check whose payload has the content path returns
      that content verbatim, after exactly that many checks. */
  lemma SuccessReturnsContent(submit: Reply, polls: nat -> Reply, i: nat, code: int, data: Json)
    requires Start(submit) == None
    requires i < MaxAttempts && !RaisesHttpError(code)
    requires data.Obj? && Get(data, "status") == Str("success") && HasContentPath(data)
    requires polls(i) == Response(code, Parsed(data))
    requires forall j :: 0 <= j < i ==> Step(polls(j)) == None
    ensures Run(submit, polls) == Completion(Generated(ContentAt(data)), i + 1)
  {
    ExtractContentShape(data);
    FirstEndingCheckDecides(polls, 0, i, Generated(ContentAt(data)));
  }

  /** A "success" payload without the content path ends the run with a parse
      failure at once: polling is not retried. */
  lemma SuccessWithoutContentFails(submit: Reply, polls: nat -> Reply, i: nat, code: int, data: Json)
    requires Start(submit) == None
    requires i < MaxAttempts && !RaisesHttpError(code)
    requires data.Obj? && Get(data, "status") == Str("success") && !HasContentPath(data)
    requires polls(i) == Response(code, Parsed(data))
    requires forall j :: 0 <= j < i ==> Step(polls(j)) == None
    ensures Run(submit, polls).outcome.ParseFailed? && Run(submit, polls).checks == i + 1
  {
    ExtractContentShape(data);
    var o := Step(polls(i)).value;
    FirstEndingCheckDecides(polls, 0, i, o);
  }

  /** The first "failed" or "error" check ends the run with its detail. */
  lemma FailureReportsDetail(submit: Reply, polls: nat -> Reply, i: nat, code: int, data: Json)
    requires Start(submit) == None
    requires i < MaxAttempts && !RaisesHttpError(code)
    requires data.Obj? && Get(data, "status") in {Str("failed"), Str("error")}
    requires polls(i) == Response(code, Parsed(data))
    requires forall j :: 0 <= j < i ==> Step(polls(j)) == None
    ensures Run(submit, polls) == Completion(TaskFailed(ErrorDetail(data)), i + 1)
  {
    FirstEndingCheckDecides(polls, 0, i, TaskFailed(ErrorDetail(data)));
  }

  /** An HTTP error status on any check aborts the run with that code. */
  lemma HttpErrorAborts(submit: Reply, polls: nat -> Reply, i: nat, code: int, body: Body)
    requires Start(submit) == None
    requires i < MaxAttempts && RaisesHttpError(code)
    requires polls(i) == Response(code, body)
    requires forall j :: 0 <= j < i ==> Step(polls(j)) == None
    ensures Run(submit, polls) == Completion(HttpError(code), i + 1)
  {
    FirstEndingCheckDecides(polls, 0, i, HttpError(code));
  }

  /** Any other fault on a status check (no response, a body that is not
      JSON, a payload that is not a dict) ends the run in the generic error
      branch after that check. */
  lemma PollFaultAborts(submit: Reply, polls: nat -> Reply, i: nat)
    requires Start(submit) == None
    requires i < MaxAttempts
    requires || polls(i).NoResponse?
             || (polls(i).Response? && !RaisesHttpError(polls(i).code)
                 && (polls(i).body.Malformed? || !polls(i).body.value.Obj?))
    requires forall j :: 0 <= j < i ==> Step(polls(j)) == None
    ensures Run(submit, polls).outcome.Unexpected? && Run(submit, polls).checks == i + 1
    ensures polls(i).NoResponse? ==> Run(submit, polls).outcome == Unexpected(ConnectionFailed)
  {
    var o := Step(polls(i)).value;
    FirstEndingCheckDecides(polls, 0, i, o);
  }
}
