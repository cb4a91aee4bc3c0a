/** The plan request of internal/api/fetch_plan.go: one HTTP attempt
    (`tryFetchTestPlan`), classified by status code, and the bounded retrier around
    it (`FetchTestPlan`). The HTTP exchange of attempt k is the server's answer
    `server(req, k)` to the request `req` that attempt sends;
    backoff delays, jitter and timeouts are not modelled. */
module FetchPlan {
  import opened Results
  import opened Plan
  import opened Decimal
  import Text

  /** `retryMaxAttempts`. */
  const RetryMaxAttempts := 5

  const PlanPath := "/test-splitting/plan"

  /** The HTTP request an attempt sends. */
  datatype Request = Request(httpMethod: string, url: string, contentType: string, body: TestPlanParams)

  /** The response body: unreadable, not a plan, or a decoded plan. */
  datatype Body = ReadFailed(detail: string) | Unparsable(detail: string) | Decoded(plan: TestPlan)

  /** What one attempt meets: a failure before a response (encoding the parameters,
      building the request, or sending it, the last including the per-request
      timeout), or a response with a status code and a body. */
  datatype Exchange =
    | EncodeFailed(detail: string)
    | BuildFailed(detail: string)
    | SendFailed(detail: string)
    | Responded(status: int, body: Body)

  /** The errors `FetchTestPlan` can return. `detail` is the text of the foreign error
      being wrapped. */
  datatype FetchError =
    | Converting(detail: string)
    | Creating(detail: string)
    | Sending(detail: string)
    | InvalidRequest(status: int)
    | ServerResponse(status: int)
    | Reading(detail: string)
    | Parsing(detail: string)
    | RetryLimitExceeded(last: FetchError)

  /** A `(plan.TestPlan, error)` pair. */
  datatype Attempt = Attempt(plan: TestPlan, err: Option<FetchError>)

  /** The first three characters of each kind of error's text: no two kinds share them. */
  function Head(e: FetchError): string {
    match e
    case Converting(_) => "con"
    case Creating(_) => "cre"
    case Sending(_) => "sen"
    case InvalidRequest(_) => "req"
    case ServerResponse(_) => "ser"
    case Reading(_) => "rea"
    case Parsing(_) => "par"
    case RetryLimitExceeded(_) => "ret"
  }

  /** The fixed text each `fmt.Errorf` puts before what it wraps or prints.
      `ErrRetryLimitExceeded` and `errInvalidRequest` read "retry limit exceeded"
      and "request was invalid"; `%w: ` adds ": " after them. */
  const ConvertingContext := "converting params to JSON: "
  const CreatingContext := "creating request: "
  const SendingContext := "sending request: "
  const InvalidContext := "request was invalid: server response: "
  const ServerContext := "server response: "
  const ReadingContext := "reading response body: "
  const ParsingContext := "parsing response: "
  const LimitContext := "retry limit exceeded: "

  /** Text of an error, as `Error()` renders it: each wrapping `%w` puts its own
      context first, and `%d` prints a status in decimal. */
  function Message(e: FetchError): string {
    match e
    case Converting(d) => ConvertingContext + d
    case Creating(d) => CreatingContext + d
    case Sending(d) => SendingContext + d
    case InvalidRequest(s) => InvalidContext + Itoa(s)
    case ServerResponse(s) => ServerContext + Itoa(s)
    case Reading(d) => ReadingContext + d
    case Parsing(d) => ParsingContext + d
    case RetryLimitExceeded(last) => LimitContext + Message(last)
  }

  /** `errors.Is(err, errInvalidRequest)`: the error, or one it wraps, is an invalid request. */
  predicate IsInvalidRequest(e: FetchError) {
    match e
    case InvalidRequest(_) => true
    case RetryLimitExceeded(last) => IsInvalidRequest(last)
    case _ => false
  }

  /** The error with every `ErrRetryLimitExceeded` wrapper removed. */
  function Innermost(e: FetchError): (r: FetchError)
    ensures !r.RetryLimitExceeded?
  {
    if e.RetryLimitExceeded? then Innermost(e.last) else e
  }

  /** How many `ErrRetryLimitExceeded` wrappers surround the innermost error. */
  function Wrappers(e: FetchError): nat {
    if e.RetryLimitExceeded? then 1 + Wrappers(e.last) else 0
  }

  /** `n` copies of `s`, one after another. */
  function Repeat(s: string, n: nat): (r: string)
    ensures |r| == n * |s|
  {
    if n == 0 then "" else s + Repeat(s, n - 1)
  }

  /** A wrapped error reads as the limit context once per wrapper, followed by the
      innermost error's text; and it is an invalid request exactly when the
      innermost error is one, as `errors.Is` looks through every `%w`. */
  lemma {:induction false} NestedMessage(e: FetchError)
    ensures Message(e) == Repeat(LimitContext, Wrappers(e)) + Message(Innermost(e))
    ensures IsInvalidRequest(e) <==> Innermost(e).InvalidRequest?
  {
    if e.RetryLimitExceeded? {
      NestedMessage(e.last);
      var c, n, m := LimitContext, Wrappers(e.last), Message(Innermost(e.last));
      assert Message(e) == c + Message(e.last);
      assert Repeat(c, n + 1) == c + Repeat(c, n);
      Text.Regroup(c, Repeat(c, n), m);
    }
  }

  /** The first characters of a text are those of its context. */
  lemma ContextFirst(c: string, x: string, h: string)
    requires |c| >= 3 && |h| == 3
    requires c[0] == h[0] && c[1] == h[1] && c[2] == h[2]
    ensures |c + x| >= 3 && (c + x)[..3] == h
  {
    assert (c + x)[..3] == c[..3];
    assert c[..3] == h;
  }

  /** The first three characters of each context are its kind's head. */
  lemma ContextHeads()
    ensures |ConvertingContext| >= 3 && ConvertingContext[0] == 'c' && ConvertingContext[1] == 'o' && ConvertingContext[2] == 'n'
    ensures |CreatingContext| >= 3 && CreatingContext[0] == 'c' && CreatingContext[1] == 'r' && CreatingContext[2] == 'e'
    ensures |SendingContext| >= 3 && SendingContext[0] == 's' && SendingContext[1] == 'e' && SendingContext[2] == 'n'
    ensures |InvalidContext| >= 3 && InvalidContext[0] == 'r' && InvalidContext[1] == 'e' && InvalidContext[2] == 'q'
    ensures |ServerContext| >= 3 && ServerContext[0] == 's' && ServerContext[1] == 'e' && ServerContext[2] == 'r'
    ensures |ReadingContext| >= 3 && ReadingContext[0] == 'r' && ReadingContext[1] == 'e' && ReadingContext[2] == 'a'
    ensures |ParsingContext| >= 3 && ParsingContext[0] == 'p' && ParsingContext[1] == 'a' && ParsingContext[2] == 'r'
    ensures |LimitContext| >= 3 && LimitContext[0] == 'r' && LimitContext[1] == 'e' && LimitContext[2] == 't'
  {
  }

  /** Each kind of error's text starts with that kind's head. */
  lemma MessageHead(e: FetchError)
    ensures |Message(e)| >= 3 && Message(e)[..3] == Head(e)
  {
    ContextHeads();
    match e
    case Converting(d) => ContextFirst(ConvertingContext, d, "con");
    case Creating(d) => ContextFirst(CreatingContext, d, "cre");
    case Sending(d) => ContextFirst(SendingContext, d, "sen");
    case InvalidRequest(st) => ContextFirst(InvalidContext, Itoa(st), "req");
    case ServerResponse(st) => ContextFirst(ServerContext, Itoa(st), "ser");
    case Reading(d) => ContextFirst(ReadingContext, d, "rea");
    case Parsing(d) => ContextFirst(ParsingContext, d, "par");
    case RetryLimitExceeded(l) => ContextFirst(LimitContext, Message(l), "ret");
  }

  /** Equal suffixes after a shared prefix. */
  lemma AfterContext(c: string, x: string, y: string)
    requires c + x == c + y
    ensures x == y
  {
    assert (c + x)[|c|..] == x;
    assert (c + y)[|c|..] == y;
  }

  /** The text of an error identifies it: different errors never read the same. */
  lemma {:induction false} MessageInjective(a: FetchError, b: FetchError)
    ensures Message(a) == Message(b) <==> a == b
  {
    if Message(a) == Message(b) {
      MessageHead(a);
      MessageHead(b);
      match a
      case Converting(d) => AfterContext(ConvertingContext, d, b.detail);
      case Creating(d) => AfterContext(CreatingContext, d, b.detail);
      case Sending(d) => AfterContext(SendingContext, d, b.detail);
      case InvalidRequest(st) =>
        AfterContext(InvalidContext, Itoa(st), Itoa(b.status));
        ItoaInjective(st, b.status);
      case ServerResponse(st) =>
        AfterContext(ServerContext, Itoa(st), Itoa(b.status));
        ItoaInjective(st, b.status);
      case Reading(d) => AfterContext(ReadingContext, d, b.detail);
      case Parsing(d) => AfterContext(ParsingContext, d, b.detail);
      case RetryLimitExceeded(l) =>
        AfterContext(LimitContext, Message(l), Message(b.last));
        MessageInjective(l, b.last);
    }
  }

  /** An attempt the retrier gives another try: it failed, but not as an invalid request. */
  predicate Retryable(a: Attempt) {
    a.err.Some? && !IsInvalidRequest(a.err.value)
  }

  /** The request every attempt sends. */
  function PlanRequest(splitterPath: string, params: TestPlanParams): (r: Request)
    ensures r.httpMethod == "POST" && r.contentType == "application/json" && r.body == params
    ensures |r.url| == |splitterPath| + |PlanPath|
    ensures r.url[..|splitterPath|] == splitterPath && r.url[|splitterPath|..] == PlanPath
  {
    Request("POST", splitterPath + PlanPath, "application/json", params)
  }

  /** `tryFetchTestPlan`: a single attempt. */
  function TryFetch(x: Exchange): (a: Attempt)
    // a failing attempt carries the zero plan
    ensures a.err.Some? ==> a.plan == EmptyPlan
    // success exactly when a response outside 400-599 has a decodable body, which is returned
    ensures a.err.None? <==> x.Responded? && !(400 <= x.status < 600) && x.body.Decoded?
    ensures a.err.None? ==> a.plan == x.body.plan
    // only a 4xx response is an invalid request
    ensures a.err.Some? && IsInvalidRequest(a.err.value) <==> x.Responded? && 400 <= x.status < 500
    // a 5xx response is a plain server error
    ensures x.Responded? && 500 <= x.status < 600 ==> a.err == Some(ServerResponse(x.status))
  {
    match x
    case EncodeFailed(d) => Attempt(EmptyPlan, Some(Converting(d)))
    case BuildFailed(d) => Attempt(EmptyPlan, Some(Creating(d)))
    case SendFailed(d) => Attempt(EmptyPlan, Some(Sending(d)))
    case Responded(status, body) =>
      if status == 200 || !(400 <= status < 600) then
        match body
        case ReadFailed(d) => Attempt(EmptyPlan, Some(Reading(d)))
        case Unparsable(d) => Attempt(EmptyPlan, Some(Parsing(d)))
        case Decoded(p) => Attempt(p, None)
      else if status < 500 then Attempt(EmptyPlan, Some(InvalidRequest(status)))
      else Attempt(EmptyPlan, Some(ServerResponse(status)))
  }

  /** The service as the model sees it: the exchange that attempt `k` meets when it
      sends `req`. */
  type Server = (Request, nat) -> Exchange

  /** The exchange of attempt `k` of a plan request for `params` to `splitterPath`. */
  function ReplyTo(server: Server, splitterPath: string, params: TestPlanParams, k: nat): Exchange {
    server(PlanRequest(splitterPath, params), k)
  }

  /** The retrier's result: the last attempt's pair, the attempt count, and the
      requests sent by the attempts made. */
  datatype Retried = Retried(last: Attempt, attempts: nat, sent: seq<Request>)

  /** The retrier from attempt `k` on (attempts `0..k-1` were retryable failures);
      every attempt sends `req`. */
  function RetryFrom(req: Request, server: Server, k: nat): (r: Retried)
    requires k < RetryMaxAttempts
    ensures k < r.attempts <= RetryMaxAttempts
    ensures |r.sent| == r.attempts - k && forall i :: 0 <= i < |r.sent| ==> r.sent[i] == req
    ensures r.last == TryFetch(server(req, r.attempts - 1))
    ensures forall j :: k <= j < r.attempts - 1 ==> Retryable(TryFetch(server(req, j)))
    ensures r.attempts < RetryMaxAttempts ==> !Retryable(r.last)
    decreases RetryMaxAttempts - k
  {
    var a := TryFetch(server(req, k));
    if a.err.None? || IsInvalidRequest(a.err.value) || k + 1 >= RetryMaxAttempts then Retried(a, k + 1, [req])
    else
      var rest := RetryFrom(req, server, k + 1);
      Retried(rest.last, rest.attempts, [req] + rest.sent)
  }

  /** The result of `FetchTestPlan`, the number of attempts it made and the request
      each attempt sent, in order. */
  datatype Fetched = Fetched(plan: TestPlan, err: Option<FetchError>, attempts: nat, sent: seq<Request>)

  /** `FetchTestPlan`: retry until success, an invalid request, or five attempts; an
      error after the fifth attempt is wrapped in `ErrRetryLimitExceeded`. The reply
      to attempt `j` is the server's answer to the request `r.sent[j]`. */
  function FetchTestPlan(splitterPath: string, params: TestPlanParams, server: Server): (r: Fetched)
    ensures 1 <= r.attempts <= RetryMaxAttempts
    // one request per attempt, each the plan request for these parameters
    ensures |r.sent| == r.attempts && forall j :: 0 <= j < |r.sent| ==> r.sent[j] == PlanRequest(splitterPath, params)
    // every attempt but the last failed retryably
    ensures forall j :: 0 <= j < r.attempts - 1 ==> Retryable(TryFetch(server(r.sent[j], j)))
    // the retrier stops early only on success or an invalid request
    ensures r.attempts < RetryMaxAttempts ==> !Retryable(TryFetch(server(r.sent[r.attempts - 1], r.attempts - 1)))
    ensures r.plan == TryFetch(server(r.sent[r.attempts - 1], r.attempts - 1)).plan
    // the limit error is added exactly when the fifth attempt failed too
    ensures r.err.Some? && r.err.value.RetryLimitExceeded? <==> r.attempts == RetryMaxAttempts && r.err.Some?
    ensures r.err.Some? <==> TryFetch(server(r.sent[r.attempts - 1], r.attempts - 1)).err.Some?
    ensures r.attempts == RetryMaxAttempts && TryFetch(server(r.sent[r.attempts - 1], r.attempts - 1)).err.Some? ==>
      r.err == Some(RetryLimitExceeded(TryFetch(server(r.sent[r.attempts - 1], r.attempts - 1)).err.value))
    ensures r.attempts < RetryMaxAttempts ==> r.err == TryFetch(server(r.sent[r.attempts - 1], r.attempts - 1)).err
  {
    var run := RetryFrom(PlanRequest(splitterPath, params), server, 0);
    if run.last.err.Some? && run.attempts == RetryMaxAttempts then
      Fetched(run.last.plan, Some(RetryLimitExceeded(run.last.err.value)), run.attempts, run.sent)
    else
      Fetched(run.last.plan, run.last.err, run.attempts, run.sent)
  }

  /** Every attempt POSTs the parameters as JSON to the splitter path followed by
      `/test-splitting/plan`. */
  lemma EveryAttemptPostsThePlanRequest(splitterPath: string, params: TestPlanParams, server: Server)
    ensures var r := FetchTestPlan(splitterPath, params, server);
      |r.sent| == r.attempts &&
      forall j :: 0 <= j < |r.sent| ==>
        r.sent[j].httpMethod == "POST" && r.sent[j].contentType == "application/json"
        && r.sent[j].url == splitterPath + "/test-splitting/plan" && r.sent[j].body == params
  {
  }

  /** A 4xx reply on the first attempt ends the retrier at once, unwrapped. */
  lemma InvalidRequestIsNotRetried(splitterPath: string, params: TestPlanParams, server: Server)
    requires ReplyTo(server, splitterPath, params, 0).Responded?
    requires 400 <= ReplyTo(server, splitterPath, params, 0).status < 500
    ensures FetchTestPlan(splitterPath, params, server)
      == Fetched(EmptyPlan, Some(InvalidRequest(ReplyTo(server, splitterPath, params, 0).status)), 1,
                 [PlanRequest(splitterPath, params)])
  {
    var r, req := FetchTestPlan(splitterPath, params, server), PlanRequest(splitterPath, params);
    assert r.sent[0] == req;
    assert !Retryable(TryFetch(server(r.sent[0], 0)));
    assert r.attempts == 1;
    assert r.sent == [req];
  }

  /** Five 5xx replies in a row use up every attempt and end in the limit error
      wrapping the last server error. */
  lemma SustainedServerErrors(splitterPath: string, params: TestPlanParams, server: Server)
    requires forall k: nat :: k < RetryMaxAttempts ==>
      ReplyTo(server, splitterPath, params, k).Responded? && 500 <= ReplyTo(server, splitterPath, params, k).status < 600
    ensures var r := FetchTestPlan(splitterPath, params, server);
      r.plan == EmptyPlan && r.attempts == RetryMaxAttempts
      && r.err == Some(RetryLimitExceeded(ServerResponse(ReplyTo(server, splitterPath, params, 4).status)))
  {
    var r, req := FetchTestPlan(splitterPath, params, server), PlanRequest(splitterPath, params);
    var last := r.attempts - 1;
    assert r.sent[last] == req;
    assert Retryable(TryFetch(ReplyTo(server, splitterPath, params, last)));
  }

  /** A 4xx reply on the fifth attempt, after four retryable failures, is still
      wrapped in the limit error, and the result is then both a limit error and an
      invalid request. */
  lemma InvalidRequestOnLastAttemptIsWrapped(splitterPath: string, params: TestPlanParams, server: Server)
    requires forall k: nat :: k < 4 ==> Retryable(TryFetch(ReplyTo(server, splitterPath, params, k)))
    requires ReplyTo(server, splitterPath, params, 4).Responded?
    requires 400 <= ReplyTo(server, splitterPath, params, 4).status < 500
    ensures var r := FetchTestPlan(splitterPath, params, server);
      r.attempts == RetryMaxAttempts
      && r.err == Some(RetryLimitExceeded(InvalidRequest(ReplyTo(server, splitterPath, params, 4).status)))
      && IsInvalidRequest(r.err.value)
  {
    var r, req := FetchTestPlan(splitterPath, params, server), PlanRequest(splitterPath, params);
    var last: nat := r.attempts - 1;
    assert r.sent[last] == req;
    assert last < 4 ==> Retryable(TryFetch(ReplyTo(server, splitterPath, params, last)));
  }

  /** After retryable failures, the first decodable 200 reply is returned as it is. */
  lemma FirstSuccessIsReturned(splitterPath: string, params: TestPlanParams, server: Server, k: nat)
    requires k < RetryMaxAttempts
    requires forall j: nat :: j < k ==> Retryable(TryFetch(ReplyTo(server, splitterPath, params, j)))
    requires ReplyTo(server, splitterPath, params, k).Responded?
    requires ReplyTo(server, splitterPath, params, k).status == 200
    requires ReplyTo(server, splitterPath, params, k).body.Decoded?
    ensures var r := FetchTestPlan(splitterPath, params, server);
      r.plan == ReplyTo(server, splitterPath, params, k).body.plan && r.err.None? && r.attempts == k + 1
  {
    var r, req := FetchTestPlan(splitterPath, params, server), PlanRequest(splitterPath, params);
    var last: nat := r.attempts - 1;
    assert r.sent[last] == req;
    assert last < k ==> Retryable(TryFetch(ReplyTo(server, splitterPath, params, last)));
    assert r.sent[k] == req;
    assert !Retryable(TryFetch(server(r.sent[k], k)));
  }

  /** The rendered text of the limit error over a 503 reply. */
  lemma LimitErrorMessage()
    ensures Message(RetryLimitExceeded(ServerResponse(503))) == "retry limit exceeded: server response: 503"
  {
  }
}
