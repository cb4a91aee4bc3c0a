/** Plan acquisition as `fetchOrCreateTestPlan` performs it (main.go): read the
    service's cache, otherwise ask the service to create a plan, and fall back to a
    locally built plan when creation ran out of time or produced an error plan.

    The two network calls are replaced by the service's replies, given as inputs:
    `cache` answers a cache read for a suite slug and an identifier, and `create`
    answers a creation request. Whether a creation request was sent, and which, is
    part of the result. The local fallback planner is the parameter `fallback`;
    nothing is assumed about it. */
module Acquisition {
  import opened Results
  import opened Plan

  /** The configuration fields the acquisition reads. */
  datatype Config = Config(
    suiteSlug: string,
    identifier: string,
    mode: string,
    parallelism: int)

  /** Outcome of reading the cache: an error, a nil plan, or a plan. */
  datatype FetchReply<E> = FetchFailed(error: E) | NotCached | Cached(plan: TestPlan)

  /** Why plan creation failed: its context deadline passed, or anything else. */
  datatype CreateError<E> = DeadlineExceeded | OtherError(error: E)

  datatype CreateReply<E> = CreateFailed(cause: CreateError<E>) | Created(plan: TestPlan)

  /** A plan-creation request: the suite it is for and the plan parameters. */
  datatype CreateRequest = CreateRequest(suiteSlug: string, params: TestPlanParams)

  /** The returned plan or error, and the creation request if one was sent. */
  datatype Acquired<E> = Acquired(result: Result<TestPlan, E>, request: Option<CreateRequest>)

  /** The creation request built from the configuration and the discovered files. */
  function CreateParams(cfg: Config, files: seq<string>): (p: TestPlanParams)
    ensures p.mode == cfg.mode && p.identifier == cfg.identifier
    ensures p.parallelism == cfg.parallelism && p.suiteToken == ""
    ensures Paths(p.files) == files
  {
    PathsOfCases(files);
    TestPlanParams("", cfg.mode, cfg.identifier, cfg.parallelism, CasesOf(files))
  }

  function FetchOrCreate<E>(
    cfg: Config,
    files: seq<string>,
    cache: (string, string) -> FetchReply<E>,
    create: CreateRequest -> CreateReply<E>,
    fallback: (seq<TestCase>, int) -> TestPlan): (r: Acquired<E>)
    // The cache is read for the configured suite and identifier. An error is returned
    // as it is; nothing is created and no fallback is built.
    ensures var fetched := cache(cfg.suiteSlug, cfg.identifier);
      fetched.FetchFailed? ==> r == Acquired(Err(fetched.error), None)
    // A cached plan is returned unchanged, even an error plan.
    ensures var fetched := cache(cfg.suiteSlug, cfg.identifier);
      fetched.Cached? ==> r == Acquired(Ok(fetched.plan), None)
    // Otherwise exactly one creation request is sent, for the configured suite, carrying
    // one case per file.
    ensures cache(cfg.suiteSlug, cfg.identifier).NotCached? ==>
      r.request == Some(CreateRequest(cfg.suiteSlug, CreateParams(cfg, files)))
    ensures r.request.Some? ==> r.request.value.suiteSlug == cfg.suiteSlug
    ensures r.request.Some? ==> var sent := r.request.value.params.files;
      |sent| == |files| && forall i :: 0 <= i < |files| ==> sent[i] == TestCase(files[i])
    // Creation errors other than the deadline abort the acquisition.
    ensures r.request.Some? && create(r.request.value).CreateFailed? && create(r.request.value).cause.OtherError? ==>
      r.result == Err(create(r.request.value).cause.error)
    // A missed deadline, or an error plan from the service, yields the fallback plan.
    ensures r.request.Some? ==> var created := create(r.request.value);
      (created == CreateFailed(DeadlineExceeded) || (created.Created? && IsErrorPlan(created.plan))) ==>
      r.result == Ok(fallback(CasesOf(files), cfg.parallelism))
    // A real created plan is returned unchanged.
    ensures r.request.Some? ==> var created := create(r.request.value);
      created.Created? && !IsErrorPlan(created.plan) ==> r.result == Ok(created.plan)
  {
    match cache(cfg.suiteSlug, cfg.identifier)
    case FetchFailed(e) => Acquired(Err(e), None)
    case Cached(p) => Acquired(Ok(p), None)
    case NotCached =>
      var params := CreateParams(cfg, files);
      var request := CreateRequest(cfg.suiteSlug, params);
      var testCases := params.files;
      var outcome: Result<TestPlan, E> :=
        match create(request)
        case CreateFailed(OtherError(e)) => Err(e)
        case CreateFailed(DeadlineExceeded) => Ok(fallback(testCases, cfg.parallelism))
        case Created(p) => Ok(p);
      var result :=
        match outcome
        case Err(e) => Err(e)
        case Ok(p) => if IsErrorPlan(p) then Ok(fallback(testCases, cfg.parallelism)) else Ok(p);
      Acquired(result, Some(request))
  }

  /** The acquisition never yields an error plan of its own making: a plan that is
      neither the cached one nor the fallback has at least one task. */
  lemma NoErrorPlanFromCreation<E>(
    cfg: Config, files: seq<string>, cache: (string, string) -> FetchReply<E>,
    create: CreateRequest -> CreateReply<E>, fallback: (seq<TestCase>, int) -> TestPlan)
    requires FetchOrCreate(cfg, files, cache, create, fallback).result.Ok?
    ensures var r := FetchOrCreate(cfg, files, cache, create, fallback);
      cache(cfg.suiteSlug, cfg.identifier).Cached? || r.result.value == fallback(CasesOf(files), cfg.parallelism)
        || !IsErrorPlan(r.result.value)
  {
  }

  /** The acquisition fails exactly when the cache read failed or creation failed for a
      reason other than its deadline; a creation request is sent exactly on a cache miss. */
  lemma FailsExactly<E>(
    cfg: Config, files: seq<string>, cache: (string, string) -> FetchReply<E>,
    create: CreateRequest -> CreateReply<E>, fallback: (seq<TestCase>, int) -> TestPlan)
    ensures var r := FetchOrCreate(cfg, files, cache, create, fallback);
      var fetched := cache(cfg.suiteSlug, cfg.identifier);
      && (r.request.Some? <==> fetched.NotCached?)
      && (r.result.Err? <==>
            fetched.FetchFailed? || (fetched.NotCached? && create(r.request.value).CreateFailed? && create(r.request.value).cause.OtherError?))
  {
  }

  /** Only the configured suite's cache entry and the reply to the one request sent
      matter: services that agree on those give the same acquisition. */
  lemma OnlyTheConfiguredSuiteMatters<E>(
    cfg: Config, files: seq<string>,
    cache1: (string, string) -> FetchReply<E>, cache2: (string, string) -> FetchReply<E>,
    create1: CreateRequest -> CreateReply<E>, create2: CreateRequest -> CreateReply<E>,
    fallback: (seq<TestCase>, int) -> TestPlan)
    requires cache1(cfg.suiteSlug, cfg.identifier) == cache2(cfg.suiteSlug, cfg.identifier)
    requires var request := CreateRequest(cfg.suiteSlug, CreateParams(cfg, files));
      create1(request) == create2(request)
    ensures FetchOrCreate(cfg, files, cache1, create1, fallback) == FetchOrCreate(cfg, files, cache2, create2, fallback)
  {
  }
}
