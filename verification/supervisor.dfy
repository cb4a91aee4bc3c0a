/** Execution supervision in `main` and `retryFailedTests` (main.go): selecting this
    worker's tests from the plan, the bounded retry loop, and the exit code the
    process ends with. Each process run is replaced by its outcome; the k-th retry
    run (counting from 0) has outcome `run(k)`. */
module Supervisor {
  import opened Results
  import opened Plan
  import opened Decimal

  /** Exit code of `logErrorAndExit(16, ...)`: configuration, plan, command or start failure. */
  const InternalErrorCode := 16

  /** How one launch of a test command ended. `StartFailed` covers both a command that
      could not be built and a process that could not be started; `WaitError` is an
      error from waiting that is not an `exec.ExitError`. */
  datatype RunOutcome = CleanExit | ExitCode(code: int) | WaitError | StartFailed

  /** How `retryFailedTests` ends: it returns a code, or it terminates the whole
      process itself through `logErrorAndExit`. */
  datatype Stop = Return(code: int) | Exit(code: int)

  /** Outcomes that end the retry loop before its bound. */
  predicate EndsEarly(o: RunOutcome) {
    o.CleanExit? || o.StartFailed?
  }

  /** The tests this worker runs: the paths of the task stored under its index in
      decimal, in order; no task under that key means no tests. */
  function NodeTests(p: TestPlan, nodeIndex: int): (paths: seq<string>)
    ensures Itoa(nodeIndex) !in p.tasks ==> paths == []
    ensures Itoa(nodeIndex) in p.tasks ==>
      var tests := p.tasks[Itoa(nodeIndex)].tests;
      |paths| == |tests| && forall i :: 0 <= i < |tests| ==> paths[i] == tests[i].path
  {
    var key := Itoa(nodeIndex);
    if key in p.tasks then Paths(p.tasks[key].tests) else []
  }

  /** Two different workers never read the same task of a plan: their keys differ,
      so whatever is stored under one worker's key leaves the other's tests as they were. */
  lemma WorkersReadDistinctTasks(p: TestPlan, i: int, j: int, t: Task)
    requires i != j
    ensures Itoa(i) != Itoa(j)
    ensures NodeTests(p.(tasks := p.tasks[Itoa(j) := t]), i) == NodeTests(p, i)
  {
    ItoaInjective(i, j);
  }

  /** `attempts` is the number of retry runs the loop makes: none when retries are
      disabled, otherwise between 1 and `maxRetries`, every run but the last failed
      (and so was retried), and the loop stopped short of its bound only on a run
      that ended it early. */
  predicate RunsMade(run: nat -> RunOutcome, maxRetries: int, attempts: nat) {
    && (maxRetries <= 0 ==> attempts == 0)
    && (maxRetries > 0 ==> 1 <= attempts <= maxRetries)
    && (forall j :: 0 <= j < attempts - 1 ==> !EndsEarly(run(j)))
    && (0 < attempts < maxRetries ==> EndsEarly(run(attempts - 1)))
  }

  /** The exit code the last retry run leads to. */
  function FinalCode(last: RunOutcome): int {
    match last
    case CleanExit => 0
    case ExitCode(c) => c
    case WaitError => 1
    case StartFailed => InternalErrorCode
  }

  /** `RunsMade` pins the number of runs down: the loop has no freedom. */
  lemma RunsMadeUnique(run: nat -> RunOutcome, maxRetries: int, a: nat, b: nat)
    requires RunsMade(run, maxRetries, a) && RunsMade(run, maxRetries, b)
    ensures a == b
  {
  }

  /** `retryFailedTests` as written: at most `maxRetries` retry runs, stopping at the
      first clean exit (returning 0) or launch failure (the process exits 16); an exit
      code on the last permitted run is returned; anything else ends with 1. */
  method RetryFailedTests(maxRetries: int, run: nat -> RunOutcome) returns (r: Stop, attempts: nat)
    ensures RunsMade(run, maxRetries, attempts)
    ensures attempts == 0 ==> r == Return(1)
    ensures attempts > 0 && run(attempts - 1).StartFailed? ==> r == Exit(InternalErrorCode)
    ensures attempts > 0 && !run(attempts - 1).StartFailed? ==> r == Return(FinalCode(run(attempts - 1)))
  {
    var retries: nat := 0;
    while retries < maxRetries
      invariant maxRetries > 0 ==> retries <= maxRetries
      invariant maxRetries <= 0 ==> retries == 0
      invariant forall j :: 0 <= j < retries ==> !EndsEarly(run(j))
      invariant 0 < retries ==> run(retries - 1).WaitError? || (run(retries - 1).ExitCode? && retries < maxRetries)
      decreases maxRetries - retries
    {
      retries := retries + 1;
      match run(retries - 1)
      case StartFailed =>
        return Exit(InternalErrorCode), retries;
      case CleanExit =>
        return Return(0), retries;
      case ExitCode(c) =>
        if retries >= maxRetries {
          return Return(c), retries;
        }
      case WaitError =>
    }
    return Return(1), retries;
  }

  /** The exit-code logic of `main` once the plan is acquired and the primary run has
      ended: `retries` is the number of retry runs made. */
  method MainExit<E>(acquired: Result<TestPlan, E>, primary: RunOutcome, maxRetries: int, run: nat -> RunOutcome)
    returns (exitCode: int, retries: nat)
    // plan, command and start failures end the process with the internal code
    ensures acquired.Err? ==> exitCode == InternalErrorCode && retries == 0
    ensures acquired.Ok? && (primary.StartFailed? || primary.WaitError?) ==> exitCode == InternalErrorCode && retries == 0
    // a clean run never enters the retry loop
    ensures acquired.Ok? && primary.CleanExit? ==> exitCode == 0 && retries == 0
    // with retries disabled the framework's own exit code is propagated
    ensures acquired.Ok? && primary.ExitCode? && maxRetries == 0 ==> exitCode == primary.code && retries == 0
    // otherwise the retry loop decides
    ensures acquired.Ok? && primary.ExitCode? && maxRetries != 0 ==>
      && RunsMade(run, maxRetries, retries)
      && exitCode == (if retries == 0 then 1 else FinalCode(run(retries - 1)))
    ensures retries > 0 ==> acquired.Ok? && primary.ExitCode? && maxRetries > 0
  {
    if acquired.Err? {
      return InternalErrorCode, 0;
    }
    match primary
    case CleanExit =>
      return 0, 0;
    case ExitCode(c) =>
      if maxRetries == 0 {
        return c, 0;
      }
      var stop;
      stop, retries := RetryFailedTests(maxRetries, run);
      exitCode := stop.code;
    case _ =>
      return InternalErrorCode, 0;
  }

  /** A failing run followed by a failing and then a passing retry, with two retries
      allowed, makes exactly two retry runs and ends the build successfully. */
  lemma PassOnSecondRetry(run: nat -> RunOutcome, a: nat)
    requires run(0) == ExitCode(1) && run(1) == CleanExit
    requires RunsMade(run, 2, a)
    ensures a == 2 && FinalCode(run(a - 1)) == 0
  {
  }

  /** When every retry run exits with a code, all `maxRetries` runs are made and the
      last one's code is the result. */
  lemma ExhaustedRetriesPropagateLastCode(run: nat -> RunOutcome, maxRetries: int, a: nat)
    requires maxRetries > 0
    requires forall k: nat :: k < maxRetries ==> run(k).ExitCode?
    requires RunsMade(run, maxRetries, a)
    ensures a == maxRetries && FinalCode(run(a - 1)) == run(maxRetries - 1).code
  {
  }
}
