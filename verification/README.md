# test-engine-client core, modelled in Dafny

This project models the core of the test-engine-client (test splitter) in Dafny.
The client asks the test-splitting service for a plan that spreads a suite's test
files over parallel workers, runs this worker's share, and retries failing tests.
The model covers four parts:

- **Plan acquisition** (`Acquisition`, `Plan`): `fetchOrCreateTestPlan` in `main.go`.
  It reads the service's cache, asks the service to create a plan on a miss, and
  falls back to a locally built plan when creation ran past its deadline or the
  service answered with an error plan (a plan without tasks).
- **Execution supervision** (`Supervisor`, `Decimal`): the rest of `main`.
  - It selects this worker's task under the decimal key of its node index.
  - It dispatches the exit code after the primary run.
  - `retryFailedTests` is the bounded retry loop.
- **Plan fetching with retries** (`FetchPlan`): `internal/api/fetch_plan.go`.
  - A single attempt classifies the HTTP status: 4xx is an invalid request and 5xx is a server error. Any other status has its body read and decoded, and the attempt succeeds when the body decodes.
  - The retrier makes at most five attempts and stops at once on an invalid request.
  - An error on the fifth attempt is wrapped in `ErrRetryLimitExceeded`.
- **Jest command building** (`Jest`, `JestCases`, `ShellQuote`, `Text`): what
  `internal/runner/jest_test.go` pins down.
  - `NewJest` defaults.
  - `commandNameAndArgs`: split the template, put the test paths in place of `{{testExamples}}` (or append them), and put the result path in place of `{{outputFile}}`.
  - `retryCommandNameAndArgs`: refuse a template without `{{testNamePattern}}`; otherwise substitute the name pattern (the failed names joined by vertical bars, in parentheses) and the result path, then split.

Network replies, process outcomes and the fallback planner are inputs of the model:
- The plan service as a function `Server` from a request and an attempt index to the exchange of that attempt.
- A sequence of run outcomes `nat -> RunOutcome`.
- The cache's reply as a function of the suite slug and identifier it is read with, and the creation reply as a function of the request sent.
- A function parameter for `plan.CreateFallbackPlan`.

Shell word splitting follows the go-shellquote `Split` rules:
- Space, tab and newline separate words.
- Single quotes keep their contents literally.
- Double quotes honour backslash only before `$`, backquote, `"`, backslash and newline.
- A backslash outside quotes escapes the next character.

`ShellQuote.Join` quotes words so that `Split` gives them back. It is the partner
that the command lemmas are proved through.

The Jest test cases are stated over the tests' literal templates. Each is proved
in two steps. First, the template text is shown to be the join of its words, one
word at a time, each step resting on a fact about concatenating two string
literals that `TemplateText` states on its own. Then the general command lemma is
applied to those words.

## Model

| member | source | states |
|---|---|---|
| Decimal.NatToString | main.go:65 | the decimal key of a node index is non-empty, all digits, and has no leading zero |
| Decimal.DigitsRoundTrip | main.go:65 | reading back the digits of a natural number gives that number |
| Decimal.ItoaRoundTrip | main.go:65 | the `strconv.Itoa` key of any node index parses back to that index |
| Decimal.ItoaInjective | main.go:65 | two node indexes have the same task key exactly when they are equal |
| Plan.PathsOfCases | main.go:191-196 | turning files into test cases and reading their paths gives back the files, in order |
| Acquisition.CreateParams | main.go:191-205 | the creation request carries the mode, identifier and parallelism of the configuration and one test case per discovered file, in order |
| Acquisition.FetchOrCreate | main.go:172-226 | the cache is read for the configured suite slug and identifier; a cache error is returned with no request sent; a cached plan, even an empty one, is returned as it is; on a miss exactly one request is sent, for the configured suite; a non-deadline error in the reply to it is returned; a deadline or an error plan gives the fallback plan built from the files and the parallelism; a real created plan is returned unchanged |
| Acquisition.NoErrorPlanFromCreation | main.go:218-223 | a successful acquisition returns the cached plan, the fallback plan, or a plan with at least one task |
| Acquisition.FailsExactly | main.go:182-212 | acquisition fails if and only if the cache read failed or creation failed for a reason other than its deadline; a creation request is sent if and only if the cache missed |
| Acquisition.OnlyTheConfiguredSuiteMatters | main.go:180-205 | the outcome depends only on the cache entry of the configured suite slug and identifier and on the reply to the one creation request sent |
| Supervisor.NodeTests | main.go:64-71 | the worker runs the paths of the task under its decimal node index, in order, and nothing when the plan has no such task |
| Supervisor.WorkersReadDistinctTasks | main.go:64-71 | distinct node indexes have distinct task keys, so storing a task under one worker's key leaves another worker's tests unchanged |
| Supervisor.RunsMadeUnique | main.go:131-162 | the number of retry runs is determined by the run outcomes and the bound |
| Supervisor.RetryFailedTests | main.go:131-162 | the loop makes no run when retries are disabled and otherwise between one and `maxRetries` runs; every run but the last failed; it stops early only on a clean exit (returning 0) or a launch failure (the process exits 16); an exit code on the last permitted run is returned; anything else returns 1 |
| Supervisor.MainExit | main.go:109-125 | plan, command and start failures and non-exit wait errors end with 16 and no retries; a clean primary run ends with 0; with retries disabled the framework's exit code is propagated; otherwise the retry loop's code is the exit code, and retries happen only then |
| Supervisor.PassOnSecondRetry | main.go:147-159 | with two retries allowed, a failing then a passing retry make exactly two retry runs and exit 0 |
| Supervisor.ExhaustedRetriesPropagateLastCode | main.go:149-154 | when every retry run exits with a code, all `maxRetries` runs are made and the last run's code is returned |
| FetchPlan.EveryAttemptPostsThePlanRequest | internal/api/fetch_plan.go:54-92 | every request the fetch sends is a POST of JSON to the splitter path followed by `/test-splitting/plan`, with the plan parameters as its body |
| FetchPlan.TryFetch | internal/api/fetch_plan.go:75-127 | a failed attempt carries the zero plan; an attempt succeeds exactly when a response outside 400-599 has a decodable body, which is returned; only a 4xx is an invalid request; a 5xx is a plain server-response error |
| FetchPlan.RetryFrom | internal/api/fetch_plan.go:54-66 | the retrier sends the same request once per attempt, keeps trying while attempts fail retryably, never beyond the fifth, and returns the last attempt |
| FetchPlan.FetchTestPlan | internal/api/fetch_plan.go:40-72 | one to five attempts, each sending the plan request built from the splitter path and parameters, and each judged by the server's reply to it; every attempt but the last failed retryably; it stops early only on success or an invalid request; the last attempt's plan is returned; its error is wrapped in the limit error exactly when the fifth attempt failed |
| FetchPlan.InvalidRequestIsNotRetried | internal/api/fetch_plan.go:59-66 | a 4xx on the first attempt ends fetching at once with the unwrapped invalid-request error |
| FetchPlan.SustainedServerErrors | internal/api/fetch_plan.go:68-70 | five 5xx replies use every attempt and end in the limit error wrapping the last server error |
| FetchPlan.InvalidRequestOnLastAttemptIsWrapped | internal/api/fetch_plan.go:62-70 | after four retryable failures, a 4xx on the fifth attempt is still wrapped, so the error is both a limit error and an invalid request |
| FetchPlan.FirstSuccessIsReturned | internal/api/fetch_plan.go:59-66 | after any retryable failures, whatever their kind, the first decodable 200 reply's plan is returned, with no error, on that attempt |
| FetchPlan.NestedMessage | internal/api/fetch_plan.go:18-69 | an error wrapped in the limit error any number of times reads as "retry limit exceeded: " once per wrapper followed by the innermost error's text, and it is an invalid request exactly when the innermost error is one |
| FetchPlan.MessageHead | internal/api/fetch_plan.go:69-123 | each kind of error's text starts with its own context, so its first three characters name the kind |
| FetchPlan.MessageInjective | internal/api/fetch_plan.go:69-123 | two errors read the same if and only if they are the same error: kind, wrapped text and status all show in the text |
| FetchPlan.LimitErrorMessage | internal/api/fetch_plan.go:68-70 | the limit error over a 503 reads "retry limit exceeded: server response: 503" |
| ShellQuote.SplitJoin | internal/runner/jest_test.go:248-272 | splitting a quoted join gives back exactly the joined words, whatever characters they contain |
| ShellQuote.SplitQuotedBetween | internal/runner/jest_test.go:248-272 | a single-quoted text without single quotes between plain words is split as one word |
| ShellQuote.UnclosedSingleQuote | internal/runner/jest_test.go:222-245 | an opened single quote that is never closed is the unterminated-single-quote error |
| Jest.NewJest | internal/runner/jest_test.go:14-52 | every empty template or pattern takes its default, every set one is kept, and the result path is untouched |
| Jest.NewJestDefaults | internal/runner/jest_test.go:19-28 | an empty configuration gets exactly the four defaults of the test |
| Jest.NewJestKeepsCustom | internal/runner/jest_test.go:29-43 | the test's fully set configuration is kept as it is |
| Jest.NewJestIdempotent | internal/runner/jest_test.go:14-52 | filling in defaults a second time changes nothing |
| Jest.CommandNameAndArgs | internal/runner/jest_test.go:222-245 | a template that fails to split yields the splitter's error with no name and no arguments; any error comes with no name and no arguments |
| Jest.InterpolateAtPlaceholder | internal/runner/jest_test.go:168-192 | for words with neither placeholder before the first `{{testExamples}}`, and for test paths and words between the two placeholders that are not `{{outputFile}}`: each test path becomes one word in place of `{{testExamples}}`, and the result path replaces the `{{outputFile}}` that follows |
| Jest.InterpolateAppending | internal/runner/jest_test.go:195-219 | without `{{testExamples}}` the paths follow all the words, and the result path replaces `{{outputFile}}` |
| Jest.CommandOfTemplate | internal/runner/jest_test.go:168-219 | for any words, quoted and joined into a template, the command is built from exactly those words |
| Jest.PathsReplacePlaceholder | internal/runner/jest_test.go:168-192 | for a template with `{{testExamples}}` and a later `{{outputFile}}`, whatever characters its words hold, the first word is the command name, each test path is exactly one argument where the placeholder stood, and the result path is one argument where `{{outputFile}}` stood |
| Jest.PathsReplacePlaceholderWithoutOutput | internal/runner/jest_test.go:168-192 | for a template with `{{testExamples}}` and no `{{outputFile}}`, each test path is exactly one argument where the placeholder stood and every other word is kept |
| Jest.PathsAppended | internal/runner/jest_test.go:195-219 | for a template with `{{outputFile}}` but without `{{testExamples}}`, the result path is one argument in its place and the test paths are the last arguments, one each |
| Jest.PathsAppendedWithoutOutput | internal/runner/jest_test.go:195-219 | for a template with neither placeholder, such as `jest --json`, the words are kept and the test paths follow them, one argument each |
| Jest.UnclosedQuoteFails | internal/runner/jest_test.go:222-245 | a template of one or more plain words followed by a single quote that is never closed fails to split, with no name and no arguments, whatever the test paths |
| Jest.NamePattern | internal/runner/jest_test.go:249-265 | the name pattern is wrapped in parentheses |
| Jest.NamePatternRoundTrip | internal/runner/jest_test.go:249-265 | when no name contains a vertical bar, splitting the inside of the pattern at vertical bars gives back the names |
| Jest.NamePatternKeepsBars | internal/runner/jest_test.go:249-265 | a vertical bar inside a name is not escaped, so the one name "a", bar, "b" and the two names "a" and "b" give the same pattern |
| Jest.RetryCommandNameAndArgs | internal/runner/jest_test.go:275-302 | the command is refused with the missing-sentinel error if and only if the template lacks `{{testNamePattern}}`; errors come with no name and no arguments |
| Jest.ExpandRetryTemplate | internal/runner/jest_test.go:248-272 | in a retry template whose words before the quotes hold no placeholder, and whose later words (none, or any number) and failed names hold no `{{outputFile}}`, the name pattern lands between the quotes and the result path replaces the final `{{outputFile}}`; names may hold any other text, braces included |
| Jest.PatternIsOneArgument | internal/runner/jest_test.go:248-272 | the failed tests' name pattern reaches the runner as exactly one argument, however many spaces the names hold |
| JestCases.CommandWithPlaceholder | internal/runner/jest_test.go:168-192 | for the test's template "jest {{testExamples}} --outputFile {{outputFile}}": name "jest" and arguments the two spec paths, "--outputFile", "jest.json" |
| JestCases.CommandWithoutPlaceholder | internal/runner/jest_test.go:195-219 | for "jest --json --outputFile {{outputFile}}": name "jest" and arguments "--json", "--outputFile", "jest.json", then the two spec paths |
| JestCases.CommandUnterminatedQuote | internal/runner/jest_test.go:222-245 | for "jest --options '{{testExamples}}": empty name, no arguments, and the unterminated-single-quote error |
| JestCases.FailedNamesPattern | internal/runner/jest_test.go:249-265 | the two failed names, joined by a vertical bar and put in parentheses, give the pattern the test expects |
| JestCases.RetryHappyPath | internal/runner/jest_test.go:248-272 | for the test's retry template and its two failed names: name "jest" and arguments "--testNamePattern", "(this will fail\|this other one will fail)", "--json", "--testLocationInResults", "--outputFile", "jest.json" |
| JestCases.RetryMissingSentinel | internal/runner/jest_test.go:275-302 | the retry template "jest --json --outputFile {{outputFile}}", which lacks the sentinel, gives empty name, no arguments, and the message "couldn't find '{{testNamePattern}}' sentinel in retry command" |
| JestCases.DefaultCommand | internal/runner/jest_test.go:23 | for test paths none of which is `{{outputFile}}`, the default test command runs `yarn` with `test`, each test path as one argument, then the JSON flags and the result path |
| JestCases.DefaultRetryCommand | internal/runner/jest_test.go:26 | the default retry command runs `yarn test --testNamePattern` with the name pattern as one argument, then the JSON flags and the result path |

The doc comment of `fetchOrCreateTestPlan` (main.go:170-171) promises a fallback plan
"if the server is unavailable". Where it and the code differ, the model follows the code:
- A cached plan is returned even when it has no tasks. Only a plan from the creation request is replaced by the fallback when empty (main.go:186-188).
- An error from the cache read is fatal rather than a reason to fall back (main.go:182-184).
- Of the creation errors, only `context.DeadlineExceeded` leads to the fallback; every other error aborts (main.go:207-216).

## Left out

- The signal-forwarding goroutine (main.go:82-107, 127-128) is left out: it is concurrency. A forwarded SIGINT or SIGTERM changes how a run ends, and so its exit code; the model covers that because each run's outcome is an unconstrained input.
- Process start, wait and the console output of `fmt.Printf` and `logErrorAndExit` are left out. Each run is reduced to its outcome, and each exit to the code passed to `os.Exit`.
- The operating system keeps only the low 8 bits of an exit code, and `ExitCode()` is -1 for a process killed by a signal. The model passes codes through as integers.
- A failure to build the retry command (main.go:139-141) and a failure to start it (main.go:143-145) both exit 16. The model merges them into one `StartFailed` outcome.
- The 70-second and 15-second contexts, exponential backoff, jitter and the initial delay are left out: they are timing. The retrier's ending on a cancelled context is also left out.
- JSON encoding and decoding and HTTP are reduced to the `Exchange` outcomes of an attempt: encode, build or send failure, or a status with a readable, unparsable or decoded body.
- The API client's `FetchTestPlan` and `CreateTestPlan` methods that main.go calls are not part of this model. Their replies are the `cache` and `create` inputs, functions of what is sent.
- `plan.CreateFallbackPlan` is not part of this model. It is the `fallback` parameter, and nothing is assumed about it.
- jest.go is not part of this model. Its command building is inferred from the tests, and these choices are the model's own:
  - The primary command substitutes after splitting.
  - The retry command substitutes before splitting.
  - Only the first occurrence of each placeholder is replaced.
  - `{{testExamples}}` is replaced before `{{outputFile}}`, so a test path that is itself `{{outputFile}}` would take the result path.
  - A template and test paths that together give no words are the `NoWords` error (the Go code would index an empty slice). Its text, "empty command", is the model's own: the Go code has no such message.
- The go-shellquote library is not part of this model. Its `Split` is modelled from the library's quoting rules.
- The roko retrier is not part of this model. It is taken to count every callback as an attempt, and to stop on success, on `Break`, or at the attempt limit.
- `TestJestRun*` (internal/runner/jest_test.go:54-166) run real processes and are left out.
- Configuration reading, flags, version output, test-file discovery and the RSpec runner used by `main` are left out: they are I/O or outside the core.
- Jest.PathsReplacePlaceholder: stated for templates written as the quoted join of their words with at least one word, and neither placeholder, before the first `{{testExamples}}` and `{{outputFile}}` after it, and for test paths and words between the two placeholders that are not themselves `{{outputFile}}`. `PathsReplacePlaceholderWithoutOutput` covers templates without `{{outputFile}}`; a template with `{{outputFile}}` before `{{testExamples}}` is not covered.
- Jest.PathsAppended: stated for templates written as the quoted join of their words with at least one word, and neither placeholder, before the first `{{outputFile}}`, and no `{{testExamples}}` after it. `PathsAppendedWithoutOutput` covers templates with neither placeholder, for test paths that are not `{{outputFile}}`.
- Jest.ExpandRetryTemplate: stated for templates whose words before the quotes hold neither `{{testNamePattern}}` nor `{{outputFile}}`, and whose later words and failed names hold no `{{outputFile}}`. The substitutions replace the first occurrence of each placeholder anywhere in the text, so such a word or name would take the substitution instead.
- Jest.PatternIsOneArgument: stated for retry templates of plain words, with at least one word before the quoted pattern and `{{outputFile}}` as the last word; for the placeholder conditions of `ExpandRetryTemplate`; for names without `'`; and for a result path that needs no quoting. The retry command substitutes before splitting, so a result path with spaces or quotes would be split again, and a name with a single quote would end the quoted pattern early.
- JestCases.DefaultRetryCommand: stated for names without `'` or `{{outputFile}}` and a result path that needs no quoting, for the reasons given for `Jest.PatternIsOneArgument`.
