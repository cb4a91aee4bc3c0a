/** The Jest runner's configuration defaults and command building, as the tests in
    internal/runner/jest_test.go pin them down: `NewJest`, `commandNameAndArgs` and
    `retryCommandNameAndArgs`. */
module Jest {
  import opened Results
  import opened Text
  import ShellQuote

  const TestExamplesPlaceholder := "{{testExamples}}"
  const OutputFilePlaceholder := "{{outputFile}}"
  const TestNamePatternPlaceholder := "{{testNamePattern}}"

  const DefaultTestCommand := "yarn test {{testExamples}} --json --testLocationInResults --outputFile {{outputFile}}"
  const DefaultTestFilePattern := "**/{__tests__/**/*,*.spec,*.test}.{ts,js,tsx,jsx}"
  const DefaultTestFileExcludePattern := "node_modules"
  const DefaultRetryTestCommand := "yarn test --testNamePattern '{{testNamePattern}}' --json --testLocationInResults --outputFile {{outputFile}}"

  datatype RunnerConfig = RunnerConfig(
    testCommand: string,
    testFilePattern: string,
    testFileExcludePattern: string,
    retryTestCommand: string,
    resultPath: string)

  function OrDefault(value: string, default: string): string {
    if value == "" then default else value
  }

  /** `NewJest`: every empty template or pattern takes its default; the result path is
      left alone. */
  function NewJest(c: RunnerConfig): (r: RunnerConfig)
    ensures r.resultPath == c.resultPath
    ensures r.testCommand != "" && r.testFilePattern != "" && r.testFileExcludePattern != "" && r.retryTestCommand != ""
    ensures c.testCommand != "" ==> r.testCommand == c.testCommand
    ensures c.testFilePattern != "" ==> r.testFilePattern == c.testFilePattern
    ensures c.testFileExcludePattern != "" ==> r.testFileExcludePattern == c.testFileExcludePattern
    ensures c.retryTestCommand != "" ==> r.retryTestCommand == c.retryTestCommand
    ensures c.testCommand == "" ==> r.testCommand == DefaultTestCommand
    ensures c.testFilePattern == "" ==> r.testFilePattern == DefaultTestFilePattern
    ensures c.testFileExcludePattern == "" ==> r.testFileExcludePattern == DefaultTestFileExcludePattern
    ensures c.retryTestCommand == "" ==> r.retryTestCommand == DefaultRetryTestCommand
  {
    RunnerConfig(
      OrDefault(c.testCommand, DefaultTestCommand),
      OrDefault(c.testFilePattern, DefaultTestFilePattern),
      OrDefault(c.testFileExcludePattern, DefaultTestFileExcludePattern),
      OrDefault(c.retryTestCommand, DefaultRetryTestCommand),
      c.resultPath)
  }

  /** Filling defaults twice changes nothing more. */
  lemma NewJestIdempotent(c: RunnerConfig)
    ensures NewJest(NewJest(c)) == NewJest(c)
  {
  }

  /** An all-empty configuration gets exactly the four defaults and no result path. */
  lemma NewJestDefaults()
    ensures NewJest(RunnerConfig("", "", "", "", "")) == RunnerConfig(
      "yarn test {{testExamples}} --json --testLocationInResults --outputFile {{outputFile}}",
      "**/{__tests__/**/*,*.spec,*.test}.{ts,js,tsx,jsx}",
      "node_modules",
      "yarn test --testNamePattern '{{testNamePattern}}' --json --testLocationInResults --outputFile {{outputFile}}",
      "")
  {
  }

  /** A configuration with all four fields set is kept as it is. */
  lemma NewJestKeepsCustom()
    ensures var c := RunnerConfig(
      "npx jest --json --outputFile {{outputFile}}",
      "spec/models/**/*.spec.js",
      "spec/features/**/*.spec.js",
      "yarn test --testNamePattern '{{testNamePattern}}' --json --testLocationInResults --outputFile {{outputFile}}",
      "");
      NewJest(c) == c
  {
  }

  /** Why a command could not be built. `NoWords` is a template and test paths that
      together give no words, where the Go code would index an empty slice. */
  datatype CommandError = SplitFailed(cause: ShellQuote.SplitError) | MissingTestNamePattern | NoWords

  function ErrorText(e: CommandError): string {
    match e
    case SplitFailed(cause) => ShellQuote.ErrorText(cause)
    case MissingTestNamePattern => "couldn't find '{{testNamePattern}}' sentinel in retry command"
    case NoWords => "empty command"
  }

  /** A `(name, args, error)` triple. */
  datatype Invocation = Invocation(name: string, args: seq<string>, err: Option<CommandError>)

  /** What a failure returns: no name, no arguments, and the error. */
  function Failed(e: CommandError): (r: Invocation)
    ensures r.name == "" && r.args == [] && r.err == Some(e)
  {
    Invocation("", [], Some(e))
  }

  /** A non-empty word list as command name and arguments. */
  function NameAndArgs(words: seq<string>): (r: Invocation)
    ensures r.err.None? <==> |words| > 0
    ensures |words| > 0 ==> [r.name] + r.args == words
  {
    if |words| == 0 then Failed(NoWords) else Invocation(words[0], words[1..], None)
  }

  /** The test paths go in place of the first `{{testExamples}}` word, or after all
      words when there is none; then the first `{{outputFile}}` word becomes the
      result path. */
  function Interpolate(words: seq<string>, testCases: seq<string>, resultPath: string): seq<string> {
    var withTests :=
      if TestExamplesPlaceholder in words then ReplaceToken(words, TestExamplesPlaceholder, testCases)
      else words + testCases;
    ReplaceToken(withTests, OutputFilePlaceholder, [resultPath])
  }

  /** `commandNameAndArgs`: split the template into words, then interpolate. */
  function CommandNameAndArgs(cfg: RunnerConfig, cmd: string, testCases: seq<string>): (r: Invocation)
    ensures r.err.Some? ==> r.name == "" && r.args == []
    ensures ShellQuote.Split(cmd).Err? ==> r.err == Some(SplitFailed(ShellQuote.Split(cmd).error))
    ensures r.err.None? ==> ShellQuote.Split(cmd).Ok?
  {
    match ShellQuote.Split(cmd)
    case Err(e) => Failed(SplitFailed(e))
    case Ok(words) => NameAndArgs(Interpolate(words, testCases, cfg.resultPath))
  }

  /** The alternation of the failed test names: joined with `|`, in parentheses. */
  function NamePattern(names: seq<string>): (p: string)
    ensures |p| >= 2 && p[0] == '(' && p[|p| - 1] == ')'
  {
    "(" + Join(names, "|") + ")"
  }

  /** The failed names are recoverable from their pattern when none contains `|`:
      the inside of the parentheses splits at `|` into exactly those names. */
  lemma NamePatternRoundTrip(names: seq<string>)
    requires |names| >= 1
    requires Avoids(names, '|')
    ensures var p := NamePattern(names); SplitOn(p[1..|p| - 1], '|') == names
  {
    var p := NamePattern(names);
    assert p[1..|p| - 1] == Join(names, "|");
    assert forall i :: 0 <= i < |names| ==> '|' !in names[i];
    SplitJoin(names, '|');
  }

  /** A `|` inside a name is not escaped: one name "a|b" gives the same pattern as
      the two names "a" and "b". */
  lemma NamePatternKeepsBars()
    ensures NamePattern(["a|b"]) == NamePattern(["a", "b"])
  {
    assert Join(["a", "b"], "|") == "a|b";
  }

  /** `retryCommandNameAndArgs`: refuse a template without `{{testNamePattern}}`;
      otherwise put the name pattern in place of its first occurrence and the result
      path in place of the first `{{outputFile}}`, then split into words. */
  function RetryCommandNameAndArgs(cfg: RunnerConfig, cmd: string, testCases: seq<string>): (r: Invocation)
    ensures r.err.Some? ==> r.name == "" && r.args == []
    ensures r.err == Some(MissingTestNamePattern) <==> !Contains(cmd, TestNamePatternPlaceholder)
  {
    if !Contains(cmd, TestNamePatternPlaceholder) then Failed(MissingTestNamePattern)
    else
      var expanded := ReplaceFirst(ReplaceFirst(cmd, TestNamePatternPlaceholder, NamePattern(testCases)), OutputFilePlaceholder, cfg.resultPath);
      match ShellQuote.Split(expanded)
      case Err(e) => Failed(SplitFailed(e))
      case Ok(words) => NameAndArgs(words)
  }
  /** A template of plain words, written with single spaces. */
  predicate PlainWords(ws: seq<string>) {
    forall i :: 0 <= i < |ws| ==> ShellQuote.IsPlainWord(ws[i])
  }

  lemma TailOfConcat<T>(a: seq<T>, b: seq<T>)
    requires |a| >= 1
    ensures (a + b)[1..] == a[1..] + b
  {
  }

  /** Interpolation at a `{{testExamples}}` word: each path becomes exactly one word
      in its place, and the result path replaces the first `{{outputFile}}` word
      after it; everything else is kept in order. */
  lemma InterpolateAtPlaceholder(pre: seq<string>, mid: seq<string>, rest: seq<string>, paths: seq<string>, resultPath: string)
    requires TestExamplesPlaceholder !in pre
    requires OutputFilePlaceholder !in pre && OutputFilePlaceholder !in paths && OutputFilePlaceholder !in mid
    ensures Interpolate(pre + [TestExamplesPlaceholder] + mid + [OutputFilePlaceholder] + rest, paths, resultPath)
      == pre + paths + mid + [resultPath] + rest
  {
    var tail := mid + [OutputFilePlaceholder] + rest;
    assert pre + [TestExamplesPlaceholder] + mid + [OutputFilePlaceholder] + rest == pre + [TestExamplesPlaceholder] + tail;
    ReplaceTokenAfter(pre, TestExamplesPlaceholder, tail, paths);
    var front := pre + paths + mid;
    assert pre + paths + tail == front + [OutputFilePlaceholder] + rest;
    assert OutputFilePlaceholder !in front;
    ReplaceTokenAfter(front, OutputFilePlaceholder, rest, [resultPath]);
  }

  /** Interpolation at a `{{testExamples}}` word when there is no `{{outputFile}}`
      word: the paths take the placeholder's place and nothing else changes. */
  lemma InterpolateAtPlaceholderOnly(pre: seq<string>, rest: seq<string>, paths: seq<string>, resultPath: string)
    requires TestExamplesPlaceholder !in pre
    requires OutputFilePlaceholder !in pre && OutputFilePlaceholder !in paths && OutputFilePlaceholder !in rest
    ensures Interpolate(pre + [TestExamplesPlaceholder] + rest, paths, resultPath) == pre + paths + rest
  {
    ReplaceTokenAfter(pre, TestExamplesPlaceholder, rest, paths);
    assert OutputFilePlaceholder !in pre + paths + rest;
  }

  /** Interpolation without a `{{testExamples}}` word: the paths follow all the
      words, and the result path replaces the first `{{outputFile}}` word. */
  lemma InterpolateAppending(pre: seq<string>, rest: seq<string>, paths: seq<string>, resultPath: string)
    requires TestExamplesPlaceholder !in pre && TestExamplesPlaceholder !in rest
    requires OutputFilePlaceholder !in pre
    ensures Interpolate(pre + [OutputFilePlaceholder] + rest, paths, resultPath)
      == pre + [resultPath] + rest + paths
  {
    var ws := pre + [OutputFilePlaceholder] + rest;
    assert TestExamplesPlaceholder !in ws;
    assert ws + paths == pre + [OutputFilePlaceholder] + (rest + paths);
    ReplaceTokenAfter(pre, OutputFilePlaceholder, rest + paths, [resultPath]);
  }

  lemma PlaceholdersPlain()
    ensures ShellQuote.IsPlainWord(TestExamplesPlaceholder) && ShellQuote.IsPlainWord(OutputFilePlaceholder)
  {
  }

  lemma HeadAndTail(pre: seq<string>, more: seq<string>)
    requires |pre| >= 1
    ensures (pre + more)[0] == pre[0] && (pre + more)[1..] == pre[1..] + more
  {
  }

  /** Any template, written with each word quoted as it needs, splits back into its
      words, which are then interpolated: the command is never built from anything
      but the template's own words and the test paths. */
  lemma CommandOfTemplate(cfg: RunnerConfig, ws: seq<string>, paths: seq<string>)
    ensures CommandNameAndArgs(cfg, ShellQuote.Join(ws), paths) == NameAndArgs(Interpolate(ws, paths, cfg.resultPath))
  {
    ShellQuote.SplitJoin(ws);
  }

  /** A template with a `{{testExamples}}` word and a later `{{outputFile}}` word,
      whatever characters its words hold: the command is the first word, each test
      path is one argument in the placeholder's place, and the result path is one
      argument in place of `{{outputFile}}`. */
  lemma PathsReplacePlaceholder(cfg: RunnerConfig, pre: seq<string>, mid: seq<string>, rest: seq<string>, paths: seq<string>)
    requires |pre| >= 1
    requires TestExamplesPlaceholder !in pre
    requires OutputFilePlaceholder !in pre && OutputFilePlaceholder !in paths && OutputFilePlaceholder !in mid
    ensures CommandNameAndArgs(cfg, ShellQuote.Join(pre + [TestExamplesPlaceholder] + mid + [OutputFilePlaceholder] + rest), paths)
      == Invocation(pre[0], pre[1..] + paths + mid + [cfg.resultPath] + rest, None)
  {
    var ws := pre + [TestExamplesPlaceholder] + mid + [OutputFilePlaceholder] + rest;
    InterpolateAtPlaceholder(pre, mid, rest, paths, cfg.resultPath);
    var more := paths + mid + [cfg.resultPath] + rest;
    Regroup(pre, paths, mid);
    Regroup(pre, paths + mid, [cfg.resultPath]);
    Regroup(pre, paths + mid + [cfg.resultPath], rest);
    CommandOfTemplate(cfg, ws, paths);
    HeadAndTail(pre, more);
    Regroup(pre[1..], paths, mid);
    Regroup(pre[1..], paths + mid, [cfg.resultPath]);
    Regroup(pre[1..], paths + mid + [cfg.resultPath], rest);
  }

  /** A template with a `{{testExamples}}` word and no `{{outputFile}}` word: each
      test path is one argument in the placeholder's place. */
  lemma PathsReplacePlaceholderWithoutOutput(cfg: RunnerConfig, pre: seq<string>, rest: seq<string>, paths: seq<string>)
    requires |pre| >= 1
    requires TestExamplesPlaceholder !in pre
    requires OutputFilePlaceholder !in pre && OutputFilePlaceholder !in paths && OutputFilePlaceholder !in rest
    ensures CommandNameAndArgs(cfg, ShellQuote.Join(pre + [TestExamplesPlaceholder] + rest), paths)
      == Invocation(pre[0], pre[1..] + paths + rest, None)
  {
    var ws := pre + [TestExamplesPlaceholder] + rest;
    InterpolateAtPlaceholderOnly(pre, rest, paths, cfg.resultPath);
    CommandOfTemplate(cfg, ws, paths);
    HeadAndTail(pre, paths + rest);
    Regroup(pre, paths, rest);
  }

  /** A template without a `{{testExamples}}` word: the result path is one argument
      in place of the first `{{outputFile}}` word, and the test paths are the last
      arguments, one each. */
  lemma PathsAppended(cfg: RunnerConfig, pre: seq<string>, rest: seq<string>, paths: seq<string>)
    requires |pre| >= 1
    requires TestExamplesPlaceholder !in pre && TestExamplesPlaceholder !in rest
    requires OutputFilePlaceholder !in pre
    ensures CommandNameAndArgs(cfg, ShellQuote.Join(pre + [OutputFilePlaceholder] + rest), paths)
      == Invocation(pre[0], pre[1..] + [cfg.resultPath] + rest + paths, None)
  {
    var ws := pre + [OutputFilePlaceholder] + rest;
    InterpolateAppending(pre, rest, paths, cfg.resultPath);
    var more := [cfg.resultPath] + rest + paths;
    Regroup(pre, [cfg.resultPath], rest);
    Regroup(pre, [cfg.resultPath] + rest, paths);
    CommandOfTemplate(cfg, ws, paths);
    HeadAndTail(pre, more);
    Regroup(pre[1..], [cfg.resultPath], rest);
    Regroup(pre[1..], [cfg.resultPath] + rest, paths);
  }

  /** A template with neither placeholder, such as `jest --json`: its words come
      first and the test paths follow, one argument each. */
  lemma PathsAppendedWithoutOutput(cfg: RunnerConfig, ws: seq<string>, paths: seq<string>)
    requires |ws| >= 1
    requires TestExamplesPlaceholder !in ws && OutputFilePlaceholder !in ws && OutputFilePlaceholder !in paths
    ensures CommandNameAndArgs(cfg, ShellQuote.Join(ws), paths) == Invocation(ws[0], ws[1..] + paths, None)
  {
    assert OutputFilePlaceholder !in ws + paths;
    assert Interpolate(ws, paths, cfg.resultPath) == ws + paths;
    CommandOfTemplate(cfg, ws, paths);
    HeadAndTail(ws, paths);
  }

  /** A template whose last single quote is never closed fails to split, whatever
      the test paths. */
  lemma UnclosedQuoteFails(cfg: RunnerConfig, pre: seq<string>, rest: string, paths: seq<string>)
    requires |pre| >= 1 && PlainWords(pre)
    requires '\'' !in rest
    ensures CommandNameAndArgs(cfg, Join(pre, " ") + " " + ("'" + rest), paths)
      == Failed(SplitFailed(ShellQuote.UnterminatedSingleQuote))
  {
    ShellQuote.SplitPlainThen(pre, "'" + rest, []);
    ShellQuote.QuoteOpensWord(rest, [] + pre);
    ShellQuote.UnclosedSingleQuote(rest, "", [] + pre);
  }

  /** A retry template of plain words with a single-quoted `{{testNamePattern}}`
      among them and `{{outputFile}}` as its last word. */
  function RetryTemplate(pre: seq<string>, mid: seq<string>): string {
    (Join(pre, " ") + " '") + TestNamePatternPlaceholder + ("' " + Join(mid + [OutputFilePlaceholder], " "))
  }

  /** No word contains the character. */
  predicate Avoids(ws: seq<string>, c: char) {
    forall i :: 0 <= i < |ws| ==> c !in ws[i]
  }

  /** Neither placeholder has a space, a quote, a bar or a parenthesis, and both
      start with `{`. */
  lemma PlaceholderCharacters()
    ensures |TestNamePatternPlaceholder| > 0 && TestNamePatternPlaceholder[0] == '{'
    ensures |OutputFilePlaceholder| > 0 && OutputFilePlaceholder[0] == '{'
    ensures Disjoint(" ", TestNamePatternPlaceholder) && Disjoint(" '", TestNamePatternPlaceholder)
    ensures Disjoint(" ", OutputFilePlaceholder) && Disjoint(" '", OutputFilePlaceholder) && Disjoint("' ", OutputFilePlaceholder)
    ensures Disjoint("|", OutputFilePlaceholder) && Disjoint("(", OutputFilePlaceholder) && Disjoint(")", OutputFilePlaceholder)
  {
  }

  /** Words without `{` contain no placeholder. */
  lemma NoBraceNoPlaceholder(ws: seq<string>)
    requires Avoids(ws, '{')
    ensures NoneContains(ws, TestNamePatternPlaceholder) && NoneContains(ws, OutputFilePlaceholder)
  {
    PlaceholderCharacters();
    forall i | 0 <= i < |ws|
      ensures !Contains(ws[i], TestNamePatternPlaceholder) && !Contains(ws[i], OutputFilePlaceholder)
    {
      assert ws[i] + "" == ws[i];
      AbsentAfterPrefix(ws[i], TestNamePatternPlaceholder, "");
      AbsentAfterPrefix(ws[i], OutputFilePlaceholder, "");
    }
  }

  /** The name pattern contains `{{outputFile}}` only if a name does: the bars and
      parentheses it adds cannot complete one. */
  lemma PatternWithoutOutput(names: seq<string>)
    requires NoneContains(names, OutputFilePlaceholder)
    ensures !Contains(NamePattern(names), OutputFilePlaceholder)
  {
    PlaceholderCharacters();
    var j := Join(names, "|");
    AbsentInJoin(names, "|", OutputFilePlaceholder);
    AbsentAcross("", "(", j, OutputFilePlaceholder);
    AbsentAcross("" + "(" + j, ")", "", OutputFilePlaceholder);
    assert "" + "(" + j + ")" + "" == NamePattern(names);
  }

  /** The name pattern replaces the `{{testNamePattern}}` between the quotes, when no
      word before it holds that placeholder. */
  lemma SubstituteNamePattern(pre: seq<string>, mid: seq<string>, p: string)
    requires NoneContains(pre, TestNamePatternPlaceholder)
    ensures Contains(RetryTemplate(pre, mid), TestNamePatternPlaceholder)
    ensures ReplaceFirst(RetryTemplate(pre, mid), TestNamePatternPlaceholder, p)
      == (Join(pre, " ") + " '") + p + ("' " + Join(mid + [OutputFilePlaceholder], " "))
  {
    PlaceholderCharacters();
    var b := "' " + Join(mid + [OutputFilePlaceholder], " ");
    AbsentInJoin(pre, " ", TestNamePatternPlaceholder);
    IndexAcross(Join(pre, " "), " '", TestNamePatternPlaceholder, b);
    ReplaceAcross(Join(pre, " "), " '", TestNamePatternPlaceholder, b, p);
  }

  lemma ShapeBeforeOutput(a: string, p: string, x: string, tail: string)
    ensures a + p + ("' " + (x + " " + tail)) == (a + p + "' " + x) + " " + tail + ""
  {
  }

  lemma ShapeAfterOutput(a: string, p: string, x: string, rp: string)
    ensures (a + p + "' " + x) + " " + rp + "" == a + p + ("' " + (x + " " + rp))
  {
  }

  /** The text before the final `{{outputFile}}` of an expanded retry template holds
      no `{{outputFile}}` when no word and no name does. */
  lemma NoOutputBeforeLast(pre: seq<string>, p: string, mid: seq<string>)
    requires NoneContains(pre, OutputFilePlaceholder) && NoneContains(mid, OutputFilePlaceholder)
    requires !Contains(p, OutputFilePlaceholder)
    ensures !Contains((Join(pre, " ") + " '") + p + "' " + Join(mid, " "), OutputFilePlaceholder)
  {
    PlaceholderCharacters();
    AbsentInJoin(pre, " ", OutputFilePlaceholder);
    AbsentInJoin(mid, " ", OutputFilePlaceholder);
    AbsentAcross(Join(pre, " "), " '", p, OutputFilePlaceholder);
    AbsentAcross(Join(pre, " ") + " '" + p, "' ", Join(mid, " "), OutputFilePlaceholder);
  }

  /** The result path replaces the `{{outputFile}}` that ends a retry template, when
      nothing before it holds that placeholder. */
  lemma SubstituteFinalOutput(pre: seq<string>, p: string, mid: seq<string>, resultPath: string)
    requires NoneContains(pre, OutputFilePlaceholder) && NoneContains(mid, OutputFilePlaceholder)
    requires !Contains(p, OutputFilePlaceholder)
    ensures ReplaceFirst((Join(pre, " ") + " '") + p + ("' " + Join(mid + [OutputFilePlaceholder], " ")), OutputFilePlaceholder, resultPath)
      == (Join(pre, " ") + " '") + p + ("' " + Join(mid + [resultPath], " "))
  {
    PlaceholderCharacters();
    var a := Join(pre, " ") + " '";
    if |mid| == 0 {
      // `{{outputFile}}` directly follows the closing quote.
      AbsentInJoin(pre, " ", OutputFilePlaceholder);
      AbsentAcross(Join(pre, " "), " '", p, OutputFilePlaceholder);
      assert mid + [OutputFilePlaceholder] == [OutputFilePlaceholder];
      assert mid + [resultPath] == [resultPath];
      ReplaceAcross(a + p, "' ", OutputFilePlaceholder, "", resultPath);
      assert a + p + ("' " + OutputFilePlaceholder) == a + p + "' " + OutputFilePlaceholder + "";
      assert a + p + "' " + resultPath + "" == a + p + ("' " + resultPath);
    } else {
      var x := Join(mid, " ");
      JoinSnoc(mid, OutputFilePlaceholder, " ");
      JoinSnoc(mid, resultPath, " ");
      NoOutputBeforeLast(pre, p, mid);
      ShapeBeforeOutput(a, p, x, OutputFilePlaceholder);
      ReplaceAcross(a + p + "' " + x, " ", OutputFilePlaceholder, "", resultPath);
      ShapeAfterOutput(a, p, x, resultPath);
    }
  }

  /** Both substitutions on a retry template: the name pattern lands between the
      quotes and the result path replaces the last word, as long as no word before
      the quotes holds a placeholder and no later word or failed name holds
      `{{outputFile}}`. */
  lemma ExpandRetryTemplate(pre: seq<string>, mid: seq<string>, names: seq<string>, resultPath: string)
    requires NoneContains(pre, TestNamePatternPlaceholder) && NoneContains(pre, OutputFilePlaceholder)
    requires NoneContains(mid, OutputFilePlaceholder) && NoneContains(names, OutputFilePlaceholder)
    ensures Contains(RetryTemplate(pre, mid), TestNamePatternPlaceholder)
    ensures ReplaceFirst(ReplaceFirst(RetryTemplate(pre, mid), TestNamePatternPlaceholder, NamePattern(names)), OutputFilePlaceholder, resultPath)
      == (Join(pre, " ") + " '") + NamePattern(names) + ("' " + Join(mid + [resultPath], " "))
  {
    var p := NamePattern(names);
    SubstituteNamePattern(pre, mid, p);
    PatternWithoutOutput(names);
    SubstituteFinalOutput(pre, p, mid, resultPath);
  }

  /** The name pattern of the failed tests reaches the test runner as exactly one
      argument, however many spaces the names hold, and the result path replaces
      the output placeholder. */
  lemma PatternIsOneArgument(cfg: RunnerConfig, pre: seq<string>, mid: seq<string>, names: seq<string>)
    requires |pre| >= 1
    requires PlainWords(pre) && PlainWords(mid) && ShellQuote.IsPlainWord(cfg.resultPath)
    requires NoneContains(pre, TestNamePatternPlaceholder) && NoneContains(pre, OutputFilePlaceholder)
    requires NoneContains(mid, OutputFilePlaceholder) && NoneContains(names, OutputFilePlaceholder)
    requires Avoids(names, '\'')
    ensures RetryCommandNameAndArgs(cfg, RetryTemplate(pre, mid), names)
      == Invocation(pre[0], pre[1..] + [NamePattern(names)] + mid + [cfg.resultPath], None)
  {
    var p := NamePattern(names);
    ExpandRetryTemplate(pre, mid, names, cfg.resultPath);
    NotInJoin('\'', names, "|");
    assert '\'' !in p;
    var post := mid + [cfg.resultPath];
    assert PlainWords(post);
    ShellQuote.SplitQuotedBetween(pre, p, post, Join(pre, " ") + " '", "' " + Join(post, " "));
    TailOfConcat(pre, [p] + mid + [cfg.resultPath]);
    Regroup(pre, [p], mid);
    Regroup(pre, [p] + mid, [cfg.resultPath]);
    Regroup(pre[1..], [p], mid);
    Regroup(pre[1..], [p] + mid, [cfg.resultPath]);
    assert pre + [p] + post == pre + [p] + mid + [cfg.resultPath];
  }
}
