/** The command-building cases of internal/runner/jest_test.go, each stated over the
    test's own template text and proved as an instance of a general lemma of `Jest`:
    the template is first shown to be the join of its words, and the general lemma
    is applied to those words. */
module JestCases {
  import opened Results
  import opened Text
  import opened Jest
  import TemplateText

  const UserSpec := "spec/user.spec.js"
  const BillingSpec := "spec/billing.spec.js"

  /** The words of "jest {{testExamples}} --outputFile {{outputFile}}". */
  const ExamplesTemplate := ["jest", "{{testExamples}}", "--outputFile", "{{outputFile}}"]

  /** The words of "jest --json --outputFile {{outputFile}}". */
  const JsonTemplate := ["jest", "--json", "--outputFile", "{{outputFile}}"]

  /** Letters, digits, `-` and `.`: the characters of the plain words of the templates. */
  predicate Tame(c: char) {
    ('a' <= c <= 'z') || ('A' <= c <= 'Z') || ('0' <= c <= '9') || c == '-' || c == '.'
  }

  lemma TameWord(w: string)
    requires |w| > 0 && forall i :: 0 <= i < |w| ==> Tame(w[i])
    ensures ShellQuote.IsPlainWord(w) && '{' !in w
  {
  }

  lemma TamePhrase(w: string)
    requires forall i :: 0 <= i < |w| ==> Tame(w[i]) || w[i] == ' '
    ensures '{' !in w && '\'' !in w
  {
  }

  /** One more word of a join whose text so far is known. */
  lemma JoinExtends(ws: seq<string>, k: nat, sep: string, before: string, after: string)
    requires 1 <= k < |ws|
    requires Join(ws[..k], sep) == before
    requires before + sep + ws[k] == after
    ensures Join(ws[..k + 1], sep) == after
  {
    JoinSnoc(ws[..k], ws[k], sep);
    assert ws[..k] + [ws[k]] == ws[..k + 1];
  }

  lemma JoinFirst(ws: seq<string>, sep: string)
    requires |ws| >= 1
    ensures Join(ws[..1], sep) == ws[0]
  {
  }

  lemma ExamplesTemplateText()
    ensures Join(ExamplesTemplate, " ") == "jest {{testExamples}} --outputFile {{outputFile}}"
  {
    var ws := ExamplesTemplate;
    JoinFirst(ws, " ");
    TemplateText.ExamplesThroughExamplesPlaceholder();
    JoinExtends(ws, 1, " ", "jest", "jest {{testExamples}}");
    TemplateText.ExamplesThroughOutputFileFlag();
    JoinExtends(ws, 2, " ", "jest {{testExamples}}", "jest {{testExamples}} --outputFile");
    TemplateText.ExamplesThroughOutputFilePlaceholder();
    JoinExtends(ws, 3, " ", "jest {{testExamples}} --outputFile", "jest {{testExamples}} --outputFile {{outputFile}}");
    assert ws[..4] == ws;
  }

  lemma JsonTemplateText()
    ensures Join(JsonTemplate, " ") == "jest --json --outputFile {{outputFile}}"
  {
    var ws := JsonTemplate;
    JoinFirst(ws, " ");
    TemplateText.JsonThroughJson();
    JoinExtends(ws, 1, " ", "jest", "jest --json");
    TemplateText.JsonThroughOutputFileFlag();
    JoinExtends(ws, 2, " ", "jest --json", "jest --json --outputFile");
    TemplateText.JsonThroughOutputFilePlaceholder();
    JoinExtends(ws, 3, " ", "jest --json --outputFile", "jest --json --outputFile {{outputFile}}");
    assert ws[..4] == ws;
  }

  /** A template of plain words is written the same with or without quoting. */
  lemma QuotedAsPlain(ws: seq<string>)
    requires PlainWords(ws)
    ensures ShellQuote.Join(ws) == Join(ws, " ")
  {
    ShellQuote.JoinPlain(ws);
  }

  lemma ExamplesTemplateWords()
    ensures ExamplesTemplate == ["jest"] + [TestExamplesPlaceholder] + ["--outputFile"] + [OutputFilePlaceholder] + []
    ensures PlainWords(ExamplesTemplate)
    ensures TestExamplesPlaceholder !in ["jest"] && OutputFilePlaceholder !in ["jest"]
    ensures OutputFilePlaceholder !in [UserSpec, BillingSpec] && OutputFilePlaceholder !in ["--outputFile"]
  {
    assert ExamplesTemplate == ["jest"] + [TestExamplesPlaceholder] + ["--outputFile"] + [OutputFilePlaceholder] + [];
    TameWord("jest");
    TameWord("--outputFile");
    PlaceholdersPlain();
  }

  lemma CommandWithPlaceholderWords()
    ensures CommandNameAndArgs(
      RunnerConfig(Join(ExamplesTemplate, " "), "", "", "", "jest.json"),
      Join(ExamplesTemplate, " "),
      [UserSpec, BillingSpec])
      == Invocation("jest", [UserSpec, BillingSpec, "--outputFile", "jest.json"], None)
  {
    var cfg := RunnerConfig(Join(ExamplesTemplate, " "), "", "", "", "jest.json");
    ExamplesTemplateWords();
    QuotedAsPlain(ExamplesTemplate);
    PathsReplacePlaceholder(cfg, ["jest"], ["--outputFile"], [], [UserSpec, BillingSpec]);
    ExamplesArguments();
  }

  /** jest_test.go:168-192: the two paths take the place of `{{testExamples}}`. */
  lemma CommandWithPlaceholder()
    ensures CommandNameAndArgs(
      RunnerConfig("jest {{testExamples}} --outputFile {{outputFile}}", "", "", "", "jest.json"),
      "jest {{testExamples}} --outputFile {{outputFile}}",
      ["spec/user.spec.js", "spec/billing.spec.js"])
      == Invocation("jest", ["spec/user.spec.js", "spec/billing.spec.js", "--outputFile", "jest.json"], None)
  {
    ExamplesTemplateText();
    CommandWithPlaceholderWords();
  }

  lemma ExamplesArguments()
    ensures ["jest"][1..] + [UserSpec, BillingSpec] + ["--outputFile"] + ["jest.json"] + []
      == [UserSpec, BillingSpec, "--outputFile", "jest.json"]
  {
  }

  lemma JsonTemplateWords()
    ensures JsonTemplate == ["jest", "--json", "--outputFile"] + [OutputFilePlaceholder] + []
    ensures PlainWords(JsonTemplate)
    ensures TestExamplesPlaceholder !in ["jest", "--json", "--outputFile"]
    ensures OutputFilePlaceholder !in ["jest", "--json", "--outputFile"]
  {
    TameWord("jest");
    TameWord("--json");
    TameWord("--outputFile");
    PlaceholdersPlain();
  }

  lemma CommandWithoutPlaceholderWords()
    ensures CommandNameAndArgs(
      RunnerConfig(Join(JsonTemplate, " "), "", "", "", "jest.json"),
      Join(JsonTemplate, " "),
      [UserSpec, BillingSpec])
      == Invocation("jest", ["--json", "--outputFile", "jest.json", UserSpec, BillingSpec], None)
  {
    var cfg := RunnerConfig(Join(JsonTemplate, " "), "", "", "", "jest.json");
    JsonTemplateWords();
    QuotedAsPlain(JsonTemplate);
    PathsAppended(cfg, ["jest", "--json", "--outputFile"], [], [UserSpec, BillingSpec]);
  }

  /** jest_test.go:195-219: without `{{testExamples}}` the paths come last. */
  lemma CommandWithoutPlaceholder()
    ensures CommandNameAndArgs(
      RunnerConfig("jest --json --outputFile {{outputFile}}", "", "", "", "jest.json"),
      "jest --json --outputFile {{outputFile}}",
      ["spec/user.spec.js", "spec/billing.spec.js"])
      == Invocation("jest", ["--json", "--outputFile", "jest.json", "spec/user.spec.js", "spec/billing.spec.js"], None)
  {
    JsonTemplateText();
    CommandWithoutPlaceholderWords();
  }

  lemma OptionsTemplateText()
    ensures Join(["jest", "--options"], " ") + " " + ("'" + "{{testExamples}}") == "jest --options '{{testExamples}}"
  {
    var ws := ["jest", "--options"];
    JoinFirst(ws, " ");
    TemplateText.OptionsThroughOptions();
    JoinExtends(ws, 1, " ", "jest", "jest --options");
    assert ws[..2] == ws;
    TemplateText.QuoteExamplesPlaceholder();
    TemplateText.OptionsThroughQuotedExamples();
  }

  lemma CommandUnterminatedQuoteWords()
    ensures CommandNameAndArgs(
      RunnerConfig(Join(["jest", "--options"], " ") + " " + ("'" + "{{testExamples}}"), "", "", "", ""),
      Join(["jest", "--options"], " ") + " " + ("'" + "{{testExamples}}"),
      [UserSpec, BillingSpec])
      == Invocation("", [], Some(SplitFailed(ShellQuote.UnterminatedSingleQuote)))
  {
    var cfg := RunnerConfig(Join(["jest", "--options"], " ") + " " + ("'" + "{{testExamples}}"), "", "", "", "");
    TameWord("jest");
    TameWord("--options");
    UnclosedQuoteFails(cfg, ["jest", "--options"], "{{testExamples}}", [UserSpec, BillingSpec]);
  }

  /** jest_test.go:222-245: an unclosed single quote is the splitter's error, with
      no command name and no arguments. */
  lemma CommandUnterminatedQuote()
    ensures CommandNameAndArgs(
      RunnerConfig("jest --options '{{testExamples}}", "", "", "", ""),
      "jest --options '{{testExamples}}",
      ["spec/user.spec.js", "spec/billing.spec.js"])
      == Invocation("", [], Some(SplitFailed(ShellQuote.UnterminatedSingleQuote)))
  {
    OptionsTemplateText();
    CommandUnterminatedQuoteWords();
  }

  const FailedNames := ["this will fail", "this other one will fail"]

  lemma FailedNamesJoined()
    ensures Join(FailedNames, "|") == "this will fail|this other one will fail"
  {
    JoinFirst(FailedNames, "|");
    TemplateText.FailedNamesThroughSecondName();
    JoinExtends(FailedNames, 1, "|", "this will fail", "this will fail|this other one will fail");
    assert FailedNames[..2] == FailedNames;
  }

  lemma FailedNamesPattern()
    ensures NamePattern(FailedNames) == "(this will fail|this other one will fail)"
  {
    var y := "this other one will fail";
    FailedNamesJoined();
    TemplateText.FailedNamesAppendSecondName();
    Regroup("(", "this will fail|", y);
    TemplateText.OpenParenFirstName();
    TemplateText.OpenParenFirstNameSecondName();
    TemplateText.CloseParen();
  }

  /** The words around the quoted pattern in the retry template of the test. */
  const RetryPre := ["jest", "--testNamePattern"]
  const RetryMid := ["--json", "--testLocationInResults", "--outputFile"]

  /** The retry template of the test cut at its spaces. */
  const RetryPieces := ["jest --testNamePattern '{{testNamePattern}}' --json", "--testLocationInResults", "--outputFile", "{{outputFile}}"]

  lemma RetryHeadText()
    ensures (Join(RetryPre, " ") + " '") + TestNamePatternPlaceholder == "jest --testNamePattern '{{testNamePattern}}"
  {
    JoinFirst(RetryPre, " ");
    TemplateText.RetryPreThroughNamePatternFlag();
    JoinExtends(RetryPre, 1, " ", "jest", "jest --testNamePattern");
    assert RetryPre[..2] == RetryPre;
    TemplateText.RetryHeadThroughPatternPlaceholder();
  }

  /** A retry template as the join of its space-separated pieces, the first of
      which runs from the start to the first word after the quoted placeholder. */
  lemma TemplateAsPieces(pre: seq<string>, mid: seq<string>, head: string)
    requires |mid| >= 1
    requires (Join(pre, " ") + " '") + TestNamePatternPlaceholder == head
    ensures RetryTemplate(pre, mid) == Join([head + ("' " + mid[0])] + mid[1..] + [OutputFilePlaceholder], " ")
  {
    var ws := mid + [OutputFilePlaceholder];
    PrefixJoin("' ", ws, " ");
    var us := ["' " + ws[0]] + ws[1..];
    PrefixJoin(head, us, " ");
    assert RetryTemplate(pre, mid) == head + ("' " + Join(ws, " "));
    assert us[0] == "' " + mid[0];
    assert us[1..] == mid[1..] + [OutputFilePlaceholder];
    assert [head + us[0]] + us[1..] == [head + ("' " + mid[0])] + mid[1..] + [OutputFilePlaceholder];
  }

  lemma RetryTemplatePieces()
    ensures RetryTemplate(RetryPre, RetryMid) == Join(RetryPieces, " ")
  {
    RetryHeadText();
    TemplateAsPieces(RetryPre, RetryMid, "jest --testNamePattern '{{testNamePattern}}");
    TemplateText.CloseQuoteJson();
    TemplateText.RetryHeadCloseQuoteJson();
    assert [RetryPieces[0]] + RetryMid[1..] + [OutputFilePlaceholder] == RetryPieces;
  }

  lemma RetryPiecesFront()
    ensures Join(RetryPieces[..2], " ") == "jest --testNamePattern '{{testNamePattern}}' --json --testLocationInResults"
  {
    var vs := RetryPieces;
    JoinFirst(vs, " ");
    TemplateText.RetryPiecesThroughLocationFlag();
    JoinExtends(vs, 1, " ", vs[0], "jest --testNamePattern '{{testNamePattern}}' --json --testLocationInResults");
  }

  lemma RetryPiecesBack()
    ensures Join(RetryPieces[..3], " ") == "jest --testNamePattern '{{testNamePattern}}' --json --testLocationInResults --outputFile"
  {
    RetryPiecesFront();
    TemplateText.RetryPiecesThroughOutputFileFlag();
    JoinExtends(RetryPieces, 2, " ", "jest --testNamePattern '{{testNamePattern}}' --json --testLocationInResults",
      "jest --testNamePattern '{{testNamePattern}}' --json --testLocationInResults --outputFile");
  }

  lemma RetryPiecesText()
    ensures Join(RetryPieces, " ")
      == "jest --testNamePattern '{{testNamePattern}}' --json --testLocationInResults --outputFile {{outputFile}}"
  {
    RetryPiecesBack();
    TemplateText.RetryPiecesThroughOutputFilePlaceholder();
    JoinExtends(RetryPieces, 3, " ", "jest --testNamePattern '{{testNamePattern}}' --json --testLocationInResults --outputFile",
      "jest --testNamePattern '{{testNamePattern}}' --json --testLocationInResults --outputFile {{outputFile}}");
    assert RetryPieces[..4] == RetryPieces;
  }

  lemma RetryTemplateText()
    ensures RetryTemplate(RetryPre, RetryMid)
      == "jest --testNamePattern '{{testNamePattern}}' --json --testLocationInResults --outputFile {{outputFile}}"
  {
    RetryTemplatePieces();
    RetryPiecesText();
  }

  lemma RetryPlainPre()
    ensures PlainWords(RetryPre) && Avoids(RetryPre, '{')
  {
    TameWord("jest");
    TameWord("--testNamePattern");
  }

  lemma RetryPlainMid()
    ensures PlainWords(RetryMid) && Avoids(RetryMid, '{') && ShellQuote.IsPlainWord("jest.json")
  {
    TameWord("--json");
    TameWord("--testLocationInResults");
    TameWord("--outputFile");
    TameWord("jest.json");
  }

  lemma FirstNameTame()
    ensures '{' !in FailedNames[0] && '\'' !in FailedNames[0]
  {
    TamePhrase("this will fail");
  }

  lemma SecondNameTame()
    ensures '{' !in FailedNames[1] && '\'' !in FailedNames[1]
  {
    TamePhrase("this other one will fail");
  }

  lemma FailedNamesTame()
    ensures Avoids(FailedNames, '{') && Avoids(FailedNames, '\'')
    ensures NoneContains(FailedNames, OutputFilePlaceholder)
  {
    FirstNameTame();
    SecondNameTame();
    NoBraceNoPlaceholder(FailedNames);
  }

  /** The arguments of a retry command whose template has two or three words before the
      quoted pattern, listed one by one. */
  lemma RetryArguments(pre: seq<string>, p: string, mid: seq<string>, rp: string)
    requires |mid| == 3
    ensures |pre| == 2 ==> pre[1..] + [p] + mid + [rp] == [pre[1], p, mid[0], mid[1], mid[2], rp]
    ensures |pre| == 3 ==> pre[1..] + [p] + mid + [rp] == [pre[1], pre[2], p, mid[0], mid[1], mid[2], rp]
  {
  }

  lemma RetryHappyPathWords()
    ensures RetryCommandNameAndArgs(
      RunnerConfig("", "", "", RetryTemplate(RetryPre, RetryMid), "jest.json"),
      RetryTemplate(RetryPre, RetryMid),
      FailedNames)
      == Invocation("jest", ["--testNamePattern", NamePattern(FailedNames), "--json", "--testLocationInResults", "--outputFile", "jest.json"], None)
  {
    var cfg := RunnerConfig("", "", "", RetryTemplate(RetryPre, RetryMid), "jest.json");
    RetryPlainPre();
    RetryPlainMid();
    FailedNamesTame();
    NoBraceNoPlaceholder(RetryPre);
    NoBraceNoPlaceholder(RetryMid);
    PatternIsOneArgument(cfg, RetryPre, RetryMid, FailedNames);
    RetryArguments(RetryPre, NamePattern(FailedNames), RetryMid, "jest.json");
  }

  /** jest_test.go:248-272: the alternation of the failed names is one argument. */
  lemma RetryHappyPath()
    ensures RetryCommandNameAndArgs(
      RunnerConfig("", "", "", "jest --testNamePattern '{{testNamePattern}}' --json --testLocationInResults --outputFile {{outputFile}}", "jest.json"),
      "jest --testNamePattern '{{testNamePattern}}' --json --testLocationInResults --outputFile {{outputFile}}",
      ["this will fail", "this other one will fail"])
      == Invocation("jest", ["--testNamePattern", "(this will fail|this other one will fail)", "--json", "--testLocationInResults", "--outputFile", "jest.json"], None)
  {
    RetryTemplateText();
    FailedNamesPattern();
    RetryHappyPathWords();
  }

  lemma RetryMissingSentinelWords()
    ensures RetryCommandNameAndArgs(
      RunnerConfig("", "", "", Join(JsonTemplate, " "), "jest.json"),
      Join(JsonTemplate, " "),
      FailedNames)
      == Invocation("", [], Some(MissingTestNamePattern))
    ensures ErrorText(MissingTestNamePattern) == "couldn't find '{{testNamePattern}}' sentinel in retry command"
  {
    var ws := JsonTemplate;
    JoinSnoc(ws[..3], ws[3], " ");
    assert ws[..3] + [ws[3]] == ws;
    NotInJoin('{', ws[..3], " ");
    AbsentAfterPrefix(Join(ws[..3], " ") + " ", TestNamePatternPlaceholder, OutputFilePlaceholder);
  }

  /** jest_test.go:275-302: a retry template without `{{testNamePattern}}` is
      refused with the test's message. */
  lemma RetryMissingSentinel()
    ensures RetryCommandNameAndArgs(
      RunnerConfig("", "", "", "jest --json --outputFile {{outputFile}}", "jest.json"),
      "jest --json --outputFile {{outputFile}}",
      ["this will fail", "this other one will fail"])
      == Invocation("", [], Some(MissingTestNamePattern))
    ensures ErrorText(MissingTestNamePattern) == "couldn't find '{{testNamePattern}}' sentinel in retry command"
  {
    JsonTemplateText();
    RetryMissingSentinelWords();
  }

  /** The words of the default test command. */
  const DefaultWords := ["yarn", "test", "{{testExamples}}", "--json", "--testLocationInResults", "--outputFile", "{{outputFile}}"]

  lemma DefaultWordsText2()
    ensures Join(DefaultWords[..2], " ") == "yarn test"
  {
    var ws := DefaultWords;
    JoinFirst(ws, " ");
    TemplateText.YarnTest();
    JoinExtends(ws, 1, " ", "yarn", "yarn test");
  }

  lemma DefaultWordsText3()
    ensures Join(DefaultWords[..3], " ") == "yarn test {{testExamples}}"
  {
    var ws := DefaultWords;
    DefaultWordsText2();
    TemplateText.DefaultThroughExamplesPlaceholder();
    JoinExtends(ws, 2, " ", "yarn test", "yarn test {{testExamples}}");
  }

  lemma DefaultWordsText4()
    ensures Join(DefaultWords[..4], " ") == "yarn test {{testExamples}} --json"
  {
    var ws := DefaultWords;
    DefaultWordsText3();
    TemplateText.DefaultThroughJson();
    JoinExtends(ws, 3, " ", "yarn test {{testExamples}}", "yarn test {{testExamples}} --json");
  }

  lemma DefaultWordsText5()
    ensures Join(DefaultWords[..5], " ") == "yarn test {{testExamples}} --json --testLocationInResults"
  {
    var ws := DefaultWords;
    DefaultWordsText4();
    TemplateText.DefaultThroughLocationFlag();
    JoinExtends(ws, 4, " ", "yarn test {{testExamples}} --json", "yarn test {{testExamples}} --json --testLocationInResults");
  }

  lemma DefaultWordsText6()
    ensures Join(DefaultWords[..6], " ") == "yarn test {{testExamples}} --json --testLocationInResults --outputFile"
  {
    var ws := DefaultWords;
    DefaultWordsText5();
    TemplateText.DefaultThroughOutputFileFlag();
    JoinExtends(ws, 5, " ", "yarn test {{testExamples}} --json --testLocationInResults", "yarn test {{testExamples}} --json --testLocationInResults --outputFile");
  }

  lemma DefaultWordsText()
    ensures Join(DefaultWords, " ") == "yarn test {{testExamples}} --json --testLocationInResults --outputFile {{outputFile}}"
  {
    var ws := DefaultWords;
    DefaultWordsText6();
    TemplateText.DefaultThroughOutputFilePlaceholder();
    JoinExtends(ws, 6, " ", "yarn test {{testExamples}} --json --testLocationInResults --outputFile", "yarn test {{testExamples}} --json --testLocationInResults --outputFile {{outputFile}}");
    assert ws[..7] == ws;
  }
  /** The default test command is the join of its words. */
  lemma DefaultCommandText()
    ensures Join(DefaultWords, " ") == DefaultTestCommand
  {
    DefaultWordsText();
  }

  lemma DefaultCommandWords(cfg: RunnerConfig, paths: seq<string>)
    requires OutputFilePlaceholder !in paths
    ensures CommandNameAndArgs(cfg, Join(DefaultWords, " "), paths)
      == Invocation("yarn", ["test"] + paths + ["--json", "--testLocationInResults", "--outputFile", cfg.resultPath], None)
  {
    DefaultWordsShape();
    QuotedAsPlain(DefaultWords);
    PathsReplacePlaceholder(cfg, ["yarn", "test"], RetryMid, [], paths);
    DefaultArguments(paths, cfg.resultPath);
  }

  /** The default test command gives each test path as one argument after
      `yarn test`, and the result path after `--outputFile`. */
  lemma DefaultCommand(cfg: RunnerConfig, paths: seq<string>)
    requires OutputFilePlaceholder !in paths
    ensures CommandNameAndArgs(cfg, DefaultTestCommand, paths)
      == Invocation("yarn", ["test"] + paths + ["--json", "--testLocationInResults", "--outputFile", cfg.resultPath], None)
  {
    DefaultCommandText();
    DefaultCommandWords(cfg, paths);
  }

  /** The default template cut around its placeholders. */
  lemma DefaultWordsShape()
    ensures DefaultWords == ["yarn", "test"] + [TestExamplesPlaceholder] + RetryMid + [OutputFilePlaceholder] + []
    ensures PlainWords(DefaultWords)
    ensures TestExamplesPlaceholder !in ["yarn", "test"] && OutputFilePlaceholder !in ["yarn", "test"]
    ensures OutputFilePlaceholder !in RetryMid
  {
    TameWord("yarn");
    TameWord("test");
    RetryPlainMid();
    PlaceholdersPlain();
  }

  lemma DefaultArguments(paths: seq<string>, rp: string)
    ensures ["yarn", "test"][1..] + paths + RetryMid + [rp] + [] == ["test"] + paths + ["--json", "--testLocationInResults", "--outputFile", rp]
  {
  }

  const DefaultRetryPre := ["yarn", "test", "--testNamePattern"]

  /** The default retry command cut at its spaces. */
  const DefaultRetryPieces := ["yarn test --testNamePattern '{{testNamePattern}}' --json", "--testLocationInResults", "--outputFile", "{{outputFile}}"]

  lemma DefaultRetryHeadText()
    ensures (Join(DefaultRetryPre, " ") + " '") + TestNamePatternPlaceholder == "yarn test --testNamePattern '{{testNamePattern}}"
  {
    var ws := DefaultRetryPre;
    JoinFirst(ws, " ");
    TemplateText.YarnTest();
    JoinExtends(ws, 1, " ", "yarn", "yarn test");
    TemplateText.DefaultRetryPreThroughNamePatternFlag();
    JoinExtends(ws, 2, " ", "yarn test", "yarn test --testNamePattern");
    assert ws[..3] == ws;
    TemplateText.DefaultRetryHeadThroughPatternPlaceholder();
  }

  lemma DefaultRetryTemplatePieces()
    ensures RetryTemplate(DefaultRetryPre, RetryMid) == Join(DefaultRetryPieces, " ")
  {
    DefaultRetryHeadText();
    TemplateAsPieces(DefaultRetryPre, RetryMid, "yarn test --testNamePattern '{{testNamePattern}}");
    TemplateText.CloseQuoteJson();
    TemplateText.DefaultRetryHeadCloseQuoteJson();
    assert [DefaultRetryPieces[0]] + RetryMid[1..] + [OutputFilePlaceholder] == DefaultRetryPieces;
  }

  lemma DefaultRetryPiecesText2()
    ensures Join(DefaultRetryPieces[..2], " ") == "yarn test --testNamePattern '{{testNamePattern}}' --json --testLocationInResults"
  {
    var ws := DefaultRetryPieces;
    JoinFirst(ws, " ");
    TemplateText.DefaultRetryPiecesThroughLocationFlag();
    JoinExtends(ws, 1, " ", "yarn test --testNamePattern '{{testNamePattern}}' --json", "yarn test --testNamePattern '{{testNamePattern}}' --json --testLocationInResults");
  }

  lemma DefaultRetryPiecesText3()
    ensures Join(DefaultRetryPieces[..3], " ") == "yarn test --testNamePattern '{{testNamePattern}}' --json --testLocationInResults --outputFile"
  {
    var ws := DefaultRetryPieces;
    DefaultRetryPiecesText2();
    TemplateText.DefaultRetryPiecesThroughOutputFileFlag();
    JoinExtends(ws, 2, " ", "yarn test --testNamePattern '{{testNamePattern}}' --json --testLocationInResults", "yarn test --testNamePattern '{{testNamePattern}}' --json --testLocationInResults --outputFile");
  }

  lemma DefaultRetryPiecesText()
    ensures Join(DefaultRetryPieces, " ") == "yarn test --testNamePattern '{{testNamePattern}}' --json --testLocationInResults --outputFile {{outputFile}}"
  {
    var ws := DefaultRetryPieces;
    DefaultRetryPiecesText3();
    TemplateText.DefaultRetryPiecesThroughOutputFilePlaceholder();
    JoinExtends(ws, 3, " ", "yarn test --testNamePattern '{{testNamePattern}}' --json --testLocationInResults --outputFile", "yarn test --testNamePattern '{{testNamePattern}}' --json --testLocationInResults --outputFile {{outputFile}}");
    assert ws[..4] == ws;
  }
  /** The default retry command is a retry template. */
  lemma DefaultRetryText()
    ensures RetryTemplate(DefaultRetryPre, RetryMid) == DefaultRetryTestCommand
  {
    DefaultRetryTemplatePieces();
    DefaultRetryPiecesText();
  }

  lemma DefaultRetryWords()
    ensures PlainWords(DefaultRetryPre) && Avoids(DefaultRetryPre, '{')
  {
    TameWord("yarn");
    TameWord("test");
    TameWord("--testNamePattern");
  }

  lemma DefaultRetryCommandWords(cfg: RunnerConfig, names: seq<string>)
    requires ShellQuote.IsPlainWord(cfg.resultPath)
    requires NoneContains(names, OutputFilePlaceholder) && Avoids(names, '\'')
    ensures RetryCommandNameAndArgs(cfg, RetryTemplate(DefaultRetryPre, RetryMid), names)
      == Invocation("yarn", ["test", "--testNamePattern", NamePattern(names), "--json", "--testLocationInResults", "--outputFile", cfg.resultPath], None)
  {
    DefaultRetryWords();
    RetryPlainMid();
    NoBraceNoPlaceholder(DefaultRetryPre);
    NoBraceNoPlaceholder(RetryMid);
    PatternIsOneArgument(cfg, DefaultRetryPre, RetryMid, names);
    RetryArguments(DefaultRetryPre, NamePattern(names), RetryMid, cfg.resultPath);
  }

  /** The default retry command puts the name pattern of the failed tests in one
      argument after `--testNamePattern`, for any names without a single quote or
      `{{outputFile}}`, and the result path after `--outputFile`. */
  lemma DefaultRetryCommand(cfg: RunnerConfig, names: seq<string>)
    requires ShellQuote.IsPlainWord(cfg.resultPath)
    requires NoneContains(names, OutputFilePlaceholder) && Avoids(names, '\'')
    ensures RetryCommandNameAndArgs(cfg, DefaultRetryTestCommand, names)
      == Invocation("yarn", ["test", "--testNamePattern", NamePattern(names), "--json", "--testLocationInResults", "--outputFile", cfg.resultPath], None)
  {
    DefaultRetryText();
    DefaultRetryCommandWords(cfg, names);
  }
}
