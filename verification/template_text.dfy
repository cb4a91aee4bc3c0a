/** Concatenations of the literal pieces of the command templates of
    internal/runner/jest_test.go and of the default commands. Each lemma is named by
    the text it joins: `<Template>SpaceBefore<Word>` adds the space that precedes
    `<Word>` in `<Template>`, `<Template>Append<Word>` adds the word itself, and
    `<Template>Through<Word>` does both; texts shared by several templates are named
    by their words alone (`JestSpace`, `YarnTest`). Every fact stands on its own, so
    that no other definition is in scope while the characters are compared.
    This module is proof support only: it models nothing of the program, and the
    test cases in `JestCases` use it to see that a literal template is the join of
    its words. */
module TemplateText {
  lemma JestSpace()
    ensures "jest" + " " == "jest "
  {
  }

  lemma ExamplesAppendExamplesPlaceholder()
    ensures "jest " + "{{testExamples}}" == "jest {{testExamples}}"
  {
  }

  lemma ExamplesThroughExamplesPlaceholder()
    ensures "jest" + " " + "{{testExamples}}" == "jest {{testExamples}}"
  {
    JestSpace();
    ExamplesAppendExamplesPlaceholder();
  }

  lemma ExamplesSpaceBeforeOutputFileFlag()
    ensures "jest {{testExamples}}" + " " == "jest {{testExamples}} "
  {
  }

  lemma ExamplesAppendOutputFileFlag()
    ensures "jest {{testExamples}} " + "--outputFile" == "jest {{testExamples}} --outputFile"
  {
  }

  lemma ExamplesThroughOutputFileFlag()
    ensures "jest {{testExamples}}" + " " + "--outputFile" == "jest {{testExamples}} --outputFile"
  {
    ExamplesSpaceBeforeOutputFileFlag();
    ExamplesAppendOutputFileFlag();
  }

  lemma ExamplesSpaceBeforeOutputFilePlaceholder()
    ensures "jest {{testExamples}} --outputFile" + " " == "jest {{testExamples}} --outputFile "
  {
  }

  lemma ExamplesAppendOutputFilePlaceholder()
    ensures "jest {{testExamples}} --outputFile " + "{{outputFile}}" == "jest {{testExamples}} --outputFile {{outputFile}}"
  {
  }

  lemma ExamplesThroughOutputFilePlaceholder()
    ensures "jest {{testExamples}} --outputFile" + " " + "{{outputFile}}" == "jest {{testExamples}} --outputFile {{outputFile}}"
  {
    ExamplesSpaceBeforeOutputFilePlaceholder();
    ExamplesAppendOutputFilePlaceholder();
  }

  lemma JsonAppendJson()
    ensures "jest " + "--json" == "jest --json"
  {
  }

  lemma JsonThroughJson()
    ensures "jest" + " " + "--json" == "jest --json"
  {
    JestSpace();
    JsonAppendJson();
  }

  lemma JsonSpaceBeforeOutputFileFlag()
    ensures "jest --json" + " " == "jest --json "
  {
  }

  lemma JsonAppendOutputFileFlag()
    ensures "jest --json " + "--outputFile" == "jest --json --outputFile"
  {
  }

  lemma JsonThroughOutputFileFlag()
    ensures "jest --json" + " " + "--outputFile" == "jest --json --outputFile"
  {
    JsonSpaceBeforeOutputFileFlag();
    JsonAppendOutputFileFlag();
  }

  lemma JsonSpaceBeforeOutputFilePlaceholder()
    ensures "jest --json --outputFile" + " " == "jest --json --outputFile "
  {
  }

  lemma JsonAppendOutputFilePlaceholder()
    ensures "jest --json --outputFile " + "{{outputFile}}" == "jest --json --outputFile {{outputFile}}"
  {
  }

  lemma JsonThroughOutputFilePlaceholder()
    ensures "jest --json --outputFile" + " " + "{{outputFile}}" == "jest --json --outputFile {{outputFile}}"
  {
    JsonSpaceBeforeOutputFilePlaceholder();
    JsonAppendOutputFilePlaceholder();
  }

  lemma YarnSpace()
    ensures "yarn" + " " == "yarn "
  {
  }

  lemma YarnSpaceTest()
    ensures "yarn " + "test" == "yarn test"
  {
  }

  lemma YarnTest()
    ensures "yarn" + " " + "test" == "yarn test"
  {
    YarnSpace();
    YarnSpaceTest();
  }

  lemma YarnTestSpace()
    ensures "yarn test" + " " == "yarn test "
  {
  }

  lemma DefaultAppendExamplesPlaceholder()
    ensures "yarn test " + "{{testExamples}}" == "yarn test {{testExamples}}"
  {
  }

  lemma DefaultThroughExamplesPlaceholder()
    ensures "yarn test" + " " + "{{testExamples}}" == "yarn test {{testExamples}}"
  {
    YarnTestSpace();
    DefaultAppendExamplesPlaceholder();
  }

  lemma DefaultSpaceBeforeJson()
    ensures "yarn test {{testExamples}}" + " " == "yarn test {{testExamples}} "
  {
  }

  lemma DefaultAppendJson()
    ensures "yarn test {{testExamples}} " + "--json" == "yarn test {{testExamples}} --json"
  {
  }

  lemma DefaultThroughJson()
    ensures "yarn test {{testExamples}}" + " " + "--json" == "yarn test {{testExamples}} --json"
  {
    DefaultSpaceBeforeJson();
    DefaultAppendJson();
  }

  lemma DefaultSpaceBeforeLocationFlag()
    ensures "yarn test {{testExamples}} --json" + " " == "yarn test {{testExamples}} --json "
  {
  }

  lemma DefaultAppendLocationFlag()
    ensures "yarn test {{testExamples}} --json " + "--testLocationInResults" == "yarn test {{testExamples}} --json --testLocationInResults"
  {
  }

  lemma DefaultThroughLocationFlag()
    ensures "yarn test {{testExamples}} --json" + " " + "--testLocationInResults" == "yarn test {{testExamples}} --json --testLocationInResults"
  {
    DefaultSpaceBeforeLocationFlag();
    DefaultAppendLocationFlag();
  }

  lemma DefaultSpaceBeforeOutputFileFlag()
    ensures "yarn test {{testExamples}} --json --testLocationInResults" + " " == "yarn test {{testExamples}} --json --testLocationInResults "
  {
  }

  lemma DefaultAppendOutputFileFlag()
    ensures "yarn test {{testExamples}} --json --testLocationInResults " + "--outputFile" == "yarn test {{testExamples}} --json --testLocationInResults --outputFile"
  {
  }

  lemma DefaultThroughOutputFileFlag()
    ensures "yarn test {{testExamples}} --json --testLocationInResults" + " " + "--outputFile" == "yarn test {{testExamples}} --json --testLocationInResults --outputFile"
  {
    DefaultSpaceBeforeOutputFileFlag();
    DefaultAppendOutputFileFlag();
  }

  lemma DefaultSpaceBeforeOutputFilePlaceholder()
    ensures "yarn test {{testExamples}} --json --testLocationInResults --outputFile" + " " == "yarn test {{testExamples}} --json --testLocationInResults --outputFile "
  {
  }

  lemma DefaultAppendOutputFilePlaceholder()
    ensures "yarn test {{testExamples}} --json --testLocationInResults --outputFile " + "{{outputFile}}" == "yarn test {{testExamples}} --json --testLocationInResults --outputFile {{outputFile}}"
  {
  }

  lemma DefaultThroughOutputFilePlaceholder()
    ensures "yarn test {{testExamples}} --json --testLocationInResults --outputFile" + " " + "{{outputFile}}" == "yarn test {{testExamples}} --json --testLocationInResults --outputFile {{outputFile}}"
  {
    DefaultSpaceBeforeOutputFilePlaceholder();
    DefaultAppendOutputFilePlaceholder();
  }

  lemma RetryPiecesSpaceBeforeLocationFlag()
    ensures "jest --testNamePattern '{{testNamePattern}}' --json" + " " == "jest --testNamePattern '{{testNamePattern}}' --json "
  {
  }

  lemma RetryPiecesAppendLocationFlag()
    ensures "jest --testNamePattern '{{testNamePattern}}' --json " + "--testLocationInResults" == "jest --testNamePattern '{{testNamePattern}}' --json --testLocationInResults"
  {
  }

  lemma RetryPiecesThroughLocationFlag()
    ensures "jest --testNamePattern '{{testNamePattern}}' --json" + " " + "--testLocationInResults" == "jest --testNamePattern '{{testNamePattern}}' --json --testLocationInResults"
  {
    RetryPiecesSpaceBeforeLocationFlag();
    RetryPiecesAppendLocationFlag();
  }

  lemma RetryPiecesSpaceBeforeOutputFileFlag()
    ensures "jest --testNamePattern '{{testNamePattern}}' --json --testLocationInResults" + " " == "jest --testNamePattern '{{testNamePattern}}' --json --testLocationInResults "
  {
  }

  lemma RetryPiecesAppendOutputFileFlag()
    ensures "jest --testNamePattern '{{testNamePattern}}' --json --testLocationInResults " + "--outputFile" == "jest --testNamePattern '{{testNamePattern}}' --json --testLocationInResults --outputFile"
  {
  }

  lemma RetryPiecesThroughOutputFileFlag()
    ensures "jest --testNamePattern '{{testNamePattern}}' --json --testLocationInResults" + " " + "--outputFile" == "jest --testNamePattern '{{testNamePattern}}' --json --testLocationInResults --outputFile"
  {
    RetryPiecesSpaceBeforeOutputFileFlag();
    RetryPiecesAppendOutputFileFlag();
  }

  lemma RetryPiecesSpaceBeforeOutputFilePlaceholder()
    ensures "jest --testNamePattern '{{testNamePattern}}' --json --testLocationInResults --outputFile" + " " == "jest --testNamePattern '{{testNamePattern}}' --json --testLocationInResults --outputFile "
  {
  }

  lemma RetryPiecesAppendOutputFilePlaceholder()
    ensures "jest --testNamePattern '{{testNamePattern}}' --json --testLocationInResults --outputFile " + "{{outputFile}}" == "jest --testNamePattern '{{testNamePattern}}' --json --testLocationInResults --outputFile {{outputFile}}"
  {
  }

  lemma RetryPiecesThroughOutputFilePlaceholder()
    ensures "jest --testNamePattern '{{testNamePattern}}' --json --testLocationInResults --outputFile" + " " + "{{outputFile}}" == "jest --testNamePattern '{{testNamePattern}}' --json --testLocationInResults --outputFile {{outputFile}}"
  {
    RetryPiecesSpaceBeforeOutputFilePlaceholder();
    RetryPiecesAppendOutputFilePlaceholder();
  }

  lemma DefaultRetryPiecesSpaceBeforeLocationFlag()
    ensures "yarn test --testNamePattern '{{testNamePattern}}' --json" + " " == "yarn test --testNamePattern '{{testNamePattern}}' --json "
  {
  }

  lemma DefaultRetryPiecesAppendLocationFlag()
    ensures "yarn test --testNamePattern '{{testNamePattern}}' --json " + "--testLocationInResults" == "yarn test --testNamePattern '{{testNamePattern}}' --json --testLocationInResults"
  {
  }

  lemma DefaultRetryPiecesThroughLocationFlag()
    ensures "yarn test --testNamePattern '{{testNamePattern}}' --json" + " " + "--testLocationInResults" == "yarn test --testNamePattern '{{testNamePattern}}' --json --testLocationInResults"
  {
    DefaultRetryPiecesSpaceBeforeLocationFlag();
    DefaultRetryPiecesAppendLocationFlag();
  }

  lemma DefaultRetryPiecesSpaceBeforeOutputFileFlag()
    ensures "yarn test --testNamePattern '{{testNamePattern}}' --json --testLocationInResults" + " " == "yarn test --testNamePattern '{{testNamePattern}}' --json --testLocationInResults "
  {
  }

  lemma DefaultRetryPiecesAppendOutputFileFlag()
    ensures "yarn test --testNamePattern '{{testNamePattern}}' --json --testLocationInResults " + "--outputFile" == "yarn test --testNamePattern '{{testNamePattern}}' --json --testLocationInResults --outputFile"
  {
  }

  lemma DefaultRetryPiecesThroughOutputFileFlag()
    ensures "yarn test --testNamePattern '{{testNamePattern}}' --json --testLocationInResults" + " " + "--outputFile" == "yarn test --testNamePattern '{{testNamePattern}}' --json --testLocationInResults --outputFile"
  {
    DefaultRetryPiecesSpaceBeforeOutputFileFlag();
    DefaultRetryPiecesAppendOutputFileFlag();
  }

  lemma DefaultRetryPiecesSpaceBeforeOutputFilePlaceholder()
    ensures "yarn test --testNamePattern '{{testNamePattern}}' --json --testLocationInResults --outputFile" + " " == "yarn test --testNamePattern '{{testNamePattern}}' --json --testLocationInResults --outputFile "
  {
  }

  lemma DefaultRetryPiecesAppendOutputFilePlaceholder()
    ensures "yarn test --testNamePattern '{{testNamePattern}}' --json --testLocationInResults --outputFile " + "{{outputFile}}" == "yarn test --testNamePattern '{{testNamePattern}}' --json --testLocationInResults --outputFile {{outputFile}}"
  {
  }

  lemma DefaultRetryPiecesThroughOutputFilePlaceholder()
    ensures "yarn test --testNamePattern '{{testNamePattern}}' --json --testLocationInResults --outputFile" + " " + "{{outputFile}}" == "yarn test --testNamePattern '{{testNamePattern}}' --json --testLocationInResults --outputFile {{outputFile}}"
  {
    DefaultRetryPiecesSpaceBeforeOutputFilePlaceholder();
    DefaultRetryPiecesAppendOutputFilePlaceholder();
  }

  lemma FailedNamesBarBeforeSecondName()
    ensures "this will fail" + "|" == "this will fail|"
  {
  }

  lemma FailedNamesAppendSecondName()
    ensures "this will fail|" + "this other one will fail" == "this will fail|this other one will fail"
  {
  }

  lemma FailedNamesThroughSecondName()
    ensures "this will fail" + "|" + "this other one will fail" == "this will fail|this other one will fail"
  {
    FailedNamesBarBeforeSecondName();
    FailedNamesAppendSecondName();
  }

  lemma RetryPreAppendNamePatternFlag()
    ensures "jest " + "--testNamePattern" == "jest --testNamePattern"
  {
  }

  lemma RetryPreThroughNamePatternFlag()
    ensures "jest" + " " + "--testNamePattern" == "jest --testNamePattern"
  {
    JestSpace();
    RetryPreAppendNamePatternFlag();
  }

  lemma DefaultRetryPreAppendNamePatternFlag()
    ensures "yarn test " + "--testNamePattern" == "yarn test --testNamePattern"
  {
  }

  lemma DefaultRetryPreThroughNamePatternFlag()
    ensures "yarn test" + " " + "--testNamePattern" == "yarn test --testNamePattern"
  {
    YarnTestSpace();
    DefaultRetryPreAppendNamePatternFlag();
  }

  lemma RetryHeadOpenQuoteBeforePatternPlaceholder()
    ensures "jest --testNamePattern" + " '" == "jest --testNamePattern '"
  {
  }

  lemma RetryHeadAppendPatternPlaceholder()
    ensures "jest --testNamePattern '" + "{{testNamePattern}}" == "jest --testNamePattern '{{testNamePattern}}"
  {
  }

  lemma RetryHeadThroughPatternPlaceholder()
    ensures "jest --testNamePattern" + " '" + "{{testNamePattern}}" == "jest --testNamePattern '{{testNamePattern}}"
  {
    RetryHeadOpenQuoteBeforePatternPlaceholder();
    RetryHeadAppendPatternPlaceholder();
  }

  lemma DefaultRetryHeadOpenQuoteBeforePatternPlaceholder()
    ensures "yarn test --testNamePattern" + " '" == "yarn test --testNamePattern '"
  {
  }

  lemma DefaultRetryHeadAppendPatternPlaceholder()
    ensures "yarn test --testNamePattern '" + "{{testNamePattern}}" == "yarn test --testNamePattern '{{testNamePattern}}"
  {
  }

  lemma DefaultRetryHeadThroughPatternPlaceholder()
    ensures "yarn test --testNamePattern" + " '" + "{{testNamePattern}}" == "yarn test --testNamePattern '{{testNamePattern}}"
  {
    DefaultRetryHeadOpenQuoteBeforePatternPlaceholder();
    DefaultRetryHeadAppendPatternPlaceholder();
  }

  lemma OptionsAppendOptions()
    ensures "jest " + "--options" == "jest --options"
  {
  }

  lemma OptionsThroughOptions()
    ensures "jest" + " " + "--options" == "jest --options"
  {
    JestSpace();
    OptionsAppendOptions();
  }

  lemma OptionsSpaceBeforeQuotedExamples()
    ensures "jest --options" + " " == "jest --options "
  {
  }

  lemma OptionsAppendQuotedExamples()
    ensures "jest --options " + "'{{testExamples}}" == "jest --options '{{testExamples}}"
  {
  }

  lemma OptionsThroughQuotedExamples()
    ensures "jest --options" + " " + "'{{testExamples}}" == "jest --options '{{testExamples}}"
  {
    OptionsSpaceBeforeQuotedExamples();
    OptionsAppendQuotedExamples();
  }

  lemma CloseQuoteJson()
    ensures "' " + "--json" == "' --json"
  {
  }

  lemma RetryHeadCloseQuoteJson()
    ensures "jest --testNamePattern '{{testNamePattern}}" + "' --json" == "jest --testNamePattern '{{testNamePattern}}' --json"
  {
  }

  lemma DefaultRetryHeadCloseQuoteJson()
    ensures "yarn test --testNamePattern '{{testNamePattern}}" + "' --json" == "yarn test --testNamePattern '{{testNamePattern}}' --json"
  {
  }

  lemma QuoteExamplesPlaceholder()
    ensures "'" + "{{testExamples}}" == "'{{testExamples}}"
  {
  }

  lemma OpenParenFirstName()
    ensures "(" + "this will fail|" == "(this will fail|"
  {
  }

  lemma OpenParenFirstNameSecondName()
    ensures "(this will fail|" + "this other one will fail" == "(this will fail|this other one will fail"
  {
  }

  lemma CloseParen()
    ensures "(this will fail|this other one will fail" + ")" == "(this will fail|this other one will fail)"
  {
  }
}
