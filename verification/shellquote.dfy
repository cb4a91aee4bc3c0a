/** Shell-style word splitting with the rules of the go-shellquote `Split` function
    the command builder relies on: space, tab and newline separate words; single
    quotes keep everything literally; double quotes keep everything but a backslash
    before `$`, backquote, `"`, backslash or newline; a backslash outside quotes
    keeps the next character (and drops an escaped newline). `Join` quotes words so
    that `Split` gives them back. */
module ShellQuote {
  import opened Results
  import Text

  datatype SplitError = UnterminatedSingleQuote | UnterminatedDoubleQuote | UnterminatedEscape

  function ErrorText(e: SplitError): string {
    match e
    case UnterminatedSingleQuote => "Unterminated single-quoted string"
    case UnterminatedDoubleQuote => "Unterminated double-quoted string"
    case UnterminatedEscape => "Unterminated backslash-escape"
  }

  predicate IsSeparator(c: char) {
    c == ' ' || c == '\n' || c == '\t'
  }

  /** Characters a backslash escapes inside double quotes. */
  predicate IsDoubleEscapable(c: char) {
    c == '$' || c == '`' || c == '"' || c == '\n' || c == '\\'
  }

  /** Where the scanner is: between words, inside an unquoted part of a word, inside
      single or double quotes, or right after an unquoted backslash. */
  datatype Mode = Between | InWord | InSingle | InDouble | AfterEscape

  /** Mode and word after an unquoted character that is not a separator. */
  function RawStep(c: char, word: string): (Mode, string) {
    if c == '\'' then (InSingle, word)
    else if c == '"' then (InDouble, word)
    else if c == '\\' then (AfterEscape, word)
    else (InWord, word + [c])
  }

  /** Scans `s` in mode `mode` with the current word `word` and the finished words `words`. */
  function Lex(s: string, mode: Mode, word: string, words: seq<string>): Result<seq<string>, SplitError>
    decreases |s|
  {
    if |s| == 0 then
      match mode
      case Between => Ok(words)
      case InWord => Ok(words + [word])
      case InSingle => Err(UnterminatedSingleQuote)
      case InDouble => Err(UnterminatedDoubleQuote)
      case AfterEscape => Err(UnterminatedEscape)
    else
      var c, rest := s[0], s[1..];
      match mode
      case Between =>
        if IsSeparator(c) then Lex(rest, Between, word, words)
        else if c == '\\' && |rest| > 0 && rest[0] == '\n' then Lex(rest[1..], Between, word, words)
        else
          var (m, w) := RawStep(c, "");
          Lex(rest, m, w, words)
      case InWord =>
        if IsSeparator(c) then Lex(rest, Between, "", words + [word])
        else
          var (m, w) := RawStep(c, word);
          Lex(rest, m, w, words)
      case AfterEscape =>
        Lex(rest, InWord, if c == '\n' then word else word + [c], words)
      case InSingle =>
        if c == '\'' then Lex(rest, InWord, word, words) else Lex(rest, InSingle, word + [c], words)
      case InDouble =>
        if c == '"' then Lex(rest, InWord, word, words)
        else if c == '\\' && |rest| > 0 then
          var c2 := rest[0];
          var w :=
            if c2 == '\n' then word
            else if IsDoubleEscapable(c2) then word + [c2]
            else word + ['\\', c2];
          Lex(rest[1..], InDouble, w, words)
        else Lex(rest, InDouble, word + [c], words)
  }

  /** `shellquote.Split`. */
  function Split(s: string): Result<seq<string>, SplitError> {
    Lex(s, Between, "", [])
  }

  /** Characters that need no quoting. */
  predicate IsPlain(c: char) {
    !IsSeparator(c) && c != '\'' && c != '"' && c != '\\'
  }

  /** A non-empty word with no separator, quote or backslash. */
  predicate IsPlainWord(w: string) {
    |w| > 0 && ' ' !in w && '\t' !in w && '\n' !in w && '\'' !in w && '"' !in w && '\\' !in w
  }

  /** The inside of a single-quoted rendering of `w`, closing quote included; each
      single quote of `w` becomes `'\''`. */
  function QuoteBody(w: string): string {
    if |w| == 0 then "'"
    else (if w[0] == '\'' then "'\\''" else [w[0]]) + QuoteBody(w[1..])
  }

  /** A word as it is written in a command: as it is when plain, single-quoted otherwise. */
  function Quote(w: string): string {
    if IsPlainWord(w) then w else "'" + QuoteBody(w)
  }

  /** Words quoted and separated by single spaces. */
  function Join(ws: seq<string>): string {
    if |ws| == 0 then ""
    else if |ws| == 1 then Quote(ws[0])
    else Quote(ws[0]) + " " + Join(ws[1..])
  }

  lemma {:induction false} PlainRun(w: string, rest: string, word: string, words: seq<string>)
    requires forall i :: 0 <= i < |w| ==> IsPlain(w[i])
    ensures Lex(w + rest, InWord, word, words) == Lex(rest, InWord, word + w, words)
  {
    if |w| > 0 {
      assert (w + rest)[1..] == w[1..] + rest;
      PlainRun(w[1..], rest, word + [w[0]], words);
      assert word + [w[0]] + w[1..] == word + w;
    } else {
      assert w + rest == rest && word + w == word;
    }
  }

  /** Inside single quotes, `'\''` ends the quoting, adds an escaped quote and quotes again. */
  lemma EscapedQuoteStep(tail: string, word: string, words: seq<string>)
    ensures Lex("'\\''" + tail, InSingle, word, words) == Lex(tail, InSingle, word + ['\''], words)
  {
    var s := "'\\''" + tail;
    var s1, s2, s3 := s[1..], s[2..], s[3..];
    assert s1[0] == '\\' && s1[1..] == s2;
    assert s2[0] == '\'' && s2[1..] == s3;
    assert s3[0] == '\'' && s3[1..] == tail;
    calc {
      Lex(s, InSingle, word, words);
      Lex(s1, InWord, word, words);
      Lex(s2, AfterEscape, word, words);
      Lex(s3, InWord, word + ['\''], words);
      Lex(tail, InSingle, word + ['\''], words);
    }
  }

  /** Inside single quotes any other character is taken as it is. */
  lemma QuotedCharStep(c: char, tail: string, word: string, words: seq<string>)
    requires c != '\''
    ensures Lex([c] + tail, InSingle, word, words) == Lex(tail, InSingle, word + [c], words)
  {
    assert ([c] + tail)[1..] == tail;
  }

  lemma {:induction false} QuotedRun(w: string, rest: string, word: string, words: seq<string>)
    ensures Lex(QuoteBody(w) + rest, InSingle, word, words) == Lex(rest, InWord, word + w, words)
  {
    if |w| == 0 {
      assert (QuoteBody(w) + rest)[1..] == rest;
      assert word + w == word;
    } else {
      QuotedRun(w[1..], rest, word + [w[0]], words);
      assert word + [w[0]] + w[1..] == word + w;
      var tail := QuoteBody(w[1..]) + rest;
      if w[0] == '\'' {
        assert QuoteBody(w) + rest == "'\\''" + tail;
        EscapedQuoteStep(tail, word, words);
      } else {
        assert QuoteBody(w) + rest == [w[0]] + tail;
        QuotedCharStep(w[0], tail, word, words);
      }
    }
  }

  /** A plain character opens a word. */
  lemma PlainOpensWord(c: char, rest: string, words: seq<string>)
    requires IsPlain(c)
    ensures Lex([c] + rest, Between, "", words) == Lex(rest, InWord, [c], words)
  {
    assert ([c] + rest)[1..] == rest;
    assert "" + [c] == [c];
  }

  /** A single quote opens a word in single-quoted mode. */
  lemma QuoteOpensWord(rest: string, words: seq<string>)
    ensures Lex("'" + rest, Between, "", words) == Lex(rest, InSingle, "", words)
  {
    assert ("'" + rest)[1..] == rest;
  }

  lemma {:induction false} PlainWordScan(w: string, rest: string, words: seq<string>)
    requires IsPlainWord(w)
    ensures Lex(w + rest, Between, "", words) == Lex(rest, InWord, w, words)
  {
    assert forall i :: 0 <= i < |w| ==> w[i] in w;
    assert IsPlain(w[0]);
    assert w + rest == [w[0]] + (w[1..] + rest);
    PlainOpensWord(w[0], w[1..] + rest, words);
    PlainRun(w[1..], rest, [w[0]], words);
    assert [w[0]] + w[1..] == w;
  }

  lemma {:induction false} QuotedWordScan(w: string, rest: string, words: seq<string>)
    ensures Lex("'" + QuoteBody(w) + rest, Between, "", words) == Lex(rest, InWord, w, words)
  {
    assert "'" + QuoteBody(w) + rest == "'" + (QuoteBody(w) + rest);
    QuoteOpensWord(QuoteBody(w) + rest, words);
    QuotedRun(w, rest, "", words);
    assert "" + w == w;
  }

  /** A quoted word scans back to itself, leaving the scanner inside that word. */
  lemma QuotedWord(w: string, rest: string, words: seq<string>)
    ensures Lex(Quote(w) + rest, Between, "", words) == Lex(rest, InWord, w, words)
  {
    if IsPlainWord(w) {
      PlainWordScan(w, rest, words);
    } else {
      QuotedWordScan(w, rest, words);
    }
  }

  lemma SpaceEndsWord(rest: string, word: string, words: seq<string>)
    ensures Lex(" " + rest, InWord, word, words) == Lex(rest, Between, "", words + [word])
  {
    assert (" " + rest)[1..] == rest;
  }

  /** The first word of a join of two or more words is finished at the space after it. */
  lemma JoinStep(ws: seq<string>, rest: string, words: seq<string>)
    requires |ws| >= 2
    ensures Lex(Join(ws) + rest, Between, "", words) == Lex(Join(ws[1..]) + rest, Between, "", words + [ws[0]])
  {
    var tail := Join(ws[1..]) + rest;
    assert Join(ws) == Quote(ws[0]) + " " + Join(ws[1..]);
    Text.Regroup(Quote(ws[0]) + " ", Join(ws[1..]), rest);
    Text.Regroup(Quote(ws[0]), " ", tail);
    QuotedWord(ws[0], " " + tail, words);
    SpaceEndsWord(tail, ws[0], words);
  }

  /** Scanning a join followed by more text finishes every word but the last and leaves
      the scanner inside the last one. */
  lemma {:induction false} JoinRun(ws: seq<string>, rest: string, words: seq<string>)
    requires |ws| >= 1
    ensures Lex(Join(ws) + rest, Between, "", words) == Lex(rest, InWord, ws[|ws| - 1], words + ws[..|ws| - 1])
  {
    if |ws| == 1 {
      QuotedWord(ws[0], rest, words);
      assert words + ws[..0] == words;
    } else {
      var acc := words + [ws[0]];
      assert acc + ws[1..][..|ws| - 2] == words + ws[..|ws| - 1];
      assert ws[1..][|ws[1..]| - 1] == ws[|ws| - 1];
      JoinStep(ws, rest, words);
      JoinRun(ws[1..], rest, acc);
    }
  }

  /** Scanning a join to its end appends its words to those already finished. */
  lemma JoinAll(ws: seq<string>, words: seq<string>)
    ensures Lex(Join(ws), Between, "", words) == Ok(words + ws)
  {
    if |ws| > 0 {
      var init := words + ws[..|ws| - 1];
      assert init + [ws[|ws| - 1]] == words + ws;
      assert Join(ws) + "" == Join(ws);
      JoinRun(ws, "", words);
    } else {
      assert words + ws == words;
    }
  }

  /** Splitting a join gives back the words, whatever characters they contain. */
  lemma SplitJoin(ws: seq<string>)
    ensures Split(Join(ws)) == Ok(ws)
  {
    JoinAll(ws, []);
    assert [] + ws == ws;
  }

  /** Without single quotes in `w`, its single-quoted body is `w` and the closing quote. */
  lemma {:induction false} QuoteBodyVerbatim(w: string)
    requires '\'' !in w
    ensures QuoteBody(w) == w + "'"
  {
    if |w| > 0 {
      QuoteBodyVerbatim(w[1..]);
      assert [w[0]] + (w[1..] + "'") == w + "'";
    }
  }

  /** A join, a separator, and more text: the joined words come first. */
  lemma SplitJoinThen(ws: seq<string>, rest: string, words: seq<string>)
    requires |ws| >= 1
    ensures Lex(Join(ws) + " " + rest, Between, "", words) == Lex(rest, Between, "", words + ws)
  {
    var init, last := words + ws[..|ws| - 1], ws[|ws| - 1];
    calc {
      Lex(Join(ws) + " " + rest, Between, "", words);
      { Text.Regroup(Join(ws), " ", rest); }
      Lex(Join(ws) + (" " + rest), Between, "", words);
      { JoinRun(ws, " " + rest, words); }
      Lex(" " + rest, InWord, last, init);
      { SpaceEndsWord(rest, last, init); }
      Lex(rest, Between, "", init + [last]);
      { LastRegroup(words, ws); }
      Lex(rest, Between, "", words + ws);
    }
  }

  lemma LastRegroup(words: seq<string>, ws: seq<string>)
    requires |ws| >= 1
    ensures (words + ws[..|ws| - 1]) + [ws[|ws| - 1]] == words + ws
  {
    assert ws[..|ws| - 1] + [ws[|ws| - 1]] == ws;
  }

  /** A single-quoted word between two joins is one word, whatever it contains. */
  lemma QuotedBetween(pre: seq<string>, w: string, post: seq<string>)
    requires |pre| >= 1
    ensures Split(Join(pre) + " " + ("'" + QuoteBody(w) + (" " + Join(post)))) == Ok(pre + [w] + post)
  {
    var rest := " " + Join(post);
    SplitJoinThen(pre, "'" + QuoteBody(w) + rest, []);
    assert [] + pre == pre;
    QuotedWordScan(w, rest, pre);
    SpaceEndsWord(Join(post), w, pre);
    JoinAll(post, pre + [w]);
  }

  /** An opening single quote with no closing one is an error, whatever precedes it. */
  lemma {:induction false} UnclosedSingleQuote(s: string, word: string, words: seq<string>)
    requires '\'' !in s
    ensures Lex(s, InSingle, word, words) == Err(UnterminatedSingleQuote)
  {
    if |s| > 0 {
      UnclosedSingleQuote(s[1..], word + [s[0]], words);
    }
  }

  /** Plain words need no quoting: their join is the plain space-separated join. */
  lemma {:induction false} JoinPlain(ws: seq<string>)
    requires forall i :: 0 <= i < |ws| ==> IsPlainWord(ws[i])
    ensures Join(ws) == Text.Join(ws, " ")
  {
    if |ws| > 1 {
      JoinPlain(ws[1..]);
    }
  }

  /** Plain words and a space before more text: the words come first. */
  lemma SplitPlainThen(ws: seq<string>, rest: string, words: seq<string>)
    requires |ws| >= 1
    requires forall i :: 0 <= i < |ws| ==> IsPlainWord(ws[i])
    ensures Lex(Text.Join(ws, " ") + " " + rest, Between, "", words) == Lex(rest, Between, "", words + ws)
  {
    JoinPlain(ws);
    SplitJoinThen(ws, rest, words);
  }

  lemma QuotedShape(a: string, w: string, b: string)
    ensures (a + " '") + w + ("' " + b) == a + " " + ("'" + (w + "'") + (" " + b))
  {
  }

  /** A single-quoted word without single quotes between plain words is one word,
      whatever else it contains. */
  lemma SplitQuotedBetween(pre: seq<string>, w: string, post: seq<string>, before: string, after: string)
    requires |pre| >= 1
    requires forall i :: 0 <= i < |pre| ==> IsPlainWord(pre[i])
    requires forall i :: 0 <= i < |post| ==> IsPlainWord(post[i])
    requires '\'' !in w
    requires before == Text.Join(pre, " ") + " '"
    requires after == "' " + Text.Join(post, " ")
    ensures Split(before + w + after) == Ok(pre + [w] + post)
  {
    JoinPlain(pre);
    JoinPlain(post);
    QuoteBodyVerbatim(w);
    QuotedBetween(pre, w, post);
    QuotedShape(Join(pre), w, Join(post));
  }
}
