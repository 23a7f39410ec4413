/** Quoting for the shell, and the commands built from quoted parts. */
module ShellQuote {
  import opened Options
  import opened ShellWords

  predicate IsSafe(c: char) {
    || 'a' <= c <= 'z' || 'A' <= c <= 'Z' || '0' <= c <= '9'
    || c == '_' || c == '@' || c == '%' || c == '+' || c == '=' || c == ':'
    || c == ',' || c == '.' || c == '/' || c == '-'
  }

  /** Each single quote becomes: close, a double-quoted single quote, open. */
  function EscapeQuotes(s: string): string {
    if s == [] then []
    else (if s[0] == '\'' then "'\"'\"'" else [s[0]]) + EscapeQuotes(s[1..])
  }

  /** `shlex.quote`. */
  function Quote(s: string): string {
    if s == [] then "''"
    else if forall i :: 0 <= i < |s| ==> IsSafe(s[i]) then s
    else "'" + EscapeQuotes(s) + "'"
  }

  /** `" ".join(parts)`. */
  function Join(parts: seq<string>): string {
    if parts == [] then "" else if |parts| == 1 then parts[0] else parts[0] + (" " + Join(parts[1..]))
  }

  // Quoting survives the tokenizer

  lemma CharsAppend(a: string, b: string)
    ensures Chars(a + b) == Chars(a) + Chars(b)
  {
  }

  lemma CharsStep(word: seq<Item>, s: string)
    requires s != []
    ensures word + [Ch(s[0])] + Chars(s[1..]) == word + Chars(s)
  {
  }

  lemma {:induction false} EscapedFeeds(lexer: Lexer, s: string)
    requires lexer.mode == Single
    ensures Feed(lexer, EscapeQuotes(s)) == lexer.(word := lexer.word + Chars(s))
    decreases |s|
  {
    if s == [] {
      assert lexer.word + Chars(s) == lexer.word;
    } else {
      var after := lexer.(word := lexer.word + [Ch(s[0])]);
      if s[0] == '\'' {
        QuoteEscapeFeeds(lexer);
        FeedAppend(lexer, "'\"'\"'", EscapeQuotes(s[1..]));
      } else {
        assert ([s[0]] + EscapeQuotes(s[1..]))[1..] == EscapeQuotes(s[1..]);
        assert Next(lexer, s[0]) == after;
      }
      EscapedFeeds(after, s[1..]);
      CharsStep(lexer.word, s);
    }
  }

  lemma QuoteEscapeText(rest: string)
    ensures "'\"'" + rest == ['\''] + (['"'] + (['\''] + rest))
  {
  }

  /** A closed quote and a single quote in double quotes. */
  lemma QuoteEscapeOpens(lexer: Lexer, rest: string)
    requires lexer.mode == Single
    ensures Feed(lexer, "'\"'" + rest) == Feed(lexer.(mode := Double, word := lexer.word + [Ch('\'')]), rest)
  {
    QuoteEscapeText(rest);
    FeedOne(lexer, '\'', ['"'] + (['\''] + rest));
    FeedOne(lexer.(mode := Unquoted), '"', ['\''] + rest);
    FeedOne(lexer.(mode := Double), '\'', rest);
  }

  lemma QuoteReopens(lexer: Lexer)
    requires lexer.mode == Double
    ensures Feed(lexer, "\"'") == lexer.(mode := Single)
  {
    assert "\"'" == ['"'] + "'";
    FeedOne(lexer, '"', "'");
    FeedOne(lexer.(mode := Unquoted), '\'', "");
  }

  lemma QuoteEscapeFeeds(lexer: Lexer)
    requires lexer.mode == Single
    ensures Feed(lexer, "'\"'\"'") == lexer.(word := lexer.word + [Ch('\'')])
  {
    assert "'\"'\"'" == "'\"'" + "\"'";
    QuoteEscapeOpens(lexer, "\"'");
    QuoteReopens(lexer.(mode := Double, word := lexer.word + [Ch('\'')]));
  }

  lemma {:induction false} SafeFeeds(lexer: Lexer, s: string)
    requires forall i :: 0 <= i < |s| ==> IsSafe(s[i])
    requires lexer.mode == Unquoted
    ensures Feed(lexer, s) == lexer.(word := lexer.word + Chars(s))
    decreases |s|
  {
    if s == [] {
      assert lexer.word + Chars(s) == lexer.word;
    } else {
      var after := lexer.(word := lexer.word + [Ch(s[0])]);
      assert Next(lexer, s[0]) == after;
      SafeFeeds(after, s[1..]);
      CharsStep(lexer.word, s);
    }
  }

  predicate ReadyForWord(lexer: Lexer) {
    lexer.mode == Unquoted || (lexer.mode == Blank && lexer.word == [])
  }

  lemma EmptyQuoteFeeds(lexer: Lexer)
    requires ReadyForWord(lexer)
    ensures Feed(lexer, "''") == Lexer(Unquoted, lexer.word, lexer.tokens)
  {
    assert "''"[1..] == "'" && "'"[1..] == "";
    assert Feed(lexer, "''") == Feed(lexer.(mode := Single), "'");
  }

  lemma SafeWordFeeds(lexer: Lexer, s: string)
    requires ReadyForWord(lexer) && s != [] && forall i :: 0 <= i < |s| ==> IsSafe(s[i])
    ensures Feed(lexer, s) == Lexer(Unquoted, lexer.word + Chars(s), lexer.tokens)
  {
    var after := Lexer(Unquoted, lexer.word + [Ch(s[0])], lexer.tokens);
    SafeFirst(lexer, s[0]);
    SafeFeeds(after, s[1..]);
    CharsStep(lexer.word, s);
    assert Feed(lexer, s) == Feed(after, s[1..]);
  }

  lemma SafeFirst(lexer: Lexer, c: char)
    requires ReadyForWord(lexer) && IsSafe(c)
    ensures Next(lexer, c) == Lexer(Unquoted, lexer.word + [Ch(c)], lexer.tokens)
  {
  }

  lemma EscapedWordFeeds(lexer: Lexer, s: string)
    requires ReadyForWord(lexer)
    ensures Feed(lexer, "'" + EscapeQuotes(s) + "'") == Lexer(Unquoted, lexer.word + Chars(s), lexer.tokens)
  {
    var inside := lexer.(mode := Single);
    var text := "'" + EscapeQuotes(s) + "'";
    assert text[1..] == EscapeQuotes(s) + "'" && text[0] == '\'';
    assert Next(lexer, '\'') == inside;
    EscapedFeeds(inside, s);
    FeedAppend(inside, EscapeQuotes(s), "'");
    CloseFeeds(inside.(word := lexer.word + Chars(s)));
  }

  lemma CloseFeeds(lexer: Lexer)
    requires lexer.mode == Single
    ensures Feed(lexer, "'") == lexer.(mode := Unquoted)
  {
    assert "'"[1..] == "";
  }

  /** Between tokens or inside an unquoted word, a quoted string adds exactly its characters to the word. */
  lemma QuoteFeeds(lexer: Lexer, s: string)
    requires ReadyForWord(lexer)
    ensures Feed(lexer, Quote(s)) == Lexer(Unquoted, lexer.word + Chars(s), lexer.tokens)
  {
    if s == [] {
      EmptyQuoteFeeds(lexer);
      assert lexer.word + Chars(s) == lexer.word;
    } else if forall i :: 0 <= i < |s| ==> IsSafe(s[i]) {
      SafeWordFeeds(lexer, s);
    } else {
      EscapedWordFeeds(lexer, s);
    }
  }

  // Commands of several parts

  /** Read between tokens, `part` is exactly the one token `token`, whatever came before it. */
  ghost predicate Yields(part: string, token: Token) {
    forall tokens: seq<Token> ::
      var after := Feed(Lexer(Blank, [], tokens), part);
      && Finish(after) == Some(tokens + [token])
      && Next(after, ' ') == Lexer(Blank, [], tokens + [token])
      && Next(after, '\n') == Lexer(Blank, [], tokens + [token, Newline])
  }

  lemma QuotedYields(s: string)
    ensures Yields(Quote(s), Literal(s))
  {
    forall tokens: seq<Token>
      ensures Feed(Lexer(Blank, [], tokens), Quote(s)) == Lexer(Unquoted, Chars(s), tokens)
    {
      QuoteFeeds(Lexer(Blank, [], tokens), s);
      assert [] + Chars(s) == Chars(s);
    }
    WordYields(Quote(s), s);
  }

  lemma WordEnds(word: seq<Item>, tokens: seq<Token>)
    ensures var lexer := Lexer(Unquoted, word, tokens);
      && Finish(lexer) == Some(tokens + [Word(word)])
      && Next(lexer, ' ') == Lexer(Blank, [], tokens + [Word(word)])
      && Next(lexer, '\n') == Lexer(Blank, [], tokens + [Word(word), Newline])
  {
    assert tokens + [Word(word)] + [Newline] == tokens + [Word(word), Newline];
  }

  /** A text that leaves the tokenizer in a word with the characters of `s` yields that word. */
  lemma WordYields(part: string, s: string)
    requires forall tokens: seq<Token> :: Feed(Lexer(Blank, [], tokens), part) == Lexer(Unquoted, Chars(s), tokens)
    ensures Yields(part, Literal(s))
  {
    forall tokens: seq<Token>
      ensures var after := Feed(Lexer(Blank, [], tokens), part);
        && Finish(after) == Some(tokens + [Literal(s)])
        && Next(after, ' ') == Lexer(Blank, [], tokens + [Literal(s)])
        && Next(after, '\n') == Lexer(Blank, [], tokens + [Literal(s), Newline])
    {
      WordEnds(Chars(s), tokens);
    }
  }

  lemma SafeYields(s: string)
    requires s != [] && forall i :: 0 <= i < |s| ==> IsSafe(s[i])
    ensures Yields(s, Literal(s))
  {
    QuotedYields(s);
  }

  /** `key=value` with both sides quoted is one word. */
  lemma AssignmentYields(key: string, value: string)
    ensures Yields(Quote(key) + ("=" + Quote(value)), Literal(key + "=" + value))
  {
    var part := Quote(key) + ("=" + Quote(value));
    forall tokens: seq<Token>
      ensures Feed(Lexer(Blank, [], tokens), part) == Lexer(Unquoted, Chars(key + "=" + value), tokens)
    {
      var first := Lexer(Unquoted, Chars(key), tokens);
      QuoteFeeds(Lexer(Blank, [], tokens), key);
      assert [] + Chars(key) == Chars(key);
      FeedAppend(Lexer(Blank, [], tokens), Quote(key), "=" + Quote(value));
      FeedAppend(first, "=", Quote(value));
      SafeFeeds(first, "=");
      QuoteFeeds(first.(word := Chars(key) + Chars("=")), value);
      CharsAppend(key, "=");
      CharsAppend(key + "=", value);
    }
    WordYields(part, key + "=" + value);
  }

  lemma AndYields()
    ensures Yields("&&", Operator("&&"))
  {
    forall tokens: seq<Token>
      ensures Feed(Lexer(Blank, [], tokens), "&&") == Lexer(InOperator("&&"), [], tokens)
    {
      var lexer := Lexer(Blank, [], tokens);
      assert "&&"[1..] == "&" && "&"[1..] == "";
      assert Feed(lexer, "&&") == Feed(Lexer(InOperator("&"), [], tokens), "&");
      assert "&" + ['&'] == "&&";
    }
    assert !IsOperator("&&" + [' ']) && !IsOperator("&&" + ['\n']);
    forall tokens: seq<Token>
      ensures tokens + [Operator("&&")] + [Newline] == tokens + [Operator("&&"), Newline]
    {
    }
  }

  lemma {:induction false} JoinFeeds(parts: seq<string>, expected: seq<Token>, tokens: seq<Token>)
    requires |parts| == |expected| && parts != []
    requires forall i :: 0 <= i < |parts| ==> Yields(parts[i], expected[i])
    ensures var after := Feed(Lexer(Blank, [], tokens), Join(parts));
      && Finish(after) == Some(tokens + expected)
      && Next(after, ' ') == Lexer(Blank, [], tokens + expected)
      && Next(after, '\n') == Lexer(Blank, [], tokens + expected + [Newline])
    decreases |parts|
  {
    var lexer := Lexer(Blank, [], tokens);
    assert Yields(parts[0], expected[0]);
    if |parts| == 1 {
      assert expected == [expected[0]];
      assert tokens + expected + [Newline] == tokens + [expected[0], Newline];
    } else {
      var first := Feed(lexer, parts[0]);
      var rest := Join(parts[1..]);
      FeedAppend(lexer, parts[0], " " + rest);
      assert (" " + rest)[1..] == rest;
      assert Feed(first, " " + rest) == Feed(Lexer(Blank, [], tokens + [expected[0]]), rest);
      JoinFeeds(parts[1..], expected[1..], tokens + [expected[0]]);
      assert tokens + [expected[0]] + expected[1..] == tokens + expected;
    }
  }
}
