/**
 Token recognition and quote removal of the POSIX shell command language (sections 2.2, 2.3 and
 2.6.7 of POSIX.1-2017 XCU), one character at a time. Parameters (`$name`, `$1`, `$$`, `${...}`),
 arithmetic (`$((...))`) and pattern characters outside quotes stay in their words as items of their own,
 so a word of characters only stands for itself. Command substitution and a leading tilde break the
 tokenizer.
 */
module ShellWords {
  import opened Options

  /** A character, a parameter or an expression (without its dollar sign), or a pattern character. */
  datatype Item = Ch(c: char) | Expand(parameter: string) | Wild(c: char)

  /** A number right before a redirection names a file descriptor. */
  datatype Token = Word(items: seq<Item>) | IoNumber(digits: seq<Item>) | Operator(op: string) | Newline

  datatype Mode =
    | Blank
    | Unquoted
    | Single
    | Double
    | Escape
    | DoubleEscape
    | Parameter(name: string, quoted: bool)
    | Braced(text: string, quoted: bool)
    | Parenthesis(quoted: bool)
    | Arithmetic(text: string, closing: bool, quoted: bool)
    | InOperator(op: string)
    | Comment
    | Broken

  datatype Lexer = Lexer(mode: Mode, word: seq<Item>, tokens: seq<Token>)

  const START := Lexer(Blank, [], [])

  predicate IsOperatorChar(c: char) {
    c == '&' || c == '|' || c == ';' || c == '<' || c == '>' || c == '(' || c == ')'
  }

  predicate IsOperator(op: string) {
    && |op| == 2
    && (|| (op[0] == op[1] && (op[0] == '&' || op[0] == '|' || op[0] == ';' || op[0] == '<' || op[0] == '>'))
        || (op[1] == '&' && (op[0] == '<' || op[0] == '>'))
        || (op[0] == '<' && op[1] == '>')
        || (op[0] == '>' && op[1] == '|'))
  }

  predicate IsNameChar(c: char, first: bool) {
    'a' <= c <= 'z' || 'A' <= c <= 'Z' || c == '_' || (!first && '0' <= c <= '9')
  }

  /** The parameters of one character that is no letter: positions, counts and statuses. */
  predicate IsSpecial(c: char) {
    || '0' <= c <= '9' || c == '$' || c == '?' || c == '!' || c == '#' || c == '@' || c == '*' || c == '-'
  }

  predicate Globs(c: char) {
    c == '*' || c == '?' || c == '['
  }

  /** What the text of `${text}` may be made of here. */
  predicate IsBraced(c: char) {
    c != '}' && c != '{' && c != '\'' && c != '"' && c != '\\' && c != '$' && c != '`' && c != '\n'
  }

  /** What the text of `$((text))` may be made of here. */
  predicate IsSummand(c: char) {
    IsBraced(c) && c != '(' && c != ')'
  }

  predicate AllDigits(word: seq<Item>) {
    word != [] && forall i :: 0 <= i < |word| ==> word[i].Ch? && '0' <= word[i].c <= '9'
  }

  /** A character read between tokens. */
  function FromBlank(lexer: Lexer, c: char): Lexer {
    if c == ' ' || c == '\t' then lexer.(mode := Blank, word := [])
    else if c == '\n' then Lexer(Blank, [], lexer.tokens + [Newline])
    else if IsOperatorChar(c) then Lexer(InOperator([c]), [], lexer.tokens)
    else if c == '#' then Lexer(Comment, [], lexer.tokens)
    else if c == '~' then lexer.(mode := Broken)
    else InWord(lexer.(word := []), c)
  }

  /** A character read outside quotes, in or at the start of a word. */
  function InWord(lexer: Lexer, c: char): Lexer {
    if c == '\'' then lexer.(mode := Single)
    else if c == '"' then lexer.(mode := Double)
    else if c == '\\' then lexer.(mode := Escape)
    else if c == '$' then lexer.(mode := Parameter("", false))
    else if c == '`' then lexer.(mode := Broken)
    else lexer.(mode := Unquoted, word := lexer.word + [Plain(c)])
  }

  function Plain(c: char): Item {
    if Globs(c) then Wild(c) else Ch(c)
  }

  /** The token of a word that the character `c` ends. */
  function WordBefore(word: seq<Item>, c: char): Token {
    if (c == '<' || c == '>') && AllDigits(word) then IoNumber(word) else Word(word)
  }

  function FromUnquoted(lexer: Lexer, c: char): Lexer {
    if c == ' ' || c == '\t' || c == '\n' || IsOperatorChar(c) then
      FromBlank(Lexer(Blank, [], lexer.tokens + [WordBefore(lexer.word, c)]), c)
    else InWord(lexer, c)
  }

  function FromDouble(lexer: Lexer, c: char): Lexer {
    if c == '"' then lexer.(mode := Unquoted)
    else if c == '\\' then lexer.(mode := DoubleEscape)
    else if c == '$' then lexer.(mode := Parameter("", true))
    else if c == '`' then lexer.(mode := Broken)
    else lexer.(mode := Double, word := lexer.word + [Ch(c)])
  }

  function WithParameter(lexer: Lexer, parameter: string, quoted: bool): Lexer {
    lexer.(mode := if quoted then Double else Unquoted, word := lexer.word + [Expand(parameter)])
  }

  function Next(lexer: Lexer, c: char): Lexer {
    match lexer.mode
    case Blank => FromBlank(lexer, c)
    case Unquoted => FromUnquoted(lexer, c)
    case Single =>
      if c == '\'' then lexer.(mode := Unquoted) else lexer.(word := lexer.word + [Ch(c)])
    case Double => FromDouble(lexer, c)
    case Escape =>
      lexer.(mode := Unquoted, word := if c == '\n' then lexer.word else lexer.word + [Ch(c)])
    case DoubleEscape =>
      lexer.(mode := Double, word :=
        if c == '\n' then lexer.word
        else if c == '$' || c == '`' || c == '"' || c == '\\' then lexer.word + [Ch(c)]
        else lexer.word + [Ch('\\'), Ch(c)])
    case Parameter(name, quoted) =>
      if IsNameChar(c, name == "") then lexer.(mode := Parameter(name + [c], quoted))
      else if name == "" && c == '{' then lexer.(mode := Braced("", quoted))
      else if name == "" && c == '(' then lexer.(mode := Parenthesis(quoted))
      else if name == "" && IsSpecial(c) then WithParameter(lexer, [c], quoted)
      else if name == "" then lexer.(mode := Broken)
      else
        var expanded := lexer.(word := lexer.word + [Expand(name)]);
        if quoted then FromDouble(expanded, c) else FromUnquoted(expanded, c)
    case Braced(text, quoted) =>
      if c == '}' then WithParameter(lexer, "{" + (text + "}"), quoted)
      else if IsBraced(c) then lexer.(mode := Braced(text + [c], quoted))
      else lexer.(mode := Broken)
    case Parenthesis(quoted) =>
      if c == '(' then lexer.(mode := Arithmetic("", false, quoted)) else lexer.(mode := Broken)
    case Arithmetic(text, closing, quoted) =>
      if c == ')' && closing then WithParameter(lexer, "((" + (text + "))"), quoted)
      else if c == ')' then lexer.(mode := Arithmetic(text, true, quoted))
      else if !closing && IsSummand(c) then lexer.(mode := Arithmetic(text + [c], false, quoted))
      else lexer.(mode := Broken)
    case InOperator(op) =>
      if IsOperator(op + [c]) then lexer.(mode := InOperator(op + [c]))
      else FromBlank(Lexer(Blank, [], lexer.tokens + [Operator(op)]), c)
    case Comment => if c == '\n' then Lexer(Blank, [], lexer.tokens + [Newline]) else lexer
    case Broken => lexer
  }

  function Feed(lexer: Lexer, text: string): Lexer
    decreases |text|
  {
    if text == [] then lexer else Feed(Next(lexer, text[0]), text[1..])
  }

  function Finish(lexer: Lexer): Option<seq<Token>> {
    match lexer.mode
    case Blank => Some(lexer.tokens)
    case Comment => Some(lexer.tokens)
    case Unquoted => Some(lexer.tokens + [Word(lexer.word)])
    case InOperator(op) => Some(lexer.tokens + [Operator(op)])
    case Parameter(name, false) =>
      if name == "" then None else Some(lexer.tokens + [Word(lexer.word + [Expand(name)])])
    case _ => None
  }

  /** The tokens of a whole text; None when a quote is open or something unsupported would expand. */
  function Tokenize(text: string): Option<seq<Token>> {
    Finish(Feed(START, text))
  }

  lemma {:induction false} FeedAppend(lexer: Lexer, a: string, b: string)
    ensures Feed(lexer, a + b) == Feed(Feed(lexer, a), b)
    decreases |a|
  {
    if a == [] {
      assert a + b == b;
    } else {
      assert (a + b)[1..] == a[1..] + b && (a + b)[0] == a[0];
      FeedAppend(Next(lexer, a[0]), a[1..], b);
    }
  }

  lemma FeedOne(lexer: Lexer, c: char, rest: string)
    ensures Feed(lexer, [c] + rest) == Feed(Next(lexer, c), rest)
    ensures Feed(lexer, [c]) == Next(lexer, c)
  {
    assert ([c] + rest)[1..] == rest && [c][1..] == [];
  }

  function Chars(s: string): (items: seq<Item>)
    ensures |items| == |s| && forall i :: 0 <= i < |s| ==> items[i] == Ch(s[i])
  {
    seq(|s|, i requires 0 <= i < |s| => Ch(s[i]))
  }

  /** A word that is exactly the string `s`. */
  function Literal(s: string): Token {
    Word(Chars(s))
  }
}
