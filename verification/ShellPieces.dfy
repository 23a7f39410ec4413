/**
 Shell scripts written as lines of parts: words, quoted strings, parameters, operators, redirections. Every
 value of these types is a script; `Render` is its text and `Meaning` its tokens, and the tokenizer reads
 the text of every script as its meaning.
 */
module ShellPieces {
  import opened Options
  import opened ShellWords
  import opened ShellQuote

  // The parts of a script

  /** The characters used in words without quotes; each stands for itself or for a pattern. */
  predicate IsBare(c: char) {
    || 'a' <= c <= 'z' || c == '_' || 'A' <= c <= 'Z' || '0' <= c <= '9' || c == '-' || c == '=' || c == '/'
    || c == '[' || c == ']' || c == '{' || c == '}' || c == '!' || c == '*' || c == '?' || c == ':' || c == '.' || c == '+'
  }

  predicate BareWord(s: string) {
    s != "" && forall i :: 0 <= i < |s| ==> IsBare(s[i])
  }

  predicate IsName(s: string) {
    s != "" && IsNameChar(s[0], true) && forall i :: 0 <= i < |s| ==> IsNameChar(s[i], false)
  }

  /** Text that stands for itself between double quotes. */
  predicate IsPlain(s: string) {
    s != "" && forall i :: 0 <= i < |s| ==> s[i] != '"' && s[i] != '\\' && s[i] != '$' && s[i] != '`'
  }

  type Bare = s: string | BareWord(s) witness "x"
  type BareList = words: seq<Bare> | words != [] witness ["x"]
  type Name = s: string | IsName(s) witness "x"
  type Unquotable = s: string | '\'' !in s
  type PlainText = s: string | IsPlain(s) witness "x"
  type AfterName = s: string | IsPlain(s) && !IsNameChar(s[0], false) witness "/"
  type BraceText = s: string | forall i :: 0 <= i < |s| ==> IsBraced(s[i])
  type SumText = s: string | forall i :: 0 <= i < |s| ==> IsSummand(s[i])
  type SpecialChar = c: char | IsSpecial(c) witness '$'
  type Remark = s: string | forall i :: 0 <= i < |s| ==> s[i] != '\n'
  type OperatorText = op: string | (|op| == 1 && IsOperatorChar(op[0])) || IsOperator(op) witness ";"
  type Width = n: nat | n > 0 witness 1

  /** What may stand between double quotes. */
  datatype Inner = Text(s: AfterName) | Var(name: Name) | Special(c: SpecialChar) | Brace(text: BraceText)

  datatype Part =
    | Words(words: BareList)       // words without quotes, one blank between two
    | Verbatim(raw: Unquotable)    // '...'
    | Quoted(s: string)            // shlex.quote
    | Expanded(parts: seq<Inner>)  // "..."
    | Fixed(plain: PlainText)      // "..." without parameters
    | Param(name: SpecialChar)     // $1, $?, outside quotes
    | Braces(text: BraceText)      // ${...}, outside quotes
    | Sum(terms: SumText)          // $((...)), outside quotes
    | Gap(n: Width)                // blanks
    | OpGap(op: OperatorText)      // an operator and a blank
    | CallGap                      // () and a blank
    | From(target: Target)         // redirections
    | Into(target: Target)
    | Onto(target: Target)

  datatype Target = ToQuoted(s: string) | ToExpanded(parts: seq<Inner>) | ToBare(word: Bare)

  datatype LineEnd = Eol | OpEol(op: OperatorText) | VarEol(name: Name)

  datatype Line = Note(indent: nat, text: Remark) | Code(indent: nat, parts: seq<Part>, end: LineEnd)

  // Text

  function InnerString(inner: Inner): string {
    match inner
    case Text(s) => s
    case Var(name) => "$" + name
    case Special(c) => ['$', c]
    case Brace(text) => "${" + (text + "}")
  }

  function InnersText(parts: seq<Inner>): string {
    if parts == [] then "" else InnerString(parts[0]) + InnersText(parts[1..])
  }

  function Blanks(n: nat): string {
    if n == 0 then "" else " " + Blanks(n - 1)
  }

  function TargetText(target: Target): string {
    match target
    case ToQuoted(s) => Quote(s)
    case ToExpanded(parts) => "\"" + (InnersText(parts) + "\"")
    case ToBare(word) => word
  }

  function PartText(p: Part): string {
    match p
    case Words(words) => Join(words)
    case Verbatim(s) => "'" + (s + "'")
    case Quoted(s) => Quote(s)
    case Expanded(parts) => "\"" + (InnersText(parts) + "\"")
    case Fixed(s) => "\"" + (s + "\"")
    case Param(c) => ['$', c]
    case Braces(text) => "${" + (text + "}")
    case Sum(text) => "$((" + (text + "))")
    case Gap(n) => Blanks(n)
    case OpGap(op) => op + " "
    case CallGap => "() "
    case From(target) => "<" + TargetText(target)
    case Into(target) => ">" + TargetText(target)
    case Onto(target) => ">&" + TargetText(target)
  }

  function PartsText(parts: seq<Part>): string {
    if parts == [] then "" else PartText(parts[0]) + PartsText(parts[1..])
  }

  function EndText(end: LineEnd): string {
    match end
    case Eol => "\n"
    case OpEol(op) => op + "\n"
    case VarEol(name) => "$" + (name + "\n")
  }

  function LineText(line: Line): string {
    match line
    case Note(indent, text) => Blanks(indent) + ("#" + (text + "\n"))
    case Code(indent, parts, end) => Blanks(indent) + (PartsText(parts) + EndText(end))
  }

  function Render(lines: seq<Line>): string {
    if lines == [] then "" else LineText(lines[0]) + Render(lines[1..])
  }

  // Meaning

  function BareItems(s: string): (items: seq<ShellWords.Item>)
    ensures |items| == |s| && forall i :: 0 <= i < |s| ==> items[i] == Plain(s[i])
  {
    seq(|s|, i requires 0 <= i < |s| => Plain(s[i]))
  }

  function InnerItems(inner: Inner): seq<ShellWords.Item> {
    match inner
    case Text(s) => Chars(s)
    case Var(name) => [Expand(name)]
    case Special(c) => [Expand([c])]
    case Brace(text) => [Expand("{" + (text + "}"))]
  }

  function InnersItems(parts: seq<Inner>): seq<ShellWords.Item> {
    if parts == [] then [] else InnerItems(parts[0]) + InnersItems(parts[1..])
  }

  /** A word that has been begun, or None between two tokens. */
  type Begun = Option<seq<ShellWords.Item>>

  /** The word that goes on or begins. */
  function Sofar(begun: Begun): seq<ShellWords.Item> {
    if begun.Some? then begun.value else []
  }

  /** The token of a word that the character `c` ends. */
  function Ending(begun: Begun, c: char): seq<Token> {
    if begun.Some? then [WordBefore(begun.value, c)] else []
  }

  /** Several words end all but the last of them. */
  function AfterWords(begun: Begun, words: seq<string>): (Begun, seq<Token>)
    requires words != []
    decreases |words|
  {
    var word := Sofar(begun) + BareItems(words[0]);
    if |words| == 1 then (Some(word), [])
    else
      var (last, tokens) := AfterWords(None, words[1..]);
      (last, [Word(word)] + tokens)
  }

  function TargetItems(target: Target): seq<ShellWords.Item> {
    match target
    case ToQuoted(s) => Chars(s)
    case ToExpanded(parts) => InnersItems(parts)
    case ToBare(word) => BareItems(word)
  }

  /** What a part leaves begun, and the tokens it completes. */
  function After(begun: Begun, p: Part): (Begun, seq<Token>) {
    match p
    case Words(words) => AfterWords(begun, words)
    case Verbatim(s) => (Some(Sofar(begun) + Chars(s)), [])
    case Quoted(s) => (Some(Sofar(begun) + Chars(s)), [])
    case Expanded(parts) => (Some(Sofar(begun) + InnersItems(parts)), [])
    case Fixed(s) => (Some(Sofar(begun) + Chars(s)), [])
    case Param(c) => (Some(Sofar(begun) + [Expand([c])]), [])
    case Braces(text) => (Some(Sofar(begun) + [Expand("{" + (text + "}"))]), [])
    case Sum(text) => (Some(Sofar(begun) + [Expand("((" + (text + "))"))]), [])
    case Gap(_) => (None, Ending(begun, ' '))
    case OpGap(op) => (None, Ending(begun, op[0]) + [Operator(op)])
    case CallGap => (None, Ending(begun, '(') + [Operator("("), Operator(")")])
    case From(target) => (Some(TargetItems(target)), Ending(begun, '<') + [Operator("<")])
    case Into(target) => (Some(TargetItems(target)), Ending(begun, '>') + [Operator(">")])
    case Onto(target) => (Some(TargetItems(target)), Ending(begun, '>') + [Operator(">&")])
  }

  function PartsTokens(begun: Begun, parts: seq<Part>): (Begun, seq<Token>)
    decreases |parts|
  {
    if parts == [] then (begun, [])
    else
      var (next, tokens) := After(begun, parts[0]);
      var (last, more) := PartsTokens(next, parts[1..]);
      (last, tokens + more)
  }

  function EndTokens(begun: Begun, end: LineEnd): seq<Token> {
    match end
    case Eol => Ending(begun, '\n') + [Newline]
    case OpEol(op) => Ending(begun, op[0]) + [Operator(op), Newline]
    case VarEol(name) => [Word(Sofar(begun) + [Expand(name)]), Newline]
  }

  function LineTokens(line: Line): seq<Token> {
    match line
    case Note(_, _) => [Newline]
    case Code(_, parts, end) =>
      var (last, tokens) := PartsTokens(None, parts);
      tokens + EndTokens(last, end)
  }

  /** The tokens of a script. */
  function Meaning(lines: seq<Line>): seq<Token> {
    if lines == [] then [] else LineTokens(lines[0]) + Meaning(lines[1..])
  }

  // Reading words and quotes

  /** The tokenizer with a word begun or between two tokens. */
  function At(begun: Begun, tokens: seq<Token>): (lexer: Lexer)
    ensures ReadyForWord(lexer) && lexer.word == Sofar(begun) && lexer.tokens == tokens
  {
    if begun.Some? then Lexer(Unquoted, begun.value, tokens) else Lexer(Blank, [], tokens)
  }

  lemma BareNext(lexer: Lexer, c: char)
    requires ReadyForWord(lexer) && IsBare(c)
    ensures Next(lexer, c) == Lexer(Unquoted, lexer.word + [Plain(c)], lexer.tokens)
  {
  }

  lemma {:induction false} BareFeeds(lexer: Lexer, s: string)
    requires ReadyForWord(lexer) && BareWord(s)
    ensures Feed(lexer, s) == Lexer(Unquoted, lexer.word + BareItems(s), lexer.tokens)
    decreases |s|
  {
    var after := Lexer(Unquoted, lexer.word + [Plain(s[0])], lexer.tokens);
    BareNext(lexer, s[0]);
    assert Feed(lexer, s) == Feed(after, s[1..]);
    if |s| == 1 {
      assert s[1..] == "" && BareItems(s) == [Plain(s[0])];
    } else {
      BareFeeds(after, s[1..]);
      BareStep(lexer.word, s);
    }
  }

  lemma BareStep(word: seq<Item>, s: string)
    requires s != ""
    ensures word + [Plain(s[0])] + BareItems(s[1..]) == word + BareItems(s)
  {
  }

  lemma {:induction false} SingleInside(lexer: Lexer, s: string)
    requires lexer.mode == Single && '\'' !in s
    ensures Feed(lexer, s) == lexer.(word := lexer.word + Chars(s))
    decreases |s|
  {
    if s == "" {
      assert lexer.word + Chars(s) == lexer.word;
    } else {
      var after := lexer.(word := lexer.word + [Ch(s[0])]);
      assert Next(lexer, s[0]) == after;
      SingleInside(after, s[1..]);
      CharsStep(lexer.word, s);
    }
  }

  lemma SingleFeeds(lexer: Lexer, s: string)
    requires ReadyForWord(lexer) && '\'' !in s
    ensures Feed(lexer, "'" + (s + "'")) == Lexer(Unquoted, lexer.word + Chars(s), lexer.tokens)
  {
    var inside := lexer.(mode := Single);
    FeedOne(lexer, '\'', s + "'");
    FeedAppend(inside, s, "'");
    SingleInside(inside, s);
    CloseFeeds(inside.(word := lexer.word + Chars(s)));
  }

  lemma {:induction false} TextInside(lexer: Lexer, s: string)
    requires lexer.mode == Double && (s != "" ==> IsPlain(s))
    ensures Feed(lexer, s) == lexer.(word := lexer.word + Chars(s))
    decreases |s|
  {
    if s == "" {
      assert lexer.word + Chars(s) == lexer.word;
    } else {
      var after := lexer.(word := lexer.word + [Ch(s[0])]);
      assert Next(lexer, s[0]) == after;
      TextInside(after, s[1..]);
      CharsStep(lexer.word, s);
    }
  }

  /** Where a parameter may begin: in double quotes, or between tokens or in a word outside them. */
  predicate ReadyForParameter(lexer: Lexer, quoted: bool) {
    if quoted then lexer.mode == Double else ReadyForWord(lexer)
  }

  lemma Dollar(lexer: Lexer, quoted: bool)
    requires ReadyForParameter(lexer, quoted)
    ensures Next(lexer, '$') == lexer.(mode := Parameter("", quoted))
  {
  }

  lemma {:induction false} NameInside(lexer: Lexer, name: string)
    requires lexer.mode.Parameter? && (forall i :: 0 <= i < |name| ==> IsNameChar(name[i], false))
    requires lexer.mode.name == "" && name != "" ==> IsNameChar(name[0], true)
    ensures Feed(lexer, name) == lexer.(mode := Parameter(lexer.mode.name + name, lexer.mode.quoted))
    decreases |name|
  {
    if name == "" {
      assert lexer.mode.name + name == lexer.mode.name;
    } else {
      var after := lexer.(mode := Parameter(lexer.mode.name + [name[0]], lexer.mode.quoted));
      assert Next(lexer, name[0]) == after;
      NameInside(after, name[1..]);
      assert after.mode.name + name[1..] == lexer.mode.name + name;
    }
  }

  lemma VarFeeds(lexer: Lexer, name: string, quoted: bool)
    requires ReadyForParameter(lexer, quoted) && IsName(name)
    ensures Feed(lexer, "$" + name) == lexer.(mode := Parameter(name, quoted))
  {
    FeedOne(lexer, '$', name);
    Dollar(lexer, quoted);
    NameInside(lexer.(mode := Parameter("", quoted)), name);
    assert "" + name == name;
  }

  lemma SpecialFeeds(lexer: Lexer, c: char, quoted: bool)
    requires ReadyForParameter(lexer, quoted) && IsSpecial(c)
    ensures Feed(lexer, ['$', c]) == WithParameter(lexer, [c], quoted)
  {
    assert ['$', c] == ['$'] + [c];
    FeedOne(lexer, '$', [c]);
    Dollar(lexer, quoted);
    FeedOne(lexer.(mode := Parameter("", quoted)), c, "");
  }

  lemma {:induction false} BraceInside(lexer: Lexer, text: string)
    requires lexer.mode.Braced? && forall i :: 0 <= i < |text| ==> IsBraced(text[i])
    ensures Feed(lexer, text) == lexer.(mode := Braced(lexer.mode.text + text, lexer.mode.quoted))
    decreases |text|
  {
    if text == "" {
      assert lexer.mode.text + text == lexer.mode.text;
    } else {
      var after := lexer.(mode := Braced(lexer.mode.text + [text[0]], lexer.mode.quoted));
      assert Next(lexer, text[0]) == after;
      BraceInside(after, text[1..]);
      assert after.mode.text + text[1..] == lexer.mode.text + text;
    }
  }

  lemma BraceFeeds(lexer: Lexer, text: string, quoted: bool)
    requires ReadyForParameter(lexer, quoted) && forall i :: 0 <= i < |text| ==> IsBraced(text[i])
    ensures Feed(lexer, "${" + (text + "}")) == WithParameter(lexer, "{" + (text + "}"), quoted)
  {
    var a, b := lexer.(mode := Parameter("", quoted)), lexer.(mode := Braced("", quoted));
    var c := lexer.(mode := Braced(text, quoted));
    assert "${" + (text + "}") == ['$'] + (['{'] + (text + "}"));
    FeedOne(lexer, '$', ['{'] + (text + "}"));
    Dollar(lexer, quoted);
    FeedOne(a, '{', text + "}");
    FeedAppend(b, text, "}");
    BraceInside(b, text);
    assert "" + text == text;
    FeedOne(c, '}', "");
  }

  lemma {:induction false} SumInside(lexer: Lexer, text: string)
    requires lexer.mode.Arithmetic? && !lexer.mode.closing && forall i :: 0 <= i < |text| ==> IsSummand(text[i])
    ensures Feed(lexer, text) == lexer.(mode := Arithmetic(lexer.mode.text + text, false, lexer.mode.quoted))
    decreases |text|
  {
    if text == "" {
      assert lexer.mode.text + text == lexer.mode.text;
    } else {
      var after := lexer.(mode := Arithmetic(lexer.mode.text + [text[0]], false, lexer.mode.quoted));
      assert Next(lexer, text[0]) == after;
      SumInside(after, text[1..]);
      assert after.mode.text + text[1..] == lexer.mode.text + text;
    }
  }

  lemma SumOpensText(rest: string)
    ensures "$((" + rest == ['$'] + (['('] + (['('] + rest))
  {
  }

  lemma SumOpens(lexer: Lexer, rest: string)
    requires ReadyForWord(lexer)
    ensures Feed(lexer, "$((" + rest) == Feed(lexer.(mode := Arithmetic("", false, false)), rest)
  {
    SumOpensText(rest);
    FeedOne(lexer, '$', ['('] + (['('] + rest));
    Dollar(lexer, false);
    FeedOne(lexer.(mode := Parameter("", false)), '(', ['('] + rest);
    FeedOne(lexer.(mode := Parenthesis(false)), '(', rest);
  }

  lemma SumCloses(lexer: Lexer)
    requires lexer.mode.Arithmetic? && !lexer.mode.closing
    ensures Feed(lexer, "))") == WithParameter(lexer, "((" + (lexer.mode.text + "))"), lexer.mode.quoted)
  {
    var closing := lexer.(mode := Arithmetic(lexer.mode.text, true, lexer.mode.quoted));
    assert "))" == [')'] + ")";
    FeedOne(lexer, ')', ")");
    FeedOne(closing, ')', "");
  }

  lemma SumFeeds(lexer: Lexer, text: string)
    requires ReadyForWord(lexer) && forall i :: 0 <= i < |text| ==> IsSummand(text[i])
    ensures Feed(lexer, "$((" + (text + "))")) == WithParameter(lexer, "((" + (text + "))"), false)
  {
    var inside := lexer.(mode := Arithmetic("", false, false));
    SumOpens(lexer, text + "))");
    FeedAppend(inside, text, "))");
    SumInside(inside, text);
    assert "" + text == text;
    SumCloses(lexer.(mode := Arithmetic(text, false, false)));
  }

  lemma {:induction false} BlanksFeed(lexer: Lexer, n: nat)
    requires lexer.mode == Blank && lexer.word == []
    ensures Feed(lexer, Blanks(n)) == lexer
    decreases n
  {
    if n > 0 {
      FeedOne(lexer, ' ', Blanks(n - 1));
      BlanksFeed(lexer, n - 1);
    }
  }

  lemma {:induction false} NoteInside(lexer: Lexer, text: string)
    requires lexer.mode == Comment && forall i :: 0 <= i < |text| ==> text[i] != '\n'
    ensures Feed(lexer, text) == lexer
    decreases |text|
  {
    if text != "" {
      assert Next(lexer, text[0]) == lexer;
      NoteInside(lexer, text[1..]);
    }
  }

  lemma NoteFeeds(tokens: seq<Token>, text: string)
    requires forall i :: 0 <= i < |text| ==> text[i] != '\n'
    ensures Feed(Lexer(Blank, [], tokens), "#" + (text + "\n")) == Lexer(Blank, [], tokens + [Newline])
  {
    var inside := Lexer(Comment, [], tokens);
    FeedOne(Lexer(Blank, [], tokens), '#', text + "\n");
    FeedAppend(inside, text, "\n");
    NoteInside(inside, text);
    FeedOne(inside, '\n', "");
  }


  lemma {:induction false} WordsFeed(begun: Begun, tokens: seq<Token>, words: seq<string>)
    requires words != [] && forall i :: 0 <= i < |words| ==> BareWord(words[i])
    ensures AfterWords(begun, words).0.Some?
    ensures var (last, more) := AfterWords(begun, words);
      Feed(At(begun, tokens), Join(words)) == At(last, tokens + more)
    decreases |words|
  {
    var word := Sofar(begun) + BareItems(words[0]);
    BareFeeds(At(begun, tokens), words[0]);
    if |words| == 1 {
      assert tokens + [] == tokens;
    } else {
      var rest := Join(words[1..]);
      FeedAppend(At(begun, tokens), words[0], " " + rest);
      FeedOne(Lexer(Unquoted, word, tokens), ' ', rest);
      WordEnds(word, tokens);
      WordsFeed(None, tokens + [Word(word)], words[1..]);
      Regroup(tokens, [Word(word)], AfterWords(None, words[1..]).1);
    }
  }

  // Double quotes

  lemma InnerFeeds(lexer: Lexer, inner: Inner)
    requires lexer.mode == Double
    ensures Feed(lexer, InnerString(inner)) ==
      if inner.Var? then lexer.(mode := Parameter(inner.name, true)) else lexer.(word := lexer.word + InnerItems(inner))
  {
    match inner
    case Text(s) => TextInside(lexer, s);
    case Var(name) => VarFeeds(lexer, name, true);
    case Special(c) => SpecialFeeds(lexer, c, true);
    case Brace(text) => BraceFeeds(lexer, text, true);
  }

  /** A name is over where the next character cannot belong to it. */
  lemma NameEnds(lexer: Lexer, name: string, quoted: bool, rest: string)
    requires name != "" && rest != "" && !IsNameChar(rest[0], false)
    ensures Feed(lexer.(mode := Parameter(name, quoted)), rest) == Feed(WithParameter(lexer, name, quoted), rest)
  {
  }

  lemma InnersBegin(parts: seq<Inner>)
    ensures var rest := InnersText(parts) + "\""; rest != "" && !IsNameChar(rest[0], false)
  {
    if parts != [] {
      assert InnersText(parts)[0] == InnerString(parts[0])[0];
    }
  }

  lemma FirstInnerFeeds(lexer: Lexer, first: Inner, rest: string)
    requires lexer.mode == Double && rest != "" && !IsNameChar(rest[0], false)
    ensures Feed(lexer, InnerString(first) + rest) == Feed(lexer.(word := lexer.word + InnerItems(first)), rest)
  {
    FeedAppend(lexer, InnerString(first), rest);
    InnerFeeds(lexer, first);
    if first.Var? {
      NameEnds(lexer, first.name, true, rest);
    }
  }

  /** The rest of a double-quoted string and its closing quote. */
  lemma {:induction false} InnersFeed(lexer: Lexer, parts: seq<Inner>)
    requires lexer.mode == Double
    ensures Feed(lexer, InnersText(parts) + "\"") == Lexer(Unquoted, lexer.word + InnersItems(parts), lexer.tokens)
    decreases |parts|
  {
    if parts == [] {
      assert InnersText(parts) + "\"" == ['"'] + "";
      FeedOne(lexer, '"', "");
      assert lexer.word + [] == lexer.word;
    } else {
      var first, rest := parts[0], InnersText(parts[1..]) + "\"";
      var after := lexer.(word := lexer.word + InnerItems(first));
      Regroup(InnerString(first), InnersText(parts[1..]), "\"");
      InnersBegin(parts[1..]);
      FirstInnerFeeds(lexer, first, rest);
      InnersFeed(after, parts[1..]);
      Regroup(lexer.word, InnerItems(first), InnersItems(parts[1..]));
    }
  }

  lemma DoubleOpens(lexer: Lexer, rest: string)
    requires ReadyForWord(lexer)
    ensures Feed(lexer, "\"" + rest) == Feed(lexer.(mode := Double), rest)
  {
    FeedOne(lexer, '"', rest);
  }

  lemma ExpandedFeeds(lexer: Lexer, parts: seq<Inner>)
    requires ReadyForWord(lexer)
    ensures Feed(lexer, "\"" + (InnersText(parts) + "\"")) == Lexer(Unquoted, lexer.word + InnersItems(parts), lexer.tokens)
  {
    DoubleOpens(lexer, InnersText(parts) + "\"");
    InnersFeed(lexer.(mode := Double), parts);
  }

  lemma FixedFeeds(lexer: Lexer, s: string)
    requires ReadyForWord(lexer) && IsPlain(s)
    ensures Feed(lexer, "\"" + (s + "\"")) == Lexer(Unquoted, lexer.word + Chars(s), lexer.tokens)
  {
    var inside := lexer.(mode := Double);
    DoubleOpens(lexer, s + "\"");
    FeedAppend(inside, s, "\"");
    TextInside(inside, s);
    FeedOne(inside.(word := lexer.word + Chars(s)), '"', "");
  }

  // Blanks, operators, line ends

  /** What ends a word, and then begins anew. */
  lemma EndingNext(begun: Begun, tokens: seq<Token>, c: char)
    requires c == ' ' || c == '\n' || IsOperatorChar(c)
    ensures Next(At(begun, tokens), c) == Next(Lexer(Blank, [], tokens + Ending(begun, c)), c)
  {
    assert tokens + [] == tokens;
  }

  lemma GapFeeds(begun: Begun, tokens: seq<Token>, n: nat)
    requires n > 0
    ensures Feed(At(begun, tokens), Blanks(n)) == At(None, tokens + Ending(begun, ' '))
  {
    FeedOne(At(begun, tokens), ' ', Blanks(n - 1));
    EndingNext(begun, tokens, ' ');
    BlanksFeed(At(None, tokens + Ending(begun, ' ')), n - 1);
  }

  lemma EolFeeds(begun: Begun, tokens: seq<Token>)
    ensures Feed(At(begun, tokens), "\n") == At(None, tokens + (Ending(begun, '\n') + [Newline]))
  {
    FeedOne(At(begun, tokens), '\n', "");
    EndingNext(begun, tokens, '\n');
    Regroup(tokens, Ending(begun, '\n'), [Newline]);
  }

  lemma OpFeeds(begun: Begun, tokens: seq<Token>, op: OperatorText)
    ensures Feed(At(begun, tokens), op) == Lexer(InOperator(op), [], tokens + Ending(begun, op[0]))
  {
    var opening := Lexer(InOperator([op[0]]), [], tokens + Ending(begun, op[0]));
    assert op == [op[0]] + op[1..];
    FeedOne(At(begun, tokens), op[0], op[1..]);
    EndingNext(begun, tokens, op[0]);
    if |op| == 2 {
      assert [op[0]] + [op[1]] == op && op[1..] == [op[1]] + "";
      FeedOne(opening, op[1], "");
    } else {
      assert op == [op[0]] && op[1..] == "";
    }
  }

  /** An operator is over where the next character cannot belong to it. */
  lemma OpEnds(op: string, tokens: seq<Token>, rest: string)
    requires rest != "" && !IsOperator(op + [rest[0]])
    ensures Feed(Lexer(InOperator(op), [], tokens), rest) == Feed(At(None, tokens + [Operator(op)]), rest)
  {
  }

  lemma OpThen(begun: Begun, tokens: seq<Token>, op: OperatorText, rest: string)
    requires rest != "" && !IsOperator(op + [rest[0]])
    ensures Feed(At(begun, tokens), op + rest) == Feed(At(None, tokens + (Ending(begun, op[0]) + [Operator(op)])), rest)
  {
    FeedAppend(At(begun, tokens), op, rest);
    OpFeeds(begun, tokens, op);
    OpEnds(op, tokens + Ending(begun, op[0]), rest);
    Regroup(tokens, Ending(begun, op[0]), [Operator(op)]);
  }

  lemma OpGapFeeds(begun: Begun, tokens: seq<Token>, op: OperatorText)
    ensures Feed(At(begun, tokens), op + " ") == At(None, tokens + (Ending(begun, op[0]) + [Operator(op)]))
  {
    OpThen(begun, tokens, op, " ");
    FeedOne(At(None, tokens + (Ending(begun, op[0]) + [Operator(op)])), ' ', "");
  }

  lemma OpEolFeeds(begun: Begun, tokens: seq<Token>, op: OperatorText)
    ensures Feed(At(begun, tokens), op + "\n") == At(None, tokens + (Ending(begun, op[0]) + [Operator(op), Newline]))
  {
    var done := tokens + (Ending(begun, op[0]) + [Operator(op)]);
    OpThen(begun, tokens, op, "\n");
    FeedOne(At(None, done), '\n', "");
    assert done + [Newline] == tokens + (Ending(begun, op[0]) + [Operator(op), Newline]);
  }

  lemma CallFeeds(begun: Begun, tokens: seq<Token>)
    ensures Feed(At(begun, tokens), "() ") == At(None, tokens + (Ending(begun, '(') + [Operator("("), Operator(")")]))
  {
    var opening := tokens + (Ending(begun, '(') + [Operator("(")]);
    assert "() " == "(" + ") ";
    OpThen(begun, tokens, "(", ") ");
    assert ") " == ")" + " ";
    OpGapFeeds(None, opening, ")");
    assert opening + ([] + [Operator(")")]) == tokens + (Ending(begun, '(') + [Operator("("), Operator(")")]);
  }

  lemma TargetBegins(target: Target)
    ensures TargetText(target) != "" && !IsOperatorChar(TargetText(target)[0])
  {
  }

  lemma TargetFeeds(tokens: seq<Token>, target: Target)
    ensures Feed(At(None, tokens), TargetText(target)) == At(Some(TargetItems(target)), tokens)
  {
    assert [] + TargetItems(target) == TargetItems(target);
    match target
    case ToQuoted(s) => QuoteFeeds(At(None, tokens), s);
    case ToExpanded(parts) => ExpandedFeeds(At(None, tokens), parts);
    case ToBare(word) => BareFeeds(At(None, tokens), word);
  }

  lemma RedirectionFeeds(begun: Begun, tokens: seq<Token>, op: OperatorText, target: Target)
    ensures Feed(At(begun, tokens), op + TargetText(target)) ==
      At(Some(TargetItems(target)), tokens + (Ending(begun, op[0]) + [Operator(op)]))
  {
    TargetBegins(target);
    OpThen(begun, tokens, op, TargetText(target));
    TargetFeeds(tokens + (Ending(begun, op[0]) + [Operator(op)]), target);
  }

  // Reading whole scripts

  lemma PartFeeds(begun: Begun, tokens: seq<Token>, p: Part)
    ensures var (last, more) := After(begun, p); Feed(At(begun, tokens), PartText(p)) == At(last, tokens + more)
  {
    assert tokens + [] == tokens;
    match p
    case Words(words) => WordsFeed(begun, tokens, words);
    case Verbatim(s) => SingleFeeds(At(begun, tokens), s);
    case Quoted(s) => QuoteFeeds(At(begun, tokens), s);
    case Expanded(parts) => ExpandedFeeds(At(begun, tokens), parts);
    case Fixed(s) => FixedFeeds(At(begun, tokens), s);
    case Param(c) => SpecialFeeds(At(begun, tokens), c, false);
    case Braces(text) => BraceFeeds(At(begun, tokens), text, false);
    case Sum(text) => SumFeeds(At(begun, tokens), text);
    case Gap(n) => GapFeeds(begun, tokens, n);
    case OpGap(op) => OpGapFeeds(begun, tokens, op);
    case CallGap => CallFeeds(begun, tokens);
    case From(target) => RedirectionFeeds(begun, tokens, "<", target);
    case Into(target) => RedirectionFeeds(begun, tokens, ">", target);
    case Onto(target) => RedirectionFeeds(begun, tokens, ">&", target);
  }

  lemma {:induction false} PartsFeed(begun: Begun, tokens: seq<Token>, parts: seq<Part>)
    ensures var (last, more) := PartsTokens(begun, parts);
      Feed(At(begun, tokens), PartsText(parts)) == At(last, tokens + more)
    decreases |parts|
  {
    if parts == [] {
      assert tokens + [] == tokens;
    } else {
      var (next, more) := After(begun, parts[0]);
      PartFeeds(begun, tokens, parts[0]);
      FeedAppend(At(begun, tokens), PartText(parts[0]), PartsText(parts[1..]));
      PartsFeed(next, tokens + more, parts[1..]);
      Regroup(tokens, more, PartsTokens(next, parts[1..]).1);
    }
  }

  lemma VarEolFeeds(begun: Begun, tokens: seq<Token>, name: Name)
    ensures Feed(At(begun, tokens), "$" + (name + "\n")) == At(None, tokens + [Word(Sofar(begun) + [Expand(name)]), Newline])
  {
    var lexer := At(begun, tokens);
    assert "$" + (name + "\n") == ("$" + name) + "\n";
    FeedAppend(lexer, "$" + name, "\n");
    VarFeeds(lexer, name, false);
    NameEnds(lexer, name, false, "\n");
    FeedOne(WithParameter(lexer, name, false), '\n', "");
    WordEnds(Sofar(begun) + [Expand(name)], tokens);
  }

  lemma EndFeeds(begun: Begun, tokens: seq<Token>, end: LineEnd)
    ensures Feed(At(begun, tokens), EndText(end)) == At(None, tokens + EndTokens(begun, end))
  {
    match end
    case Eol => EolFeeds(begun, tokens);
    case OpEol(op) => OpEolFeeds(begun, tokens, op);
    case VarEol(name) => VarEolFeeds(begun, tokens, name);
  }

  lemma LineFeeds(tokens: seq<Token>, line: Line)
    ensures Feed(At(None, tokens), LineText(line)) == At(None, tokens + LineTokens(line))
  {
    BlanksFeed(At(None, tokens), line.indent);
    match line
    case Note(indent, text) =>
      FeedAppend(At(None, tokens), Blanks(indent), "#" + (text + "\n"));
      NoteFeeds(tokens, text);
    case Code(indent, parts, end) =>
      var (last, more) := PartsTokens(None, parts);
      FeedAppend(At(None, tokens), Blanks(indent), PartsText(parts) + EndText(end));
      FeedAppend(At(None, tokens), PartsText(parts), EndText(end));
      PartsFeed(None, tokens, parts);
      EndFeeds(last, tokens + more, end);
      Regroup(tokens, more, EndTokens(last, end));
  }

  /** Between two tokens the tokenizer reads the text of any script as the script's tokens. */
  lemma {:induction false} ScriptFeeds(tokens: seq<Token>, lines: seq<Line>)
    ensures Feed(Lexer(Blank, [], tokens), Render(lines)) == Lexer(Blank, [], tokens + Meaning(lines))
    decreases |lines|
  {
    if lines == [] {
      assert tokens + [] == tokens;
    } else {
      var after := tokens + LineTokens(lines[0]);
      LineFeeds(tokens, lines[0]);
      FeedAppend(At(None, tokens), LineText(lines[0]), Render(lines[1..]));
      ScriptFeeds(after, lines[1..]);
      Regroup(tokens, LineTokens(lines[0]), Meaning(lines[1..]));
    }
  }
}
