/**
 The part of Python's regular-expression language that the `.dockerignore` compiler writes: its text,
 a parser for that text, and what an expression matches.
 */
module Regex {
  import opened Options

  /** What stands for one character: itself, `.`, or a bracketed set. */
  datatype One = Char(character: char) | Dot | Set(text: string)

  datatype Simple = Once(one: One) | Many(one: One)

  /** `Maybe(group)` is `(?:group)?`. */
  datatype Item = Just(simple: Simple) | Maybe(group: seq<Simple>)

  // Meaning

  /** What a bracketed set accepts is a parameter of the model, except for the one set the compiler itself writes. */
  type Sets = (string, char) -> bool

  const NOT_SLASH := "^/"

  predicate OneMatches(sets: Sets, one: One, c: char) {
    match one
    case Char(d) => c == d
    case Dot => c != '\n'
    case Set(text) => if text == NOT_SLASH then c != '/' else sets(text, c)
  }

  predicate SimpleMatches(sets: Sets, simple: Simple, s: string) {
    match simple
    case Once(one) => |s| == 1 && OneMatches(sets, one, s[0])
    case Many(one) => forall i :: 0 <= i < |s| ==> OneMatches(sets, one, s[i])
  }

  predicate GroupMatches(sets: Sets, group: seq<Simple>, s: string)
    decreases |group|, 1
  {
    if group == [] then s == "" else exists k | 0 <= k <= |s| :: GroupSplitsAt(sets, group, s, k)
  }

  predicate GroupSplitsAt(sets: Sets, group: seq<Simple>, s: string, k: int)
    requires group != []
    decreases |group|, 0
  {
    0 <= k <= |s| && SimpleMatches(sets, group[0], s[..k]) && GroupMatches(sets, group[1..], s[k..])
  }

  predicate ItemMatches(sets: Sets, item: Item, s: string) {
    match item
    case Just(simple) => SimpleMatches(sets, simple, s)
    case Maybe(group) => s == "" || GroupMatches(sets, group, s)
  }

  /** `fullmatch`: the string divides into one piece for each item. */
  predicate FullMatch(sets: Sets, items: seq<Item>, s: string)
    decreases |items|, 1
  {
    if items == [] then s == "" else exists k | 0 <= k <= |s| :: SplitsAt(sets, items, s, k)
  }

  predicate SplitsAt(sets: Sets, items: seq<Item>, s: string, k: int)
    requires items != []
    decreases |items|, 0
  {
    0 <= k <= |s| && ItemMatches(sets, items[0], s[..k]) && FullMatch(sets, items[1..], s[k..])
  }

  lemma {:induction false} DivideMatch(sets: Sets, a: seq<Item>, b: seq<Item>, s: string) returns (j: nat)
    requires FullMatch(sets, a + b, s)
    ensures j <= |s| && FullMatch(sets, a, s[..j]) && FullMatch(sets, b, s[j..])
    decreases |a|
  {
    if a == [] {
      assert a + b == b && s[0..] == s;
      j := 0;
    } else {
      var k :| 0 <= k <= |s| && SplitsAt(sets, a + b, s, k);
      assert (a + b)[1..] == a[1..] + b;
      var rest := DivideMatch(sets, a[1..], b, s[k..]);
      j := k + rest;
      assert s[..j][..k] == s[..k] && s[..j][k..] == s[k..][..rest] && s[j..] == s[k..][rest..];
      assert SplitsAt(sets, a, s[..j], k);
    }
  }

  lemma {:induction false} JoinMatches(sets: Sets, a: seq<Item>, b: seq<Item>, s: string, j: nat)
    requires j <= |s| && FullMatch(sets, a, s[..j]) && FullMatch(sets, b, s[j..])
    ensures FullMatch(sets, a + b, s)
    decreases |a|
  {
    if a == [] {
      assert a + b == b && s[j..] == s;
    } else {
      var k :| 0 <= k <= j && SplitsAt(sets, a, s[..j], k);
      assert s[..j][..k] == s[..k] && s[..j][k..] == s[k..][..j - k] && s[j..] == s[k..][j - k..];
      JoinMatches(sets, a[1..], b, s[k..], j - k);
      assert (a + b)[1..] == a[1..] + b;
      assert SplitsAt(sets, a + b, s, k);
    }
  }

  lemma OneItemMatches(sets: Sets, item: Item, s: string)
    ensures FullMatch(sets, [item], s) <==> ItemMatches(sets, item, s)
  {
    assert s[..|s|] == s && s[|s|..] == "";
    assert FullMatch(sets, [], "");
    assert ItemMatches(sets, item, s) ==> SplitsAt(sets, [item], s, |s|);
    forall k | SplitsAt(sets, [item], s, k)
      ensures k == |s|
    {
      assert FullMatch(sets, [], s[k..]);
    }
  }

  // Text

  /** The characters `re.escape` escapes. */
  predicate IsEscaped(c: char) {
    || c == '(' || c == ')' || c == '[' || c == ']' || c == '{' || c == '}' || c == '?' || c == '*' || c == '+'
    || c == '-' || c == '|' || c == '^' || c == '$' || c == '\\' || c == '.' || c == '&' || c == '~' || c == '#'
    || c == ' ' || c == '\t' || c == '\n' || c == '\r' || c == '\U{0B}' || c == '\U{0C}'
  }

  function Escape(c: char): string {
    if IsEscaped(c) then ['\\', c] else [c]
  }

  function OneText(one: One): (s: string)
    ensures s != "" && s[0] != '*' && s[0] != ')' && s[0] != '('
  {
    match one
    case Char(c) => Escape(c)
    case Dot => "."
    case Set(text) => "[" + (text + "]")
  }

  /** The text of a simple item, before what follows it. */
  function SimpleThen(simple: Simple, rest: string): string {
    match simple
    case Once(one) => OneText(one) + rest
    case Many(one) => OneText(one) + ("*" + rest)
  }

  function GroupThen(group: seq<Simple>, rest: string): string {
    if group == [] then rest else SimpleThen(group[0], GroupThen(group[1..], rest))
  }

  function ItemThen(item: Item, rest: string): string {
    match item
    case Just(simple) => SimpleThen(simple, rest)
    case Maybe(group) => "(?:" + GroupThen(group, ")?" + rest)
  }

  /** The text of an expression. */
  function Text(items: seq<Item>): string {
    if items == [] then "" else ItemThen(items[0], Text(items[1..]))
  }

  // Parser

  /** How many characters lie before the `]` that ends the members of a set, or -1. */
  function MembersLength(s: string): (n: int)
    ensures -1 <= n && (n >= 0 ==> n < |s|)
    ensures n >= 0 ==> s[n] == ']'
  {
    if s == "" then -1
    else if s[0] == ']' then 0
    else
      var first := if s[0] == '\\' then 2 else 1;
      var n := if |s| < first then -1 else MembersLength(s[first..]);
      if n == -1 then -1 else first + n
  }

  /** The same when at least one member is read first, which may be a `]`. */
  function NonemptyLength(s: string): (n: int)
    ensures n == -1 || (0 < n < |s| && s[n] == ']')
  {
    if s == "" then -1
    else
      var first := if s[0] == '\\' then 2 else 1;
      var n := if |s| < first then -1 else MembersLength(s[first..]);
      if n == -1 then -1 else first + n
  }

  /** The length of the set that begins after a `[`. */
  function SetLength(s: string): (n: int)
    ensures n == -1 || (0 < n < |s| && s[n] == ']' && s[..n] != "^")
  {
    if s != "" && s[0] == '^' then
      var n := NonemptyLength(s[1..]);
      if n == -1 then -1 else 1 + n
    else NonemptyLength(s)
  }

  /** A backslash before a letter or digit means something else than that character. */
  predicate IsAlphanumeric(c: char) {
    'a' <= c <= 'z' || 'A' <= c <= 'Z' || '0' <= c <= '9'
  }

  function ParseOne(s: string): (r: Option<(One, string)>)
    requires s != ""
    ensures r.Some? ==> |r.value.1| < |s|
    ensures r.Some? && r.value.0.Set? ==> r.value.0.text != "" && r.value.0.text != "^"
  {
    if s[0] == '.' then Some((Dot, s[1..]))
    else if s[0] == '[' then
      var n := SetLength(s[1..]);
      if n == -1 then None else Some((Set(s[1..][..n]), s[1..][n + 1..]))
    else if s[0] == '\\' then
      if |s| > 1 && !IsAlphanumeric(s[1]) then Some((Char(s[1]), s[2..])) else None
    else if s[0] == '*' || s[0] == '+' || s[0] == '?' || s[0] == '{' || s[0] == '(' || s[0] == ')' || s[0] == '|' || s[0] == '^' || s[0] == '$' then None
    else Some((Char(s[0]), s[1..]))
  }

  function ParseSimple(s: string): (r: Option<(Simple, string)>)
    requires s != ""
    ensures r.Some? ==> |r.value.1| < |s| && WellFormedOne(r.value.0.one)
  {
    match ParseOne(s)
    case None => None
    case Some((one, rest)) => if rest != "" && rest[0] == '*' then Some((Many(one), rest[1..])) else Some((Once(one), rest))
  }

  function ParseGroup(s: string): (r: Option<(seq<Simple>, string)>)
    ensures r.Some? ==> |r.value.1| <= |s| && WellFormedGroup(r.value.0)
    decreases |s|
  {
    if s == "" || s[0] == ')' then Some(([], s))
    else
      match ParseSimple(s)
      case None => None
      case Some((simple, rest)) =>
        match ParseGroup(rest)
        case None => None
        case Some((group, after)) => Some(([simple] + group, after))
  }

  function ParseItem(s: string): (r: Option<(Item, string)>)
    requires s != ""
    ensures r.Some? ==> |r.value.1| < |s| && WellFormedItem(r.value.0)
  {
    if |s| >= 3 && s[0] == '(' && s[1] == '?' && s[2] == ':' then
      match ParseGroup(s[3..])
      case None => None
      case Some((group, rest)) =>
        if |rest| >= 2 && rest[0] == ')' && rest[1] == '?' then Some((Maybe(group), rest[2..])) else None
    else
      match ParseSimple(s)
      case None => None
      case Some((simple, rest)) => Some((Just(simple), rest))
  }

  /** Read a whole expression, if it is one of this part of the language. */
  function Parse(s: string): (r: Option<seq<Item>>)
    ensures r.Some? ==> WellFormed(r.value)
    decreases |s|
  {
    if s == "" then Some([])
    else
      match ParseItem(s)
      case None => None
      case Some((item, rest)) =>
        match Parse(rest)
        case None => None
        case Some(items) => Some([item] + items)
  }

  // Printing and parsing

  /** A set without members would take the `]` meant to close it for its first one. */
  predicate WellFormedOne(one: One) {
    one.Set? ==> one.text != "" && one.text != "^"
  }

  predicate WellFormedGroup(group: seq<Simple>) {
    forall i :: 0 <= i < |group| ==> WellFormedOne(group[i].one)
  }

  predicate WellFormedItem(item: Item) {
    match item
    case Just(simple) => WellFormedOne(simple.one)
    case Maybe(group) => WellFormedGroup(group)
  }

  predicate WellFormed(items: seq<Item>) {
    forall i :: 0 <= i < |items| ==> WellFormedItem(items[i])
  }

  /** The text of a set neither ends early nor runs past its end. */
  predicate Closed(text: string) {
    if text == "" then true
    else if text[0] == '\\' then |text| > 1 && Closed(text[2..])
    else text[0] != ']' && Closed(text[1..])
  }

  predicate ClosedOne(one: One) {
    one.Set? ==> Closed(one.text)
  }

  predicate ClosedItems(items: seq<Item>) {
    forall i :: 0 <= i < |items| ==>
      match items[i]
      case Just(simple) => ClosedOne(simple.one)
      case Maybe(group) => forall j :: 0 <= j < |group| ==> ClosedOne(group[j].one)
  }

  lemma {:induction false} MembersEnd(text: string, rest: string)
    requires Closed(text)
    ensures MembersLength(text + ("]" + rest)) == |text|
    decreases |text|
  {
    var s := text + ("]" + rest);
    if text != "" {
      var first := if text[0] == '\\' then 2 else 1;
      assert s[first..] == text[first..] + ("]" + rest);
      MembersEnd(text[first..], rest);
    }
  }

  lemma DropFront(a: string, b: string, n: nat)
    requires n <= |a|
    ensures (a + b)[n..] == a[n..] + b
  {
  }

  lemma NonemptyEnds(text: string, rest: string)
    requires Closed(text) && text != ""
    ensures NonemptyLength(text + ("]" + rest)) == |text|
  {
    var first := if text[0] == '\\' then 2 else 1;
    DropFront(text, "]" + rest, first);
    MembersEnd(text[first..], rest);
  }

  lemma SetEnds(text: string, rest: string)
    requires Closed(text) && text != "" && text != "^"
    ensures SetLength(text + ("]" + rest)) == |text|
  {
    if text[0] == '^' {
      DropFront(text, "]" + rest, 1);
      assert text != "^" ==> text[1..] != "";
      NonemptyEnds(text[1..], rest);
    } else {
      NonemptyEnds(text, rest);
    }
  }

  lemma ParseSetText(text: string, rest: string)
    requires Closed(text) && text != "" && text != "^"
    ensures ParseOne("[" + (text + ("]" + rest))) == Some((Set(text), rest))
  {
    var tail := text + ("]" + rest);
    SetEnds(text, rest);
    assert ("[" + tail)[1..] == tail;
    assert tail[..|text|] == text && tail[|text| + 1..] == rest;
  }

  lemma ParseCharText(c: char, rest: string)
    ensures ParseOne(Escape(c) + rest) == Some((Char(c), rest))
  {
    assert ['\\', c] + rest == ['\\'] + ([c] + rest);
    assert (['\\', c] + rest)[2..] == rest && ([c] + rest)[1..] == rest;
  }

  lemma ParseOneText(one: One, rest: string)
    requires WellFormedOne(one) && ClosedOne(one)
    ensures ParseOne(OneText(one) + rest) == Some((one, rest))
  {
    match one {
      case Char(c) => ParseCharText(c, rest);
      case Dot => assert ("." + rest)[1..] == rest;
      case Set(text) =>
        ParseSetText(text, rest);
        SetTextThen(text, rest);
    }
  }

  lemma SetTextThen(text: string, rest: string)
    ensures OneText(Set(text)) + rest == "[" + (text + ("]" + rest))
  {
    assert ("[" + (text + "]")) + rest == "[" + ((text + "]") + rest);
    assert (text + "]") + rest == text + ("]" + rest);
  }

  lemma ParseSimpleText(simple: Simple, rest: string)
    requires WellFormedOne(simple.one) && ClosedOne(simple.one)
    requires rest == "" || rest[0] != '*'
    ensures ParseSimple(SimpleThen(simple, rest)) == Some((simple, rest))
  {
    match simple {
      case Once(one) => ParseOneText(one, rest);
      case Many(one) =>
        ParseOneText(one, "*" + rest);
        assert ("*" + rest)[1..] == rest;
    }
  }

  lemma SimpleBegins(simple: Simple, rest: string)
    ensures var s := SimpleThen(simple, rest); s != "" && s[0] != '*' && s[0] != ')'
  {
  }

  lemma ParseGroupStep(simple: Simple, group: seq<Simple>, s: string, after: string, rest: string)
    requires s != "" && s[0] != ')'
    requires ParseSimple(s) == Some((simple, after)) && ParseGroup(after) == Some((group, rest))
    ensures ParseGroup(s) == Some(([simple] + group, rest))
  {
  }

  lemma {:induction false} ParseGroupText(group: seq<Simple>, rest: string)
    requires WellFormedGroup(group) && forall j :: 0 <= j < |group| ==> ClosedOne(group[j].one)
    requires rest != "" && rest[0] == ')'
    ensures ParseGroup(GroupThen(group, rest)) == Some((group, rest))
    ensures GroupThen(group, rest) != "" && GroupThen(group, rest)[0] != '*'
    decreases |group|
  {
    if group != [] {
      ParseGroupText(group[1..], rest);
      var after := GroupThen(group[1..], rest);
      ParseSimpleText(group[0], after);
      SimpleBegins(group[0], after);
      ParseGroupStep(group[0], group[1..], SimpleThen(group[0], after), after, rest);
      assert [group[0]] + group[1..] == group;
    }
  }

  lemma ParseItemText(item: Item, rest: string)
    requires WellFormedItem(item) && ClosedItems([item])
    requires rest == "" || rest[0] != '*'
    ensures var s := ItemThen(item, rest); s != "" && s[0] != '*' && ParseItem(s) == Some((item, rest))
  {
    assert ClosedItems([item]) && [item][0] == item;
    match item {
      case Just(simple) => ParseSimpleText(simple, rest);
      case Maybe(group) =>
        ParseGroupText(group, ")?" + rest);
        var s := ItemThen(item, rest);
        assert s[3..] == GroupThen(group, ")?" + rest);
        assert (")?" + rest)[2..] == rest;
    }
  }

  lemma {:induction false} ParseTextOf(items: seq<Item>)
    requires WellFormed(items) && ClosedItems(items)
    ensures Parse(Text(items)) == Some(items)
    ensures Text(items) == "" || Text(items)[0] != '*'
    decreases |items|
  {
    if items != [] {
      ParseTextOf(items[1..]);
      ParseItemText(items[0], Text(items[1..]));
      assert [items[0]] + items[1..] == items;
    }
  }

  /** An expression is read back from its text exactly when it has no empty set. */
  lemma TextIsReadBack(items: seq<Item>)
    requires ClosedItems(items)
    ensures Parse(Text(items)) == Some(items) <==> WellFormed(items)
  {
    if WellFormed(items) {
      ParseTextOf(items);
    }
  }

  // What is parsed matches something

  /** An interpretation in which every set with a member accepts everything, and a set without one nothing. */
  const FULL_SETS: Sets := (text: string, c: char) => text != "" && text != "^"

  predicate OnOneLine(item: Item) {
    item.Just? && item.simple.one.Char? ==> item.simple.one.character != '\n'
  }

  lemma ParseOneOnOneLine(s: string)
    requires s != "" && '\n' !in s && ParseOne(s).Some?
    ensures var (one, rest) := ParseOne(s).value; '\n' !in rest && (one.Char? ==> one.character != '\n')
  {
    if s[0] == '[' {
      var t := s[1..];
      assert forall c :: c in t[SetLength(t) + 1..] ==> c in t;
    }
  }

  lemma ParseSimpleOnOneLine(s: string)
    requires s != "" && '\n' !in s && ParseSimple(s).Some?
    ensures var (simple, rest) := ParseSimple(s).value;
      '\n' !in rest && (simple.one.Char? ==> simple.one.character != '\n')
  {
    ParseOneOnOneLine(s);
  }

  lemma {:induction false} ParseGroupOnOneLine(s: string)
    requires '\n' !in s && ParseGroup(s).Some?
    ensures '\n' !in ParseGroup(s).value.1
    decreases |s|
  {
    if s != "" && s[0] != ')' {
      ParseSimpleOnOneLine(s);
      ParseGroupOnOneLine(ParseSimple(s).value.1);
    }
  }

  lemma ParseItemOnOneLine(s: string)
    requires s != "" && '\n' !in s && ParseItem(s).Some?
    ensures '\n' !in ParseItem(s).value.1 && OnOneLine(ParseItem(s).value.0)
  {
    if |s| >= 3 && s[0] == '(' && s[1] == '?' && s[2] == ':' {
      ParseGroupOnOneLine(s[3..]);
    } else {
      ParseSimpleOnOneLine(s);
    }
  }

  lemma {:induction false} ParseOnOneLine(s: string)
    requires '\n' !in s && Parse(s).Some?
    ensures forall item :: item in Parse(s).value ==> OnOneLine(item)
    decreases |s|
  {
    if s != "" {
      ParseItemOnOneLine(s);
      ParseOnOneLine(ParseItem(s).value.1);
    }
  }

  /** A piece of a line that an item takes. */
  function PieceFor(item: Item): string {
    if item.Just? && item.simple.Once? then [if item.simple.one.Char? then item.simple.one.character else 'a'] else ""
  }

  lemma PieceMatches(item: Item)
    requires WellFormedItem(item) && OnOneLine(item)
    ensures ItemMatches(FULL_SETS, item, PieceFor(item)) && '\n' !in PieceFor(item)
  {
  }

  /** Every expression that is parsed from one line matches some line. */
  lemma {:induction false} SomethingMatches(items: seq<Item>) returns (path: string)
    requires WellFormed(items) && forall item :: item in items ==> OnOneLine(item)
    ensures '\n' !in path && FullMatch(FULL_SETS, items, path)
    decreases |items|
  {
    path := "";
    if items != [] {
      var piece := PieceFor(items[0]);
      PieceMatches(items[0]);
      var rest := SomethingMatches(items[1..]);
      path := piece + rest;
      assert path[..|piece|] == piece && path[|piece|..] == rest;
      assert SplitsAt(FULL_SETS, items, path, |piece|);
    }
  }
}
