/** The compiler from a `.dockerignore` pattern to the text of a regular expression. */
module Glob {
  import opened Options
  import opened Regex

  predicate NewlineFree(s: string) {
    '\n' !in s
  }

  // What a pattern means

  /** Python's `str.find` for one character. */
  function Find(s: string, c: char, from: nat): (r: int)
    requires from <= |s|
    ensures r == -1 <==> c !in s[from..]
    ensures r != -1 ==> from <= r < |s| && s[r] == c && c !in s[from..r]
    decreases |s| - from
  {
    if from == |s| then -1
    else if s[from] == c then from
    else
      assert s[from..] == [s[from]] + s[from + 1..];
      var r := Find(s, c, from + 1);
      assert r != -1 ==> s[from..r] == [s[from]] + s[from + 1..r];
      r
  }

  lemma FindInSuffix(s: string, c: char, start: nat, from: nat)
    requires start + from <= |s|
    ensures Find(s[start..], c, from) == if Find(s, c, start + from) == -1 then -1 else Find(s, c, start + from) - start
    decreases |s| - from
  {
    if start + from < |s| && s[start + from] != c {
      FindInSuffix(s, c, start, from + 1);
    }
  }

  /** The text between the brackets, with `!` turned into `^` and backslashes doubled. */
  function ClassText(body: string): string {
    var text := if body != "" && body[0] == '!' then "^" + body[1..] else body;
    DoubleBackslashes(text)
  }

  function DoubleBackslashes(s: string): string {
    if s == "" then "" else (if s[0] == '\\' then "\\\\" else [s[0]]) + DoubleBackslashes(s[1..])
  }

  /** The direct matcher: `p` matches the whole of `s`. */
  predicate GlobMatch(sets: Sets, p: string, s: string)
    decreases |p|, |s|, 0
  {
    if p == "" then s == ""
    else if p[0] == '*' then
      if |p| > 1 && p[1] == '*' then
        if |p| > 2 && p[2] == '/' then GlobMatch(sets, p[3..], s) || AfterSomeSlash(sets, p[3..], s)
        else AfterAnything(sets, p[2..], s)
      else AfterSegment(sets, p[1..], s)
    else if s == "" then false
    else if p[0] == '?' then s[0] != '/' && GlobMatch(sets, p[1..], s[1..])
    else if p[0] == '[' && ']' in p[1..] then
      var closing := Find(p, ']', 1);
      OneMatches(sets, Set(ClassText(p[1..closing])), s[0]) && GlobMatch(sets, p[closing + 1..], s[1..])
    else if p[0] == '\\' && |p| > 1 then s[0] == p[1] && GlobMatch(sets, p[2..], s[1..])
    else s[0] == p[0] && GlobMatch(sets, p[1..], s[1..])
  }

  /** `p` matches what follows some slash of `s`. */
  predicate AfterSomeSlash(sets: Sets, p: string, s: string)
    decreases |p|, |s|, 1
  {
    s != "" && ((s[0] == '/' && GlobMatch(sets, p, s[1..])) || AfterSomeSlash(sets, p, s[1..]))
  }

  /** `p` matches some suffix of `s`. */
  predicate AfterAnything(sets: Sets, p: string, s: string)
    decreases |p|, |s|, 1
  {
    GlobMatch(sets, p, s) || (s != "" && AfterAnything(sets, p, s[1..]))
  }

  /** `p` matches a suffix of `s` that is reached without passing a slash. */
  predicate AfterSegment(sets: Sets, p: string, s: string)
    decreases |p|, |s|, 1
  {
    GlobMatch(sets, p, s) || (s != "" && s[0] != '/' && AfterSegment(sets, p, s[1..]))
  }

  /** A pattern accepts the paths it matches and everything below them. */
  ghost predicate Accepts(sets: Sets, pattern: string, path: string) {
    GlobMatch(sets, pattern, path) || exists j :: AcceptsAncestor(sets, pattern, path, j)
  }

  predicate AcceptsAncestor(sets: Sets, pattern: string, path: string, j: int) {
    0 <= j < |path| && path[j] == '/' && GlobMatch(sets, pattern, path[..j])
  }

  // Compilation

  const NOT_A_SLASH := Just(Once(Set(NOT_SLASH)))             // [^/]
  const SEGMENT := Just(Many(Set(NOT_SLASH)))                 // [^/]*
  const ANYTHING := Just(Many(Dot))                           // .*
  const DIRECTORIES := Maybe([Many(Dot), Once(Char('/'))])    // (?:.*/)?
  const DESCENDANTS := Maybe([Once(Char('/')), Many(Dot)])    // (?:/.*)?

  /** The item for the beginning of a pattern and how much of the pattern it stands for. */
  function Head(p: string): (r: (Item, nat))
    requires p != ""
    ensures 0 < r.1 <= |p|
  {
    if p[0] == '*' then
      if |p| > 1 && p[1] == '*' then
        if |p| > 2 && p[2] == '/' then (DIRECTORIES, 3) else (ANYTHING, 2)
      else (SEGMENT, 1)
    else if p[0] == '?' then (NOT_A_SLASH, 1)
    else if p[0] == '[' then
      var closing := Find(p, ']', 1);
      if closing == -1 then (Just(Once(Char('['))), 1) else (Just(Once(Set(ClassText(p[1..closing])))), closing + 1)
    else if p[0] == '\\' && |p| > 1 then (Just(Once(Char(p[1]))), 2)
    else (Just(Once(Char(p[0]))), 1)
  }

  function Items(p: string): seq<Item> {
    if p == "" then [] else [Head(p).0] + Items(p[Head(p).1..])
  }

  /** A bracket expression without a member: `[]`, `[!]` or `[^]`. */
  predicate HasEmptyBracket(p: string) {
    && p != ""
    && (|| (p[0] == '[' && ']' in p[1..] && (p[1] == ']' || ((p[1] == '!' || p[1] == '^') && p[2] == ']')))
        || HasEmptyBracket(p[Head(p).1..]))
  }

  /** Read as a regular expression, the text accepts exactly the paths the pattern accepts. */
  ghost predicate Implements(text: string, pattern: string) {
    Parse(text).Some? && forall sets, path | NewlineFree(path) ::
      FullMatch(sets, Parse(text).value, path) <==> Accepts(sets, pattern, path)
  }

  /** `_compile_ignore_pattern`, up to the call of the regular-expression parser. */
  method CompileIgnorePattern(pattern: string) returns (expression: string)
    ensures Parse(expression) == Some(Items(pattern) + [DESCENDANTS]) <==> !HasEmptyBracket(pattern)
    ensures !HasEmptyBracket(pattern) ==> Implements(expression, pattern)
    ensures NewlineFree(pattern) && HasEmptyBracket(pattern) ==> !Implements(expression, pattern)
  {
    expression := "";
    var index := 0;
    while index < |pattern|
      invariant 0 <= index <= |pattern|
      invariant Compiled(expression, pattern, index)
    {
      ghost var done, start := expression, index;
      var character := pattern[index];
      if character == '*' {
        StarText(pattern, index);
        if index + 1 < |pattern| && pattern[index + 1] == '*' {
          index := index + 1;
          if index + 1 < |pattern| && pattern[index + 1] == '/' {
            index := index + 1;
            expression := expression + "(?:.*/)?";
          } else {
            expression := expression + ".*";
          }
        } else {
          expression := expression + "[^/]*";
        }
      } else if character == '?' {
        CharacterText(pattern, index);
        expression := expression + "[^/]";
      } else if character == '[' {
        BracketText(pattern, index);
        var closing := Find(pattern, ']', index + 1);
        if closing == -1 {
          expression := expression + "\\[";
        } else {
          expression := expression + ("[" + (ClassText(pattern[index + 1..closing]) + "]"));
          index := closing;
        }
      } else if character == '\\' && index + 1 < |pattern| {
        CharacterText(pattern, index);
        index := index + 1;
        expression := expression + Escape(pattern[index]);
      } else {
        CharacterText(pattern, index);
        expression := expression + Escape(character);
      }
      index := index + 1;
      OneMoreItem(pattern, done, start, expression, index);
    }
    CompiledIsReadBack(expression, pattern);
    expression := expression + "(?:/.*)?";
  }

  // The compilation theorem

  /** An item takes a piece of the path and the rest of the pattern matches what remains. */
  ghost predicate ItemSplitsAt(sets: Sets, item: Item, p: string, s: string, k: int) {
    0 <= k <= |s| && ItemMatches(sets, item, s[..k]) && GlobMatch(sets, p, s[k..])
  }

  predicate MatchesFrom(sets: Sets, p: string, s: string, k: int) {
    0 <= k <= |s| && GlobMatch(sets, p, s[k..])
  }

  /** Matching from a place in the tail of a string is matching from the next place of the string. */
  lemma MatchesFromTail(sets: Sets, p: string, s: string)
    requires s != ""
    ensures forall k :: MatchesFrom(sets, p, s[1..], k) ==> MatchesFrom(sets, p, s, k + 1)
    ensures forall k :: k > 0 && MatchesFrom(sets, p, s, k) ==> MatchesFrom(sets, p, s[1..], k - 1)
    ensures GlobMatch(sets, p, s) <==> MatchesFrom(sets, p, s, 0)
  {
    assert s[0..] == s;
    assert forall k :: 0 <= k < |s| ==> s[1..][k..] == s[k + 1..];
  }

  predicate MatchesAfterSlash(sets: Sets, p: string, s: string, k: int) {
    0 < k <= |s| && s[k - 1] == '/' && GlobMatch(sets, p, s[k..])
  }

  lemma {:induction false} AfterSomeSlashSplits(sets: Sets, p: string, s: string)
    ensures AfterSomeSlash(sets, p, s) <==> exists k :: MatchesAfterSlash(sets, p, s, k)
    decreases |s|
  {
    if s != "" {
      var t := s[1..];
      AfterSomeSlashSplits(sets, p, t);
      assert forall k :: 0 <= k < |s| ==> t[k..] == s[k + 1..];
      assert forall k :: MatchesAfterSlash(sets, p, t, k) ==> MatchesAfterSlash(sets, p, s, k + 1);
      assert forall k :: k > 1 && MatchesAfterSlash(sets, p, s, k) ==> MatchesAfterSlash(sets, p, t, k - 1);
      assert MatchesAfterSlash(sets, p, s, 1) <==> s[0] == '/' && GlobMatch(sets, p, t);
    }
  }

  lemma {:induction false} AfterAnythingSplits(sets: Sets, p: string, s: string)
    ensures AfterAnything(sets, p, s) <==> exists k :: MatchesFrom(sets, p, s, k)
    decreases |s|
  {
    assert s[0..] == s;
    assert GlobMatch(sets, p, s) <==> MatchesFrom(sets, p, s, 0);
    if s != "" {
      AfterAnythingSplits(sets, p, s[1..]);
      MatchesFromTail(sets, p, s);
    }
  }

  lemma {:induction false} AfterSegmentSplits(sets: Sets, p: string, s: string)
    ensures AfterSegment(sets, p, s) <==> exists k :: MatchesFrom(sets, p, s, k) && '/' !in s[..k]
    decreases |s|
  {
    assert s[0..] == s && s[..0] == "";
    assert GlobMatch(sets, p, s) <==> MatchesFrom(sets, p, s, 0);
    if s != "" {
      AfterSegmentSplits(sets, p, s[1..]);
      MatchesFromTail(sets, p, s);
      assert forall k :: 0 <= k < |s| ==> s[..k + 1] == [s[0]] + s[1..][..k];
    }
  }

  lemma SegmentMeaning(sets: Sets, p: string, s: string)
    ensures AfterSegment(sets, p, s) <==> exists k :: ItemSplitsAt(sets, SEGMENT, p, s, k)
  {
    AfterSegmentSplits(sets, p, s);
    assert forall k :: ItemSplitsAt(sets, SEGMENT, p, s, k) <==> MatchesFrom(sets, p, s, k) && '/' !in s[..k];
  }

  lemma AnythingMeaning(sets: Sets, p: string, s: string)
    requires NewlineFree(s)
    ensures AfterAnything(sets, p, s) <==> exists k :: ItemSplitsAt(sets, ANYTHING, p, s, k)
  {
    AfterAnythingSplits(sets, p, s);
    assert forall k :: ItemSplitsAt(sets, ANYTHING, p, s, k) <==> MatchesFrom(sets, p, s, k);
  }

  lemma SomeDirectoriesMeaning(sets: Sets, p: string, s: string)
    requires NewlineFree(s)
    ensures GlobMatch(sets, p, s) || AfterSomeSlash(sets, p, s) <==> exists k :: ItemSplitsAt(sets, DIRECTORIES, p, s, k)
  {
    AfterSomeSlashSplits(sets, p, s);
    assert s[0..] == s && s[..0] == "";
    if GlobMatch(sets, p, s) {
      assert ItemSplitsAt(sets, DIRECTORIES, p, s, 0);
    }
    if AfterSomeSlash(sets, p, s) {
      var k :| MatchesAfterSlash(sets, p, s, k);
      DirectoriesMeaning(sets, s[..k]);
      assert ItemSplitsAt(sets, DIRECTORIES, p, s, k);
    }
    if exists k :: ItemSplitsAt(sets, DIRECTORIES, p, s, k) {
      var k :| ItemSplitsAt(sets, DIRECTORIES, p, s, k);
      DirectoriesMeaning(sets, s[..k]);
      assert k == 0 || MatchesAfterSlash(sets, p, s, k);
    }
  }

  lemma OneMeaning(sets: Sets, one: One, p: string, s: string)
    ensures s != "" && OneMatches(sets, one, s[0]) && GlobMatch(sets, p, s[1..]) <==>
      exists k :: ItemSplitsAt(sets, Just(Once(one)), p, s, k)
  {
    assert forall k :: ItemSplitsAt(sets, Just(Once(one)), p, s, k) ==> k == 1;
    assert s != "" ==> s[..1] == [s[0]];
    assert s != "" && OneMatches(sets, one, s[0]) && GlobMatch(sets, p, s[1..]) ==>
      ItemSplitsAt(sets, Just(Once(one)), p, s, 1);
  }

  lemma DirectoriesMeaning(sets: Sets, s: string)
    requires NewlineFree(s)
    ensures ItemMatches(sets, DIRECTORIES, s) <==> s == "" || s[|s| - 1] == '/'
  {
    var group := [Many(Dot), Once(Char('/'))];
    assert group[1..] == [Once(Char('/'))] && group[1..][1..] == [];
    if s != "" {
      var k := |s| - 1;
      assert s[k..] == [s[k]] && s[k..][..1] == s[k..] && s[k..][1..] == "";
      assert s[k] == '/' ==> GroupSplitsAt(sets, group[1..], s[k..], 1) && GroupSplitsAt(sets, group, s, k);
      forall n, m | GroupSplitsAt(sets, group, s, n) && GroupSplitsAt(sets, group[1..], s[n..], m)
        ensures s[|s| - 1] == '/'
      {
        assert GroupMatches(sets, [], s[n..][m..]);
        assert m == 1 && n == |s| - 1 && s[n..][..m] == [s[n]];
      }
      assert forall n :: GroupSplitsAt(sets, group, s, n) ==> GroupMatches(sets, group[1..], s[n..]);
    }
  }

  lemma DescendantsMeaning(sets: Sets, s: string)
    requires NewlineFree(s)
    ensures ItemMatches(sets, DESCENDANTS, s) <==> s == "" || s[0] == '/'
  {
    var group := [Once(Char('/')), Many(Dot)];
    assert group[1..] == [Many(Dot)] && group[1..][1..] == [];
    if s != "" {
      var t := s[1..];
      assert s[..1] == [s[0]] && t[..|t|] == t && t[|t|..] == "";
      assert GroupSplitsAt(sets, group[1..], t, |t|);
      assert s[0] == '/' ==> GroupSplitsAt(sets, group, s, 1);
      forall k | GroupSplitsAt(sets, group, s, k)
        ensures s[0] == '/'
      {
        assert s[..k] == [s[0]];
      }
    }
  }

  /** A head that stands for one character. */
  lemma OneHeadMeaning(sets: Sets, p: string, s: string)
    requires p != "" && p[0] != '*'
    ensures Head(p).0.Just? && Head(p).0.simple.Once?
    ensures GlobMatch(sets, p, s) <==>
      s != "" && OneMatches(sets, Head(p).0.simple.one, s[0]) && GlobMatch(sets, p[Head(p).1..], s[1..])
  {
  }

  lemma StarHeadMeaning(sets: Sets, p: string, s: string)
    requires p != "" && p[0] == '*'
    ensures var (item, length) := Head(p); var rest := p[length..];
      && (length == 1 ==> item == SEGMENT && (GlobMatch(sets, p, s) <==> AfterSegment(sets, rest, s)))
      && (length == 2 ==> item == ANYTHING && (GlobMatch(sets, p, s) <==> AfterAnything(sets, rest, s)))
      && (length == 3 ==>
        item == DIRECTORIES && (GlobMatch(sets, p, s) <==> GlobMatch(sets, rest, s) || AfterSomeSlash(sets, rest, s)))
      && length <= 3
  {
  }

  lemma HeadMeaning(sets: Sets, p: string, s: string)
    requires p != "" && NewlineFree(s)
    ensures GlobMatch(sets, p, s) <==> exists k :: ItemSplitsAt(sets, Head(p).0, p[Head(p).1..], s, k)
  {
    var (item, length) := Head(p);
    var rest := p[length..];
    if p[0] != '*' {
      OneHeadMeaning(sets, p, s);
      OneMeaning(sets, item.simple.one, rest, s);
    } else {
      StarHeadMeaning(sets, p, s);
      if length == 1 {
        SegmentMeaning(sets, rest, s);
      } else if length == 2 {
        AnythingMeaning(sets, rest, s);
      } else {
        SomeDirectoriesMeaning(sets, rest, s);
      }
    }
  }

  lemma {:induction false} ItemsMeaning(sets: Sets, p: string, s: string)
    requires NewlineFree(s)
    ensures FullMatch(sets, Items(p), s) <==> GlobMatch(sets, p, s)
    decreases |p|
  {
    if p != "" {
      var rest := p[Head(p).1..];
      HeadMeaning(sets, p, s);
      assert Items(p)[0] == Head(p).0 && Items(p)[1..] == Items(rest);
      forall k | 0 <= k <= |s|
        ensures SplitsAt(sets, Items(p), s, k) <==> ItemSplitsAt(sets, Head(p).0, rest, s, k)
      {
        ItemsMeaning(sets, rest, s[k..]);
      }
    }
  }

  /** The compiled expression accepts a path exactly when the pattern matches the path or one of its ancestors. */
  lemma CompilationPreservesMeaning(sets: Sets, pattern: string, path: string)
    requires NewlineFree(path)
    ensures FullMatch(sets, Items(pattern) + [DESCENDANTS], path) <==> Accepts(sets, pattern, path)
  {
    var items := Items(pattern);
    if FullMatch(sets, items + [DESCENDANTS], path) {
      var j := DivideMatch(sets, items, [DESCENDANTS], path);
      OneItemMatches(sets, DESCENDANTS, path[j..]);
      DescendantsMeaning(sets, path[j..]);
      ItemsMeaning(sets, pattern, path[..j]);
      assert j == |path| ==> path[..j] == path;
      assert j < |path| ==> AcceptsAncestor(sets, pattern, path, j);
    }
    if Accepts(sets, pattern, path) {
      var j: nat := if GlobMatch(sets, pattern, path) then |path| else
        var i :| AcceptsAncestor(sets, pattern, path, i);
        i;
      assert path[..|path|] == path;
      OneItemMatches(sets, DESCENDANTS, path[j..]);
      DescendantsMeaning(sets, path[j..]);
      ItemsMeaning(sets, pattern, path[..j]);
      JoinMatches(sets, items, [DESCENDANTS], path, j);
    }
  }

  // The text of the compiled expression

  /** What is written for the first item of `p`. */
  function HeadText(p: string): string
    requires p != ""
  {
    ItemThen(Head(p).0, "")
  }

  /** What has been written is the text of what lies before `index`. */
  predicate Compiled(expression: string, pattern: string, index: nat) {
    && index <= |pattern|
    && expression + Text(Items(pattern[index..]) + [DESCENDANTS]) == Text(Items(pattern) + [DESCENDANTS])
  }

  lemma SimpleThenAppends(simple: Simple, a: string, b: string)
    ensures SimpleThen(simple, a + b) == SimpleThen(simple, a) + b
  {
    Regroup(OneText(simple.one), a, b);
    Regroup("*", a, b);
    Regroup(OneText(simple.one), "*" + a, b);
  }

  lemma {:induction false} GroupThenAppends(group: seq<Simple>, a: string, b: string)
    ensures GroupThen(group, a + b) == GroupThen(group, a) + b
    decreases |group|
  {
    if group != [] {
      GroupThenAppends(group[1..], a, b);
      SimpleThenAppends(group[0], GroupThen(group[1..], a), b);
    }
  }

  lemma ItemThenAppends(item: Item, rest: string)
    ensures ItemThen(item, rest) == ItemThen(item, "") + rest
  {
    assert "" + rest == rest;
    match item {
      case Just(simple) => SimpleThenAppends(simple, "", rest);
      case Maybe(group) =>
        assert ")?" + "" == ")?";
        GroupThenAppends(group, ")?", rest);
        Regroup("(?:", GroupThen(group, ")?"), rest);
    }
  }

  lemma OneMoreItem(pattern: string, done: string, start: nat, expression: string, index: nat)
    requires Compiled(done, pattern, start) && start < |pattern|
    requires var rest := pattern[start..]; expression == done + HeadText(rest) && index == start + Head(rest).1
    ensures Compiled(expression, pattern, index)
  {
    var rest := pattern[start..];
    assert pattern[index..] == rest[Head(rest).1..];
    var after := Items(pattern[index..]) + [DESCENDANTS];
    assert Items(rest) + [DESCENDANTS] == [Head(rest).0] + after;
    assert ([Head(rest).0] + after)[1..] == after;
    ItemThenAppends(Head(rest).0, Text(after));
    Regroup(done, HeadText(rest), Text(after));
  }

  lemma DescendantsText()
    ensures Text([DESCENDANTS]) == "(?:/.*)?"
  {
    assert [DESCENDANTS][1..] == [];
    var group := [Once(Char('/')), Many(Dot)];
    assert group[1..] == [Many(Dot)] && group[1..][1..] == [];
    assert ")?" + "" == ")?";
    assert GroupThen(group[1..], ")?") == ".*)?";
    assert GroupThen(group, ")?") == "/.*)?";
  }

  lemma DirectoriesText()
    ensures ItemThen(DIRECTORIES, "") == "(?:.*/)?"
  {
    var group := [Many(Dot), Once(Char('/'))];
    assert group[1..] == [Once(Char('/'))] && group[1..][1..] == [];
    assert ")?" + "" == ")?";
    assert GroupThen(group[1..], ")?") == "/)?";
    assert GroupThen(group, ")?") == ".*/)?";
  }

  // Which compiled texts are read back

  lemma {:induction false} DoubledIsClosed(s: string)
    requires ']' !in s
    ensures Closed(DoubleBackslashes(s))
    decreases |s|
  {
    if s != "" {
      DoubledIsClosed(s[1..]);
      assert s[0] == '\\' ==> DoubleBackslashes(s)[2..] == DoubleBackslashes(s[1..]);
      assert s[0] != '\\' ==> DoubleBackslashes(s)[1..] == DoubleBackslashes(s[1..]);
    }
  }

  lemma HeadIsClosed(p: string)
    requires p != ""
    ensures ClosedItems([Head(p).0])
  {
    if p[0] == '[' && ']' in p[1..] {
      var body := p[1..Find(p, ']', 1)];
      DoubledIsClosed(if body != "" && body[0] == '!' then "^" + body[1..] else body);
    }
  }

  lemma {:induction false} CompiledItemsAreClosed(p: string)
    ensures ClosedItems(Items(p) + [DESCENDANTS])
    decreases |p|
  {
    if p == "" {
      assert Items(p) + [DESCENDANTS] == [DESCENDANTS];
    } else {
      var rest := p[Head(p).1..];
      CompiledItemsAreClosed(rest);
      HeadIsClosed(p);
      assert Items(p) + [DESCENDANTS] == [Head(p).0] + (Items(rest) + [DESCENDANTS]);
      ClosedStep([Head(p).0], Items(rest) + [DESCENDANTS]);
    }
  }

  lemma ClosedStep(a: seq<Item>, b: seq<Item>)
    requires ClosedItems(a) && ClosedItems(b)
    ensures ClosedItems(a + b)
  {
  }

  lemma DoubledEmpty(s: string)
    ensures DoubleBackslashes(s) == "" <==> s == ""
    ensures DoubleBackslashes(s) == "^" <==> s == "^"
  {
    if s != "" {
      assert DoubleBackslashes(s) != "";
      assert s[0] != '\\' ==> DoubleBackslashes(s)[1..] == DoubleBackslashes(s[1..]);
    }
  }

  lemma {:induction false} EmptyBracketIsEmptySet(p: string)
    ensures HasEmptyBracket(p) <==> !WellFormed(Items(p) + [DESCENDANTS])
    decreases |p|
  {
    if p != "" {
      var rest := p[Head(p).1..];
      EmptyBracketIsEmptySet(rest);
      assert Items(p) + [DESCENDANTS] == [Head(p).0] + (Items(rest) + [DESCENDANTS]);
      WellFormedStep(Head(p).0, Items(rest) + [DESCENDANTS]);
      EmptyHead(p);
    }
  }

  lemma WellFormedStep(item: Item, items: seq<Item>)
    ensures WellFormed([item] + items) <==> WellFormedItem(item) && WellFormed(items)
  {
    assert forall i :: 0 <= i < |items| ==> ([item] + items)[i + 1] == items[i];
    assert ([item] + items)[0] == item;
  }

  lemma EmptyHead(p: string)
    requires p != ""
    ensures !WellFormedItem(Head(p).0) <==>
      p[0] == '[' && ']' in p[1..] && (p[1] == ']' || ((p[1] == '!' || p[1] == '^') && p[2] == ']'))
  {
    if p[0] == '[' && ']' in p[1..] {
      var closing := Find(p, ']', 1);
      var body := p[1..closing];
      DoubledEmpty(if body != "" && body[0] == '!' then "^" + body[1..] else body);
      assert closing > 1 ==> body[0] == p[1];
      assert closing > 1 ==> p[1] != ']' by { assert closing > 1 ==> p[1] in p[1..closing]; }
      assert closing > 2 ==> p[2] != ']' by { assert closing > 2 ==> p[2] in p[1..closing]; }
      assert closing == 2 ==> body == [p[1]];
    }
  }

  lemma CompiledIsReadBack(expression: string, pattern: string)
    requires Compiled(expression, pattern, |pattern|)
    ensures var text := expression + "(?:/.*)?";
      && (Parse(text) == Some(Items(pattern) + [DESCENDANTS]) <==> !HasEmptyBracket(pattern))
      && (!HasEmptyBracket(pattern) ==> Implements(text, pattern))
      && (NewlineFree(pattern) && HasEmptyBracket(pattern) ==> !Implements(text, pattern))
  {
    var items := Items(pattern) + [DESCENDANTS];
    assert pattern[|pattern|..] == "" && [] + [DESCENDANTS] == [DESCENDANTS];
    DescendantsText();
    CompiledItemsAreClosed(pattern);
    TextIsReadBack(items);
    EmptyBracketIsEmptySet(pattern);
    forall sets, path | NewlineFree(path)
      ensures FullMatch(sets, items, path) <==> Accepts(sets, pattern, path)
    {
      CompilationPreservesMeaning(sets, pattern, path);
    }
    if NewlineFree(pattern) && HasEmptyBracket(pattern) {
      EmptyBracketIsNotImplemented(pattern);
    }
  }

  // A pattern with an empty bracket means nothing that its text can mean

  lemma {:induction false} DoubledOnOneLine(s: string)
    requires NewlineFree(s)
    ensures NewlineFree(DoubleBackslashes(s))
    decreases |s|
  {
    if s != "" {
      DoubledOnOneLine(s[1..]);
    }
  }

  lemma HeadTextOnOneLine(p: string)
    requires p != "" && NewlineFree(p)
    ensures NewlineFree(HeadText(p))
  {
    if p[0] == '*' {
      StarText(p, 0);
      assert p[0..] == p;
    } else if p[0] == '[' && Find(p, ']', 1) != -1 {
      var body := p[1..Find(p, ']', 1)];
      BracketHead(p, body);
      DoubledOnOneLine(if body != "" && body[0] == '!' then "^" + body[1..] else body);
    } else if p[0] == '[' {
      OpenBracketHead(p);
    } else {
      CharacterText(p, 0);
      assert p[0..] == p;
    }
  }

  lemma {:induction false} TextOnOneLine(p: string)
    requires NewlineFree(p)
    ensures NewlineFree(Text(Items(p) + [DESCENDANTS]))
    decreases |p|
  {
    DescendantsText();
    if p == "" {
      assert Items(p) + [DESCENDANTS] == [DESCENDANTS];
    } else {
      var rest := p[Head(p).1..];
      var after := Items(rest) + [DESCENDANTS];
      TextOnOneLine(rest);
      HeadTextOnOneLine(p);
      assert Items(p) + [DESCENDANTS] == [Head(p).0] + after;
      assert ([Head(p).0] + after)[1..] == after;
      ItemThenAppends(Head(p).0, Text(after));
    }
  }

  /** Where a set without members accepts nothing, a pattern with one matches nothing. */
  lemma {:induction false} EmptyBracketMatchesNothing(p: string, s: string)
    requires HasEmptyBracket(p) && NewlineFree(s)
    ensures !GlobMatch(FULL_SETS, p, s)
    decreases |p|
  {
    var rest := p[Head(p).1..];
    HeadMeaning(FULL_SETS, p, s);
    EmptyHead(p);
    forall k | 0 <= k <= |s|
      ensures !ItemSplitsAt(FULL_SETS, Head(p).0, rest, s, k)
    {
      if WellFormedItem(Head(p).0) {
        EmptyBracketMatchesNothing(rest, s[k..]);
      }
    }
  }

  lemma EmptyBracketIsNotImplemented(pattern: string)
    requires NewlineFree(pattern) && HasEmptyBracket(pattern)
    ensures !Implements(Text(Items(pattern) + [DESCENDANTS]), pattern)
  {
    var text := Text(Items(pattern) + [DESCENDANTS]);
    if Parse(text).Some? {
      TextOnOneLine(pattern);
      ParseOnOneLine(text);
      var path := SomethingMatches(Parse(text).value);
      EmptyBracketMatchesNothing(pattern, path);
      forall j | 0 <= j < |path|
        ensures !AcceptsAncestor(FULL_SETS, pattern, path, j)
      {
        EmptyBracketMatchesNothing(pattern, path[..j]);
      }
      assert !Accepts(FULL_SETS, pattern, path);
    }
  }

  // What each branch of the compiler has to write and pass over

  lemma StarText(pattern: string, i: nat)
    requires i < |pattern| && pattern[i] == '*'
    ensures var rest := pattern[i..]; var (text, length) := (HeadText(rest), Head(rest).1);
      if i + 1 < |pattern| && pattern[i + 1] == '*' then
        if i + 2 < |pattern| && pattern[i + 2] == '/' then text == "(?:.*/)?" && length == 3 else text == ".*" && length == 2
      else text == "[^/]*" && length == 1
  {
    DirectoriesText();
    assert OneText(Set(NOT_SLASH)) == "[^/]";
    assert pattern[i..][0] == '*';
  }

  lemma OneItemText(one: One)
    ensures ItemThen(Just(Once(one)), "") == OneText(one)
  {
    assert OneText(one) + "" == OneText(one);
  }

  lemma BracketHead(p: string, body: string)
    requires p != "" && p[0] == '[' && Find(p, ']', 1) != -1 && body == p[1..Find(p, ']', 1)]
    ensures HeadText(p) == "[" + (ClassText(body) + "]") && Head(p).1 == |body| + 2
  {
    OneItemText(Set(ClassText(body)));
  }

  lemma OpenBracketHead(p: string)
    requires p != "" && p[0] == '[' && Find(p, ']', 1) == -1
    ensures HeadText(p) == "\\[" && Head(p).1 == 1
  {
    OneItemText(Char('['));
  }

  lemma BracketText(pattern: string, i: nat)
    requires i < |pattern| && pattern[i] == '['
    ensures var rest := pattern[i..]; var closing := Find(pattern, ']', i + 1);
      if closing == -1 then HeadText(rest) == "\\[" && Head(rest).1 == 1
      else HeadText(rest) == "[" + (ClassText(pattern[i + 1..closing]) + "]") && i + Head(rest).1 == closing + 1
  {
    var rest := pattern[i..];
    FindInSuffix(pattern, ']', i, 1);
    var closing := Find(pattern, ']', i + 1);
    if closing == -1 {
      OpenBracketHead(rest);
    } else {
      var body := pattern[i + 1..closing];
      assert body == rest[1..closing - i];
      BracketHead(rest, body);
    }
  }

  lemma CharacterText(pattern: string, i: nat)
    requires i < |pattern| && pattern[i] != '*' && pattern[i] != '['
    ensures var rest := pattern[i..]; var (text, length) := (HeadText(rest), Head(rest).1);
      if pattern[i] == '?' then text == "[^/]" && length == 1
      else if pattern[i] == '\\' && i + 1 < |pattern| then text == Escape(pattern[i + 1]) && length == 2
      else text == Escape(pattern[i]) && length == 1
  {
    assert OneText(Set(NOT_SLASH)) == "[^/]";
    assert pattern[i..][0] == pattern[i];
  }
}
