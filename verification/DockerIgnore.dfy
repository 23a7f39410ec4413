/** The rules of a `.dockerignore` file. */
module DockerIgnores {
  import opened Options
  import opened Regex
  import opened Glob

  datatype Rule = Rule(expression: seq<Item>, negated: bool)

  datatype DockerIgnore = DockerIgnore(rules: seq<Rule>, negatedPatterns: seq<string>)

  datatype Refusal = EmptyNegation | BadPattern

  // Lines

  /** `str.isspace` of one character. */
  predicate IsSpace(c: char) {
    || '\t' <= c <= '\r' || '\U{1C}' <= c <= ' ' || c == '\U{85}' || c == '\U{A0}' || c == '\U{1680}'
    || '\U{2000}' <= c <= '\U{200A}' || c == '\U{2028}' || c == '\U{2029}' || c == '\U{202F}' || c == '\U{205F}'
    || c == '\U{3000}'
  }

  predicate IsSlash(c: char) {
    c == '/'
  }

  function StripLeft(drop: char -> bool, s: string): string {
    if s != "" && drop(s[0]) then StripLeft(drop, s[1..]) else s
  }

  function StripRight(drop: char -> bool, s: string): string {
    if s != "" && drop(s[|s| - 1]) then StripRight(drop, s[..|s| - 1]) else s
  }

  function Strip(drop: char -> bool, s: string): string {
    StripRight(drop, StripLeft(drop, s))
  }

  function StripSpace(s: string): string {
    Strip(IsSpace, s)
  }

  function StripSlashes(s: string): string {
    Strip(IsSlash, s)
  }

  predicate IsNegation(line: string) {
    var text := StripSpace(line);
    (line == "" || line[0] != '#') && text != "" && text[0] == '!'
  }

  /** A negation of nothing. */
  predicate IsEmptyNegation(line: string) {
    IsNegation(line) && StripSpace(StripSpace(line)[1..]) == ""
  }

  predicate SomeEmptyNegation(lines: seq<string>) {
    lines != [] && (IsEmptyNegation(lines[|lines| - 1]) || SomeEmptyNegation(lines[..|lines| - 1]))
  }

  /** The pattern a line states, with its sign, if it states one. */
  function LinePattern(line: string): Option<(string, bool)> {
    var text := StripSpace(line);
    if (line != "" && line[0] == '#') || text == "" || text == "." then None
    else
      var negated := text[0] == '!';
      var pattern := StripSlashes(if negated then StripSpace(text[1..]) else text);
      if pattern == "" then None else Some((pattern, negated))
  }

  // What stripping leaves

  predicate AllOf(drop: char -> bool, s: string) {
    forall i :: 0 <= i < |s| ==> drop(s[i])
  }

  /** Nothing to strip at either end. */
  predicate IsBareOf(drop: char -> bool, s: string) {
    s != "" ==> !drop(s[0]) && !drop(s[|s| - 1])
  }

  lemma {:induction false} StripLeftOf(drop: char -> bool, left: string, s: string)
    requires AllOf(drop, left) && (s != "" ==> !drop(s[0]))
    ensures StripLeft(drop, left + s) == s
    decreases |left|
  {
    if left == "" {
      assert left + s == s;
    } else {
      assert (left + s)[1..] == left[1..] + s;
      StripLeftOf(drop, left[1..], s);
    }
  }

  lemma {:induction false} StripRightOf(drop: char -> bool, s: string, right: string)
    requires AllOf(drop, right) && (s != "" ==> !drop(s[|s| - 1]))
    ensures StripRight(drop, s + right) == s
    decreases |right|
  {
    if right == "" {
      assert s + right == s;
    } else {
      var n := |right| - 1;
      assert (s + right)[..|s + right| - 1] == s + right[..n];
      StripRightOf(drop, s, right[..n]);
    }
  }

  /** Stripping what has been added to a bare text gives it back. */
  lemma StripOf(drop: char -> bool, left: string, s: string, right: string)
    requires AllOf(drop, left) && AllOf(drop, right) && IsBareOf(drop, s)
    ensures Strip(drop, left + (s + right)) == s
  {
    if s == "" {
      assert left + (s + right) == (left + right) + "" && AllOf(drop, left + right);
      StripLeftOf(drop, left + right, "");
      assert StripRight(drop, "") == "";
    } else {
      StripLeftOf(drop, left, s + right);
      StripRightOf(drop, s, right);
    }
  }

  lemma {:induction false} StripLeftParts(drop: char -> bool, s: string) returns (left: string)
    ensures s == left + StripLeft(drop, s) && AllOf(drop, left)
    ensures StripLeft(drop, s) != "" ==> !drop(StripLeft(drop, s)[0])
    decreases |s|
  {
    left := "";
    if s != "" && drop(s[0]) {
      var rest := StripLeftParts(drop, s[1..]);
      left := [s[0]] + rest;
      assert s == [s[0]] + s[1..];
    }
  }

  lemma {:induction false} StripRightParts(drop: char -> bool, s: string) returns (right: string)
    ensures s == StripRight(drop, s) + right && AllOf(drop, right)
    ensures StripRight(drop, s) != "" ==> !drop(StripRight(drop, s)[|StripRight(drop, s)| - 1])
    decreases |s|
  {
    right := "";
    if s != "" && drop(s[|s| - 1]) {
      var n := |s| - 1;
      var rest := StripRightParts(drop, s[..n]);
      right := rest + [s[n]];
      assert s == s[..n] + [s[n]];
    }
  }

  /** A text is what stripping leaves between what it takes away. */
  lemma StripParts(drop: char -> bool, s: string) returns (left: string, right: string)
    ensures s == left + (Strip(drop, s) + right)
    ensures AllOf(drop, left) && AllOf(drop, right) && IsBareOf(drop, Strip(drop, s))
  {
    var t := StripLeft(drop, s);
    left := StripLeftParts(drop, s);
    right := StripRightParts(drop, t);
    if Strip(drop, s) != "" {
      assert t[0] == Strip(drop, s)[0];
    }
  }

  // What a line states, by its parts

  /** Blanks, an exclamation mark with blanks after it or nothing, a body, blanks. */
  predicate IsLineOf(line: string, before: string, sign: string, body: string, after: string) {
    && line == before + ((sign + body) + after) && (line == "" || line[0] != '#')
    && AllOf(IsSpace, before) && AllOf(IsSpace, after) && IsBareOf(IsSpace, body)
    && (if sign == "" then body == "" || body[0] != '!' else sign[0] == '!' && AllOf(IsSpace, sign[1..]))
  }

  /** Slashes, a pattern that neither begins nor ends with one, slashes. */
  predicate IsBodyOf(body: string, left: string, pattern: string, right: string) {
    && body == left + (pattern + right) && AllOf(IsSlash, left) && AllOf(IsSlash, right)
    && pattern != "" && IsBareOf(IsSlash, pattern)
  }

  ghost predicate States(line: string, pattern: string, negated: bool) {
    exists before, sign, body, after :: LineStates(line, before, sign, body, after, pattern, negated)
  }

  ghost predicate LineStates(
    line: string, before: string, sign: string, body: string, after: string, pattern: string, negated: bool
  ) {
    && IsLineOf(line, before, sign, body, after) && (sign != "" <==> negated) && (sign == "" ==> body != ".")
    && exists left, right :: IsBodyOf(body, left, pattern, right)
  }

  ghost predicate StatesNothingNegated(line: string) {
    exists before, sign, after :: sign != "" && IsLineOf(line, before, sign, "", after)
  }

  lemma StrippedLine(line: string, before: string, sign: string, body: string, after: string)
    requires IsLineOf(line, before, sign, body, after)
    ensures var text := StripSpace(line);
      if sign == "" then text == body else text != "" && text[0] == '!' && StripSpace(text[1..]) == body
  {
    if sign == "" {
      assert (sign + body) + after == body + after;
      StripOf(IsSpace, before, body, after);
    } else {
      var blanks := sign[1..];
      assert sign == "!" + blanks;
      if body == "" {
        assert (sign + body) + after == "!" + (blanks + after);
        StripOf(IsSpace, before, "!", blanks + after);
      } else {
        StripOf(IsSpace, before, sign + body, after);
        assert (sign + body)[1..] == blanks + (body + "");
        StripOf(IsSpace, blanks, body, "");
      }
    }
  }

  lemma PartsOfLine(line: string) returns (before: string, sign: string, body: string, after: string)
    requires line == "" || line[0] != '#'
    ensures IsLineOf(line, before, sign, body, after)
  {
    var text := StripSpace(line);
    before, after := StripParts(IsSpace, line);
    sign, body := "", StripSpace(line);
    assert sign + body == StripSpace(line);
    if body != "" && body[0] == '!' {
      sign, body, after := PartsOfNegation(line, before, body, after);
    }
  }

  lemma PartsOfNegation(line: string, before: string, text: string, rest: string)
    returns (sign: string, body: string, after: string)
    requires line == before + (text + rest) && AllOf(IsSpace, before) && AllOf(IsSpace, rest)
    requires text != "" && text[0] == '!' && (line == "" || line[0] != '#')
    ensures sign != "" && IsLineOf(line, before, sign, body, after)
  {
    var blanks, more := StripParts(IsSpace, text[1..]);
    sign, body, after := "!" + blanks, StripSpace(text[1..]), more + rest;
    Rejoin(before, text, blanks, body, more, rest);
  }

  lemma Rejoin(before: string, text: string, blanks: string, body: string, more: string, after: string)
    requires text != "" && text[0] == '!' && text[1..] == blanks + (body + more)
    ensures before + (text + after) == before + ((("!" + blanks) + body) + (more + after))
  {
    assert text == "!" + (blanks + (body + more));
    Regroup("!", blanks, body + more);
    Regroup("!" + blanks, body, more);
    Regroup(("!" + blanks) + body, more, after);
  }

  lemma StrippedBody(body: string, pattern: string)
    ensures StripSlashes(body) == pattern && pattern != "" <==> exists left, right :: IsBodyOf(body, left, pattern, right)
  {
    if StripSlashes(body) == pattern && pattern != "" {
      var left, right := StripParts(IsSlash, body);
      assert IsBodyOf(body, left, pattern, right);
    }
    forall left, right | IsBodyOf(body, left, pattern, right)
      ensures StripSlashes(body) == pattern
    {
      StripOf(IsSlash, left, pattern, right);
    }
  }

  /** The pattern and the sign of a line are those of its parts. */
  lemma LinePatternMeaning(line: string, pattern: string, negated: bool)
    ensures LinePattern(line) == Some((pattern, negated)) <==> States(line, pattern, negated)
  {
    if LinePattern(line) == Some((pattern, negated)) {
      var before, sign, body, after := PartsOfLine(line);
      StrippedLine(line, before, sign, body, after);
      StrippedBody(body, pattern);
      assert LineStates(line, before, sign, body, after, pattern, negated);
    }
    forall before, sign, body, after | LineStates(line, before, sign, body, after, pattern, negated)
      ensures LinePattern(line) == Some((pattern, negated))
    {
      StrippedLine(line, before, sign, body, after);
      StrippedBody(body, pattern);
    }
  }

  lemma EmptyNegationMeaning(line: string)
    ensures IsEmptyNegation(line) <==> StatesNothingNegated(line)
  {
    if IsEmptyNegation(line) {
      var before, sign, body, after := PartsOfLine(line);
      StrippedLine(line, before, sign, body, after);
    }
    forall before, sign, after | sign != "" && IsLineOf(line, before, sign, "", after)
      ensures IsEmptyNegation(line)
    {
      StrippedLine(line, before, sign, "", after);
    }
  }

  lemma NotBoth(line: string)
    ensures IsEmptyNegation(line) ==> LinePattern(line) == None
  {
    assert StripSlashes("") == "";
  }

  function Patterns(lines: seq<string>): seq<(string, bool)> {
    if lines == [] then []
    else
      var before := Patterns(lines[..|lines| - 1]);
      match LinePattern(lines[|lines| - 1])
      case None => before
      case Some(pattern) => before + [pattern]
  }

  /** The negated patterns, in order. */
  function Negated(patterns: seq<(string, bool)>): seq<string> {
    if patterns == [] then []
    else
      var (pattern, negated) := patterns[|patterns| - 1];
      Negated(patterns[..|patterns| - 1]) + if negated then [pattern] else []
  }

  predicate NoEmptyBracket(patterns: seq<(string, bool)>) {
    forall i :: 0 <= i < |patterns| ==> !HasEmptyBracket(patterns[i].0)
  }

  // Reading the file

  /** A rule does what its pattern says. */
  ghost predicate RuleFor(rule: Rule, pattern: (string, bool)) {
    && rule.negated == pattern.1
    && forall sets, path | NewlineFree(path) ::
      FullMatch(sets, rule.expression, path) <==> Accepts(sets, pattern.0, path)
  }

  /** The rules are those of the patterns, in their order, and the negated patterns are kept beside them. */
  ghost predicate RulesFor(ignore: DockerIgnore, patterns: seq<(string, bool)>) {
    && |ignore.rules| == |patterns|
    && (forall i :: 0 <= i < |patterns| ==> RuleFor(ignore.rules[i], patterns[i]))
    && ignore.negatedPatterns == Negated(patterns)
  }

  /** What has been read of some lines that state these patterns, unless one of them has an empty bracket. */
  ghost predicate HasRead(ignore: DockerIgnore, patterns: seq<(string, bool)>) {
    NoEmptyBracket(patterns) ==> RulesFor(ignore, patterns)
  }

  /** Compile a pattern and read the result as a regular expression. */
  method ReadRule(pattern: string, negated: bool) returns (r: Option<Rule>)
    ensures r.None? ==> HasEmptyBracket(pattern)
    ensures r.Some? ==> r.value.negated == negated
    ensures !HasEmptyBracket(pattern) ==> r.Some? && RuleFor(r.value, (pattern, negated))
  {
    var text := CompileIgnorePattern(pattern);
    var expression := Parse(text);
    return if expression.Some? then Some(Rule(expression.value, negated)) else None;
  }

  /** What one line states. */
  method ReadLine(line: string) returns (r: Result<Option<(string, bool)>, Refusal>)
    ensures r.Err? <==> StatesNothingNegated(line)
    ensures forall pattern, negated :: r == Ok(Some((pattern, negated))) <==> States(line, pattern, negated)
    ensures r == if IsEmptyNegation(line) then Err(EmptyNegation) else Ok(LinePattern(line))
  {
    EmptyNegationMeaning(line);
    forall pattern, negated
      ensures LinePattern(line) == Some((pattern, negated)) <==> States(line, pattern, negated)
    {
      LinePatternMeaning(line, pattern, negated);
    }
    NotBoth(line);
    if line != "" && line[0] == '#' {
      return Ok(None);
    }
    var pattern := StripSpace(line);
    if pattern == "" || pattern == "." {
      return Ok(None);
    }
    var negated := pattern[0] == '!';
    if negated {
      pattern := StripSpace(pattern[1..]);
      if pattern == "" {
        return Err(EmptyNegation);
      }
    }
    pattern := StripSlashes(pattern);
    return Ok(if pattern == "" then None else Some((pattern, negated)));
  }

  /** `_DockerIgnore.__init__`, given the lines of the file. */
  method Read(lines: seq<string>) returns (r: Result<DockerIgnore, Refusal>)
    ensures r.Ok? ==> HasRead(r.value, Patterns(lines))
    ensures r.Ok? ==> !SomeEmptyNegation(lines)
    ensures r == Err(EmptyNegation) ==> SomeEmptyNegation(lines)
    ensures r == Err(BadPattern) ==> !NoEmptyBracket(Patterns(lines))
  {
    var rules: seq<Rule>, negatedPatterns: seq<string> := [], [];
    for n := 0 to |lines|
      invariant HasRead(DockerIgnore(rules, negatedPatterns), Patterns(lines[..n]))
      invariant !SomeEmptyNegation(lines[..n])
    {
      PatternsStep(lines, n);
      var line := ReadLine(lines[n]);
      if line.Err? {
        SomeEmptyNegationKept(lines, n + 1);
        return Err(line.error);
      }
      if line.value.Some? {
        var (pattern, negated) := line.value.value;
        var rule := ReadRule(pattern, negated);
        if rule.None? {
          PatternsKeepEmptyBracket(lines, n, pattern);
          return Err(BadPattern);
        }
        OneMoreRule(DockerIgnore(rules, negatedPatterns), Patterns(lines[..n]), rule.value, pattern);
        rules := rules + [rule.value];
        if negated {
          negatedPatterns := negatedPatterns + [pattern];
        }
      }
    }
    assert lines[..|lines|] == lines;
    return Ok(DockerIgnore(rules, negatedPatterns));
  }

  lemma PatternsStep(lines: seq<string>, n: nat)
    requires n < |lines|
    ensures SomeEmptyNegation(lines[..n + 1]) <==> SomeEmptyNegation(lines[..n]) || IsEmptyNegation(lines[n])
    ensures Patterns(lines[..n + 1]) ==
      match LinePattern(lines[n]) case None => Patterns(lines[..n]) case Some(pattern) => Patterns(lines[..n]) + [pattern]
  {
    assert lines[..n + 1][..n] == lines[..n] && lines[..n + 1][n] == lines[n];
  }

  lemma {:induction false} SomeEmptyNegationKept(lines: seq<string>, n: nat)
    requires n <= |lines| && SomeEmptyNegation(lines[..n])
    ensures SomeEmptyNegation(lines)
    decreases |lines|
  {
    assert lines[..|lines|] == lines;
    if n < |lines| {
      assert lines[..|lines| - 1][..n] == lines[..n];
      SomeEmptyNegationKept(lines[..|lines| - 1], n);
    }
  }

  /** A line whose pattern has an empty bracket leaves the whole file with one. */
  lemma {:induction false} PatternsKeepEmptyBracket(lines: seq<string>, n: nat, pattern: string)
    requires n < |lines| && LinePattern(lines[n]).Some? && LinePattern(lines[n]).value.0 == pattern
    requires HasEmptyBracket(pattern)
    ensures !NoEmptyBracket(Patterns(lines))
    decreases |lines|
  {
    var m := |lines| - 1;
    assert lines[..|lines|] == lines;
    PatternsStep(lines, m);
    var before := Patterns(lines[..m]);
    if n == m {
      assert Patterns(lines)[|before|].0 == pattern;
    } else {
      PatternsKeepEmptyBracket(lines[..m], n, pattern);
      var i :| 0 <= i < |before| && HasEmptyBracket(before[i].0);
      assert Patterns(lines)[i] == before[i];
    }
  }

  lemma OneMoreRule(ignore: DockerIgnore, patterns: seq<(string, bool)>, rule: Rule, pattern: string)
    requires HasRead(ignore, patterns)
    requires !HasEmptyBracket(pattern) ==> RuleFor(rule, (pattern, rule.negated))
    ensures
      var kept := if rule.negated then ignore.negatedPatterns + [pattern] else ignore.negatedPatterns;
      HasRead(DockerIgnore(ignore.rules + [rule], kept), patterns + [(pattern, rule.negated)])
  {
    var more := patterns + [(pattern, rule.negated)];
    assert forall i :: 0 <= i < |patterns| ==> more[i] == patterns[i];
    assert more[|patterns|] == (pattern, rule.negated);
    assert more[..|patterns|] == patterns && ignore.negatedPatterns + [] == ignore.negatedPatterns;
  }

  // What the rules say

  predicate RuleMatches(sets: Sets, rule: Rule, path: string) {
    FullMatch(sets, rule.expression, path)
  }

  /** The last rule that matches the path, if one does, is not negated. */
  predicate Excluded(sets: Sets, rules: seq<Rule>, path: string) {
    exists i | 0 <= i < |rules| :: LastMatch(sets, rules, path, i) && !rules[i].negated
  }

  predicate LastMatch(sets: Sets, rules: seq<Rule>, path: string, i: nat)
    requires i < |rules|
  {
    RuleMatches(sets, rules[i], path) && forall j | i < j < |rules| :: !RuleMatches(sets, rules[j], path)
  }

  /** `excludes`: the last match wins. */
  method Excludes(sets: Sets, ignore: DockerIgnore, path: string) returns (excluded: bool)
    ensures excluded <==> Excluded(sets, ignore.rules, path)
  {
    excluded := false;
    for n := 0 to |ignore.rules|
      invariant excluded <==> Excluded(sets, ignore.rules[..n], path)
    {
      var rule := ignore.rules[n];
      ExcludedStep(sets, ignore.rules[..n], rule, path);
      assert ignore.rules[..n + 1] == ignore.rules[..n] + [rule];
      if FullMatch(sets, rule.expression, path) {
        excluded := !rule.negated;
      }
    }
    assert ignore.rules[..|ignore.rules|] == ignore.rules;
  }

  lemma ExcludedStep(sets: Sets, rules: seq<Rule>, rule: Rule, path: string)
    ensures Excluded(sets, rules + [rule], path) <==>
      if RuleMatches(sets, rule, path) then !rule.negated else Excluded(sets, rules, path)
  {
    var all := rules + [rule];
    var n := |rules|;
    assert all[n] == rule && forall i :: 0 <= i < n ==> all[i] == rules[i];
    if RuleMatches(sets, rule, path) {
      assert LastMatch(sets, all, path, n);
      assert forall i :: 0 <= i < n ==> !LastMatch(sets, all, path, i);
    } else {
      assert forall i :: 0 <= i < n ==> (LastMatch(sets, all, path, i) <==> LastMatch(sets, rules, path, i));
      assert !LastMatch(sets, all, path, n);
    }
  }

  predicate StartsWith(s: string, prefix: string) {
    prefix <= s
  }

  /** `could_include_descendant`. */
  predicate CouldIncludeDescendant(ignore: DockerIgnore, directory: string) {
    exists i | 0 <= i < |ignore.negatedPatterns| :: StartsWith(ignore.negatedPatterns[i], directory + "/")
  }
}
