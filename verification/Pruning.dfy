/** When a walk may leave out a directory that the rules exclude: exactly, for given negations, and by their form. */
module Pruning {
  import opened Options
  import opened Regex
  import opened Glob
  import opened DockerIgnores

  /** A relative path: components, none of them empty. */
  predicate IsPath(p: string) {
    && p != "" && p[0] != '/' && p[|p| - 1] != '/'
    && forall i :: 0 <= i < |p| - 1 ==> p[i] != '/' || p[i + 1] != '/'
  }

  predicate IsBuildFile(path: string) {
    path == "Dockerfile" || path == ".dockerignore"
  }

  /** The rules decide about every path but the two the build itself needs. */
  predicate Kept(sets: Sets, ignore: DockerIgnore, path: string) {
    IsBuildFile(path) || !Excluded(sets, ignore.rules, path)
  }

  /** The walk does not enter such a directory. */
  predicate Pruned(sets: Sets, ignore: DockerIgnore, directory: string) {
    !Kept(sets, ignore, directory) && !CouldIncludeDescendant(ignore, directory)
  }

  /** A path the walk takes: no directory above it is pruned. */
  predicate Selected(sets: Sets, ignore: DockerIgnore, path: string) {
    Kept(sets, ignore, path) && forall i | 0 <= i < |path| && path[i] == '/' :: !Pruned(sets, ignore, path[..i])
  }

  /** A path without newlines below a directory. */
  predicate IsBelow(path: string, directory: string) {
    IsPath(path) && NewlineFree(path) && StartsWith(path, directory + "/")
  }

  /** Nothing below a pruned directory would have been kept. */
  ghost predicate PrunesRightly(sets: Sets, ignore: DockerIgnore) {
    forall directory, path :: IsBelow(path, directory) && Pruned(sets, ignore, directory) ==> !Kept(sets, ignore, path)
  }

  /** Pruning agrees with the filter whatever other rules stand between these negations. */
  ghost predicate PruningAgrees(sets: Sets, negations: seq<string>) {
    forall ignore, patterns :: RulesFor(ignore, patterns) && Negated(patterns) == negations ==> PrunesRightly(sets, ignore)
  }

  predicate SomeBegins(negations: seq<string>, directory: string) {
    exists i | 0 <= i < |negations| :: StartsWith(negations[i], directory + "/")
  }

  /**
   The k-th negation accepts something below a directory, which neither it nor a later one accepts, and no
   negation begins with the directory.
   */
  ghost predicate Loses(sets: Sets, negations: seq<string>, k: int, directory: string, path: string) {
    && 0 <= k < |negations|
    && IsBelow(path, directory) && !IsBuildFile(directory)
    && Accepts(sets, negations[k], path)
    && (forall j :: k <= j < |negations| ==> !Accepts(sets, negations[j], directory))
    && !SomeBegins(negations, directory)
  }

  ghost predicate Prunable(sets: Sets, negations: seq<string>) {
    forall k, directory, path :: !Loses(sets, negations, k, directory, path)
  }

  lemma BelowIsPath(directory: string, path: string)
    requires IsBelow(path, directory)
    ensures NewlineFree(directory) && NewlineFree(path) && !IsBuildFile(path)
  {
    assert (directory + "/")[|directory|] == '/' == path[|directory|];
    assert directory == (directory + "/")[..|directory|] == path[..|directory|];
  }

  // Negations among the patterns

  lemma {:induction false} NegatedAppend(a: seq<(string, bool)>, b: seq<(string, bool)>)
    ensures Negated(a + b) == Negated(a) + Negated(b)
    decreases |b|
  {
    if b == [] {
      assert a + b == a;
    } else {
      var n := |b| - 1;
      var last := if b[n].1 then [b[n].0] else [];
      assert (a + b)[..|a + b| - 1] == a + b[..n];
      NegatedAppend(a, b[..n]);
      assert Negated(a + b) == Negated(a + b[..n]) + last;
      assert Negated(b) == Negated(b[..n]) + last;
      Regroup(Negated(a), Negated(b[..n]), last);
    }
  }

  lemma {:induction false} NegatedFrom(patterns: seq<(string, bool)>, j: nat) returns (i: nat)
    requires j < |Negated(patterns)|
    ensures i < |patterns| && patterns[i] == (Negated(patterns)[j], true)
    decreases |patterns|
  {
    var n := |patterns| - 1;
    if j < |Negated(patterns[..n])| {
      i := NegatedFrom(patterns[..n], j);
    } else {
      i := n;
    }
  }

  /** Where a negated pattern stands among the negations; what follows it there follows it in the file. */
  lemma NegationOf(patterns: seq<(string, bool)>, i: nat) returns (k: nat)
    requires i < |patterns| && patterns[i].1
    ensures k < |Negated(patterns)| && Negated(patterns)[k] == patterns[i].0
    ensures forall j :: k <= j < |Negated(patterns)| ==>
      exists m :: i <= m < |patterns| && patterns[m] == (Negated(patterns)[j], true)
  {
    var before, this_, after := patterns[..i], [patterns[i]], patterns[i + 1..];
    k := |Negated(before)|;
    assert patterns == before + (this_ + after);
    NegatedAppend(before, this_ + after);
    NegatedAppend(this_, after);
    assert Negated(this_) == [patterns[i].0] by { assert this_[..0] == []; }
    forall j | k <= j < |Negated(patterns)|
      ensures exists m :: i <= m < |patterns| && patterns[m] == (Negated(patterns)[j], true)
    {
      var m := NegatedFrom(this_ + after, j - k);
      assert patterns[i + m] == (this_ + after)[m];
    }
  }

  function AsNegations(negations: seq<string>): (patterns: seq<(string, bool)>)
    ensures |patterns| == |negations| && forall i :: 0 <= i < |negations| ==> patterns[i] == (negations[i], true)
  {
    seq(|negations|, i requires 0 <= i < |negations| => (negations[i], true))
  }

  lemma {:induction false} NegatedAsNegations(negations: seq<string>)
    ensures Negated(AsNegations(negations)) == negations
    decreases |negations|
  {
    if negations != [] {
      var n := |negations| - 1;
      NegatedAsNegations(negations[..n]);
      assert AsNegations(negations)[..n] == AsNegations(negations[..n]);
      assert negations == negations[..n] + [negations[n]];
    }
  }

  // The condition is enough

  /** What a pattern accepts it accepts with everything below. */
  lemma AcceptsBelow(sets: Sets, pattern: string, directory: string, path: string)
    requires StartsWith(path, directory + "/") && Accepts(sets, pattern, directory)
    ensures Accepts(sets, pattern, path)
  {
    var d := |directory|;
    assert path[d] == (directory + "/")[d] == '/';
    assert path[..d] == (directory + "/")[..d] == directory;
    if GlobMatch(sets, pattern, directory) {
      assert AcceptsAncestor(sets, pattern, path, d);
    } else {
      var j :| AcceptsAncestor(sets, pattern, directory, j);
      assert path[..j] == directory[..j];
      assert AcceptsAncestor(sets, pattern, path, j);
    }
  }

  /** Some match is the last one. */
  lemma {:induction false} LastMatchFrom(sets: Sets, rules: seq<Rule>, path: string, i: nat) returns (last: nat)
    requires i < |rules| && RuleMatches(sets, rules[i], path)
    ensures i <= last < |rules| && LastMatch(sets, rules, path, last)
    decreases |rules| - i
  {
    last := i;
    if !LastMatch(sets, rules, path, i) {
      var j :| i < j < |rules| && RuleMatches(sets, rules[j], path);
      last := LastMatchFrom(sets, rules, path, j);
    }
  }

  lemma NoneAcceptsAfter(
    sets: Sets, ignore: DockerIgnore, patterns: seq<(string, bool)>, directory: string, i: nat, last: nat, k: nat
  )
    requires RulesFor(ignore, patterns) && NewlineFree(directory)
    requires i < last < |patterns| && LastMatch(sets, ignore.rules, directory, i)
    requires forall j :: k <= j < |Negated(patterns)| ==>
      exists m :: last <= m < |patterns| && patterns[m] == (Negated(patterns)[j], true)
    ensures forall j :: k <= j < |Negated(patterns)| ==> !Accepts(sets, Negated(patterns)[j], directory)
  {
    forall j | k <= j < |Negated(patterns)|
      ensures !Accepts(sets, Negated(patterns)[j], directory)
    {
      var m :| last <= m < |patterns| && patterns[m] == (Negated(patterns)[j], true);
      assert RuleFor(ignore.rules[m], patterns[m]);
      assert !RuleMatches(sets, ignore.rules[m], directory);
    }
  }

  /** A negation that matches a path after the last match of its directory loses the path. */
  lemma NegatedMatchLoses(
    sets: Sets, ignore: DockerIgnore, patterns: seq<(string, bool)>, directory: string, path: string, i: nat, last: nat
  )
    requires RulesFor(ignore, patterns) && IsBelow(path, directory) && Pruned(sets, ignore, directory)
    requires i < last < |patterns| && LastMatch(sets, ignore.rules, directory, i)
    requires patterns[last].1 && RuleMatches(sets, ignore.rules[last], path)
    ensures !Prunable(sets, Negated(patterns))
  {
    BelowIsPath(directory, path);
    assert RuleFor(ignore.rules[last], patterns[last]);
    var k := NegationOf(patterns, last);
    NoneAcceptsAfter(sets, ignore, patterns, directory, i, last, k);
    assert Loses(sets, Negated(patterns), k, directory, path);
  }

  /** Everything below a pruned directory is excluded too. */
  lemma PrunedIsExcluded(sets: Sets, ignore: DockerIgnore, patterns: seq<(string, bool)>, directory: string, path: string)
    requires RulesFor(ignore, patterns) && Prunable(sets, Negated(patterns))
    requires IsBelow(path, directory) && Pruned(sets, ignore, directory)
    ensures !Kept(sets, ignore, path)
  {
    var rules := ignore.rules;
    BelowIsPath(directory, path);
    var i: nat :| i < |rules| && LastMatch(sets, rules, directory, i) && !rules[i].negated;
    assert RuleFor(rules[i], patterns[i]);
    AcceptsBelow(sets, patterns[i].0, directory, path);
    var last := LastMatchFrom(sets, rules, path, i);
    assert RuleFor(rules[last], patterns[last]);
    if rules[last].negated {
      NegatedMatchLoses(sets, ignore, patterns, directory, path, i, last);
    }
  }

  // The condition is needed

  lemma {:induction false} AfterStar(sets: Sets, s: string, k: nat)
    requires k <= |s| && '/' !in s[..k] && (k == |s| || s[k] == '/')
    ensures AfterSegment(sets, "", s[..k])
    decreases k
  {
    var t := s[..k];
    if k > 0 {
      assert t[0] in s[..k] && s[1..][..k - 1] == t[1..];
      AfterStar(sets, s[1..], k - 1);
    }
  }

  /** The pattern `*` accepts everything. */
  lemma StarAccepts(sets: Sets, path: string)
    ensures Accepts(sets, "*", path)
  {
    var k := Find(path, '/', 0);
    assert "*"[1..] == "" && path[0..] == path && path[..|path|] == path;
    AfterStar(sets, path, if k == -1 then |path| else k);
    assert k != -1 ==> path[0..k] == path[..k];
    assert k != -1 ==> AcceptsAncestor(sets, "*", path, k);
  }

  /** `*` right before the k-th negation. */
  function StarBefore(negations: seq<string>, k: nat): (patterns: seq<(string, bool)>)
    requires k <= |negations|
    ensures |patterns| == |negations| + 1 && patterns[k] == ("*", false)
    ensures forall j :: k <= j < |negations| ==> patterns[j + 1] == (negations[j], true)
  {
    AsNegations(negations[..k]) + ([("*", false)] + AsNegations(negations[k..]))
  }

  lemma NegatedStarBefore(negations: seq<string>, k: nat)
    requires k <= |negations|
    ensures Negated(StarBefore(negations, k)) == negations
  {
    var star := [("*", false)];
    NegatedAppend(AsNegations(negations[..k]), star + AsNegations(negations[k..]));
    NegatedAppend(star, AsNegations(negations[k..]));
    NegatedAsNegations(negations[..k]);
    NegatedAsNegations(negations[k..]);
    assert Negated(star) == [] by { assert star[..0] == []; }
    assert negations[..k] + ([] + negations[k..]) == negations;
  }

  /** The rules of some patterns, as the compiler makes them. */
  function RulesOf(patterns: seq<(string, bool)>): (ignore: DockerIgnore)
    ensures |ignore.rules| == |patterns| && ignore.negatedPatterns == Negated(patterns)
    ensures forall i :: 0 <= i < |patterns| ==>
      ignore.rules[i] == Rule(Items(patterns[i].0) + [DESCENDANTS], patterns[i].1)
  {
    DockerIgnore(
      seq(|patterns|, i requires 0 <= i < |patterns| => Rule(Items(patterns[i].0) + [DESCENDANTS], patterns[i].1)),
      Negated(patterns))
  }

  lemma RulesOfPatterns(patterns: seq<(string, bool)>)
    ensures RulesFor(RulesOf(patterns), patterns)
  {
    forall i, sets: Sets, path | 0 <= i < |patterns| && NewlineFree(path)
      ensures FullMatch(sets, RulesOf(patterns).rules[i].expression, path) <==> Accepts(sets, patterns[i].0, path)
    {
      CompilationPreservesMeaning(sets, patterns[i].0, path);
    }
  }

  /** Rule by rule, the rules of some patterns match what the patterns accept. */
  lemma RuleOfMatches(sets: Sets, patterns: seq<(string, bool)>, i: nat, path: string)
    requires i < |patterns| && NewlineFree(path)
    ensures RuleMatches(sets, RulesOf(patterns).rules[i], path) <==> Accepts(sets, patterns[i].0, path)
  {
    CompilationPreservesMeaning(sets, patterns[i].0, path);
  }

  lemma StarPrunes(sets: Sets, negations: seq<string>, k: nat, directory: string)
    requires k <= |negations| && NewlineFree(directory) && !IsBuildFile(directory) && !SomeBegins(negations, directory)
    requires forall j :: k <= j < |negations| ==> !Accepts(sets, negations[j], directory)
    ensures Pruned(sets, RulesOf(StarBefore(negations, k)), directory)
  {
    var patterns := StarBefore(negations, k);
    var rules := RulesOf(patterns).rules;
    NegatedStarBefore(negations, k);
    StarAccepts(sets, directory);
    RuleOfMatches(sets, patterns, k, directory);
    forall j | k < j < |patterns|
      ensures !RuleMatches(sets, rules[j], directory)
    {
      RuleOfMatches(sets, patterns, j, directory);
      assert patterns[j] == (negations[j - 1], true);
    }
    assert LastMatch(sets, rules, directory, k);
  }

  lemma KeptAfterStar(sets: Sets, negations: seq<string>, k: nat, path: string)
    requires k < |negations| && NewlineFree(path) && Accepts(sets, negations[k], path)
    ensures Kept(sets, RulesOf(StarBefore(negations, k)), path)
  {
    var patterns := StarBefore(negations, k);
    var rules := RulesOf(patterns).rules;
    RuleOfMatches(sets, patterns, k + 1, path);
    var last := LastMatchFrom(sets, rules, path, k + 1);
    assert patterns[last] == (negations[last - 1], true);
    assert forall i :: 0 <= i < |rules| && LastMatch(sets, rules, path, i) ==> i == last;
  }

  /** Where the negations lose a path, the rules that also hold `*` prune its directory and keep the path. */
  lemma LostPath(sets: Sets, negations: seq<string>, k: nat, directory: string, path: string)
    requires Loses(sets, negations, k, directory, path)
    ensures var ignore := RulesOf(StarBefore(negations, k)); Pruned(sets, ignore, directory) && Kept(sets, ignore, path)
  {
    BelowIsPath(directory, path);
    StarPrunes(sets, negations, k, directory);
    KeptAfterStar(sets, negations, k, path);
  }

  lemma LossDisagrees(sets: Sets, negations: seq<string>, k: nat, directory: string, path: string)
    requires Loses(sets, negations, k, directory, path)
    ensures !PruningAgrees(sets, negations)
  {
    var patterns := StarBefore(negations, k);
    LostPath(sets, negations, k, directory, path);
    assert !PrunesRightly(sets, RulesOf(patterns));
    RulesOfPatterns(patterns);
    NegatedStarBefore(negations, k);
  }

  /**
   For given negations, in their order, pruning agrees with the filter in every file that has them exactly
   when none of them accepts something below a directory that it and the later ones do not accept and that
   no negation begins with.
   */
  lemma PruningIsExact(sets: Sets, negations: seq<string>)
    ensures PruningAgrees(sets, negations) <==> Prunable(sets, negations)
  {
    if PruningAgrees(sets, negations) {
      forall k, directory, path
        ensures !Loses(sets, negations, k, directory, path)
      {
        if Loses(sets, negations, k, directory, path) {
          LossDisagrees(sets, negations, k, directory, path);
        }
      }
    }
    if Prunable(sets, negations) {
      forall ignore, patterns, directory, path | RulesFor(ignore, patterns) && Negated(patterns) == negations
        && IsBelow(path, directory) && Pruned(sets, ignore, directory)
        ensures !Kept(sets, ignore, path)
      {
        PrunedIsExcluded(sets, ignore, patterns, directory, path);
      }
    }
  }

  // A form of negations that meets the condition

  predicate IsLiteral(c: char) {
    c != '*' && c != '?' && c != '[' && c != '\\'
  }

  /** No slash, no bracket, and two stars only at the end. */
  predicate IsLastComponent(p: string)
    decreases |p|
  {
    if p == "" || p == "**" then true
    else if p[0] == '/' || p[0] == '[' || (p[0] == '*' && |p| > 1 && p[1] == '*') then false
    else if p[0] == '\\' && |p| > 1 then p[1] != '/' && IsLastComponent(p[2..])
    else IsLastComponent(p[1..])
  }

  /** Only the last component has wildcards. */
  predicate IsSimple(p: string) {
    IsLastComponent(p) || (p != "" && IsLiteral(p[0]) && IsSimple(p[1..]))
  }

  lemma {:induction false} AnythingMatches(sets: Sets, s: string)
    ensures AfterAnything(sets, "", s)
    decreases |s|
  {
    if s != "" {
      AnythingMatches(sets, s[1..]);
    }
  }

  /** A last component that matches a path with a slash matches what precedes the slash. */
  lemma {:induction false} ComponentBelow(sets: Sets, p: string, s: string, i: nat)
    requires IsLastComponent(p) && i < |s| && s[i] == '/' && GlobMatch(sets, p, s)
    ensures GlobMatch(sets, p, s[..i])
    decreases |p|, |s|, 0
  {
    if p == "**" {
      assert "**"[2..] == "";
      AnythingMatches(sets, s[..i]);
    } else if p[0] == '*' {
      SegmentBelow(sets, p[1..], s, i);
    } else {
      var n := if p[0] == '\\' && |p| > 1 then 2 else 1;
      assert s[..i][1..] == s[1..][..i - 1];
      ComponentBelow(sets, p[n..], s[1..], i - 1);
    }
  }

  lemma {:induction false} SegmentBelow(sets: Sets, p: string, s: string, i: nat)
    requires IsLastComponent(p) && i < |s| && s[i] == '/' && AfterSegment(sets, p, s)
    ensures AfterSegment(sets, p, s[..i])
    decreases |p|, |s|, 1
  {
    if GlobMatch(sets, p, s) {
      ComponentBelow(sets, p, s, i);
    } else {
      assert s[..i][1..] == s[1..][..i - 1];
      SegmentBelow(sets, p, s[1..], i - 1);
    }
  }

  /** A simple pattern that matches a path with a slash matches what precedes the slash, or begins with it. */
  lemma {:induction false} SimpleBelow(sets: Sets, p: string, s: string, i: nat)
    requires IsSimple(p) && i < |s| && s[i] == '/' && GlobMatch(sets, p, s)
    ensures GlobMatch(sets, p, s[..i]) || StartsWith(p, s[..i] + "/")
    decreases |p|
  {
    if IsLastComponent(p) {
      ComponentBelow(sets, p, s, i);
    } else if i > 0 {
      SimpleBelow(sets, p[1..], s[1..], i - 1);
      assert s[..i][1..] == s[1..][..i - 1];
      assert s[..i] + "/" == [s[0]] + (s[1..][..i - 1] + "/") && p == [p[0]] + p[1..];
    } else {
      assert s[..0] + "/" == [s[0]] && p == [p[0]] + p[1..];
    }
  }

  /** A simple pattern that accepts something below a directory accepts the directory or begins with it. */
  lemma SimpleLosesNothing(sets: Sets, pattern: string, directory: string, path: string)
    requires IsSimple(pattern) && StartsWith(path, directory + "/") && Accepts(sets, pattern, path)
    ensures Accepts(sets, pattern, directory) || StartsWith(pattern, directory + "/")
  {
    var d := |directory|;
    assert path[d] == (directory + "/")[d] == '/';
    assert path[..d] == (directory + "/")[..d] == directory && path[..|path|] == path;
    var j := if GlobMatch(sets, pattern, path) then |path| else
      var a :| AcceptsAncestor(sets, pattern, path, a);
      a;
    if j > d {
      assert path[..j][..d] == directory;
      SimpleBelow(sets, pattern, path[..j], d);
    } else if j < d {
      assert directory[..j] == path[..j] && directory[j] == path[j];
      assert AcceptsAncestor(sets, pattern, directory, j);
    }
  }

  /**
   Pruning agrees with the filter where no negation has a wildcard before its last slash, nor a bracket or an
   inner `**` after it.
   */
  lemma SimpleNegationsArePrunable(sets: Sets, negations: seq<string>)
    requires forall i :: 0 <= i < |negations| ==> IsSimple(negations[i])
    ensures Prunable(sets, negations)
  {
    forall k, directory, path | 0 <= k < |negations| && IsBelow(path, directory) && Accepts(sets, negations[k], path)
      ensures Accepts(sets, negations[k], directory) || SomeBegins(negations, directory)
    {
      SimpleLosesNothing(sets, negations[k], directory, path);
    }
  }

  // A form of negations that does not

  predicate IsLiteralName(name: string) {
    name != "" && NewlineFree(name) && forall i :: 0 <= i < |name| ==> IsLiteral(name[i]) && name[i] != '/'
  }

  lemma {:induction false} LiteralMatchesItself(sets: Sets, p: string, s: string)
    requires forall i :: 0 <= i < |p| ==> IsLiteral(p[i])
    ensures GlobMatch(sets, p, s) <==> s == p
    decreases |p|
  {
    if p != "" && s != "" {
      LiteralMatchesItself(sets, p[1..], s[1..]);
      assert s == [s[0]] + s[1..] && p == [p[0]] + p[1..];
    }
  }

  lemma {:induction false} NoSlashToPass(sets: Sets, p: string, s: string)
    requires '/' !in s
    ensures !AfterSomeSlash(sets, p, s)
    decreases |s|
  {
    if s != "" {
      NoSlashToPass(sets, p, s[1..]);
    }
  }

  lemma {:induction false} PassDirectory(sets: Sets, p: string, directory: string, name: string)
    requires GlobMatch(sets, p, name)
    ensures AfterSomeSlash(sets, p, directory + ("/" + name))
    decreases |directory|
  {
    var s := directory + ("/" + name);
    if directory == "" {
      assert s[1..] == name;
    } else {
      assert s[1..] == directory[1..] + ("/" + name);
      PassDirectory(sets, p, directory[1..], name);
    }
  }

  // Negations that reach into every directory are lost: with `*` before `!**/name`, a directory called
  // differently is pruned although its entry of that name is to be kept.
  lemma DeepNegationIsLost(sets: Sets, name: string)
    requires IsLiteralName(name)
    ensures !PruningAgrees(sets, ["**/" + name])
  {
    var q, d := "**/" + name, name + "~";
    var path := d + ("/" + name);
    assert q[3..] == name && path == (d + "/") + name;
    LiteralMatchesItself(sets, name, name);
    LiteralMatchesItself(sets, name, d);
    PassDirectory(sets, name, d, name);
    NoSlashToPass(sets, name, d);
    assert !Accepts(sets, q, d);
    assert !SomeBegins([q], d) by { assert (d + "/")[0] == name[0] && q[0] == '*'; }
    assert !IsBuildFile(d) by { assert d[|d| - 1] == '~'; }
    assert Loses(sets, [q], 0, d, path);
    PruningIsExact(sets, [q]);
  }
}
