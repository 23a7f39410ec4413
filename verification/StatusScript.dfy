/**
 How shell scripts write and test statuses: the printf formats derived from `to_json` by replacing
 placeholders, the shell's `printf`, and the `grep -E` state patterns.
 */
module StatusScript {
  import opened Options
  import opened Jobs
  import opened StatusText

  // Python's str.replace and the shell's printf

  /** Replace every occurrence of `old`, leftmost first. */
  function Replace(t: string, old_: string, by_: string): string
    requires old_ != []
  {
    if t == [] then []
    else if old_ <= t then by_ + Replace(t[|old_|..], old_, by_)
    else [t[0]] + Replace(t[1..], old_, by_)
  }

  /** `printf` for formats whose only directive is %s; None when the format or the arguments need more. */
  function Printf(format: string, arguments: seq<string>): Option<string> {
    if format == [] then (if arguments == [] then Some("") else None)
    else if "%s" <= format then
      if arguments == [] then None
      else
        match Printf(format[2..], arguments[1..])
        case None => None
        case Some(rest) => Some(arguments[0] + rest)
    else if format[0] == '%' || format[0] == '\\' then None
    else
      match Printf(format[1..], arguments)
      case None => None
      case Some(rest) => Some([format[0]] + rest)
  }

  const PID_PLACEHOLDER: int := 987654321
  const CODE_PLACEHOLDER: int := 123

  /** `_status_printf_format`. */
  function PrintfFormat(state: JobState, returncode: Option<int>, dynamicCode: bool): string {
    var code := if dynamicCode then Some(CODE_PLACEHOLDER) else returncode;
    var encoded := ToJson(JobStatus(state, Some(PID_PLACEHOLDER), code));
    var withPid := Replace(encoded, "\"pid\":" + Decimal(PID_PLACEHOLDER), "\"pid\":%s");
    if dynamicCode then Replace(withPid, "\"returncode\":" + Decimal(CODE_PLACEHOLDER), "\"returncode\":%s") else withPid
  }

  // The shape of a status text

  function Text(p: string, c: string, name: string): string {
    "{" + ("\"pid\":" + (p + AfterPid(c, name)))
  }

  function AfterPid(c: string, name: string): string {
    ",\"protocol\":1," + ("\"returncode\":" + (c + AfterCode(name)))
  }

  function AfterCode(name: string): string {
    ",\"state\":\"" + (name + "\"}")
  }

  lemma KeyedMember(key: string, v: Json, more: seq<(string, Json)>)
    ensures EncodeMembers([(key, v)] + more) ==
      (Quoted(key) + ":") + (EncodeValue(v) + (if more == [] then "}" else "," + EncodeMembers(more)))
  {
    var m := [(key, v)] + more;
    assert m[1..] == more;
    Regroup(Quoted(key), ":", EncodeValue(v) + (if more == [] then "}" else "," + EncodeMembers(more)));
  }

  lemma StateMember(name: string)
    ensures "," + EncodeMembers([("state", JString(name))]) == AfterCode(name)
  {
    KeyedMember("state", JString(name), []);
    assert [("state", JString(name))] + [] == [("state", JString(name))];
    assert Quoted("state") + ":" == "\"state\":";
    Regroup("\"", name, "\"");
    Regroup("\"" + name, "\"", "}");
    Regroup("\"", name, "\"" + "}");
    Regroup("\"state\":", "\"", name + "\"}");
  }

  lemma ProtocolMember(x: string)
    ensures "," + ("\"protocol\":" + ("1" + ("," + x))) == ",\"protocol\":1," + x
  {
  }

  lemma CodeKey()
    ensures Quoted("returncode") + ":" == "\"returncode\":"
  {
  }

  lemma CodeMember(c: Json, name: string)
    ensures EncodeMembers([("returncode", c), ("state", JString(name))]) == "\"returncode\":" + (EncodeValue(c) + AfterCode(name))
  {
    var more := [("state", JString(name))];
    StateMember(name);
    KeyedMember("returncode", c, more);
    assert [("returncode", c)] + more == [("returncode", c), ("state", JString(name))];
    CodeKey();
  }

  lemma ProtocolMembers(c: Json, name: string)
    ensures "," + EncodeMembers([("protocol", JInt(1)), ("returncode", c), ("state", JString(name))]) == AfterPid(EncodeValue(c), name)
  {
    var more := [("returncode", c), ("state", JString(name))];
    CodeMember(c, name);
    KeyedMember("protocol", JInt(1), more);
    assert [("protocol", JInt(1))] + more == [("protocol", JInt(1)), ("returncode", c), ("state", JString(name))];
    assert Quoted("protocol") + ":" == "\"protocol\":";
    assert Decimal(1) == "1";
    ProtocolMember("\"returncode\":" + (EncodeValue(c) + AfterCode(name)));
  }

  lemma TextOfStatus(status: JobStatus)
    ensures ToJson(status) ==
      Text(EncodeValue(Number(status.pid)), EncodeValue(Number(status.returncode)), StateName(status.state))
  {
    var (p, c, name) := (Number(status.pid), Number(status.returncode), StateName(status.state));
    var more := [("protocol", JInt(1)), ("returncode", c), ("state", JString(name))];
    ProtocolMembers(c, name);
    KeyedMember("pid", p, more);
    assert [("pid", p)] + more == StatusMembers(status);
    assert Quoted("pid") + ":" == "\"pid\":";
  }

  // No occurrence of a pattern

  /** No quote in `t` is followed by `b` and `c`. */
  predicate Free(t: string, b: char, c: char) {
    forall i {:trigger t[i]} :: 0 <= i && i + 2 < |t| && t[i] == '"' ==> !(t[i + 1] == b && t[i + 2] == c)
  }

  predicate NoQuote(t: string) {
    forall i :: 0 <= i < |t| ==> t[i] != '"'
  }

  lemma FreeJoin(x: string, y: string, b: char, c: char)
    requires Free(x, b, c) && Free(y, b, c)
    requires |x| >= 2 && x[|x| - 1] != '"' && (x[|x| - 2] == '"' ==> x[|x| - 1] != b)
    ensures Free(x + y, b, c)
  {
    var t := x + y;
    forall i | 0 <= i && i + 2 < |t| && t[i] == '"' ensures !(t[i + 1] == b && t[i + 2] == c) {
      if i >= |x| {
        assert y[i - |x|] == '"';
      } else {
        assert x[i] == '"';
      }
    }
  }

  lemma PrefixStarts(p: string, t: string)
    requires |p| >= 3
    ensures p <= t ==> |t| >= 3 && t[0] == p[0] && t[1] == p[1] && t[2] == p[2]
  {
  }

  lemma {:induction false} NothingToReplace(t: string, old_: string, by_: string)
    requires |old_| >= 3 && old_[0] == '"' && Free(t, old_[1], old_[2])
    ensures Replace(t, old_, by_) == t
    decreases |t|
  {
    if t != [] {
      PrefixStarts(old_, t);
      var rest := t[1..];
      assert forall i :: 0 <= i < |rest| ==> rest[i] == t[i + 1];
      NothingToReplace(rest, old_, by_);
    }
  }

  lemma {:induction false} ReplaceAfter(a: string, t: string, old_: string, by_: string)
    requires |old_| >= 3 && old_[0] == '"' && Free(a, old_[1], old_[2])
    requires |a| >= 2 ==> a[|a| - 2] != '"'
    requires a != [] ==> a[|a| - 1] != '"'
    ensures Replace(a + t, old_, by_) == a + Replace(t, old_, by_)
    decreases |a|
  {
    if a == [] {
      assert a + t == t;
    } else {
      assert (a + t)[1..] == a[1..] + t;
      PrefixStarts(old_, a + t);
      var rest := a[1..];
      assert forall i :: 0 <= i < |rest| ==> rest[i] == a[i + 1];
      ReplaceAfter(rest, t, old_, by_);
    }
  }

  lemma ReplaceHere(old_: string, t: string, by_: string)
    requires |old_| >= 3 && old_[0] == '"' && Free(t, old_[1], old_[2])
    ensures Replace(old_ + t, old_, by_) == by_ + t
  {
    assert (old_ + t)[|old_|..] == t && old_ <= old_ + t;
    NothingToReplace(t, old_, by_);
  }

  lemma StateTailIsFree(state: JobState)
    ensures Free(AfterCode(StateName(state)), 'p', 'i') && Free(AfterCode(StateName(state)), 'r', 'e')
  {
    var n := StateName(state);
    var t := AfterCode(n);
    assert t == ",\"state\":\"" + n + "\"}";
    assert NoQuote(n);
    forall i | 10 <= i < |t| - 2 ensures t[i] != '"' {
      assert t[i] == n[i - 10];
    }
    assert t[10] == n[0] && t[11] == n[1];
  }

  lemma AfterPidParts(c: string, name: string)
    ensures AfterPid(c, name) == (",\"protocol\":1,\"returncode\":" + c) + AfterCode(name)
  {
  }

  lemma AfterPidIsFree(c: string, state: JobState)
    requires NoQuote(c)
    ensures Free(AfterPid(c, StateName(state)), 'p', 'i')
  {
    var key := ",\"protocol\":1,\"returncode\":";
    StateTailIsFree(state);
    assert Free(key, 'p', 'i');
    FreeJoin(key, c, 'p', 'i');
    FreeJoin(key + c, AfterCode(StateName(state)), 'p', 'i');
    AfterPidParts(c, StateName(state));
  }

  lemma PidReplaced(p: string, c: string, state: JobState, by_: string)
    requires NoQuote(c)
    ensures Replace(Text(p, c, StateName(state)), "\"pid\":" + p, by_) == "{" + (by_ + AfterPid(c, StateName(state)))
  {
    var old_ := "\"pid\":" + p;
    var rest := AfterPid(c, StateName(state));
    AfterPidIsFree(c, state);
    Regroup("\"pid\":", p, rest);
    ReplaceHere(old_, rest, by_);
    ReplaceAfter("{", old_ + rest, old_, by_);
  }

  lemma CodeReplaced(c: string, state: JobState, by_: string)
    ensures Replace(Text("%s", c, StateName(state)), "\"returncode\":" + c, by_) ==
      "{\"pid\":%s,\"protocol\":1," + (by_ + AfterCode(StateName(state)))
  {
    var rest := AfterCode(StateName(state));
    StateTailIsFree(state);
    Regroup("\"returncode\":", c, rest);
    FormatPrefix("\"returncode\":" + (c + rest));
    CodeReplacedAfter("{\"pid\":%s,\"protocol\":1,", c, rest, by_);
  }

  lemma CodeReplacedAfter(before: string, c: string, rest: string, by_: string)
    requires before == "{\"pid\":%s,\"protocol\":1," && Free(rest, 'r', 'e')
    ensures Replace(before + (("\"returncode\":" + c) + rest), "\"returncode\":" + c, by_) == before + (by_ + rest)
  {
    var old_ := "\"returncode\":" + c;
    ReplaceHere(old_, rest, by_);
    assert Free(before, 'r', 'e');
    ReplaceAfter(before, old_ + rest, old_, by_);
  }

  lemma FormatPrefix(x: string)
    ensures "{" + ("\"pid\":" + ("%s" + (",\"protocol\":1," + x))) == "{\"pid\":%s,\"protocol\":1," + x
  {
  }

  lemma PidHole(x: string)
    ensures "\"pid\":%s" + x == "\"pid\":" + ("%s" + x)
  {
  }

  lemma CodeHole(x: string)
    ensures "\"returncode\":%s" + x == "\"returncode\":" + ("%s" + x)
  {
  }

  lemma ValuesHaveNoQuote(n: Option<int>)
    ensures NoQuote(EncodeValue(Number(n))) && PrintfLiteral(EncodeValue(Number(n)))
  {
  }

  /** The printf format of a status is its text with the pid, and with a dynamic code the code, left open. */
  lemma FormatText(state: JobState, returncode: Option<int>, dynamicCode: bool)
    ensures PrintfFormat(state, returncode, dynamicCode) ==
      Text("%s", if dynamicCode then "%s" else EncodeValue(Number(returncode)), StateName(state))
  {
    var code := if dynamicCode then Some(CODE_PLACEHOLDER) else returncode;
    var c := EncodeValue(Number(code));
    ValuesHaveNoQuote(code);
    TextOfStatus(JobStatus(state, Some(PID_PLACEHOLDER), code));
    PidReplaced(Decimal(PID_PLACEHOLDER), c, state, "\"pid\":%s");
    PidHole(AfterPid(c, StateName(state)));
    if dynamicCode {
      CodeReplaced(c, state, "\"returncode\":%s");
      CodeHole(AfterCode(StateName(state)));
      FormatPrefix("\"returncode\":" + ("%s" + AfterCode(StateName(state))));
    }
  }

  // Running printf on the format

  predicate PrintfLiteral(t: string) {
    forall i :: 0 <= i < |t| ==> t[i] != '%' && t[i] != '\\'
  }

  lemma {:induction false} PrintsLiteral(a: string, t: string, arguments: seq<string>)
    requires PrintfLiteral(a) && Printf(t, arguments).Some?
    ensures Printf(a + t, arguments) == Some(a + Printf(t, arguments).value)
    decreases |a|
  {
    if a == [] {
      assert a + t == t;
      assert a + Printf(t, arguments).value == Printf(t, arguments).value;
    } else {
      assert (a + t)[1..] == a[1..] + t && (a + t)[0] == a[0];
      PrintsLiteral(a[1..], t, arguments);
      assert [a[0]] + (a[1..] + Printf(t, arguments).value) == a + Printf(t, arguments).value;
    }
  }

  lemma PrintsArgument(t: string, x: string, arguments: seq<string>)
    requires Printf(t, arguments).Some?
    ensures Printf("%s" + t, [x] + arguments) == Some(x + Printf(t, arguments).value)
  {
    assert ("%s" + t)[2..] == t && ([x] + arguments)[1..] == arguments;
  }

  lemma PrintsNothing()
    ensures Printf("", []) == Some("")
  {
  }

  lemma PrintsStateTail(state: JobState)
    ensures Printf(AfterCode(StateName(state)), []) == Some(AfterCode(StateName(state)))
  {
    var t := AfterCode(StateName(state));
    PrintsNothing();
    assert PrintfLiteral(StateName(state));
    assert PrintfLiteral(t);
    PrintsLiteral(t, "", []);
    assert t + "" == t;
  }

  lemma PrintsText(p: string, c: string, state: JobState, codes: seq<string>)
    requires codes == [] ==> PrintfLiteral(c)
    requires codes != [] ==> codes == [c]
    ensures Printf(Text("%s", if codes == [] then c else "%s", StateName(state)), [p] + codes) ==
      Some(Text(p, c, StateName(state)))
  {
    var name := StateName(state);
    var hole := if codes == [] then c else "%s";
    PrintsStateTail(state);
    if codes == [] {
      PrintsLiteral(c, AfterCode(name), []);
    } else {
      PrintsArgument(AfterCode(name), c, []);
      assert [c] + [] == codes;
    }
    PrintsAfterPid(hole, c, name, codes);
    PrintsArgument(AfterPid(hole, name), p, codes);
    PrintsLiteral("\"pid\":", "%s" + AfterPid(hole, name), [p] + codes);
    PrintsLiteral("{", "\"pid\":" + ("%s" + AfterPid(hole, name)), [p] + codes);
  }

  lemma PrintsAfterPid(hole: string, c: string, name: string, codes: seq<string>)
    requires Printf(hole + AfterCode(name), codes) == Some(c + AfterCode(name))
    ensures Printf(AfterPid(hole, name), codes) == Some(AfterPid(c, name))
  {
    PrintsLiteral("\"returncode\":", hole + AfterCode(name), codes);
    PrintsLiteral(",\"protocol\":1,", "\"returncode\":" + (hole + AfterCode(name)), codes);
  }

  /**
   What the launcher's `printf` writes for its own pid, and for a dynamic code the code it was given,
   is exactly the text Python would write for that status.
   */
  lemma PrintfWritesToJson(state: JobState, returncode: Option<int>, dynamicCode: bool, pid: int)
    requires dynamicCode ==> returncode.Some?
    ensures Printf(PrintfFormat(state, returncode, dynamicCode),
        [Decimal(pid)] + (if dynamicCode then [Decimal(returncode.value)] else [])) ==
      Some(ToJson(JobStatus(state, Some(pid), returncode)))
  {
    FormatText(state, returncode, dynamicCode);
    ValuesHaveNoQuote(returncode);
    TextOfStatus(JobStatus(state, Some(pid), returncode));
    PrintsText(Decimal(pid), EncodeValue(Number(returncode)), state,
      if dynamicCode then [Decimal(returncode.value)] else []);
  }

  // grep -E for states

  predicate OccursAt(t: string, p: string, i: int) {
    0 <= i && i + |p| <= |t| && t[i..i + |p|] == p
  }

  predicate Contains(t: string, p: string) {
    exists i :: 0 <= i <= |t| && OccursAt(t, p, i)
  }

  /** The index of the first bar, or the length. */
  function FirstBar(t: string): (n: nat)
    ensures n <= |t| && (n < |t| ==> t[n] == '|')
  {
    if t == [] || t[0] == '|' then 0 else 1 + FirstBar(t[1..])
  }

  /** `grep -Eq` of a one-line text, for patterns whose only operator is the bar. */
  predicate GrepE(pattern: string, text: string)
    decreases |pattern|
  {
    var b := FirstBar(pattern);
    Contains(text, pattern[..b]) || (b < |pattern| && GrepE(pattern[b + 1..], text))
  }

  function StateEntry(state: JobState): string {
    "\"state\":\"" + (StateName(state) + "\"")
  }

  /** `_state_pattern`. */
  function StatePattern(states: seq<JobState>): string
    requires states != []
  {
    if |states| == 1 then StateEntry(states[0]) else StateEntry(states[0]) + ("|" + StatePattern(states[1..]))
  }

  /** Everything before the state entry. */
  function Front(p: string, c: string): string {
    ("{\"pid\":" + p) + (",\"protocol\":1,\"returncode\":" + c)
  }

  lemma SplitText(p: string, c: string, name: string)
    ensures Text(p, c, name) == Front(p, c) + AfterCode(name)
  {
    AfterPidParts(c, name);
    assert Text(p, c, name) == ("{\"pid\":" + p) + AfterPid(c, name);
  }

  lemma FrontIsFree(p: string, c: string)
    requires p != [] && c != [] && NoQuote(p) && NoQuote(c)
    ensures Free(Front(p, c), 's', 't')
    ensures var f := Front(p, c); |f| >= 2 && f[|f| - 1] != '"' && f[|f| - 2] != '"'
  {
    var key := ",\"protocol\":1,\"returncode\":";
    assert Free("{\"pid\":", 's', 't') && Free(key, 's', 't');
    FreeJoin("{\"pid\":", p, 's', 't');
    FreeJoin(key, c, 's', 't');
    FreeJoin("{\"pid\":" + p, key + c, 's', 't');
  }

  /** In the state entry's tail the pattern's opening can only stand at its one place. */
  lemma EntryPlace(state: JobState, k: nat)
    requires var t := AfterCode(StateName(state));
      k + 6 < |t| && t[k] == '"' && t[k + 1] == 's' && t[k + 2] == 't' && t[k + 3] == 'a' && t[k + 4] == 't'
    ensures k == 1
  {
    var n := StateName(state);
    var t := AfterCode(n);
    assert t == ",\"state\":\"" + n + "\"}";
    assert NoQuote(n);
    forall j | 10 <= j < |t| - 2 ensures t[j] != '"' {
      assert t[j] == n[j - 10];
    }
    assert |n| >= 6 && t[10] == n[0] && t[11] == n[1] && t[12] == n[2] && t[13] == n[3];
  }

  lemma DropCommon(a: string, x: string, y: string)
    ensures a + x <= a + y ==> x <= y
  {
    if a + x <= a + y {
      assert (a + x)[|a|..] == x && (a + y)[|a|..] == y;
    }
  }

  lemma QuotedNames(n: string, m: string)
    requires NoQuote(n) && NoQuote(m) && m + "\"" <= n + "\"}"
    ensures m == n
  {
    var x, y := m + "\"", n + "\"}";
    assert y[|m|] == x[|m|] && y[|n|] == '"';
    assert |m| == |n|;
    assert x[..|m|] == y[..|m|];
  }

  lemma NameIsPlain(state: JobState)
    ensures NoQuote(StateName(state)) && StateNamed(StateName(state)) == Some(state)
    ensures AfterCode(StateName(state))[1..] == "\"state\":\"" + (StateName(state) + "\"}")
  {
  }

  lemma EntryAtPlace(state: JobState, other: JobState)
    requires StateEntry(other) <= AfterCode(StateName(state))[1..]
    ensures state == other
  {
    var n, m := StateName(state), StateName(other);
    NameIsPlain(state);
    NameIsPlain(other);
    DropCommon("\"state\":\"", m + "\"", n + "\"}");
    QuotedNames(n, m);
  }

  lemma EntryIsThere(f: string, state: JobState)
    ensures Contains(f + AfterCode(StateName(state)), StateEntry(state))
  {
    var e, tail := StateEntry(state), AfterCode(StateName(state));
    assert tail == "," + (e + "}");
    assert f + tail == (f + ",") + (e + "}");
    assert OccursAt(f + tail, e, |f| + 1);
  }

  lemma EntryOnlyThere(f: string, state: JobState, other: JobState, i: int)
    requires Free(f, 's', 't') && |f| >= 2 && f[|f| - 1] != '"' && f[|f| - 2] != '"'
    requires OccursAt(f + AfterCode(StateName(state)), StateEntry(other), i)
    ensures state == other
  {
    var tail, e := AfterCode(StateName(state)), StateEntry(other);
    EntryOpens(other);
    EntryIsInTail(f, tail, e, i);
    EntryPlace(state, i - |f|);
    SliceOfTail(f, tail, |e|);
    EntryAtPlace(state, other);
  }

  lemma EntryOpens(state: JobState)
    ensures var e := StateEntry(state); |e| > 7 && e[..5] == "\"stat"
  {
  }

  lemma SliceOfTail(f: string, tail: string, n: nat)
    requires 1 + n <= |tail|
    ensures (f + tail)[|f| + 1..|f| + 1 + n] == tail[1..][..n]
  {
  }

  lemma EntryOccursOnce(p: string, c: string, state: JobState, other: JobState)
    requires p != [] && c != [] && NoQuote(p) && NoQuote(c)
    ensures Contains(Text(p, c, StateName(state)), StateEntry(other)) <==> state == other
  {
    var f := Front(p, c);
    var t := f + AfterCode(StateName(state));
    SplitText(p, c, StateName(state));
    FrontIsFree(p, c);
    EntryIsThere(f, state);
    forall i | OccursAt(t, StateEntry(other), i) ensures state == other {
      EntryOnlyThere(f, state, other, i);
    }
  }

  lemma EntryIsInTail(f: string, tail: string, e: string, i: nat)
    requires Free(f, 's', 't') && |f| >= 2 && f[|f| - 1] != '"' && f[|f| - 2] != '"'
    requires |e| > 7 && e[..5] == "\"stat" && OccursAt(f + tail, e, i)
    ensures |f| <= i && i - |f| + 6 < |tail|
    ensures var k := i - |f|;
      tail[k] == '"' && tail[k + 1] == 's' && tail[k + 2] == 't' && tail[k + 3] == 'a' && tail[k + 4] == 't'
  {
    var t := f + tail;
    assert e[0] == '"' && e[1] == 's' && e[2] == 't' && e[3] == 'a' && e[4] == 't';
    assert t[i] == e[0] && t[i + 1] == e[1] && t[i + 2] == e[2] && t[i + 3] == e[3] && t[i + 4] == e[4];
    assert forall j :: 0 <= j < |f| ==> t[j] == f[j];
  }

  lemma EntryHasNoBar(state: JobState, rest: string)
    ensures FirstBar(StateEntry(state) + ("|" + rest)) == |StateEntry(state)|
    ensures FirstBar(StateEntry(state)) == |StateEntry(state)|
  {
    assert forall i :: 0 <= i < |StateName(state)| ==> StateName(state)[i] != '|';
    BarAfter(StateEntry(state), "|" + rest);
    BarAfter(StateEntry(state), "");
    assert StateEntry(state) + "" == StateEntry(state);
  }

  lemma {:induction false} BarAfter(a: string, t: string)
    requires (forall i :: 0 <= i < |a| ==> a[i] != '|') && (t == [] || t[0] == '|')
    ensures FirstBar(a + t) == |a|
  {
    if a == [] {
      assert a + t == t;
    } else {
      assert (a + t)[1..] == a[1..] + t && (a + t)[0] == a[0];
      BarAfter(a[1..], t);
    }
  }

  lemma EntryMatches(status: JobStatus, other: JobState)
    ensures Contains(ToJson(status), StateEntry(other)) <==> status.state == other
  {
    TextOfStatus(status);
    ValuesHaveNoQuote(status.pid);
    ValuesHaveNoQuote(status.returncode);
    EntryOccursOnce(EncodeValue(Number(status.pid)), EncodeValue(Number(status.returncode)), status.state, other);
  }

  predicate HasEntry(text: string, states: seq<JobState>, i: int) {
    0 <= i < |states| && Contains(text, StateEntry(states[i]))
  }

  lemma FirstAlternative(e: string, more: string, text: string)
    requires FirstBar(e + ("|" + more)) == |e|
    ensures GrepE(e + ("|" + more), text) <==> Contains(text, e) || GrepE(more, text)
  {
    var whole := e + ("|" + more);
    assert whole[..|e|] == e && whole[|e| + 1..] == more;
  }

  /** The alternatives of a state pattern are the entries of its states. */
  lemma {:induction false} PatternAlternatives(states: seq<JobState>, text: string)
    requires states != []
    ensures GrepE(StatePattern(states), text) <==> exists i :: HasEntry(text, states, i)
    decreases |states|
  {
    var e := StateEntry(states[0]);
    assert HasEntry(text, states, 0) <==> Contains(text, e);
    if |states| == 1 {
      EntryHasNoBar(states[0], "");
      assert e[..|e|] == e;
    } else {
      var rest := states[1..];
      EntryHasNoBar(states[0], StatePattern(rest));
      FirstAlternative(e, StatePattern(rest), text);
      PatternAlternatives(rest, text);
      assert forall i :: HasEntry(text, rest, i) ==> HasEntry(text, states, i + 1);
      assert forall i :: i > 0 && HasEntry(text, states, i) ==> HasEntry(text, rest, i - 1);
    }
  }

  /** A state pattern occurs in the text of a status exactly when its state is one of the pattern's. */
  lemma PatternFindsState(states: seq<JobState>, status: JobStatus)
    requires states != []
    ensures GrepE(StatePattern(states), ToJson(status)) <==> status.state in states
  {
    var text := ToJson(status);
    PatternAlternatives(states, text);
    forall i | 0 <= i < |states|
      ensures HasEntry(text, states, i) <==> status.state == states[i]
    {
      EntryMatches(status, states[i]);
    }
  }
}
