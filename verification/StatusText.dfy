/**
 The text of a status: JSON written by Python's `to_json` or by a shell `printf`, matched by
 `grep -E` and read back by `from_json`.
 */
module StatusText {
  import opened Options
  import opened Jobs

  // Decimal numerals

  predicate IsDigit(c: char) {
    '0' <= c <= '9'
  }

  function DigitChar(d: nat): (c: char)
    requires d < 10
    ensures IsDigit(c)
  {
    "0123456789"[d]
  }

  function DigitValue(c: char): (d: nat)
    requires IsDigit(c)
    ensures d < 10
  {
    c as int - '0' as int
  }

  function Numeral(n: nat): (s: string)
    ensures |s| > 0 && forall i :: 0 <= i < |s| ==> IsDigit(s[i])
    ensures |s| > 1 ==> s[0] != '0'
    ensures s == "0" <==> n == 0
  {
    if n < 10 then [DigitChar(n)] else Numeral(n / 10) + [DigitChar(n % 10)]
  }

  function Value(s: string): nat
    requires forall i :: 0 <= i < |s| ==> IsDigit(s[i])
  {
    if s == [] then 0 else Value(s[..|s| - 1]) * 10 + DigitValue(s[|s| - 1])
  }

  lemma {:induction false} NumeralValue(n: nat)
    ensures Value(Numeral(n)) == n
  {
    if n >= 10 {
      NumeralValue(n / 10);
      assert Numeral(n)[..|Numeral(n)| - 1] == Numeral(n / 10);
    } else {
      assert Value([]) == 0;
    }
  }

  function Decimal(i: int): string {
    if i < 0 then "-" + Numeral(-i) else Numeral(i)
  }

  // JSON objects without nesting

  datatype Json = JNull | JInt(i: int) | JString(s: string)

  /** Characters that stand for themselves inside a JSON string. */
  predicate PlainChar(c: char) {
    c != '"' && c != '\\' && c >= ' '
  }

  predicate PlainString(s: string) {
    forall i :: 0 <= i < |s| ==> PlainChar(s[i])
  }

  function Quoted(s: string): string {
    "\"" + s + "\""
  }

  function EncodeValue(v: Json): string {
    match v
    case JNull => "null"
    case JInt(i) => Decimal(i)
    case JString(s) => Quoted(s)
  }

  /** The members and the closing brace. */
  function EncodeMembers(members: seq<(string, Json)>): string {
    if members == [] then "}"
    else
      var tail := if |members| == 1 then "}" else "," + EncodeMembers(members[1..]);
      Quoted(members[0].0) + (":" + (EncodeValue(members[0].1) + tail))
  }

  /** `json.dumps` with compact separators, for members already in key order. */
  function EncodeObject(members: seq<(string, Json)>): string {
    "{" + EncodeMembers(members)
  }

  /** What follows the blanks at the front. */
  function SkipBlank(t: string): (rest: string)
    ensures |rest| <= |t|
  {
    if t != [] && (t[0] == ' ' || t[0] == '\t' || t[0] == '\n' || t[0] == '\r') then SkipBlank(t[1..]) else t
  }

  /** The number of leading digits. */
  function DigitRun(t: string): (n: nat)
    ensures n <= |t| && (forall i :: 0 <= i < n ==> IsDigit(t[i])) && (n < |t| ==> !IsDigit(t[n]))
  {
    if t == [] || !IsDigit(t[0]) then 0 else 1 + DigitRun(t[1..])
  }

  /** The number of leading plain characters. */
  function PlainRun(t: string): (n: nat)
    ensures n <= |t| && PlainString(t[..n]) && (n < |t| ==> !PlainChar(t[n]))
  {
    if t == [] || !PlainChar(t[0]) then 0 else 1 + PlainRun(t[1..])
  }

  function ReadString(t: string): (r: Option<(string, string)>)
    ensures r.Some? ==> |r.value.1| < |t|
  {
    if t == [] || t[0] != '"' then None
    else
      var n := PlainRun(t[1..]);
      if n + 1 < |t| && t[n + 1] == '"' then Some((t[1..n + 1], t[n + 2..])) else None
  }

  /** Digits without a leading zero; a fraction or an exponent makes the number no integer. */
  function ReadNatural(t: string): (r: Option<(nat, string)>)
    ensures r.Some? ==> |r.value.1| < |t|
  {
    var n := DigitRun(t);
    if n == 0 || (n > 1 && t[0] == '0') || (n < |t| && (t[n] == '.' || t[n] == 'e' || t[n] == 'E')) then None
    else Some((Value(t[..n]), t[n..]))
  }

  function ReadInt(t: string): (r: Option<(int, string)>)
    ensures r.Some? ==> |r.value.1| < |t|
  {
    if t != [] && t[0] == '-' then
      match ReadNatural(t[1..])
      case None => None
      case Some((n, rest)) => Some((-(n as int), rest))
    else
      match ReadNatural(t)
      case None => None
      case Some((n, rest)) => Some((n as int, rest))
  }

  function ReadValue(t: string): (r: Option<(Json, string)>)
    ensures r.Some? ==> |r.value.1| < |t|
  {
    if "null" <= t then Some((JNull, t[4..]))
    else if t != [] && t[0] == '"' then
      match ReadString(t)
      case None => None
      case Some((s, rest)) => Some((JString(s), rest))
    else
      match ReadInt(t)
      case None => None
      case Some((i, rest)) => Some((JInt(i), rest))
  }

  /** Read `"key": value` with blanks wherever JSON allows them. */
  function ReadMember(t: string): (r: Option<((string, Json), string)>)
    ensures r.Some? ==> |r.value.1| < |t|
  {
    match ReadString(SkipBlank(t))
    case None => None
    case Some((key, after)) =>
      var rest := SkipBlank(after);
      if rest == [] || rest[0] != ':' then None
      else
        match ReadValue(SkipBlank(rest[1..]))
        case None => None
        case Some((v, end)) => Some(((key, v), SkipBlank(end)))
  }

  /** Read members up to the closing brace; a repeated key keeps its last value. */
  function ReadMembers(t: string, found: map<string, Json>): Option<map<string, Json>>
    decreases |t|
  {
    match ReadMember(t)
    case None => None
    case Some((member, rest)) =>
      var more := found[member.0 := member.1];
      if rest != [] && rest[0] == ',' then ReadMembers(rest[1..], more)
      else if rest != [] && rest[0] == '}' && SkipBlank(rest[1..]) == [] then Some(more)
      else None
  }

  function ReadObject(text: string): Option<map<string, Json>> {
    var t := SkipBlank(text);
    if t == [] || t[0] != '{' then None
    else
      var inside := SkipBlank(t[1..]);
      if inside != [] && inside[0] == '}' then (if SkipBlank(inside[1..]) == [] then Some(map[]) else None)
      else ReadMembers(inside, map[])
  }

  // Reading back what was written

  function AsMap(members: seq<(string, Json)>, found: map<string, Json>): map<string, Json> {
    if members == [] then found else AsMap(members[1..], found[members[0].0 := members[0].1])
  }

  predicate PlainMembers(members: seq<(string, Json)>) {
    forall i :: 0 <= i < |members| ==>
      PlainString(members[i].0) && (members[i].1.JString? ==> PlainString(members[i].1.s))
  }

  lemma {:induction false} PlainRunStops(s: string, rest: string)
    requires PlainString(s) && (rest == [] || !PlainChar(rest[0]))
    ensures PlainRun(s + rest) == |s|
  {
    if s == [] {
      assert s + rest == rest;
    } else {
      assert (s + rest)[1..] == s[1..] + rest;
      PlainRunStops(s[1..], rest);
    }
  }

  lemma {:induction false} DigitRunStops(s: string, rest: string)
    requires (forall i :: 0 <= i < |s| ==> IsDigit(s[i])) && (rest == [] || !IsDigit(rest[0]))
    ensures DigitRun(s + rest) == |s|
  {
    if s == [] {
      assert s + rest == rest;
    } else {
      assert (s + rest)[1..] == s[1..] + rest;
      DigitRunStops(s[1..], rest);
    }
  }

  lemma ReadsQuoted(s: string, rest: string)
    requires PlainString(s)
    ensures ReadString(Quoted(s) + rest) == Some((s, rest))
  {
    var t := Quoted(s) + rest;
    assert t[1..] == s + ("\"" + rest);
    PlainRunStops(s, "\"" + rest);
    assert t[|s| + 1] == '"';
    assert t[1..|s| + 1] == s && t[|s| + 2..] == rest;
  }

  lemma ReadsNumeral(n: nat, rest: string)
    requires rest != [] && (rest[0] == ',' || rest[0] == '}')
    ensures ReadNatural(Numeral(n) + rest) == Some((n, rest))
  {
    var body := Numeral(n) + rest;
    DigitRunStops(Numeral(n), rest);
    NumeralValue(n);
    assert body[..|Numeral(n)|] == Numeral(n) && body[|Numeral(n)|..] == rest;
    assert body[|Numeral(n)|] == rest[0];
  }

  lemma DropFirst(c: char, s: string, rest: string)
    ensures (([c] + s) + rest)[1..] == s + rest
  {
  }

  lemma ReadsMinus(t: string, n: nat, rest: string)
    requires t != [] && t[0] == '-' && ReadNatural(t[1..]) == Some((n, rest))
    ensures ReadInt(t) == Some((-(n as int), rest))
  {
  }

  lemma ReadsDecimal(i: int, rest: string)
    requires rest != [] && (rest[0] == ',' || rest[0] == '}')
    ensures ReadInt(Decimal(i) + rest) == Some((i, rest))
  {
    if i < 0 {
      ReadsNumeral(-i, rest);
      DropFirst('-', Numeral(-i), rest);
      ReadsMinus(("-" + Numeral(-i)) + rest, -i, rest);
    } else {
      ReadsNumeral(i, rest);
      assert IsDigit((Numeral(i) + rest)[0]);
    }
  }

  lemma ReadsValue(v: Json, rest: string)
    requires v.JString? ==> PlainString(v.s)
    requires rest != [] && (rest[0] == ',' || rest[0] == '}')
    ensures ReadValue(EncodeValue(v) + rest) == Some((v, rest))
  {
    var t := EncodeValue(v) + rest;
    match v
    case JNull =>
      assert t[..4] == "null" && t[4..] == rest;
    case JInt(i) =>
      ReadsDecimal(i, rest);
      assert t[0] != 'n' && t[0] != '"';
    case JString(s) =>
      assert t[0] == '"';
      ReadsQuoted(s, rest);
  }

  predicate NotBlank(t: string) {
    t != [] && t[0] > ' '
  }

  lemma NothingToSkip(t: string)
    requires NotBlank(t)
    ensures SkipBlank(t) == t
  {
  }

  lemma ReadsMember(key: string, v: Json, rest: string)
    requires PlainString(key) && (v.JString? ==> PlainString(v.s))
    requires rest != [] && (rest[0] == ',' || rest[0] == '}')
    ensures ReadMember(Quoted(key) + (":" + (EncodeValue(v) + rest))) == Some(((key, v), rest))
  {
    var value := EncodeValue(v) + rest;
    var after := ":" + value;
    var t := Quoted(key) + after;
    NothingToSkip(t);
    ReadsQuoted(key, after);
    NothingToSkip(after);
    assert after[1..] == value;
    NothingToSkip(value);
    ReadsValue(v, rest);
    NothingToSkip(rest);
  }

  lemma MoreMembers(t: string, found: map<string, Json>, member: (string, Json), rest: string)
    requires ReadMember(t) == Some((member, "," + rest))
    ensures ReadMembers(t, found) == ReadMembers(rest, found[member.0 := member.1])
  {
    assert ("," + rest)[1..] == rest;
  }

  lemma LastMember(t: string, found: map<string, Json>, member: (string, Json))
    requires ReadMember(t) == Some((member, "}"))
    ensures ReadMembers(t, found) == Some(found[member.0 := member.1])
  {
    assert "}"[1..] == "";
  }

  lemma {:induction false} ReadsMembers(members: seq<(string, Json)>, found: map<string, Json>)
    requires PlainMembers(members) && members != []
    ensures ReadMembers(EncodeMembers(members), found) == Some(AsMap(members, found))
    decreases |members|
  {
    var t := EncodeMembers(members);
    if |members| == 1 {
      ReadsMember(members[0].0, members[0].1, "}");
      assert members[1..] == [];
      LastMember(t, found, members[0]);
    } else {
      var more := EncodeMembers(members[1..]);
      ReadsMember(members[0].0, members[0].1, "," + more);
      MoreMembers(t, found, members[0], more);
      ReadsMembers(members[1..], found[members[0].0 := members[0].1]);
    }
  }

  /** Any flat object whose strings need no escapes is read back as it was written. */
  lemma ObjectRoundTrip(members: seq<(string, Json)>)
    requires PlainMembers(members)
    ensures ReadObject(EncodeObject(members)) == Some(AsMap(members, map[]))
  {
    var text := EncodeObject(members);
    var inside := EncodeMembers(members);
    assert text[1..] == inside;
    NothingToSkip(text);
    NothingToSkip(inside);
    if members != [] {
      ReadsMembers(members, map[]);
      assert inside[0] == '"';
    } else {
      assert inside[1..] == "";
    }
  }

  // Statuses

  function StateName(state: JobState): string {
    match state
    case Prepared => "prepared"
    case Starting => "starting"
    case Running => "running"
    case Succeeded => "succeeded"
    case Failed => "failed"
    case Terminated => "terminated"
  }

  function StateNamed(name: string): Option<JobState> {
    if name == "prepared" then Some(Prepared)
    else if name == "starting" then Some(Starting)
    else if name == "running" then Some(Running)
    else if name == "succeeded" then Some(Succeeded)
    else if name == "failed" then Some(Failed)
    else if name == "terminated" then Some(Terminated)
    else None
  }

  function Number(n: Option<int>): Json {
    if n.Some? then JInt(n.value) else JNull
  }

  function ToJson(status: JobStatus): string {
    EncodeObject(StatusMembers(status))
  }

  datatype DecodeError = NotAnObject | UnsupportedProtocol | BadState | BadNumber | BadStatus

  function OptionalInt(raw: map<string, Json>, key: string): Result<Option<int>, DecodeError> {
    if key !in raw || raw[key].JNull? then Ok(None)
    else if raw[key].JInt? then Ok(Some(raw[key].i))
    else Err(BadNumber)
  }

  /** `from_json`: every failure is an error, and an absent pid or return code reads as null. */
  function FromJson(text: string): Result<JobStatus, DecodeError> {
    match ReadObject(text)
    case None => Err(NotAnObject)
    case Some(raw) =>
      if "protocol" !in raw || raw["protocol"] != JInt(1) then Err(UnsupportedProtocol)
      else if "state" !in raw || !raw["state"].JString? || StateNamed(raw["state"].s).None? then Err(BadState)
      else
        match (OptionalInt(raw, "pid"), OptionalInt(raw, "returncode"))
        case (Ok(pid), Ok(code)) =>
          var status := JobStatus(StateNamed(raw["state"].s).value, pid, code);
          if ValidStatus(status) then Ok(status) else Err(BadStatus)
        case (_, _) => Err(BadNumber)
  }

  function StatusMembers(status: JobStatus): seq<(string, Json)> {
    [("pid", Number(status.pid)), ("protocol", JInt(1)),
     ("returncode", Number(status.returncode)), ("state", JString(StateName(status.state)))]
  }

  lemma StatusMap(status: JobStatus)
    ensures AsMap(StatusMembers(status), map[]) ==
      map["pid" := Number(status.pid), "protocol" := JInt(1),
          "returncode" := Number(status.returncode), "state" := JString(StateName(status.state))]
  {
    var m := StatusMembers(status);
    var one := map[m[0].0 := m[0].1];
    var two := one[m[1].0 := m[1].1];
    var three := two[m[2].0 := m[2].1];
    assert m[1..] == [m[1], m[2], m[3]] && [m[1], m[2], m[3]][1..] == [m[2], m[3]] && [m[2], m[3]][1..] == [m[3]];
    assert AsMap(m, map[]) == AsMap([m[1], m[2], m[3]], one);
    assert AsMap([m[1], m[2], m[3]], one) == AsMap([m[2], m[3]], two);
    assert AsMap([m[2], m[3]], two) == AsMap([m[3]], three);
    assert AsMap([m[3]], three) == AsMap([], three[m[3].0 := m[3].1]);
  }

  lemma KeysArePlain()
    ensures PlainString("pid") && PlainString("protocol") && PlainString("returncode") && PlainString("state")
  {
  }

  lemma StateNameIsPlain(state: JobState)
    ensures PlainString(StateName(state)) && StateNamed(StateName(state)) == Some(state)
  {
  }

  lemma StatusIsPlain(status: JobStatus)
    ensures PlainMembers(StatusMembers(status))
    ensures StateNamed(StateName(status.state)) == Some(status.state)
  {
    KeysArePlain();
    StateNameIsPlain(status.state);
  }

  lemma DecodeMap(raw: map<string, Json>, status: JobStatus)
    requires ValidStatus(status)
    requires "pid" in raw && "protocol" in raw && "returncode" in raw && "state" in raw
    requires raw["pid"] == Number(status.pid) && raw["protocol"] == JInt(1)
    requires raw["returncode"] == Number(status.returncode)
    requires raw["state"].JString? && StateNamed(raw["state"].s) == Some(status.state)
    ensures forall text :: ReadObject(text) == Some(raw) ==> FromJson(text) == Ok(status)
  {
  }

  /** Every valid status survives being written and read. */
  lemma StatusRoundTrip(status: JobStatus)
    requires ValidStatus(status)
    ensures FromJson(ToJson(status)) == Ok(status)
  {
    StatusIsPlain(status);
    ObjectRoundTrip(StatusMembers(status));
    StatusMap(status);
    DecodeMap(AsMap(StatusMembers(status), map[]), status);
  }
}
