/** The order of strings by code point, and sorting by it. */
module StringOrder {

  predicate Less(a: string, b: string) {
    b != "" && (a == "" || a[0] < b[0] || (a[0] == b[0] && Less(a[1..], b[1..])))
  }

  lemma {:induction false} LessIsTotal(a: string, b: string)
    ensures a != b ==> Less(a, b) || Less(b, a)
    ensures !(Less(a, b) && Less(b, a)) && !Less(a, a)
    decreases |a|
  {
    if a != "" {
      LessIsTotal(a[1..], a[1..]);
      if b != "" {
        LessIsTotal(a[1..], b[1..]);
        assert a == [a[0]] + a[1..] && b == [b[0]] + b[1..];
      }
    }
  }

  lemma {:induction false} LessIsTransitive(a: string, b: string, c: string)
    requires Less(a, b) && Less(b, c)
    ensures Less(a, c)
    decreases |a|
  {
    if a != "" && a[0] == b[0] == c[0] {
      LessIsTransitive(a[1..], b[1..], c[1..]);
    }
  }

  /** In strictly increasing order, so without duplicates. */
  predicate Increasing(s: seq<string>) {
    forall i, j :: 0 <= i < j < |s| ==> Less(s[i], s[j])
  }

  function Members(s: seq<string>): set<string> {
    set x | x in s
  }

  lemma NoMembers(s: seq<string>)
    ensures Members(s) == {} <==> s == []
  {
    if s != [] {
      assert s[0] in Members(s);
    }
  }

  predicate NoDuplicates(s: seq<string>) {
    forall i, j :: 0 <= i < j < |s| ==> s[i] != s[j]
  }

  /** There is only one increasing list of given strings. */
  lemma {:induction false} IncreasingIsUnique(a: seq<string>, b: seq<string>)
    requires Increasing(a) && Increasing(b) && Members(a) == Members(b)
    ensures a == b
    decreases |a|
  {
    if a != [] && b != [] {
      FirstIsLeast(a, b);
      FirstIsLeast(b, a);
      LessIsTotal(a[0], b[0]);
      var x, y := a[1..], b[1..];
      forall s
        ensures s in x <==> s in a && s != a[0]
        ensures s in y <==> s in b && s != b[0]
      {
        LessIsTotal(a[0], a[0]);
        assert s in x ==> Less(a[0], s);
        assert s in y ==> Less(b[0], s);
        assert a == [a[0]] + x && b == [b[0]] + y;
      }
      assert forall s :: s in Members(x) <==> s in Members(a) && s != a[0];
      assert forall s :: s in Members(y) <==> s in Members(b) && s != b[0];
      assert Members(x) == Members(y);
      IncreasingIsUnique(x, y);
    } else {
      NoMembers(a);
      NoMembers(b);
    }
  }

  lemma FirstIsLeast(a: seq<string>, b: seq<string>)
    requires Increasing(a) && a != [] && b != [] && Members(a) == Members(b)
    ensures b[0] == a[0] || Less(a[0], b[0])
  {
    assert b[0] in Members(b);
    var i :| 0 <= i < |a| && a[i] == b[0];
  }

  /** Put a new string in its place. */
  function Insert(x: string, s: seq<string>): (r: seq<string>)
    requires Increasing(s) && x !in s
    ensures Increasing(r) && Members(r) == Members(s) + {x}
  {
    if s == [] then [x]
    else if Less(x, s[0]) then
      InsertFront(x, s);
      [x] + s
    else
      LessIsTotal(x, s[0]);
      var rest := Insert(x, s[1..]);
      InsertRest(x, s, rest);
      [s[0]] + rest
  }

  lemma InsertFront(x: string, s: seq<string>)
    requires Increasing(s) && s != [] && Less(x, s[0])
    ensures Increasing([x] + s) && Members([x] + s) == Members(s) + {x}
  {
    forall i | 0 < i < |s|
      ensures Less(x, s[i])
    {
      LessIsTransitive(x, s[0], s[i]);
    }
    var r := [x] + s;
    assert forall i :: 0 < i < |r| ==> r[i] == s[i - 1];
  }

  lemma InsertRest(x: string, s: seq<string>, rest: seq<string>)
    requires Increasing(s) && s != [] && Less(s[0], x)
    requires Increasing(rest) && Members(rest) == Members(s[1..]) + {x}
    ensures Increasing([s[0]] + rest) && Members([s[0]] + rest) == Members(s) + {x}
  {
    forall i | 0 <= i < |rest|
      ensures Less(s[0], rest[i])
    {
      assert rest[i] in Members(rest);
      assert rest[i] != x ==> rest[i] in Members(s[1..]);
    }
    var r := [s[0]] + rest;
    assert forall i :: 0 < i < |r| ==> r[i] == rest[i - 1];
    assert s == [s[0]] + s[1..];
    assert forall y :: y in r <==> y == s[0] || y in Members(rest);
    assert forall y :: y in s <==> y == s[0] || y in Members(s[1..]);
  }

  /** `sorted` of strings that are all different. */
  function Sorted(s: seq<string>): (r: seq<string>)
    requires NoDuplicates(s)
    ensures Increasing(r) && Members(r) == Members(s)
  {
    if s == [] then []
    else
      var last := s[|s| - 1];
      var front := s[..|s| - 1];
      var rest := Sorted(front);
      assert last !in front;
      assert last !in rest by { assert last !in Members(front); assert last in rest ==> last in Members(rest); }
      assert s == front + [last];
      assert forall x :: x in s <==> x in front || x == last;
      Insert(last, rest)
  }
}
