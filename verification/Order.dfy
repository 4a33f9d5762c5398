/** The order of strings by code point, and sorting a set of them. */
module Order {

  predicate Below(a: string, b: string) {
    if b == [] then false
    else if a == [] then true
    else a[0] < b[0] || (a[0] == b[0] && Below(a[1..], b[1..]))
  }

  lemma {:induction false} BelowIsTransitive(a: string, b: string, c: string)
    requires Below(a, b) && Below(b, c)
    ensures Below(a, c)
  {
    if a != [] && a[0] == b[0] && b[0] == c[0] {
      BelowIsTransitive(a[1..], b[1..], c[1..]);
    }
  }

  lemma {:induction false} BelowIsTotal(a: string, b: string)
    ensures a == b || Below(a, b) || Below(b, a)
    ensures !(Below(a, b) && Below(b, a)) && !Below(a, a)
  {
    if a != [] {
      BelowIsTotal(a[1..], a[1..]);
      if b != [] {
        BelowIsTotal(a[1..], b[1..]);
        assert a == [a[0]] + a[1..] && b == [b[0]] + b[1..];
      }
    }
  }

  predicate IsLeast(m: string, s: set<string>) {
    m in s && forall x | x in s && x != m :: Below(m, x)
  }

  lemma {:induction false} LeastExists(s: set<string>) returns (m: string)
    requires s != {}
    ensures IsLeast(m, s)
    decreases |s|
  {
    var x :| x in s;
    if s == {x} {
      m := x;
    } else {
      var rest := s - {x};
      assert s == rest + {x};
      m := LeastExists(rest);
      BelowIsTotal(x, m);
      if Below(x, m) {
        forall y | y in s && y != x
          ensures Below(x, y)
        {
          if y != m {
            BelowIsTransitive(x, m, y);
          }
        }
        m := x;
      }
    }
  }

  lemma LeastIsUnique(s: set<string>, m: string, n: string)
    requires IsLeast(m, s) && IsLeast(n, s)
    ensures m == n
  {
    BelowIsTotal(m, n);
  }

  ghost predicate Ascending(s: seq<string>) {
    forall i, j | 0 <= i < j < |s| :: Below(s[i], s[j])
  }

  function Elements<T>(s: seq<T>): set<T> {
    set x | x in s
  }

  function Least(s: set<string>): (m: string)
    requires s != {}
    ensures IsLeast(m, s)
  {
    LeastWitness(s);
    var m :| m in s && IsLeast(m, s);
    m
  }

  lemma LeastWitness(s: set<string>)
    requires s != {}
    ensures exists m | m in s :: IsLeast(m, s)
    ensures forall m, n | m in s && n in s && IsLeast(m, s) && IsLeast(n, s) :: m == n
  {
    var m := LeastExists(s);
    forall m, n | m in s && n in s && IsLeast(m, s) && IsLeast(n, s)
      ensures m == n
    {
      LeastIsUnique(s, m, n);
    }
  }

  lemma PutFirst(m: string, rest: seq<string>, s: set<string>)
    requires IsLeast(m, s) && Elements(rest) == s - {m} && Ascending(rest)
    ensures Elements([m] + rest) == s && Ascending([m] + rest)
  {
    hide Below;
    assert Elements([m] + rest) == {m} + Elements(rest);
    forall i | 0 <= i < |rest|
      ensures Below(m, rest[i])
    {
      assert rest[i] in Elements(rest);
    }
  }

  /** A set has one ascending list. */
  lemma {:induction false} AscendingIsUnique(a: seq<string>, b: seq<string>)
    requires Ascending(a) && Ascending(b) && Elements(a) == Elements(b)
    ensures a == b
  {
    hide Below;
    NoElements(a);
    NoElements(b);
    if a != [] {
      FirstIsLeast(a);
      FirstIsLeast(b);
      LeastIsUnique(Elements(a), a[0], b[0]);
      TailElements(a);
      TailElements(b);
      AscendingIsUnique(a[1..], b[1..]);
      assert a == [a[0]] + a[1..] && b == [b[0]] + b[1..];
    }
  }

  lemma NoElements<T>(s: seq<T>)
    ensures Elements(s) == {} <==> s == []
  {
    if s != [] {
      assert s[0] in Elements(s);
    }
  }

  lemma FirstIsLeast(s: seq<string>)
    requires Ascending(s) && s != []
    ensures IsLeast(s[0], Elements(s))
  {
    hide Below;
  }

  lemma TailElements(s: seq<string>)
    requires Ascending(s) && s != []
    ensures Elements(s[1..]) == Elements(s) - {s[0]}
  {
    hide Below;
    forall i | 0 < i < |s|
      ensures s[i] != s[0]
    {
      BelowIsTotal(s[0], s[i]);
    }
    assert s == [s[0]] + s[1..];
  }

  /** Python's `sorted` on a set: ascending, each element once. */
  function Sorted(s: set<string>): (r: seq<string>)
    ensures Elements(r) == s && |r| == |s| && Ascending(r)
  {
    if s == {} then []
    else
      var m := Least(s);
      var rest := Sorted(s - {m});
      PutFirst(m, rest, s);
      [m] + rest
  }
}
