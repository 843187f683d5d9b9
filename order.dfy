/** Python's ordering of `str` values (code point by code point, a proper
    prefix first), and `sorted()` of a set of names in that order. */
module Order {

  /** `a < b` on Python strings. */
  predicate Below(a: string, b: string) {
    if a == [] then b != []
    else if b == [] then false
    else a[0] < b[0] || (a[0] == b[0] && Below(a[1..], b[1..]))
  }

  lemma {:induction false} BelowIrreflexive(a: string)
    ensures !Below(a, a)
  {
    if a != [] { BelowIrreflexive(a[1..]); }
  }

  lemma {:induction false} BelowTransitive(a: string, b: string, c: string)
    requires Below(a, b) && Below(b, c)
    ensures Below(a, c)
  {
    if a != [] && a[0] == b[0] && b[0] == c[0] {
      BelowTransitive(a[1..], b[1..], c[1..]);
    }
  }

  lemma {:induction false} BelowTotal(a: string, b: string)
    ensures a == b || Below(a, b) || Below(b, a)
  {
    if a != [] && b != [] && a[0] == b[0] {
      BelowTotal(a[1..], b[1..]);
      if a[1..] == b[1..] {
        assert a == [a[0]] + a[1..] && b == [b[0]] + b[1..];
      }
    }
  }

  lemma BelowAsymmetric(a: string, b: string)
    requires Below(a, b)
    ensures !Below(b, a)
  {
    if Below(b, a) {
      BelowTransitive(a, b, a);
      BelowIrreflexive(a);
    }
  }

  /** Strictly increasing: sorted, with no name twice. */
  predicate Sorted(s: seq<string>) {
    forall i, j :: 0 <= i < j < |s| ==> Below(s[i], s[j])
  }

  /** The least element of a non-empty set of names. */
  function Least(names: set<string>): (m: string)
    requires names != {}
    ensures m in names && forall y :: y in names && y != m ==> Below(m, y)
  {
    LeastExists(names);
    LeastUnique(names);
    var m :| m in names && forall y :: y in names && y != m ==> Below(m, y);
    m
  }

  lemma LeastExists(names: set<string>)
    requires names != {}
    ensures exists m :: m in names && forall y :: y in names && y != m ==> Below(m, y)
    decreases |names|
  {
    var x :| x in names;
    if names != {x} {
      LeastExists(names - {x});
      var m :| m in names - {x} && forall y :: y in names - {x} && y != m ==> Below(m, y);
      BelowTotal(m, x);
      if Below(x, m) {
        forall y | y in names && y != x ensures Below(x, y) {
          if y != m { BelowTransitive(x, m, y); }
        }
      }
    }
  }

  lemma LeastUnique(names: set<string>)
    ensures forall a, b ::
      (a in names && (forall y :: y in names && y != a ==> Below(a, y)) &&
       b in names && (forall y :: y in names && y != b ==> Below(b, y))) ==> a == b
  {
    forall a, b | a in names && (forall y :: y in names && y != a ==> Below(a, y)) &&
                  b in names && (forall y :: y in names && y != b ==> Below(b, y))
      ensures a == b
    {
      if a != b { BelowAsymmetric(a, b); }
    }
  }

  /** `sorted(names)`: every name once, in increasing order. */
  function SortedOf(names: set<string>): (r: seq<string>)
    ensures |r| == |names|
    ensures forall x :: x in r <==> x in names
    decreases names
  {
    if names == {} then []
    else
      var m := Least(names);
      var rest := SortedOf(names - {m});
      assert |names - {m}| == |names| - 1;
      [m] + rest
  }

  /** The result of `SortedOf` is in increasing order. */
  lemma {:induction false} SortedOfSorted(names: set<string>)
    ensures Sorted(SortedOf(names))
    decreases names
  {
    if names != {} {
      var m := Least(names);
      var rest := SortedOf(names - {m});
      SortedOfSorted(names - {m});
      var r := SortedOf(names);
      assert r == [m] + rest;
      forall i, j | 0 <= i < j < |r| ensures Below(r[i], r[j]) {
        assert r[j] == rest[j - 1];
        if i > 0 {
          assert r[i] == rest[i - 1];
        } else {
          assert rest[j - 1] in rest;
          assert r[j] in names - {m};
        }
      }
    }
  }

  /** There is only one increasing arrangement of a set of names, so any
      sorted sequence holding exactly those names is `SortedOf` them. */
  lemma {:induction false} SortedUnique(a: seq<string>, b: seq<string>)
    requires Sorted(a) && Sorted(b)
    requires forall x :: x in a <==> x in b
    ensures a == b
    decreases |a|
  {
    if a != [] {
      assert a[0] in b;
      assert b != [];
      assert b[0] in a;
      var i :| 0 <= i < |b| && b[i] == a[0];
      var j :| 0 <= j < |a| && a[j] == b[0];
      if a[0] != b[0] {
        assert i > 0 && j > 0;
        BelowAsymmetric(a[0], a[j]);
      }
      BelowIrreflexive(a[0]);
      forall x | x in a[1..] ensures x in b[1..] {
        var k :| 0 <= k < |a[1..]| && a[1..][k] == x;
        assert Below(a[0], x) && x in b;
        var l :| 0 <= l < |b| && b[l] == x;
        assert l != 0;
        assert b[1..][l - 1] == x;
      }
      forall x | x in b[1..] ensures x in a[1..] {
        var k :| 0 <= k < |b[1..]| && b[1..][k] == x;
        assert Below(b[0], x) && x in a;
        var l :| 0 <= l < |a| && a[l] == x;
        assert l != 0;
        assert a[1..][l - 1] == x;
      }
      SortedUnique(a[1..], b[1..]);
      assert a == [a[0]] + a[1..] && b == [b[0]] + b[1..];
    } else {
      HeadIn(b);
    }
  }

  /** A non-empty sequence holds its head. A lemma of its own, so that the
      branch of `SortedUnique` where `b` must be empty states it without
      indexing `b` there. */
  lemma HeadIn(s: seq<string>)
    ensures s == [] || s[0] in s
  {
  }

  /** A sorted sequence names everything at most once. */
  lemma SortedDistinct(s: seq<string>, i: int, j: int)
    requires Sorted(s) && 0 <= i < |s| && 0 <= j < |s| && i != j
    ensures s[i] != s[j]
  {
    if i < j { BelowIrreflexive(s[i]); } else { BelowIrreflexive(s[j]); }
  }
}
