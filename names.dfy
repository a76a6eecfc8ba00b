/**
 * Python's ordering of `str` values (code point by code point, a proper
 * prefix first) and `sorted` over a set of names.
 */
module Names {

  /** `a < b` on Python strings. */
  predicate NameLess(a: string, b: string)
  {
    if |a| == 0 then |b| > 0
    else if |b| == 0 then false
    else if a[0] != b[0] then a[0] < b[0]
    else NameLess(a[1..], b[1..])
  }

  lemma {:induction false} NameLessIrreflexive(a: string)
    ensures !NameLess(a, a)
  {
    if |a| > 0 {
      NameLessIrreflexive(a[1..]);
    }
  }

  lemma {:induction false} NameLessTransitive(a: string, b: string, c: string)
    requires NameLess(a, b) && NameLess(b, c)
    ensures NameLess(a, c)
  {
    if |a| > 0 && |b| > 0 && |c| > 0 && a[0] == b[0] && b[0] == c[0] {
      NameLessTransitive(a[1..], b[1..], c[1..]);
    }
  }

  /** Two different names are ordered one way or the other. */
  lemma {:induction false} NameLessTotal(a: string, b: string)
    requires a != b
    ensures NameLess(a, b) || NameLess(b, a)
  {
    if |a| > 0 && |b| > 0 && a[0] == b[0] {
      assert a == [a[0]] + a[1..] && b == [b[0]] + b[1..];
      NameLessTotal(a[1..], b[1..]);
    }
  }

  lemma NameLessAsymmetric(a: string, b: string)
    requires NameLess(a, b)
    ensures !NameLess(b, a)
  {
    if NameLess(b, a) {
      NameLessTransitive(a, b, a);
      NameLessIrreflexive(a);
    }
  }

  /** Every element comes strictly after the one before it. */
  ghost predicate StrictlySorted(s: seq<string>)
  {
    forall i, j :: 0 <= i < j < |s| ==> NameLess(s[i], s[j])
  }

  lemma {:induction false} LeastExists(names: set<string>)
    requires names != {}
    ensures exists m :: m in names && forall x :: x in names && x != m ==> NameLess(m, x)
  {
    if forall y :: y !in names { assert false; }
    var x :| x in names;
    var rest := names - {x};
    if rest == {} {
      assert names == {x};
    } else {
      LeastExists(rest);
      var m :| m in rest && forall y :: y in rest && y != m ==> NameLess(m, y);
      var least := if NameLess(x, m) then x else m;
      if least == m {
        NameLessTotal(x, m);
      }
      forall y | y in names && y != least ensures NameLess(least, y) {
        if y != x && y != m {
          assert y in rest;
          if least == x {
            NameLessTransitive(x, m, y);
          }
        } else if y == m {
          NameLessTotal(x, m);
        }
      }
      assert least in names;
    }
  }

  lemma NotInEmpty(x: string, s: seq<string>, e: seq<string>)
    requires e == [] && x in s
    ensures exists y :: (y in s) != (y in e)
  {
  }

  lemma LeastUnique(names: set<string>)
    ensures forall m, n ::
      (m in names && n in names
       && (forall x :: x in names && x != m ==> NameLess(m, x))
       && (forall x :: x in names && x != n ==> NameLess(n, x))) ==> m == n
  {
    forall m, n | m in names && n in names
      && (forall x :: x in names && x != m ==> NameLess(m, x))
      && (forall x :: x in names && x != n ==> NameLess(n, x))
      ensures m == n
    {
      if m != n {
        NameLessAsymmetric(m, n);
      }
    }
  }

  /** `min(names)` */
  function Least(names: set<string>): (m: string)
    requires names != {}
    ensures m in names && forall x :: x in names && x != m ==> NameLess(m, x)
  {
    LeastExists(names);
    LeastUnique(names);
    var m :| m in names && forall x :: x in names && x != m ==> NameLess(m, x); m
  }

  /**
   * `sorted(names)`: the names in increasing order, each once. The least
   * comes first, then the others sorted.
   */
  function SortedNames(names: set<string>): (s: seq<string>)
    ensures StrictlySorted(s)
    ensures forall x :: x in s <==> x in names
    ensures |s| == |names|
    decreases |names|
  {
    if names == {} then []
    else
      var m := Least(names);
      var rest := SortedNames(names - {m});
      assert forall x :: x in rest ==> NameLess(m, x);
      [m] + rest
  }

  /** A strictly sorted sequence is determined by the set of its elements. */
  lemma {:induction false} StrictlySortedUnique(a: seq<string>, b: seq<string>)
    requires StrictlySorted(a) && StrictlySorted(b)
    requires forall x :: x in a <==> x in b
    ensures a == b
    decreases |a|
  {
    if a == [] && b == [] {
    } else if a == [] {
      NotInEmpty(b[0], b, a);
    } else if b == [] {
      NotInEmpty(a[0], a, b);
    } else {
      assert a[0] in b;
      assert b[0] in a;
      if a[0] != b[0] {
        var i :| 0 < i < |a| && a[i] == b[0];
        var j :| 0 < j < |b| && b[j] == a[0];
        assert NameLess(a[0], a[i]) && NameLess(b[0], b[j]);
        NameLessAsymmetric(a[0], b[0]);
        assert false;
      }
      forall x ensures x in a[1..] <==> x in b[1..] {
        if x in a[1..] {
          var i :| 1 <= i < |a| && a[i] == x;
          assert NameLess(a[0], x);
          NameLessIrreflexive(x);
          assert x in b;
        }
        if x in b[1..] {
          var j :| 1 <= j < |b| && b[j] == x;
          assert NameLess(b[0], x);
          NameLessIrreflexive(x);
          assert x in a;
        }
      }
      StrictlySortedUnique(a[1..], b[1..]);
      assert a == [a[0]] + a[1..] && b == [b[0]] + b[1..];
    }
  }

  /** So `sorted` of the elements of a strictly sorted sequence gives that sequence back. */
  lemma SortedNamesOfSorted(s: seq<string>, names: set<string>)
    requires StrictlySorted(s) && forall x :: x in s <==> x in names
    ensures SortedNames(names) == s
  {
    StrictlySortedUnique(SortedNames(names), s);
  }
}
