/** Event ids are strings compared byte by byte, both by Go's `<` and by SQLite's binary collation.
    This module defines that order, shows that it is a strict total order, and lists a finite set of
    ids in it (what `ORDER BY event_id` does). */
module Lex {

  predicate Less(a: string, b: string) {
    |b| > 0 && (|a| == 0 || a[0] < b[0] || (a[0] == b[0] && Less(a[1..], b[1..])))
  }

  lemma {:induction false} Irreflexive(a: string)
    ensures !Less(a, a)
  {
    if |a| > 0 {
      Irreflexive(a[1..]);
    }
  }

  lemma {:induction false} Transitive(a: string, b: string, c: string)
    requires Less(a, b) && Less(b, c)
    ensures Less(a, c)
  {
    if |a| > 0 && a[0] == b[0] == c[0] {
      Transitive(a[1..], b[1..], c[1..]);
    }
  }

  lemma {:induction false} Total(a: string, b: string)
    ensures a == b || Less(a, b) || Less(b, a)
  {
    if |a| > 0 && |b| > 0 && a[0] == b[0] {
      Total(a[1..], b[1..]);
      assert a == [a[0]] + a[1..] && b == [b[0]] + b[1..];
    }
  }

  lemma Asymmetric(a: string, b: string)
    requires Less(a, b)
    ensures !Less(b, a)
  {
    if Less(b, a) {
      Transitive(a, b, a);
      Irreflexive(a);
    }
  }

  predicate Increasing(s: seq<string>) {
    forall i, j :: 0 <= i < j < |s| ==> Less(s[i], s[j])
  }

  predicate IsLeast(m: string, s: set<string>) {
    m in s && forall x :: x in s ==> x == m || Less(m, x)
  }

  lemma {:induction false} LeastExists(s: set<string>)
    requires s != {}
    ensures exists m :: IsLeast(m, s)
    decreases |s|
  {
    var x :| x in s;
    var rest := s - {x};
    if rest == {} {
      assert s == {x};
      assert IsLeast(x, s);
    } else {
      LeastExists(rest);
      var m :| IsLeast(m, rest);
      Total(x, m);
      if Less(x, m) {
        forall y | y in s ensures y == x || Less(x, y) {
          if y != x && y != m {
            Transitive(x, m, y);
          }
        }
        assert IsLeast(x, s);
      } else {
        assert IsLeast(m, s);
      }
    }
  }

  lemma LeastUnique(m: string, n: string, s: set<string>)
    requires IsLeast(m, s) && IsLeast(n, s)
    ensures m == n
  {
    if m != n {
      Asymmetric(m, n);
    }
  }

  function Least(s: set<string>): (m: string)
    requires s != {}
    ensures IsLeast(m, s)
  {
    LeastExists(s);
    assert forall m, n :: IsLeast(m, s) && IsLeast(n, s) ==> m == n by {
      forall m, n | IsLeast(m, s) && IsLeast(n, s) ensures m == n {
        LeastUnique(m, n, s);
      }
    }
    var m :| m in s && IsLeast(m, s);
    m
  }

  /** All members of `s`, in increasing order. */
  function Sorted(s: set<string>): (r: seq<string>)
    ensures Increasing(r)
    ensures forall x :: x in r <==> x in s
    decreases |s|
  {
    if s == {} then []
    else
      var m := Least(s);
      var rest := Sorted(s - {m});
      assert forall i :: 0 <= i < |rest| ==> rest[i] in s - {m};
      [m] + rest
  }

  /** An increasing sequence is determined by its members. */
  lemma {:induction false} IncreasingUnique(a: seq<string>, b: seq<string>)
    requires Increasing(a) && Increasing(b)
    requires forall x :: x in a <==> x in b
    ensures a == b
  {
    assert |b| > 0 ==> b[0] in a;
    if a != [] {
      HeadIsLeast(a);
      HeadIsLeast(b);
      assert a[0] in b && b[0] in a;
      LeastUnique(a[0], b[0], set x | x in a);
      forall x ensures x in a[1..] <==> x in b[1..] {
        TailMembers(a, x);
        TailMembers(b, x);
      }
      IncreasingUnique(a[1..], b[1..]);
      assert a == [a[0]] + a[1..] && b == [b[0]] + b[1..];
    }
  }

  lemma HeadIsLeast(a: seq<string>)
    requires Increasing(a) && a != []
    ensures IsLeast(a[0], set x | x in a)
  {
    forall x | x in a ensures x == a[0] || Less(a[0], x) {
      var i :| 0 <= i < |a| && a[i] == x;
    }
  }

  lemma TailMembers(a: seq<string>, x: string)
    requires Increasing(a) && a != []
    ensures x in a[1..] <==> x in a && x != a[0]
  {
    Irreflexive(x);
    assert a == [a[0]] + a[1..];
  }
}
