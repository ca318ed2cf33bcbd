/** The order in which `Array.prototype.sort()` without a comparator puts
    strings: lexicographic by character, a proper prefix first. Dates are
    ISO `YYYY-MM-DD` strings, so this order is also chronological. */
module LexicalOrder {

  /** `a` sorts strictly before `b`. */
  predicate Below(a: string, b: string)
  {
    if a == [] then b != []
    else if b == [] then false
    else a[0] < b[0] || (a[0] == b[0] && Below(a[1..], b[1..]))
  }

  lemma {:induction false} BelowIrreflexive(a: string)
    ensures !Below(a, a)
  {
    if a != [] {
      BelowIrreflexive(a[1..]);
    }
  }

  lemma {:induction false} BelowAsymmetric(a: string, b: string)
    requires Below(a, b)
    ensures !Below(b, a)
  {
    if a != [] && b != [] && a[0] == b[0] {
      BelowAsymmetric(a[1..], b[1..]);
    }
  }

  lemma {:induction false} BelowTransitive(a: string, b: string, c: string)
    requires Below(a, b) && Below(b, c)
    ensures Below(a, c)
  {
    if a != [] && b != [] && c != [] && a[0] == b[0] && b[0] == c[0] {
      BelowTransitive(a[1..], b[1..], c[1..]);
    }
  }

  /** Any two different strings are ordered one way or the other. */
  lemma {:induction false} BelowTotal(a: string, b: string)
    requires a != b
    ensures Below(a, b) || Below(b, a)
  {
    if a != [] && b != [] && a[0] == b[0] {
      assert a == [a[0]] + a[1..] && b == [b[0]] + b[1..];
      BelowTotal(a[1..], b[1..]);
    }
  }

  /** A shared prefix does not change how two strings compare. */
  lemma {:induction false} BelowAfterPrefix(p: string, a: string, b: string)
    ensures Below(p + a, p + b) == Below(a, b)
  {
    if p != [] {
      assert (p + a)[0] == p[0] && (p + b)[0] == p[0];
      assert (p + a)[1..] == p[1..] + a;
      assert (p + b)[1..] == p[1..] + b;
      BelowAfterPrefix(p[1..], a, b);
    } else {
      assert p + a == a && p + b == b;
    }
  }

  /** Every element sorts strictly before every later one; in particular no
      element appears twice. */
  ghost predicate Ascending(s: seq<string>)
  {
    forall i, j :: 0 <= i < j < |s| ==> Below(s[i], s[j])
  }

  ghost predicate Distinct(s: seq<string>)
  {
    forall i, j :: 0 <= i < j < |s| ==> s[i] != s[j]
  }

  lemma AscendingIsDistinct(s: seq<string>)
    requires Ascending(s)
    ensures Distinct(s)
  {
    forall i, j | 0 <= i < j < |s|
      ensures s[i] != s[j]
    {
      BelowIrreflexive(s[i]);
    }
  }

  /** Puts `x` into the ascending sequence `s` at its place. */
  function Insert(x: string, s: seq<string>): (r: seq<string>)
    requires Ascending(s) && x !in s
    ensures Ascending(r)
    ensures multiset(r) == multiset(s) + multiset{x}
  {
    if s == [] then [x]
    else if Below(x, s[0]) then
      assert Ascending([x] + s) by {
        forall j | 0 <= j < |s|
          ensures Below(x, s[j])
        {
          if j > 0 {
            BelowTransitive(x, s[0], s[j]);
          }
        }
        forall i, j | 0 <= i < j < |s| + 1
          ensures Below(([x] + s)[i], ([x] + s)[j])
        {
          assert ([x] + s)[j] == s[j - 1];
        }
      }
      [x] + s
    else
      var rest := Insert(x, s[1..]);
      assert Ascending([s[0]] + rest) by {
        BelowTotal(x, s[0]);
        forall j | 0 <= j < |rest|
          ensures Below(s[0], rest[j])
        {
          assert rest[j] in multiset(rest);
          if rest[j] != x {
            assert rest[j] in s[1..];
            var k :| 0 <= k < |s[1..]| && s[1..][k] == rest[j];
            assert s[k + 1] == rest[j];
          }
        }
      }
      assert s == [s[0]] + s[1..];
      [s[0]] + rest
  }

  /** The default `sort()` of an array of distinct strings, written as an
      insertion sort: the result is ascending and a permutation of `xs`. */
  function Sort(xs: seq<string>): (r: seq<string>)
    requires Distinct(xs)
    ensures Ascending(r)
    ensures multiset(r) == multiset(xs)
    ensures |r| == |xs|
  {
    if xs == [] then []
    else
      assert Distinct(xs[1..]) by {
        forall i, j | 0 <= i < j < |xs[1..]|
          ensures xs[1..][i] != xs[1..][j]
        {
          assert xs[1..][i] == xs[i + 1] && xs[1..][j] == xs[j + 1];
        }
      }
      var sorted := Sort(xs[1..]);
      assert xs[0] !in sorted by {
        forall k | 0 <= k < |xs[1..]|
          ensures xs[1..][k] != xs[0]
        {
          assert xs[1..][k] == xs[k + 1];
        }
        assert xs[0] !in multiset(xs[1..]);
      }
      assert xs == [xs[0]] + xs[1..];
      var r := Insert(xs[0], sorted);
      assert |r| == |multiset(r)|;
      r
  }

  /** An ascending sequence is determined by its elements: sorting is
      deterministic whatever order the elements came in. */
  lemma {:induction false} AscendingUnique(s: seq<string>, t: seq<string>)
    requires Ascending(s) && Ascending(t)
    requires forall x :: x in s <==> x in t
    ensures s == t
  {
    if s == [] || t == [] {
      if s != [] || t != [] {
        MemberAt(s, 0);
        MemberAt(t, 0);
        assert false;
      }
    } else {
      assert s[0] == t[0] by {
        if s[0] != t[0] {
          assert t[0] in s;
          var i :| 0 <= i < |s| && s[i] == t[0];
          assert s[0] in t;
          var j :| 0 <= j < |t| && t[j] == s[0];
          assert Below(s[0], t[0]);
          assert Below(t[0], s[0]);
          BelowAsymmetric(s[0], t[0]);
          assert false;
        }
      }
      forall x
        ensures x in s[1..] <==> x in t[1..]
      {
        AscendingTail(s, x);
        AscendingTail(t, x);
      }
      AscendingUnique(s[1..], t[1..]);
      assert s == [s[0]] + s[1..] && t == [t[0]] + t[1..];
    }
  }

  lemma MemberAt(s: seq<string>, i: int)
    ensures 0 <= i < |s| ==> s[i] in s
  {
  }

  /** The tail of a non-empty ascending sequence holds every element but
      the first. */
  lemma AscendingTail(s: seq<string>, x: string)
    requires Ascending(s) && s != []
    ensures x in s[1..] <==> x in s && x != s[0]
  {
    if x in s[1..] {
      var k :| 0 <= k < |s[1..]| && s[1..][k] == x;
      assert Below(s[0], s[k + 1]);
      BelowIrreflexive(x);
    }
    if x in s && x != s[0] {
      var k :| 0 <= k < |s| && s[k] == x;
      assert s[1..][k - 1] == x;
    }
  }

  /** In an ascending sequence, an element that no other element sorts
      before comes first. */
  lemma LeastComesFirst(s: seq<string>, x: string)
    requires Ascending(s) && x in s
    requires forall y :: y in s && y != x ==> Below(x, y)
    ensures s[0] == x
  {
    if s[0] != x {
      var k :| 0 <= k < |s| && s[k] == x;
      assert Below(s[0], s[k]);
      BelowAsymmetric(s[0], x);
    }
  }
}
