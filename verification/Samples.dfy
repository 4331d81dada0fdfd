/** Bounded evidence samples: the `cap` smallest trace ids, in the order Python's `sorted` gives
    strings. */
module Samples {

  import opened Common

  /** Code-point order on text. */
  predicate Less(a: string, b: string) {
    if b == "" then false
    else if a == "" then true
    else a[0] < b[0] || (a[0] == b[0] && Less(a[1..], b[1..]))
  }

  lemma {:induction false} LessIsStrict(a: string, b: string)
    ensures !Less(a, a)
    ensures Less(a, b) ==> !Less(b, a)
    ensures Less(a, b) || Less(b, a) || a == b
    decreases |a| + |b|
  {
    if a != "" {
      LessIsStrict(a[1..], if b == "" then "" else b[1..]);
      if b != "" && a[0] == b[0] && a[1..] == b[1..] {
        assert a == [a[0]] + a[1..] && b == [b[0]] + b[1..];
      }
    }
  }

  lemma {:induction false} LessTransitive(a: string, b: string, c: string)
    requires Less(a, b) && Less(b, c)
    ensures Less(a, c)
  {
    if a != "" && a[0] == b[0] == c[0] {
      LessTransitive(a[1..], b[1..], c[1..]);
    }
  }

  /** Less at the first character that differs, or a proper prefix. */
  lemma {:induction false} LessIsLexicographic(a: string, b: string)
    ensures Less(a, b) <==>
      || (|a| < |b| && b[..|a|] == a)
      || exists i :: 0 <= i < |a| && i < |b| && a[..i] == b[..i] && a[i] < b[i]
  {
    if a != "" && b != "" && a[0] == b[0] {
      var x, y := a[1..], b[1..];
      LessIsLexicographic(x, y);
      assert a == [a[0]] + x && b == [b[0]] + y;
      if |a| < |b| {
        assert b[..|a|] == [b[0]] + y[..|x|];
        assert y[..|x|] == b[..|a|][1..];
      }
      if i :| 0 <= i < |x| && i < |y| && x[..i] == y[..i] && x[i] < y[i] {
        assert a[..i + 1] == [a[0]] + x[..i] && b[..i + 1] == [b[0]] + y[..i];
        assert a[i + 1] == x[i] && b[i + 1] == y[i];
      }
      if i :| 0 <= i < |a| && i < |b| && a[..i] == b[..i] && a[i] < b[i] {
        assert i > 0 && x[..i - 1] == a[..i][1..] && y[..i - 1] == b[..i][1..];
        assert x[i - 1] == a[i] && y[i - 1] == b[i];
      }
    } else if a != "" && b != "" {
      assert a[..0] == b[..0];
      assert forall i :: 0 < i < |a| ==> a[..i][0] == a[0];
      assert forall i :: 0 < i <= |b| ==> b[..i][0] == b[0];
    } else if a == "" && b != "" {
      assert b[..0] == a;
    }
  }

  predicate IsLeast(x: string, s: set<string>) {
    x in s && forall y <- s :: y == x || Less(x, y)
  }

  lemma {:induction false} LeastExists(s: set<string>)
    requires s != {}
    ensures exists x :: IsLeast(x, s)
  {
    var x :| x in s;
    if s == {x} {
      assert IsLeast(x, s);
    } else {
      LeastExists(s - {x});
      var rest :| IsLeast(rest, s - {x});
      LessIsStrict(x, rest);
      if Less(x, rest) {
        forall y | y in s && y != x
          ensures Less(x, y)
        {
          if y != rest {
            LessTransitive(x, rest, y);
          }
        }
        assert IsLeast(x, s);
      } else {
        assert IsLeast(rest, s);
      }
    }
  }

  lemma LeastUnique(x: string, y: string, s: set<string>)
    requires IsLeast(x, s) && IsLeast(y, s)
    ensures x == y
  {
    LessIsStrict(x, y);
  }

  function Least(s: set<string>): (x: string)
    requires s != {}
    ensures IsLeast(x, s)
  {
    LeastExists(s);
    assert forall x, y :: IsLeast(x, s) && IsLeast(y, s) ==> x == y by {
      forall x, y | IsLeast(x, s) && IsLeast(y, s) {
        LeastUnique(x, y, s);
      }
    }
    var x :| IsLeast(x, s);
    x
  }

  predicate Ascending(q: seq<string>) {
    forall i, j :: 0 <= i < j < |q| ==> Less(q[i], q[j])
  }

  function Elements<T>(q: seq<T>): set<T> {
    set x | x in q
  }

  lemma PrependLeast(x: string, rest: seq<string>, s: set<string>)
    requires IsLeast(x, s) && Elements(rest) == s - {x} && Ascending(rest) && |rest| == |s - {x}|
    ensures Elements([x] + rest) == s && Ascending([x] + rest) && |[x] + rest| == |s|
  {
    hide Less;
    forall j | 0 <= j < |rest|
      ensures Less(x, rest[j])
    {
      assert rest[j] in Elements(rest);
    }
    assert Elements([x] + rest) == {x} + Elements(rest);
  }

  /** `sorted` of a set. */
  function Sorted(s: set<string>): (q: seq<string>)
    ensures Elements(q) == s && Ascending(q) && |q| == |s|
    decreases |s|
  {
    if s == {} then []
    else
      var x := Least(s);
      var rest := Sorted(s - {x});
      PrependLeast(x, rest, s);
      [x] + rest
  }

  /** The first `cap` of `sorted(s)`. */
  function Bottom(s: set<string>, cap: nat): seq<string> {
    var q := Sorted(s);
    if |q| <= cap then q else q[..cap]
  }

  lemma {:induction false} AscendingSize(q: seq<string>)
    requires Ascending(q)
    ensures |Elements(q)| == |q|
  {
    if q != [] {
      var n := |q| - 1;
      AscendingSize(q[..n]);
      if q[n] in q[..n] {
        LessIsStrict(q[n], q[n]);
      }
      assert Elements(q) == Elements(q[..n]) + {q[n]};
    }
  }

  lemma {:induction false} AscendingUnique(p: seq<string>, q: seq<string>)
    requires Ascending(p) && Ascending(q) && Elements(p) == Elements(q)
    ensures p == q
  {
    AscendingSize(p);
    AscendingSize(q);
    if p != [] {
      HeadsAgree(p, q);
      assert Elements(p[1..]) == Elements(p) - {p[0]} by { TailElements(p); }
      assert Elements(q[1..]) == Elements(q) - {q[0]} by { TailElements(q); }
      AscendingUnique(p[1..], q[1..]);
    }
  }

  lemma TailElements(q: seq<string>)
    requires Ascending(q) && q != []
    ensures Elements(q[1..]) == Elements(q) - {q[0]}
  {
    LessIsStrict(q[0], q[0]);
    assert q == [q[0]] + q[1..];
  }

  lemma HeadsAgree(p: seq<string>, q: seq<string>)
    requires Ascending(p) && Ascending(q) && Elements(p) == Elements(q) && p != [] && q != []
    ensures p[0] == q[0]
  {
    assert p[0] in Elements(q) && q[0] in Elements(p);
    var i :| 0 <= i < |q| && q[i] == p[0];
    var j :| 0 <= j < |p| && p[j] == q[0];
    LessIsStrict(p[0], q[0]);
  }

  /** `q` holds the smallest members of `s`, as many as the cap allows. */
  ghost predicate IsBottom(q: set<string>, s: set<string>, cap: nat) {
    && q <= s
    && |q| == (if |s| <= cap then |s| else cap)
    && forall x, y :: x in q && y in s && y !in q ==> Less(x, y)
  }

  lemma BottomIs(s: set<string>, cap: nat)
    ensures IsBottom(Elements(Bottom(s, cap)), s, cap) && Ascending(Bottom(s, cap))
  {
    var all, q := Sorted(s), Bottom(s, cap);
    AscendingSize(q);
    assert forall x <- q :: x in all;
    forall x, y | x in Elements(q) && y in s && y !in Elements(q)
      ensures Less(x, y)
    {
      assert y in Elements(all);
      var i :| 0 <= i < |q| && q[i] == x;
      var j :| 0 <= j < |all| && all[j] == y;
      assert j >= |q|;
    }
  }

  lemma IsBottomUnique(p: set<string>, q: set<string>, s: set<string>, cap: nat)
    requires IsBottom(p, s, cap) && IsBottom(q, s, cap)
    ensures p == q
  {
    if x :| x in p && x !in q {
      if y :| y in q && y !in p {
        LessIsStrict(x, y);
      } else {
        SubsetSize(q, p);
      }
    } else {
      SubsetSize(p, q);
    }
  }

  /** What enters the sample of a union is in the other part or already in the sample. */
  lemma SampleStays(a: set<string>, b: set<string>, cap: nat, kept: set<string>, q: set<string>, x: string)
    requires IsBottom(kept, a, cap) && IsBottom(q, a + b, cap) && x in q
    ensures x in kept + b
  {
    hide Less;
    if x !in kept + b {
      forall y | y in kept
        ensures y in q
      {
        assert Less(y, x);
        LessIsStrict(x, y);
      }
      SubsetSize(kept + {x}, q);
      SubsetSize(kept, a);
    }
  }

  /** The sample of a union needs only the sample of the older part: whatever `a` has beyond its own
      `cap` smallest can never enter. */
  lemma BottomOfUnion(a: set<string>, b: set<string>, cap: nat)
    ensures Bottom(Elements(Bottom(a, cap)) + b, cap) == Bottom(a + b, cap)
  {
    hide Less, Bottom, Sorted;
    var kept, q := Elements(Bottom(a, cap)), Elements(Bottom(a + b, cap));
    var u := kept + b;
    BottomIs(a, cap);
    BottomIs(a + b, cap);
    BottomIs(u, cap);
    forall x | x in q {
      SampleStays(a, b, cap, kept, q, x);
    }
    SubsetSize(q, u);
    SubsetSize(u, a + b);
    IsBottomUnique(q, Elements(Bottom(u, cap)), u, cap);
    AscendingUnique(Bottom(u, cap), Bottom(a + b, cap));
  }

  predicate Above(t: string, kept: seq<string>, cap: nat) {
    |kept| == cap && forall x <- kept :: Less(x, t)
  }

  lemma SampleUnderMore(a: set<string>, more: set<string>, cap: nat)
    requires forall t <- more - a :: Above(t, Bottom(a, cap), cap)
    ensures Bottom(a + more, cap) == Bottom(a, cap)
  {
    hide Less, Bottom, Sorted;
    var kept := Elements(Bottom(a, cap));
    BottomIs(a, cap);
    BottomIs(a + more, cap);
    AscendingSize(Bottom(a, cap));
    if t :| t in more && t !in a {
      assert t in more - a;
      SubsetSize(kept + {t}, a + more);
      assert forall x, y :: x in kept && y in a + more && y !in kept ==> Less(x, y) by {
        forall x, y | x in kept && y in a + more && y !in kept
          ensures Less(x, y)
        {
          if y !in a { assert y in more - a && x in Bottom(a, cap); }
        }
      }
      IsBottomUnique(kept, Elements(Bottom(a + more, cap)), a + more, cap);
      AscendingUnique(Bottom(a, cap), Bottom(a + more, cap));
    } else {
      assert a + more == a;
    }
  }

  /** Further members leave the sample alone exactly when each new one lies above a full sample. */
  lemma BottomUnchanged(a: set<string>, more: set<string>, cap: nat)
    ensures Bottom(a + more, cap) == Bottom(a, cap) <==> forall t <- more - a :: Above(t, Bottom(a, cap), cap)
  {
    hide Less, Bottom, Sorted;
    BottomIs(a, cap);
    BottomIs(a + more, cap);
    AscendingSize(Bottom(a, cap));
    if Bottom(a + more, cap) == Bottom(a, cap) {
      forall t <- more - a
        ensures Above(t, Bottom(a, cap), cap)
      {
        SubsetSize(Elements(Bottom(a, cap)) + {t}, a + more);
      }
    }
    if forall t <- more - a :: Above(t, Bottom(a, cap), cap) {
      SampleUnderMore(a, more, cap);
    }
  }
}
