/** Sequence operations that stand for the JavaScript array methods the
    storefront script relies on: `filter` and a summing `reduce`. */
module Lists {

  datatype Option<T> = None | Some(value: T)

  /** `s.filter(keep)`: the elements of `s` that satisfy `keep`, in their
      original order. */
  function Filter<T>(s: seq<T>, keep: T -> bool): (r: seq<T>)
    ensures |r| <= |s|
    ensures forall i :: 0 <= i < |r| ==> r[i] in s && keep(r[i])
    ensures forall i :: 0 <= i < |s| && keep(s[i]) ==> s[i] in r
  {
    if s == [] then []
    else (if keep(s[0]) then [s[0]] else []) + Filter(s[1..], keep)
  }

  /** Filtering keeps relative order: what survives from `a` comes before
      what survives from `b`. */
  lemma {:induction false} FilterConcat<T>(a: seq<T>, b: seq<T>, keep: T -> bool)
    ensures Filter(a + b, keep) == Filter(a, keep) + Filter(b, keep)
  {
    if a == [] {
      assert a + b == b;
    } else {
      assert (a + b)[1..] == a[1..] + b;
      FilterConcat(a[1..], b, keep);
    }
  }

  /** Filtering leaves a sequence unchanged exactly when every element passes. */
  lemma {:induction false} FilterKeepsAll<T>(s: seq<T>, keep: T -> bool)
    ensures Filter(s, keep) == s <==> forall i :: 0 <= i < |s| ==> keep(s[i])
  {
    if s != [] {
      FilterKeepsAll(s[1..], keep);
      if forall i :: 0 <= i < |s| ==> keep(s[i]) {
        assert forall i :: 0 <= i < |s[1..]| ==> keep(s[1..][i]) by {
          forall i | 0 <= i < |s[1..]| ensures keep(s[1..][i]) {
            assert s[1..][i] == s[i + 1];
          }
        }
      }
      if Filter(s, keep) == s {
        forall i | 0 <= i < |s| ensures keep(s[i]) {
          assert s[i] in Filter(s, keep);
        }
      }
    }
  }

  /** Filtering removes every copy of a rejected value and keeps every copy
      of an accepted one. */
  lemma {:induction false} FilterCount<T>(s: seq<T>, keep: T -> bool, x: T)
    ensures multiset(Filter(s, keep))[x] == if keep(x) then multiset(s)[x] else 0
  {
    if s != [] {
      FilterCount(s[1..], keep, x);
      assert s == [s[0]] + s[1..];
      assert multiset(s) == multiset([s[0]]) + multiset(s[1..]);
      var head := if keep(s[0]) then [s[0]] else [];
      assert multiset(Filter(s, keep)) == multiset(head) + multiset(Filter(s[1..], keep));
    }
  }

  /** An accepted first element stays in front of the filtered rest. */
  lemma FilterHead<T>(s: seq<T>, keep: T -> bool)
    requires |s| > 0 && keep(s[0])
    ensures Filter(s, keep) == [s[0]] + Filter(s[1..], keep)
  {
  }

  /** A rejected first element followed only by accepted ones is the one
      element filtering drops. */
  lemma FilterDropsHead<T>(s: seq<T>, keep: T -> bool)
    requires |s| > 0 && !keep(s[0])
    requires forall j :: 1 <= j < |s| ==> keep(s[j])
    ensures Filter(s, keep) == s[1..]
  {
    var t := s[1..];
    assert forall j :: 0 <= j < |t| ==> keep(t[j]) by {
      forall j | 0 <= j < |t| ensures keep(t[j]) {
        assert t[j] == s[j + 1];
      }
    }
    FilterKeepsAll(t, keep);
  }

  /** Filtering out a single rejected element leaves the rest in order. */
  lemma {:induction false} FilterDropsOne<T>(s: seq<T>, i: nat, keep: T -> bool)
    requires i < |s|
    requires !keep(s[i])
    requires forall j :: 0 <= j < |s| && j != i ==> keep(s[j])
    ensures Filter(s, keep) == s[..i] + s[i + 1..]
  {
    if i == 0 {
      FilterDropsHead(s, keep);
    } else {
      var t := s[1..];
      assert forall j :: 0 <= j < |t| && j != i - 1 ==> keep(t[j]) by {
        forall j | 0 <= j < |t| && j != i - 1 ensures keep(t[j]) {
          assert t[j] == s[j + 1];
        }
      }
      FilterDropsOne(t, i - 1, keep);
      FilterHead(s, keep);
      assert s[..i] + s[i + 1..] == [s[0]] + (t[..i - 1] + t[i..]);
    }
  }

  /** `s.reduce((acc, x) => acc + f(x), 0)`: a left fold, so the last
      element is added last. */
  function Sum<T>(s: seq<T>, f: T -> int): int
  {
    if s == [] then 0 else Sum(s[..|s| - 1], f) + f(s[|s| - 1])
  }

  /** A sum of shares that are each at least `low` (with `low` not negative)
      is at least `low` times the number of elements; in particular a sum of
      non-negative shares is non-negative. */
  lemma {:induction false} SumAtLeast<T>(s: seq<T>, f: T -> int, low: nat)
    requires forall i :: 0 <= i < |s| ==> f(s[i]) >= low
    ensures Sum(s, f) >= low * |s|
  {
    if s != [] {
      var init := s[..|s| - 1];
      assert forall i :: 0 <= i < |init| ==> f(init[i]) >= low by {
        forall i | 0 <= i < |init| ensures f(init[i]) >= low {
          assert init[i] == s[i];
        }
      }
      SumAtLeast(init, f, low);
      assert low * |s| == low * |init| + low;
    }
  }

  /** Non-negative shares give a non-negative sum; shares of at least 1 give
      a sum of at least the number of elements. */
  lemma SumBounds<T>(s: seq<T>, f: T -> int)
    ensures (forall i :: 0 <= i < |s| ==> f(s[i]) >= 0) ==> Sum(s, f) >= 0
    ensures (forall i :: 0 <= i < |s| ==> f(s[i]) >= 1) ==> Sum(s, f) >= |s|
  {
    if forall i :: 0 <= i < |s| ==> f(s[i]) >= 0 {
      SumAtLeast(s, f, 0);
    }
    if forall i :: 0 <= i < |s| ==> f(s[i]) >= 1 {
      SumAtLeast(s, f, 1);
    }
  }

  /** The left fold can also be split at the front: the first share plus
      the sum of the rest. */
  lemma SumCons<T>(s: seq<T>, f: T -> int)
    requires |s| > 0
    ensures Sum(s, f) == f(s[0]) + Sum(s[1..], f)
  {
    assert s == [s[0]] + s[1..];
    SumConcat([s[0]], s[1..], f);
    assert [s[0]][..0] == [];
  }

  lemma {:induction false} SumConcat<T>(a: seq<T>, b: seq<T>, f: T -> int)
    ensures Sum(a + b, f) == Sum(a, f) + Sum(b, f)
  {
    if b == [] {
      assert a + b == a;
    } else {
      assert (a + b)[..|a + b| - 1] == a + b[..|b| - 1];
      SumConcat(a, b[..|b| - 1], f);
    }
  }

  /** Replacing one element changes the sum by exactly the difference. */
  lemma SumUpdate<T>(s: seq<T>, i: nat, x: T, f: T -> int)
    requires i < |s|
    ensures Sum(s[i := x], f) == Sum(s, f) - f(s[i]) + f(x)
  {
    var t := s[i := x];
    assert s == s[..i + 1] + s[i + 1..];
    assert t == t[..i + 1] + s[i + 1..];
    SumConcat(s[..i + 1], s[i + 1..], f);
    SumConcat(t[..i + 1], s[i + 1..], f);
    assert s[..i + 1][..i] == s[..i] == t[..i + 1][..i];
  }

  /** Dropping one element lowers the sum by exactly that element's share. */
  lemma SumDelete<T>(s: seq<T>, i: nat, f: T -> int)
    requires i < |s|
    ensures Sum(s[..i] + s[i + 1..], f) == Sum(s, f) - f(s[i])
  {
    assert s == s[..i + 1] + s[i + 1..];
    SumConcat(s[..i + 1], s[i + 1..], f);
    SumConcat(s[..i], s[i + 1..], f);
    assert s[..i + 1][..i] == s[..i];
  }
}
