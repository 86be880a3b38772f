/** The two list idioms the application uses everywhere: a running sum
    (`reduce((sum, x) => sum + f(x), 0)` or an accumulator loop) and
    `Array.prototype.filter`. */
module Seqs {

  /** `f` summed over `s`, accumulated left to right as the source's loops do. */
  function Sum<T>(s: seq<T>, f: T -> int): int
  {
    if s == [] then 0 else Sum(s[..|s| - 1], f) + f(s[|s| - 1])
  }

  /** The sum over a concatenation is the sum of the sums. */
  lemma {:induction false} SumAppend<T>(a: seq<T>, b: seq<T>, f: T -> int)
    ensures Sum(a + b, f) == Sum(a, f) + Sum(b, f)
    decreases |b|
  {
    if b == [] {
      assert a + b == a;
    } else {
      var b' := b[..|b| - 1];
      assert (a + b)[..|a + b| - 1] == a + b';
      SumAppend(a, b', f);
    }
  }

  /** Two lists whose elements contribute pairwise equal amounts have equal sums. */
  lemma {:induction false} SumPointwise<T, U>(a: seq<T>, f: T -> int, b: seq<U>, g: U -> int)
    requires |a| == |b|
    requires forall i :: 0 <= i < |a| ==> f(a[i]) == g(b[i])
    ensures Sum(a, f) == Sum(b, g)
    decreases |a|
  {
    if a != [] {
      SumPointwise(a[..|a| - 1], f, b[..|b| - 1], g);
    }
  }

  /** A non-empty list of strictly positive contributions has a strictly positive sum. */
  lemma {:induction false} SumPositive<T>(s: seq<T>, f: T -> int)
    requires s != []
    requires forall i :: 0 <= i < |s| ==> f(s[i]) > 0
    ensures Sum(s, f) > 0
    decreases |s|
  {
    if |s| > 1 {
      SumPositive(s[..|s| - 1], f);
    }
  }

  /** `r` is obtained from `s` by deleting elements, keeping the order of the rest. */
  ghost predicate IsSubsequence<T>(r: seq<T>, s: seq<T>)
    decreases |s|
  {
    if r == [] then true
    else if s == [] then false
    else (r[0] == s[0] && IsSubsequence(r[1..], s[1..])) || IsSubsequence(r, s[1..])
  }

  /** `s.filter(p)`: the elements of `s` that satisfy `p`, in their original order. */
  function Filter<T>(s: seq<T>, p: T -> bool): (r: seq<T>)
    ensures |r| <= |s|
    ensures forall i :: 0 <= i < |r| ==> r[i] in s && p(r[i])
    ensures forall i :: 0 <= i < |s| && p(s[i]) ==> s[i] in r
    ensures forall i :: 0 <= i < |s| ==> multiset(r)[s[i]] == if p(s[i]) then multiset(s)[s[i]] else 0
    ensures IsSubsequence(r, s)
    decreases |s|
  {
    if s == [] then []
    else
      assert s == [s[0]] + s[1..];
      var rest := Filter(s[1..], p);
      var r := if p(s[0]) then [s[0]] + rest else rest;
      FilterStepCounts(s, p, rest, r);
      r
  }

  /** One step of `Filter`'s multiplicity clause: prepending the head (when it
      passes) to the filtered tail counts every passing element as often as
      the whole list does. */
  lemma FilterStepCounts<T>(s: seq<T>, p: T -> bool, rest: seq<T>, r: seq<T>)
    requires s != []
    requires forall i :: 0 <= i < |rest| ==> rest[i] in s[1..]
    requires forall i :: 0 <= i < |s[1..]| ==> multiset(rest)[s[1..][i]] == if p(s[1..][i]) then multiset(s[1..])[s[1..][i]] else 0
    requires r == if p(s[0]) then [s[0]] + rest else rest
    ensures forall i :: 0 <= i < |s| ==> multiset(r)[s[i]] == if p(s[i]) then multiset(s)[s[i]] else 0
  {
    assert s == [s[0]] + s[1..];
    forall i | 0 <= i < |s|
      ensures multiset(r)[s[i]] == if p(s[i]) then multiset(s)[s[i]] else 0
    {
      var x := s[i];
      assert multiset(s)[x] == multiset([s[0]])[x] + multiset(s[1..])[x];
      if x in s[1..] {
        var j :| 0 <= j < |s[1..]| && s[1..][j] == x;
      } else {
        assert x !in rest;
      }
    }
  }

  /** Filtering a list extended by one element. */
  lemma {:induction false} FilterAppendOne<T>(s: seq<T>, x: T, p: T -> bool)
    ensures Filter(s + [x], p) == Filter(s, p) + if p(x) then [x] else []
    decreases |s|
  {
    if s == [] {
      assert [] + [x] == [x];
    } else {
      assert (s + [x])[1..] == s[1..] + [x];
      FilterAppendOne(s[1..], x, p);
    }
  }

  /** The positions of `s` whose element passes `p`. */
  ghost function Passing<T>(s: seq<T>, p: T -> bool): set<int>
  {
    set i | 0 <= i < |s| && p(s[i])
  }

  /** Extending a list by one element adds its position when it passes. */
  lemma PassingAppendOne<T>(s: seq<T>, x: T, p: T -> bool)
    ensures |Passing(s + [x], p)| == |Passing(s, p)| + if p(x) then 1 else 0
  {
    var before, after := Passing(s, p), Passing(s + [x], p);
    assert forall i :: 0 <= i < |s| ==> (s + [x])[i] == s[i];
    if p(x) {
      assert after == before + {|s|} by {
        forall i | i in after
          ensures i in before + {|s|}
        {
        }
      }
      assert |s| !in before;
    } else {
      assert after == before by {
        forall i | i in after
          ensures i in before
        {
        }
      }
    }
  }

  /** The filtered list has one element per position of the input whose
      element passes. */
  lemma {:induction false} FilterLength<T>(s: seq<T>, p: T -> bool)
    ensures |Filter(s, p)| == |Passing(s, p)|
    decreases |s|
  {
    if s != [] {
      var s', x := s[..|s| - 1], s[|s| - 1];
      assert s == s' + [x];
      FilterAppendOne(s', x, p);
      FilterLength(s', p);
      PassingAppendOne(s', x, p);
      assert Passing(s, p) == set i | 0 <= i < |s| && p(s[i]);
    }
  }

  /** Filtering a list whose every element passes keeps the whole list. */
  lemma {:induction false} FilterKeepsAll<T>(s: seq<T>, p: T -> bool)
    requires forall i :: 0 <= i < |s| ==> p(s[i])
    ensures Filter(s, p) == s
    decreases |s|
  {
    if s != [] {
      FilterKeepsAll(s[1..], p);
    }
  }

  /** Filtering twice is filtering once by the conjunction. */
  lemma {:induction false} FilterFilter<T>(s: seq<T>, p: T -> bool, q: T -> bool)
    ensures Filter(Filter(s, p), q) == Filter(s, x => p(x) && q(x))
    decreases |s|
  {
    if s != [] {
      FilterFilter(s[1..], p, q);
      if p(s[0]) {
        assert Filter(s, p) == [s[0]] + Filter(s[1..], p);
        assert Filter(s, p)[1..] == Filter(s[1..], p);
      }
    }
  }

  /** `findIndex`: the position of the first element satisfying `p`, or -1. */
  method FindFirst<T>(s: seq<T>, p: T -> bool) returns (index: int)
    ensures -1 <= index < |s|
    ensures index == -1 <==> forall i :: 0 <= i < |s| ==> !p(s[i])
    ensures index >= 0 ==> p(s[index]) && forall j :: 0 <= j < index ==> !p(s[j])
  {
    index := 0;
    while index < |s|
      invariant 0 <= index <= |s|
      invariant forall j :: 0 <= j < index ==> !p(s[j])
    {
      if p(s[index]) {
        return;
      }
      index := index + 1;
    }
    index := -1;
  }
}
