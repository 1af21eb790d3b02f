/**
 * Python list comprehensions over the agents' tables and the router's
 * domain list: filtering, mapping, and the facts about order, duplicates
 * and length the model relies on.
 */
module Seqs {

  /** `[x for x in s if p(x)]`, defined from the last element so that a loop over s can build it. */
  function Filter<T>(s: seq<T>, p: T -> bool): (r: seq<T>)
    ensures |r| <= |s|
  {
    if s == [] then [] else Filter(s[..|s| - 1], p) + (if p(s[|s| - 1]) then [s[|s| - 1]] else [])
  }

  /** `[f(x) for x in s]`. */
  function Map<T, U>(s: seq<T>, f: T -> U): (r: seq<U>)
    ensures |r| == |s| && forall i :: 0 <= i < |s| ==> r[i] == f(s[i])
  {
    seq(|s|, i requires 0 <= i < |s| => f(s[i]))
  }

  /** The loop `for x in s: if p(x): r.append(x)`. */
  method Select<T>(s: seq<T>, p: T -> bool) returns (r: seq<T>)
    ensures r == Filter(s, p)
  {
    r := [];
    for i := 0 to |s|
      invariant r == Filter(s[..i], p)
    {
      assert s[..i + 1][..i] == s[..i];
      if p(s[i]) {
        r := r + [s[i]];
      }
    }
    assert s[..|s|] == s;
  }

  /** One more element of s decides one more element of the filter. */
  lemma FilterPrefixStep<T>(s: seq<T>, p: T -> bool, i: nat)
    requires i < |s|
    ensures Filter(s[..i + 1], p) == Filter(s[..i], p) + (if p(s[i]) then [s[i]] else [])
  {
    assert s[..i + 1][..i] == s[..i];
  }

  /** Mapping one more element of s appends its image. */
  lemma MapPrefixStep<T, U>(s: seq<T>, f: T -> U, k: nat)
    requires k < |s|
    ensures Map(s[..k + 1], f) == Map(s[..k], f) + [f(s[k])]
  {
  }

  predicate NoDuplicates<T(==)>(s: seq<T>)
  {
    forall i, j :: 0 <= i < j < |s| ==> s[i] != s[j]
  }

  /** r can be obtained from s by deleting elements (the relative order is kept). */
  predicate IsSubsequence<T(==)>(r: seq<T>, s: seq<T>)
    decreases |s|
  {
    if r == [] then true
    else if s == [] then false
    else if r[|r| - 1] == s[|s| - 1] then IsSubsequence(r[..|r| - 1], s[..|s| - 1])
    else IsSubsequence(r, s[..|s| - 1])
  }

  lemma {:induction false} FilterMembership<T>(s: seq<T>, p: T -> bool, x: T)
    ensures x in Filter(s, p) <==> x in s && p(x)
  {
    if s != [] {
      var init := s[..|s| - 1];
      FilterMembership(init, p, x);
      assert s == init + [s[|s| - 1]];
    }
  }

  lemma {:induction false} FilterIsSubsequence<T>(s: seq<T>, p: T -> bool)
    ensures IsSubsequence(Filter(s, p), s)
  {
    if s != [] {
      var init := s[..|s| - 1];
      FilterIsSubsequence(init, p);
      if p(s[|s| - 1]) {
        var r := Filter(s, p);
        assert r[..|r| - 1] == Filter(init, p);
      } else {
        assert Filter(s, p) == Filter(init, p);
        SubsequenceExtend(Filter(init, p), init, s[|s| - 1]);
        assert init + [s[|s| - 1]] == s;
      }
    }
  }

  /** Appending an element to the longer sequence keeps a subsequence a subsequence. */
  lemma {:induction false} SubsequenceExtend<T>(r: seq<T>, s: seq<T>, x: T)
    requires IsSubsequence(r, s)
    ensures IsSubsequence(r, s + [x])
    decreases |s|, 1
  {
    if r != [] {
      assert (s + [x])[..|s|] == s;
      if r[|r| - 1] == x {
        SubsequenceDropLast(r, s);
      }
    }
  }

  /** Dropping the last element of a non-empty subsequence keeps it a subsequence. */
  lemma {:induction false} SubsequenceDropLast<T>(r: seq<T>, s: seq<T>)
    requires r != [] && IsSubsequence(r, s)
    ensures IsSubsequence(r[..|r| - 1], s)
    decreases |s|, 0
  {
    var init := s[..|s| - 1];
    if r[|r| - 1] == s[|s| - 1] {
      SubsequenceExtend(r[..|r| - 1], init, s[|s| - 1]);
      assert init + [s[|s| - 1]] == s;
    } else {
      SubsequenceDropLast(r, init);
      SubsequenceExtend(r[..|r| - 1], init, s[|s| - 1]);
      assert init + [s[|s| - 1]] == s;
    }
  }

  /** Every element of a subsequence comes from the sequence. */
  lemma {:induction false} SubsequenceMembers<T>(r: seq<T>, s: seq<T>)
    requires IsSubsequence(r, s)
    ensures forall x :: x in r ==> x in s
    decreases |s|
  {
    if r != [] {
      var init := s[..|s| - 1];
      if r[|r| - 1] == s[|s| - 1] {
        SubsequenceMembers(r[..|r| - 1], init);
        assert r == r[..|r| - 1] + [r[|r| - 1]];
      } else {
        SubsequenceMembers(r, init);
      }
    }
  }

  /** A subsequence of a duplicate-free sequence is duplicate-free. */
  lemma {:induction false} SubsequenceNoDuplicates<T>(r: seq<T>, s: seq<T>)
    requires IsSubsequence(r, s) && NoDuplicates(s)
    ensures NoDuplicates(r)
    decreases |s|
  {
    if r != [] {
      var init := s[..|s| - 1];
      assert NoDuplicates(init);
      if r[|r| - 1] == s[|s| - 1] {
        SubsequenceNoDuplicates(r[..|r| - 1], init);
        SubsequenceMembers(r[..|r| - 1], init);
        assert s[|s| - 1] !in init;
        forall i | 0 <= i < |r| - 1 ensures r[i] != r[|r| - 1] {
          assert r[i] in r[..|r| - 1];
        }
      } else {
        SubsequenceNoDuplicates(r, init);
      }
    }
  }

  lemma FilterNoDuplicates<T>(s: seq<T>, p: T -> bool)
    requires NoDuplicates(s)
    ensures NoDuplicates(Filter(s, p))
  {
    FilterIsSubsequence(s, p);
    SubsequenceNoDuplicates(Filter(s, p), s);
  }

  /** A filter of a list without duplicates: what it keeps, once each, in order. */
  lemma FilterFacts<T>(s: seq<T>, p: T -> bool)
    requires NoDuplicates(s)
    ensures forall x :: x in Filter(s, p) <==> x in s && p(x)
    ensures NoDuplicates(Filter(s, p)) && IsSubsequence(Filter(s, p), s)
  {
    forall x ensures x in Filter(s, p) <==> x in s && p(x) {
      FilterMembership(s, p, x);
    }
    FilterIsSubsequence(s, p);
    FilterNoDuplicates(s, p);
  }

  /** Two filters with disjoint predicates together select at most every element once. */
  lemma {:induction false} FilterDisjointLength<T>(s: seq<T>, p: T -> bool, q: T -> bool)
    requires forall x :: x in s ==> !(p(x) && q(x))
    ensures |Filter(s, p)| + |Filter(s, q)| <= |s|
  {
    if s != [] {
      var init := s[..|s| - 1];
      forall x | x in init ensures !(p(x) && q(x)) {
        assert x in s;
      }
      FilterDisjointLength(init, p, q);
    }
  }

  /** Two complementary filters split a sequence: every element is selected by exactly one. */
  lemma {:induction false} FilterComplementLength<T>(s: seq<T>, p: T -> bool, q: T -> bool)
    requires forall x :: x in s ==> (q(x) <==> !p(x))
    ensures |Filter(s, p)| + |Filter(s, q)| == |s|
  {
    if s != [] {
      var init := s[..|s| - 1];
      forall x | x in init ensures q(x) <==> !p(x) {
        assert x in s;
      }
      FilterComplementLength(init, p, q);
    }
  }

  /** A filter keeps an element exactly when the predicate holds of it, in the original order. */
  lemma {:induction false} FilterAll<T>(s: seq<T>, p: T -> bool)
    requires forall x :: x in s ==> p(x)
    ensures Filter(s, p) == s
  {
    if s != [] {
      var init := s[..|s| - 1];
      forall x | x in init ensures p(x) {
        assert x in s;
      }
      FilterAll(init, p);
    }
  }

  lemma {:induction false} FilterNone<T>(s: seq<T>, p: T -> bool)
    requires forall x :: x in s ==> !p(x)
    ensures Filter(s, p) == []
  {
    if s != [] {
      var init := s[..|s| - 1];
      forall x | x in init ensures !p(x) {
        assert x in s;
      }
      FilterNone(init, p);
    }
  }
  /** A duplicate-free sequence has as many distinct elements as it has positions. */
  lemma {:induction false} DistinctCount<T>(s: seq<T>)
    requires NoDuplicates(s)
    ensures |set x | x in s| == |s|
  {
    if s != [] {
      var init := s[..|s| - 1];
      var last := s[|s| - 1];
      assert NoDuplicates(init);
      DistinctCount(init);
      assert last !in init by {
        forall i | 0 <= i < |init| ensures init[i] != last {
          assert s[i] != s[|s| - 1];
        }
      }
      assert s == init + [last];
      assert (set x | x in s) == (set x | x in init) + {last};
    }
  }
}
