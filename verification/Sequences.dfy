/** Facts about sequences that several modules need. */
module Sequences {
  ghost predicate Distinct<T>(s: seq<T>) {
    forall i, j :: 0 <= i < j < |s| ==> s[i] != s[j]
  }

  lemma SplitAt<T>(b: seq<T>, x: T) returns (before: seq<T>, after: seq<T>)
    requires x in b
    ensures b == before + [x] + after
    ensures multiset(b) == multiset{x} + multiset(before + after)
  {
    var k :| 0 <= k < |b| && b[k] == x;
    before, after := b[..k], b[k + 1..];
    assert b == before + [x] + after;
  }

  lemma SameMembers<T>(a: seq<T>, b: seq<T>)
    requires multiset(a) == multiset(b)
    ensures forall x :: x in a ==> x in b
  {
    forall x | x in a
      ensures x in b
    {
      assert x in multiset(a) && x in multiset(b);
    }
  }

  /** Where the first element of `a` sits in a permutation of `a`. */
  lemma FindHead<T>(a: seq<T>, b: seq<T>) returns (before: seq<T>, after: seq<T>)
    requires a != [] && multiset(a) == multiset(b)
    ensures b == before + [a[0]] + after && multiset(a[1..]) == multiset(before + after)
  {
    assert a == [a[0]] + a[1..] && a[0] in multiset(b);
    before, after := SplitAt(b, a[0]);
    assert multiset(a[1..]) == multiset(a) - multiset{a[0]};
  }

  // ---- Filtering -----------------------------------------------------------------------------------

  ghost predicate Increasing(at: seq<int>) {
    forall i, j :: 0 <= i < j < |at| ==> at[i] < at[j]
  }

  /** `at` are the positions of `s` that `keep` holds of, in increasing order, and `r` is what is found there. */
  ghost predicate SelectedAt<T(!new)>(s: seq<T>, keep: T -> bool, r: seq<T>, at: seq<int>) {
    && |at| == |r|
    && Increasing(at)
    && (forall i :: 0 <= i < |at| ==> 0 <= at[i] < |s| && keep(s[at[i]]) && r[i] == s[at[i]])
    && (forall k {:trigger k in at} :: 0 <= k < |s| && keep(s[k]) ==> k in at)
  }

  /** `r` are the elements of `s` that `keep` holds of, each as often as it is there and in their order. */
  ghost predicate Selects<T(!new)>(s: seq<T>, keep: T -> bool, r: seq<T>) {
    exists at :: SelectedAt(s, keep, r, at)
  }

  lemma SelectsNothing<T(!new)>(keep: T -> bool)
    ensures Selects([], keep, [])
  {
    var none: seq<T>, at: seq<int> := [], [];
    assert SelectedAt(none, keep, none, at);
  }

  lemma Extended<T(!new)>(s: seq<T>, keep: T -> bool, r: seq<T>, at: seq<int>, x: T)
    requires SelectedAt(s, keep, r, at) && keep(x)
    ensures SelectedAt(s + [x], keep, r + [x], at + [|s|])
  {
    var s', r', at' := s + [x], r + [x], at + [|s|];
    forall i, j | 0 <= i < j < |at'|
      ensures at'[i] < at'[j]
    {
      assert at'[i] == at[i] < |s|;
    }
    forall i | 0 <= i < |at'|
      ensures 0 <= at'[i] < |s'| && keep(s'[at'[i]]) && r'[i] == s'[at'[i]]
    {
      if i < |at| {
        assert at'[i] == at[i] && s'[at[i]] == s[at[i]];
      }
    }
    forall k | 0 <= k < |s'| && keep(s'[k])
      ensures k in at'
    {
      if k < |s| {
        assert s'[k] == s[k] && k in at;
      } else {
        assert at'[|at|] == k;
      }
    }
  }

  lemma NotExtended<T(!new)>(s: seq<T>, keep: T -> bool, r: seq<T>, at: seq<int>, x: T)
    requires SelectedAt(s, keep, r, at) && !keep(x)
    ensures SelectedAt(s + [x], keep, r, at)
  {
    forall k | 0 <= k < |s + [x]| && keep((s + [x])[k])
      ensures k in at
    {
      assert k < |s| && (s + [x])[k] == s[k];
    }
  }

  lemma SelectsOneMore<T(!new)>(s: seq<T>, keep: T -> bool, r: seq<T>, x: T)
    requires Selects(s, keep, r)
    ensures Selects(s + [x], keep, if keep(x) then r + [x] else r)
  {
    var at :| SelectedAt(s, keep, r, at);
    if keep(x) {
      Extended(s, keep, r, at, x);
    } else {
      NotExtended(s, keep, r, at, x);
    }
  }

  /** The positions that `keep` holds of. */
  ghost function Positions<T(!new)>(s: seq<T>, keep: T -> bool): set<int> {
    set k | 0 <= k < |s| && keep(s[k])
  }

  lemma {:induction false} DistinctCount(at: seq<int>)
    requires Increasing(at)
    ensures |set k | k in at| == |at|
  {
    if at != [] {
      var rest, last := at[..|at| - 1], at[|at| - 1];
      DistinctCount(rest);
      assert (set k | k in at) == (set k | k in rest) + {last};
    }
  }

  /** So its length is the number of those positions. */
  lemma SelectionCount<T(!new)>(s: seq<T>, keep: T -> bool, r: seq<T>)
    requires Selects(s, keep, r)
    ensures |r| == |Positions(s, keep)|
  {
    var at :| SelectedAt(s, keep, r, at);
    DistinctCount(at);
    forall k
      ensures k in at <==> k in Positions(s, keep)
    {
      if k in at {
        var i :| 0 <= i < |at| && at[i] == k;
      }
    }
    assert (set k | k in at) == Positions(s, keep);
  }

  lemma SelectionMembers<T(!new)>(s: seq<T>, keep: T -> bool, r: seq<T>)
    requires Selects(s, keep, r)
    ensures forall x :: x in r <==> x in s && keep(x)
  {
    var at :| SelectedAt(s, keep, r, at);
    forall x | x in s && keep(x)
      ensures x in r
    {
      var k :| 0 <= k < |s| && s[k] == x;
      assert k in at;
      var i :| 0 <= i < |at| && at[i] == k;
      assert r[i] == x;
    }
  }

  lemma Selection<T(!new)>(s: seq<T>, keep: T -> bool) returns (r: seq<T>)
    ensures Selects(s, keep, r)
  {
    r := [];
    SelectsNothing(keep);
    for i := 0 to |s|
      invariant Selects(s[..i], keep, r)
    {
      assert s[..i + 1] == s[..i] + [s[i]];
      SelectsOneMore(s[..i], keep, r, s[i]);
      r := if keep(s[i]) then r + [s[i]] else r;
    }
    assert s[..|s|] == s;
  }

  lemma SelectionOfDistinct<T(!new)>(s: seq<T>, keep: T -> bool, r: seq<T>, id: T -> int, ids: seq<int>)
    requires Selects(s, keep, r) && Distinct(ids) && |ids| == |s| && forall i :: 0 <= i < |s| ==> ids[i] == id(s[i])
    ensures forall i, j :: 0 <= i < j < |r| ==> id(r[i]) != id(r[j])
  {
    var at :| SelectedAt(s, keep, r, at);
    forall i, j | 0 <= i < j < |r|
      ensures id(r[i]) != id(r[j])
    {
      assert at[i] < at[j] && ids[at[i]] != ids[at[j]];
    }
  }
}
