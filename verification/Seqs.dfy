/** Subsequences, filters and concatenations, by recursion on the last element. */
module Seqs {

  function Flatten<T>(parts: seq<seq<T>>): seq<T> {
    if parts == [] then [] else parts[0] + Flatten(parts[1..])
  }

  lemma FlattenCons<T>(parts: seq<seq<T>>, rest: seq<T>)
    requires parts != []
    ensures Flatten(parts) + rest == parts[0] + (Flatten(parts[1..]) + rest)
  {
  }

  lemma {:induction false} FlattenLast<T>(parts: seq<seq<T>>, last: seq<T>)
    ensures Flatten(parts + [last]) == Flatten(parts) + last
  {
    if parts == [] {
      assert parts + [last] == [last] && [last][1..] == [];
    } else {
      assert (parts + [last])[1..] == parts[1..] + [last];
      FlattenLast(parts[1..], last);
    }
  }

  lemma Regroup<T>(a: seq<T>, b: seq<T>, c: seq<T>)
    ensures a + b + c == a + (b + c)
  {
  }

  lemma HeadTail<T>(s: seq<T>, rest: seq<T>)
    requires s != []
    ensures [s[0]] + (s[1..] + rest) == s + rest
  {
  }

  function Filter<T>(keep: T -> bool, s: seq<T>): seq<T> {
    if s == [] then []
    else
      var rest := Filter(keep, s[..|s| - 1]);
      if keep(s[|s| - 1]) then rest + [s[|s| - 1]] else rest
  }

  lemma Last<T>(s: seq<T>, x: T)
    ensures (s + [x])[..|s|] == s && (s + [x])[|s|] == x
  {
  }

  lemma FilterSnoc<T>(keep: T -> bool, s: seq<T>, x: T)
    ensures Filter(keep, s + [x]) == if keep(x) then Filter(keep, s) + [x] else Filter(keep, s)
  {
    Last(s, x);
  }

  lemma {:induction false} FilterKeeps<T>(keep: T -> bool, s: seq<T>, i: nat)
    requires i < |Filter(keep, s)|
    ensures keep(Filter(keep, s)[i])
  {
    var rest := Filter(keep, s[..|s| - 1]);
    if i < |rest| {
      FilterKeeps(keep, s[..|s| - 1], i);
    }
  }

  /** The positions `at` of `b` spell out `a`, from left to right. */
  ghost predicate Embeds<T>(at: seq<int>, a: seq<T>, b: seq<T>) {
    && |at| == |a|
    && (forall i {:trigger at[i]} :: 0 <= i < |at| ==> 0 <= at[i] < |b| && b[at[i]] == a[i])
    && (forall i, j {:trigger at[i], at[j]} :: 0 <= i < j < |at| ==> at[i] < at[j])
  }

  /** `a` can be obtained from `b` by deleting elements. */
  ghost predicate Subseq<T>(a: seq<T>, b: seq<T>) {
    exists at :: Embeds(at, a, b)
  }

  lemma SubseqSkip<T>(a: seq<T>, b: seq<T>, x: T)
    requires Subseq(a, b)
    ensures Subseq(a, b + [x])
  {
    var at :| Embeds(at, a, b);
    assert Embeds(at, a, b + [x]);
  }

  lemma SubseqBoth<T>(a: seq<T>, b: seq<T>, x: T)
    requires Subseq(a, b)
    ensures Subseq(a + [x], b + [x])
  {
    var at :| Embeds(at, a, b);
    assert Embeds(at + [|b|], a + [x], b + [x]);
  }

  lemma SubseqLess<T>(a: seq<T>, x: T, b: seq<T>)
    requires Subseq(a + [x], b)
    ensures Subseq(a, b)
  {
    var at :| Embeds(at, a + [x], b);
    var front := seq(|a|, i requires 0 <= i < |a| => at[i]);
    assert Embeds(front, a, b);
  }

  lemma SubseqMember<T>(a: seq<T>, b: seq<T>, i: nat) returns (j: int)
    requires Subseq(a, b) && i < |a|
    ensures 0 <= j < |b| && b[j] == a[i]
  {
    var at :| Embeds(at, a, b);
    j := at[i];
  }

  /** Every pair of positions in a subsequence comes from a pair of positions in the same order. */
  lemma SubseqPair<T>(a: seq<T>, b: seq<T>, i: nat, j: nat) returns (k: int, l: int)
    requires Subseq(a, b) && i < j < |a|
    ensures 0 <= k < l < |b| && b[k] == a[i] && b[l] == a[j]
  {
    var at :| Embeds(at, a, b);
    k, l := at[i], at[j];
  }

  lemma {:induction false} PositionsGrow(at: seq<int>, i: nat)
    requires i < |at| && at[0] >= 0
    requires forall i, j {:trigger at[i], at[j]} :: 0 <= i < j < |at| ==> at[i] < at[j]
    ensures at[i] >= i
  {
    if i > 0 {
      PositionsGrow(at, i - 1);
    }
  }

  lemma SubseqLength<T>(a: seq<T>, b: seq<T>)
    requires Subseq(a, b)
    ensures |a| <= |b|
  {
    var at :| Embeds(at, a, b);
    if a != [] {
      PositionsGrow(at, |a| - 1);
    }
  }

  /** `chosen` is what stands in `all`, from left to right and each once, at the places where `want`
      holds. */
  ghost predicate PickedAt<T>(at: seq<int>, chosen: seq<T>, all: seq<T>, want: T -> bool) {
    Embeds(at, chosen, all) && forall j :: 0 <= j < |all| ==> (want(all[j]) <==> j in at)
  }

  ghost predicate Picked<T>(chosen: seq<T>, all: seq<T>, want: T -> bool) {
    exists at :: PickedAt(at, chosen, all, want)
  }

  lemma PickedSnoc<T>(at: seq<int>, chosen: seq<T>, all: seq<T>, want: T -> bool, x: T)
    requires PickedAt(at, chosen, all, want)
    ensures PickedAt(if want(x) then at + [|all|] else at, if want(x) then chosen + [x] else chosen, all + [x], want)
  {
    var at' := if want(x) then at + [|all|] else at;
    assert |all| !in at by {
      assert forall i {:trigger at[i]} :: 0 <= i < |at| ==> at[i] < |all|;
    }
    forall j | 0 <= j < |all + [x]|
      ensures want((all + [x])[j]) <==> j in at'
    {
      if j < |all| {
        assert (all + [x])[j] == all[j];
      } else if want(x) {
        assert at'[|at|] == j;
      }
    }
  }

  lemma FilterPicksSnoc<T>(keep: T -> bool, s: seq<T>, x: T, at: seq<int>) returns (at': seq<int>)
    requires PickedAt(at, Filter(keep, s), s, keep)
    ensures PickedAt(at', Filter(keep, s + [x]), s + [x], keep)
  {
    FilterSnoc(keep, s, x);
    PickedSnoc(at, Filter(keep, s), s, keep, x);
    at' := if keep(x) then at + [|s|] else at;
  }

  lemma {:induction false} FilterPicks<T>(keep: T -> bool, s: seq<T>) returns (at: seq<int>)
    ensures PickedAt(at, Filter(keep, s), s, keep)
  {
    if s == [] {
      at := [];
    } else {
      var before, x := s[..|s| - 1], s[|s| - 1];
      at := FilterPicks(keep, before);
      at := FilterPicksSnoc(keep, before, x, at);
      assert s == before + [x];
    }
  }

  lemma FilterPicked<T>(keep: T -> bool, s: seq<T>, want: T -> bool)
    requires forall x :: x in s ==> keep(x) == want(x)
    ensures Picked(Filter(keep, s), s, want)
  {
    var at := FilterPicks(keep, s);
    assert PickedAt(at, Filter(keep, s), s, want);
  }

  lemma {:induction false} FilterSubseq<T>(keep: T -> bool, s: seq<T>)
    ensures Subseq(Filter(keep, s), s)
  {
    if s == [] {
      assert Embeds([], Filter(keep, s), s);
    } else {
      var n := |s| - 1;
      FilterSubseq(keep, s[..n]);
      assert s == s[..n] + [s[n]];
      FilterSnoc(keep, s[..n], s[n]);
      if keep(s[n]) {
        SubseqBoth(Filter(keep, s[..n]), s[..n], s[n]);
      } else {
        SubseqSkip(Filter(keep, s[..n]), s[..n], s[n]);
      }
    }
  }
}
