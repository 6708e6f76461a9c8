/// Stable grouping by a small rank: the elements of rank 0, then those of rank 1,
/// then those of rank 2, each group in its original order. The folders-first
/// listing (three appended buckets) and the prefix-first search ranking (two
/// groups) are both of this form.
module Grouping {

  /** The elements of s whose rank is k, in their original order. */
  function Bucket<T>(s: seq<T>, rank: T -> nat, k: nat): (r: seq<T>)
    ensures |r| <= |s|
    ensures forall i :: 0 <= i < |r| ==> rank(r[i]) == k
    ensures forall x :: x in r ==> x in s
  {
    if s == [] then []
    else (if rank(s[0]) == k then [s[0]] else []) + Bucket(s[1..], rank, k)
  }

  /** Ranks 0, 1 and 2, in that order, each group stable. */
  function Grouped<T>(s: seq<T>, rank: T -> nat): seq<T>
  {
    Bucket(s, rank, 0) + Bucket(s, rank, 1) + Bucket(s, rank, 2)
  }

  predicate RanksAtMost<T>(s: seq<T>, rank: T -> nat, top: nat)
  {
    forall i :: 0 <= i < |s| ==> rank(s[i]) <= top
  }

  lemma {:induction false} BucketConcat<T>(a: seq<T>, b: seq<T>, rank: T -> nat, k: nat)
    ensures Bucket(a + b, rank, k) == Bucket(a, rank, k) + Bucket(b, rank, k)
  {
    if a == [] {
      assert a + b == b;
    } else {
      assert (a + b)[0] == a[0];
      assert (a + b)[1..] == a[1..] + b;
      BucketConcat(a[1..], b, rank, k);
    }
  }

  lemma {:induction false} BucketOfBucket<T>(s: seq<T>, rank: T -> nat, j: nat, k: nat)
    ensures Bucket(Bucket(s, rank, j), rank, k) == if j == k then Bucket(s, rank, k) else []
  {
    if s != [] {
      var head: seq<T> := if rank(s[0]) == j then [s[0]] else [];
      BucketOfBucket(s[1..], rank, j, k);
      BucketConcat(head, Bucket(s[1..], rank, j), rank, k);
      assert Bucket(head, rank, k) == if rank(s[0]) == j && j == k then [s[0]] else [] by {
        if head != [] {
          assert head[1..] == [];
        }
      }
    }
  }

  /** A bucket's multiset gains the head exactly when the head has its rank. */
  lemma BucketHead<T>(s: seq<T>, rank: T -> nat, k: nat)
    requires s != []
    ensures multiset(Bucket(s, rank, k))
            == (if rank(s[0]) == k then multiset{s[0]} else multiset{}) + multiset(Bucket(s[1..], rank, k))
  {
    var head: seq<T> := if rank(s[0]) == k then [s[0]] else [];
    assert Bucket(s, rank, k) == head + Bucket(s[1..], rank, k);
  }

  lemma MultisetOfHead<T>(s: seq<T>)
    requires s != []
    ensures multiset(s) == multiset{s[0]} + multiset(s[1..])
  {
    assert s == [s[0]] + s[1..];
  }

  lemma RanksAtMostTail<T>(s: seq<T>, rank: T -> nat, top: nat)
    requires s != [] && RanksAtMost(s, rank, top)
    ensures RanksAtMost(s[1..], rank, top) && rank(s[0]) <= top
  {
    forall i | 0 <= i < |s| - 1 ensures rank(s[1..][i]) <= top {
      assert s[1..][i] == s[i + 1];
    }
  }

  /** Adding x to exactly one of three multisets adds it to their sum. */
  lemma AddToOne<T>(x: multiset<T>, m0: multiset<T>, m1: multiset<T>, m2: multiset<T>, k: nat)
    requires k <= 2
    ensures (if k == 0 then x else multiset{}) + m0 + ((if k == 1 then x else multiset{}) + m1)
            + ((if k == 2 then x else multiset{}) + m2) == x + (m0 + m1 + m2)
  {
  }

  /** Every element falls in exactly one of the three buckets. */
  lemma {:induction false} BucketsPartition<T>(s: seq<T>, rank: T -> nat)
    requires RanksAtMost(s, rank, 2)
    ensures multiset(Bucket(s, rank, 0)) + multiset(Bucket(s, rank, 1)) + multiset(Bucket(s, rank, 2))
            == multiset(s)
  {
    if s != [] {
      var t := s[1..];
      RanksAtMostTail(s, rank, 2);
      BucketsPartition(t, rank);
      BucketHead(s, rank, 0);
      BucketHead(s, rank, 1);
      BucketHead(s, rank, 2);
      MultisetOfHead(s);
      AddToOne(multiset{s[0]}, multiset(Bucket(t, rank, 0)), multiset(Bucket(t, rank, 1)),
               multiset(Bucket(t, rank, 2)), rank(s[0]));
    }
  }

  /** With ranks 0 and 1 only, the third bucket is empty. */
  lemma {:induction false} NoBucketAbove<T>(s: seq<T>, rank: T -> nat, k: nat)
    requires RanksAtMost(s, rank, k)
    ensures Bucket(s, rank, k + 1) == []
  {
    if s != [] {
      NoBucketAbove(s[1..], rank, k);
    }
  }

  /** The grouping is a permutation of its input. */
  lemma GroupedIsPermutation<T>(s: seq<T>, rank: T -> nat)
    requires RanksAtMost(s, rank, 2)
    ensures multiset(Grouped(s, rank)) == multiset(s)
    ensures |Grouped(s, rank)| == |s|
  {
    BucketsPartition(s, rank);
    assert multiset(Grouped(s, rank)) == multiset(s);
    assert |multiset(Grouped(s, rank))| == |multiset(s)|;
  }

  /** Ranks never decrease along the grouping. */
  lemma GroupedIsOrdered<T>(s: seq<T>, rank: T -> nat)
    ensures forall i, j :: 0 <= i < j < |Grouped(s, rank)| ==>
              rank(Grouped(s, rank)[i]) <= rank(Grouped(s, rank)[j])
  {
    var b0, b1, b2 := Bucket(s, rank, 0), Bucket(s, rank, 1), Bucket(s, rank, 2);
    var g := Grouped(s, rank);
    forall i | 0 <= i < |g|
      ensures rank(g[i]) == if i < |b0| then 0 else if i < |b0| + |b1| then 1 else 2
    {
      if i < |b0| {
        assert g[i] == b0[i];
      } else if i < |b0| + |b1| {
        assert g[i] == b1[i - |b0|];
      } else {
        assert g[i] == b2[i - |b0| - |b1|];
      }
    }
  }

  /** Within each rank the original relative order is kept: the elements of
      rank k appear in the grouping exactly as they appear in the input. */
  lemma GroupedIsStable<T>(s: seq<T>, rank: T -> nat, k: nat)
    requires k <= 2
    ensures Bucket(Grouped(s, rank), rank, k) == Bucket(s, rank, k)
  {
    var b0, b1, b2 := Bucket(s, rank, 0), Bucket(s, rank, 1), Bucket(s, rank, 2);
    BucketConcat(b0 + b1, b2, rank, k);
    BucketConcat(b0, b1, rank, k);
    BucketOfBucket(s, rank, 0, k);
    BucketOfBucket(s, rank, 1, k);
    BucketOfBucket(s, rank, 2, k);
  }
}
