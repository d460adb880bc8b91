/**
 The newest-first order both claim lists are shown in. The lists are sorted
 with the comparator `Number(b.timestamp - a.timestamp)`, whose sign is
 that of the bigint difference, so `a` goes before `b` exactly when `a`'s
 timestamp is larger. `Array.prototype.sort` is stable (ECMAScript 2019),
 so claims with equal timestamps keep the order they were fetched in. The
 sort is modelled as a stable insertion sort with that behaviour.
 */
module NewestFirst {
  import opened ClaimData

  /** Non-increasing timestamps: every claim is at least as new as every
      claim after it. */
  predicate Sorted(s: seq<Claim>)
  {
    forall i, j :: 0 <= i < j < |s| ==> s[i].timestamp >= s[j].timestamp
  }

  /** The claims with timestamp `t`, in list order. */
  function WithTimestamp(s: seq<Claim>, t: nat): seq<Claim>
  {
    if s == [] then []
    else (if s[0].timestamp == t then [s[0]] else []) + WithTimestamp(s[1..], t)
  }

  /** Puts `x` in front of a sorted list: after every strictly newer claim and
      before every claim of the same age or older. */
  function Insert(x: Claim, s: seq<Claim>): (r: seq<Claim>)
    requires Sorted(s)
    ensures Sorted(r)
    ensures multiset(r) == multiset(s) + multiset{x}
    ensures |r| == |s| + 1
  {
    if s == [] || s[0].timestamp <= x.timestamp then [x] + s
    else
      var rest := Insert(x, s[1..]);
      NewerThanAll(s[0], x, s[1..], rest);
      assert s == [s[0]] + s[1..];
      [s[0]] + rest
  }

  /** A claim at least as new as `x` and as all of `s` stays sorted in front
      of any rearrangement of `x` and `s`. */
  lemma NewerThanAll(head: Claim, x: Claim, s: seq<Claim>, r: seq<Claim>)
    requires Sorted(r) && multiset(r) == multiset(s) + multiset{x}
    requires x.timestamp <= head.timestamp
    requires forall k :: 0 <= k < |s| ==> s[k].timestamp <= head.timestamp
    ensures Sorted([head] + r)
  {
    forall k | 0 <= k < |r|
      ensures r[k].timestamp <= head.timestamp
    {
      assert r[k] in multiset(r);
      if r[k] != x {
        assert r[k] in multiset(s);
      }
    }
  }

  /** The newest-first order of a fetched list. */
  function Sort(s: seq<Claim>): (r: seq<Claim>)
    ensures Sorted(r)
    ensures multiset(r) == multiset(s)
    ensures |r| == |s|
  {
    if s == [] then []
    else
      assert s == [s[0]] + s[1..];
      Insert(s[0], Sort(s[1..]))
  }

  /** Inserting `x` adds it in front of the claims of its own age and leaves
      the order among the others as it was. */
  lemma {:induction false} InsertKeepsTies(x: Claim, s: seq<Claim>, t: nat)
    requires Sorted(s)
    ensures WithTimestamp(Insert(x, s), t) == (if x.timestamp == t then [x] else []) + WithTimestamp(s, t)
  {
    if s == [] || s[0].timestamp <= x.timestamp {
      assert ([x] + s)[1..] == s;
    } else {
      var rest := Insert(x, s[1..]);
      assert ([s[0]] + rest)[1..] == rest;
      InsertKeepsTies(x, s[1..], t);
      if x.timestamp == t {
        assert s[0].timestamp != t;
      }
    }
  }

  /** The sort is stable: for every timestamp, the claims carrying it appear
      in the sorted list in the order they were fetched. */
  lemma {:induction false} SortIsStable(s: seq<Claim>, t: nat)
    ensures WithTimestamp(Sort(s), t) == WithTimestamp(s, t)
  {
    if s != [] {
      SortIsStable(s[1..], t);
      InsertKeepsTies(s[0], Sort(s[1..]), t);
    }
  }

  /** An already newest-first list is left exactly as it is. */
  lemma {:induction false} SortIdempotent(s: seq<Claim>)
    requires Sorted(s)
    ensures Sort(s) == s
  {
    if s != [] {
      SortIdempotent(s[1..]);
      assert s == [s[0]] + s[1..];
    }
  }

  /** Sorting twice is sorting once. */
  lemma SortTwice(s: seq<Claim>)
    ensures Sort(Sort(s)) == Sort(s)
  {
    SortIdempotent(Sort(s));
  }
}
