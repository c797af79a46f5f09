/** The least-recently-marked eviction that both chart caches share, stated on the
    insertion order of a JavaScript Map or Set. */
module Recency {

  /** Deleting a key: the others keep their order. */
  function Without<K(==)>(s: seq<K>, k: K): seq<K> {
    if s == [] then []
    else if s[0] == k then Without(s[1..], k)
    else [s[0]] + Without(s[1..], k)
  }

  /** What is left once the oldest keys have been dropped down to `cap`. */
  function Newest<K>(s: seq<K>, cap: nat): seq<K> {
    if |s| <= cap then s else s[|s| - cap..]
  }

  /** Delete, append, evict: one mark. */
  function Touch<K(==)>(s: seq<K>, k: K, cap: nat): seq<K> {
    Newest(Without(s, k) + [k], cap)
  }

  /** The cache after a history of marks, oldest first. */
  function Recall<K(==)>(h: seq<K>, cap: nat): seq<K> {
    if h == [] then [] else Touch(Recall(h[..|h| - 1], cap), h[|h| - 1], cap)
  }

  ghost function Keys<K>(s: seq<K>): set<K> {
    set x | x in s
  }

  ghost predicate Distinct<K>(s: seq<K>) {
    forall i, j :: 0 <= i < j < |s| ==> s[i] != s[j]
  }

  /** The distinct keys marked after the last mark of `k`. */
  ghost function MarkedSince<K>(h: seq<K>, k: K): set<K> {
    if h == [] || h[|h| - 1] == k then {}
    else MarkedSince(h[..|h| - 1], k) + {h[|h| - 1]}
  }

  lemma {:induction false} WithoutMembers<K>(s: seq<K>, k: K)
    ensures forall x :: x in Without(s, k) <==> x in s && x != k
  {
    if s != [] {
      WithoutMembers(s[1..], k);
      assert s == [s[0]] + s[1..];
    }
  }

  lemma WithoutMember<K>(s: seq<K>, k: K, x: K)
    ensures x in Without(s, k) <==> x in s && x != k
  {
    WithoutMembers(s, k);
  }

  lemma {:induction false} KeysWithout<K>(s: seq<K>, k: K)
    ensures Keys(Without(s, k)) + {k} == Keys(s) + {k}
  {
    if s != [] {
      KeysWithout(s[1..], k);
      assert Keys(s) == {s[0]} + Keys(s[1..]);
      if s[0] != k {
        var kept := Without(s[1..], k);
        assert Keys([s[0]] + kept) == {s[0]} + Keys(kept);
      }
    }
  }

  lemma {:induction false} WithoutDistinct<K>(s: seq<K>, k: K)
    requires Distinct(s)
    ensures Distinct(Without(s, k))
    ensures |Without(s, k)| == if k in s then |s| - 1 else |s|
  {
    if s != [] {
      WithoutDistinct(s[1..], k);
      WithoutMembers(s[1..], k);
      assert s[0] !in s[1..];
    }
  }

  lemma {:induction false} WithoutAbsent<K>(s: seq<K>, k: K)
    requires k !in s
    ensures Without(s, k) == s
  {
    if s != [] {
      WithoutAbsent(s[1..], k);
    }
  }

  lemma {:induction false} WithoutConcat<K>(a: seq<K>, b: seq<K>, k: K)
    ensures Without(a + b, k) == Without(a, k) + Without(b, k)
  {
    if a == [] {
      assert a + b == b;
    } else {
      assert (a + b)[1..] == a[1..] + b;
      WithoutConcat(a[1..], b, k);
    }
  }

  lemma TouchKeeps<K>(s: seq<K>, k: K, cap: nat)
    requires Distinct(s)
    ensures Distinct(Touch(s, k, cap)) && |Touch(s, k, cap)| <= cap
    ensures forall x :: x in Touch(s, k, cap) ==> x == k || x in s
    ensures cap > 0 ==> k in Touch(s, k, cap)
  {
    WithoutDistinct(s, k);
    WithoutMembers(s, k);
    var all := Without(s, k) + [k];
    assert cap > 0 ==> Newest(all, cap)[|Newest(all, cap)| - 1] == k;
  }

  lemma NewestOfConcat<K>(a: seq<K>, b: seq<K>, cap: nat)
    requires |b| >= cap
    ensures Newest(a + b, cap) == Newest(b, cap)
  {
  }

  /** Evicting before or after a mark comes to the same cache. */
  lemma EvictionCommutes<K>(s: seq<K>, k: K, cap: nat)
    requires Distinct(s)
    ensures Touch(Newest(s, cap), k, cap) == Touch(s, k, cap)
  {
    if |s| > cap {
      var stale, kept := s[..|s| - cap], s[|s| - cap..];
      assert s == stale + kept;
      WithoutConcat(stale, kept, k);
      WithoutDistinct(kept, k);
      assert Without(s, k) + [k] == Without(stale, k) + (Without(kept, k) + [k]);
      NewestOfConcat(Without(stale, k), Without(kept, k) + [k], cap);
    }
  }

  /** The unbounded cache: every key ever marked, ordered by its last mark. */
  ghost function ByLastMark<K>(h: seq<K>): seq<K> {
    if h == [] then [] else Without(ByLastMark(h[..|h| - 1]), h[|h| - 1]) + [h[|h| - 1]]
  }

  lemma {:induction false} ByLastMarkIsDistinct<K>(h: seq<K>)
    ensures Distinct(ByLastMark(h))
    ensures forall x :: x in ByLastMark(h) <==> x in h
  {
    if h != [] {
      var last := |h| - 1;
      ByLastMarkIsDistinct(h[..last]);
      WithoutDistinct(ByLastMark(h[..last]), h[last]);
      WithoutMembers(ByLastMark(h[..last]), h[last]);
      assert h == h[..last] + [h[last]];
    }
  }

  /** The bounded cache is the newest `cap` keys of the unbounded one. */
  lemma {:induction false} RecallIsNewest<K>(h: seq<K>, cap: nat)
    ensures Recall(h, cap) == Newest(ByLastMark(h), cap)
  {
    if h != [] {
      var last := |h| - 1;
      RecallIsNewest(h[..last], cap);
      ByLastMarkIsDistinct(h[..last]);
      EvictionCommutes(ByLastMark(h[..last]), h[last], cap);
    }
  }

  /** What follows the only place a key stands. */
  lemma AfterIt<K>(before: seq<K>, x: K, rest: seq<K>, p: nat)
    requires Distinct(before + ([x] + rest)) && p < |before + ([x] + rest)| && (before + ([x] + rest))[p] == x
    ensures (before + ([x] + rest))[p + 1..] == rest
  {
    assert (before + ([x] + rest))[|before|] == x;
    assert p == |before|;
  }

  lemma TailAfterDelete<K>(s: seq<K>, k: K, q: nat, p: nat)
    requires Distinct(s) && q < |s| && s[q] != k
    requires p < |Without(s, k)| && Without(s, k)[p] == s[q]
    ensures Without(s, k)[p + 1..] == Without(s[q + 1..], k)
  {
    assert s == s[..q] + s[q..] && s[q..] == [s[q]] + s[q + 1..];
    WithoutDistinct(s, k);
    WithoutConcat(s[..q], s[q..], k);
    WithoutFirst(s[q], s[q + 1..], k);
    hide Without, Distinct;
    AfterIt(Without(s[..q], k), s[q], Without(s[q + 1..], k), p);
  }

  lemma WithoutFirst<K>(x: K, rest: seq<K>, k: K)
    requires x != k
    ensures Without([x] + rest, k) == [x] + Without(rest, k)
  {
    assert ([x] + rest)[1..] == rest;
  }

  /** Marking `k` puts it behind every key, and takes it from where it was. */
  lemma KeysBehind<K>(s: seq<K>, k: K, q: nat, p: nat)
    requires Distinct(s) && q < |s| && s[q] != k
    requires p < |Without(s, k)| && Without(s, k)[p] == s[q]
    ensures Keys((Without(s, k) + [k])[p + 1..]) == Keys(s[q + 1..]) - {k} + {k}
  {
    TailAfterDelete(s, k, q, p);
    var tail := Without(s[q + 1..], k);
    assert (Without(s, k) + [k])[p + 1..] == tail + [k];
    assert Keys(tail + [k]) == Keys(tail) + {k};
    KeysWithout(s[q + 1..], k);
  }

  /** What stands behind a key in mark order is what was marked since. */
  lemma {:induction false} BehindIsSince<K>(h: seq<K>, p: nat)
    requires p < |ByLastMark(h)|
    ensures Keys(ByLastMark(h)[p + 1..]) == MarkedSince(h, ByLastMark(h)[p])
  {
    var last := |h| - 1;
    var before, k := ByLastMark(h[..last]), h[last];
    var now := ByLastMark(h);
    ByLastMarkIsDistinct(h);
    ByLastMarkIsDistinct(h[..last]);
    if p < |now| - 1 {
      var m := now[p];
      assert m in Without(before, k) by { assert Without(before, k)[p] == m; }
      WithoutMember(before, k, m);
      var q :| 0 <= q < |before| && before[q] == m;
      BehindIsSince(h[..last], q);
      assert m != k by { assert now[|now| - 1] == k; }
      KeysBehind(before, k, q, p);
    } else {
      assert now[p + 1..] == [];
    }
  }

  lemma {:induction false} DistinctCount<K>(s: seq<K>)
    requires Distinct(s)
    ensures |Keys(s)| == |s|
  {
    if s != [] {
      DistinctCount(s[1..]);
      assert Keys(s) == {s[0]} + Keys(s[1..]);
      assert s[0] !in s[1..];
    }
  }

  /** After any history of marks the cache holds exactly the `cap` most recently
      marked distinct keys: a key is in it if and only if it was marked and fewer
      than `cap` other keys have been marked since. */
  lemma HoldsTheMostRecent<K>(h: seq<K>, cap: nat, m: K)
    ensures m in Recall(h, cap) <==> m in h && |MarkedSince(h, m)| < cap
    ensures Distinct(Recall(h, cap)) && |Recall(h, cap)| <= cap
  {
    RecallIsNewest(h, cap);
    ByLastMarkIsDistinct(h);
    var all := ByLastMark(h);
    if m in h {
      var p :| 0 <= p < |all| && all[p] == m;
      BehindIsSince(h, p);
      DistinctCount(all[p + 1..]);
      if |all| > cap {
        assert m in Newest(all, cap) <==> p >= |all| - cap;
      }
    }
  }

  /** And it holds them oldest mark first. */
  lemma OldestMarkFirst<K>(h: seq<K>, cap: nat, i: nat, j: nat)
    requires i < j < |Recall(h, cap)|
    ensures Recall(h, cap)[j] in MarkedSince(h, Recall(h, cap)[i])
  {
    RecallIsNewest(h, cap);
    hide Recall, ByLastMark, MarkedSince;
    var all, kept := ByLastMark(h), Recall(h, cap);
    var cut := |all| - |kept|;
    assert kept == all[cut..];
    assert all[cut + i] == kept[i] && all[cut + j] == kept[j];
    BehindIsSince(h, cut + i);
    var behind := all[cut + i + 1..];
    assert behind[j - i - 1] == kept[j];
  }
}
