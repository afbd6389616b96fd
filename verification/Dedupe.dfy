/** Keeping the first item of every key, as TransactionsMapper does by hash and parseEvents by index. */
module Dedupe {
  predicate IsFirst<T, K(==)>(s: seq<T>, key: T -> K, i: nat)
    requires i < |s|
  {
    forall j :: 0 <= j < i ==> key(s[j]) != key(s[i])
  }

  /** The positions of the first occurrences, in order. */
  function Firsts<T, K(==)>(s: seq<T>, key: T -> K): (at: seq<nat>)
    ensures forall a :: 0 <= a < |at| ==> at[a] < |s|
  {
    if s == [] then []
    else
      var n := |s| - 1;
      Firsts(s[..n], key) + (if IsFirst(s, key, n) then [n] else [])
  }

  function Unique<T, K(==)>(s: seq<T>, key: T -> K): (r: seq<T>)
    ensures |r| == |Firsts(s, key)|
  {
    var at := Firsts(s, key);
    seq(|at|, a requires 0 <= a < |at| => s[at[a]])
  }

  /** The positions kept are exactly those of first occurrences, in increasing order. */
  lemma {:induction false} FirstsAreTheFirsts<T, K>(s: seq<T>, key: T -> K)
    ensures forall a, b :: 0 <= a < b < |Firsts(s, key)| ==> Firsts(s, key)[a] < Firsts(s, key)[b]
    ensures forall i :: 0 <= i < |s| ==> (i in Firsts(s, key) <==> IsFirst(s, key, i))
  {
    if s != [] {
      var n := |s| - 1;
      FirstsAreTheFirsts(s[..n], key);
      assert forall i :: 0 <= i < n ==> (IsFirst(s[..n], key, i) <==> IsFirst(s, key, i));
      assert forall i :: i in Firsts(s[..n], key) ==> i < n;
    }
  }

  ghost predicate HasKey<T, K>(s: seq<T>, key: T -> K, k: K) {
    exists a :: 0 <= a < |s| && key(s[a]) == k
  }

  /** No key is lost and none is kept twice. */
  lemma UniqueKeys<T, K>(s: seq<T>, key: T -> K)
    ensures forall a, b :: 0 <= a < b < |Unique(s, key)| ==> key(Unique(s, key)[a]) != key(Unique(s, key)[b])
    ensures forall i :: 0 <= i < |s| ==> HasKey(Unique(s, key), key, key(s[i]))
  {
    var at := Firsts(s, key);
    FirstsAreTheFirsts(s, key);
    forall a, b | 0 <= a < b < |at| ensures key(s[at[a]]) != key(s[at[b]]) {
      assert at[b] in at;
      assert IsFirst(s, key, at[b]);
    }
    forall i | 0 <= i < |s| ensures HasKey(Unique(s, key), key, key(s[i])) {
      var j := FirstOf(s, key, i);
      assert j in at;
      var a :| 0 <= a < |at| && at[a] == j;
      assert key(Unique(s, key)[a]) == key(s[i]);
    }
  }

  lemma {:induction false} FirstOf<T, K>(s: seq<T>, key: T -> K, i: nat) returns (j: nat)
    requires i < |s|
    ensures j <= i && IsFirst(s, key, j) && key(s[j]) == key(s[i])
    decreases i
  {
    if IsFirst(s, key, i) {
      j := i;
    } else {
      var k :| 0 <= k < i && key(s[k]) == key(s[i]);
      j := FirstOf(s, key, k);
    }
  }

  lemma {:induction false} DistinctStays<T, K>(s: seq<T>, key: T -> K)
    requires forall a, b :: 0 <= a < b < |s| ==> key(s[a]) != key(s[b])
    ensures |Firsts(s, key)| == |s| && Unique(s, key) == s
  {
    if s != [] {
      var n := |s| - 1;
      DistinctStays(s[..n], key);
      assert IsFirst(s, key, n);
      FirstsAreTheFirsts(s, key);
      OneByOne(Firsts(s, key), |s|);
    }
  }

  /** n increasing numbers below n are 0, 1, 2 and so on. */
  lemma {:induction false} OneByOne(at: seq<nat>, n: nat)
    requires |at| == n && (forall a :: 0 <= a < n ==> at[a] < n)
    requires forall a, b :: 0 <= a < b < n ==> at[a] < at[b]
    ensures forall a :: 0 <= a < n ==> at[a] == a
  {
    if n > 0 {
      assert forall a :: 0 <= a < n - 1 ==> at[a] < at[n - 1];
      OneByOne(at[..n - 1], n - 1);
      assert forall a :: 0 <= a < n - 1 ==> at[..n - 1][a] == at[a];
      assert n >= 2 ==> at[n - 2] == n - 2;
    }
  }

  /** Deduplicating again changes nothing. */
  lemma UniqueIsIdempotent<T, K>(s: seq<T>, key: T -> K)
    ensures Unique(Unique(s, key), key) == Unique(s, key)
  {
    UniqueKeys(s, key);
    DistinctStays(Unique(s, key), key);
  }

  /** One more item: kept if and only if its key is new. */
  lemma UniqueExtends<T, K>(s: seq<T>, key: T -> K, x: T)
    ensures Unique(s + [x], key) ==
            if exists j :: 0 <= j < |s| && key(s[j]) == key(x) then Unique(s, key) else Unique(s, key) + [x]
  {
    var s' := s + [x];
    assert s'[..|s|] == s;
    var at, at' := Firsts(s, key), Firsts(s', key);
    if exists j :: 0 <= j < |s| && key(s[j]) == key(x) {
      var j :| 0 <= j < |s| && key(s[j]) == key(x);
      assert key(s'[j]) == key(s'[|s|]);
      assert at' == at;
    } else {
      assert IsFirst(s', key, |s|);
      assert at' == at + [|s|];
    }
  }
}
