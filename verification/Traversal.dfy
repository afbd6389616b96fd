/** Mapping the items of a sequence one after the other until one of them fails. */
module Traversal {
  import opened Dedupe

  datatype Result<+R, +E> = Success(value: R) | Failure(error: E)

  function MapAll<T, R, E>(s: seq<T>, f: T -> Result<R, E>): Result<seq<R>, E> {
    if s == [] then Success([])
    else
      match MapAll(s[..|s| - 1], f)
      case Failure(e) => Failure(e)
      case Success(rs) =>
        match f(s[|s| - 1])
        case Failure(e) => Failure(e)
        case Success(r) => Success(rs + [r])
  }

  lemma MapAllExtends<T, R, E>(s: seq<T>, f: T -> Result<R, E>, x: T)
    requires MapAll(s, f).Success?
    ensures MapAll(s + [x], f) == match f(x)
                                  case Failure(e) => Result<seq<R>, E>.Failure(e)
                                  case Success(r) => Result<seq<R>, E>.Success(MapAll(s, f).value + [r])
  {
    assert (s + [x])[..|s|] == s;
  }

  lemma {:induction false} FailureStays<T, R, E>(s: seq<T>, f: T -> Result<R, E>, k: nat)
    requires k <= |s| && MapAll(s[..k], f).Failure?
    ensures MapAll(s, f) == MapAll(s[..k], f)
  {
    if k < |s| {
      var front := s[..|s| - 1];
      assert front[..k] == s[..k];
      FailureStays(front, f, k);
    } else {
      assert s[..k] == s;
    }
  }

  /** A successful mapping keeps order and number: result i is the image of item i. */
  lemma {:induction false} MapAllAligned<T, R, E>(s: seq<T>, f: T -> Result<R, E>)
    requires MapAll(s, f).Success?
    ensures |MapAll(s, f).value| == |s|
    ensures forall i :: 0 <= i < |s| ==> f(s[i]) == Success(MapAll(s, f).value[i])
  {
    if s != [] {
      MapAllAligned(s[..|s| - 1], f);
    }
  }

  /** The mapping of a sequence fails if and only if that of one of its items does. */
  lemma {:induction false} MapAllFailsIff<T, R, E>(s: seq<T>, f: T -> Result<R, E>)
    ensures MapAll(s, f).Failure? <==> exists i :: 0 <= i < |s| && f(s[i]).Failure?
  {
    if s != [] {
      var n := |s| - 1;
      MapAllFailsIff(s[..n], f);
      assert forall i :: 0 <= i < n ==> s[..n][i] == s[i];
    }
  }

  lemma {:induction false} UniqueGrows<T, K>(s: seq<T>, key: T -> K, k: nat)
    requires k <= |s|
    ensures Unique(s[..k], key) <= Unique(s, key)
  {
    if k < |s| {
      var front := s[..|s| - 1];
      UniqueGrows(front, key, k);
      assert front[..k] == s[..k];
      assert s == front + [s[|s| - 1]];
      UniqueExtends(front, key, s[|s| - 1]);
    } else {
      assert s[..k] == s;
    }
  }

  ghost predicate Seen<T, K(!new)>(s: seq<T>, key: T -> K, seen: set<K>) {
    forall k :: k in seen <==> exists j :: 0 <= j < |s| && key(s[j]) == k
  }

  lemma SeenExtends<T, K(!new)>(s: seq<T>, key: T -> K, seen: set<K>, x: T)
    requires Seen(s, key, seen)
    ensures Seen(s + [x], key, seen + {key(x)})
  {
    var s' := s + [x];
    forall k | k in seen + {key(x)} ensures exists j :: 0 <= j < |s'| && key(s'[j]) == k {
      if k in seen {
        var j :| 0 <= j < |s| && key(s[j]) == k;
        assert key(s'[j]) == k;
      } else {
        assert key(s'[|s|]) == k;
      }
    }
    forall j | 0 <= j < |s'| ensures key(s'[j]) in seen + {key(x)} {
      if j < |s| {
        assert s'[j] == s[j];
      }
    }
  }

  /** After i items: the keys seen so far, and the images of the items kept so far. */
  ghost predicate Progress<T, K(!new), R, E>(s: seq<T>, key: T -> K, f: T -> Result<R, E>, i: nat, seen: set<K>, done: seq<R>)
    requires i <= |s|
  {
    Seen(s[..i], key, seen) && MapAll(Unique(s[..i], key), f) == Success(done)
  }

  lemma SkipItem<T, K(!new), R, E>(s: seq<T>, key: T -> K, f: T -> Result<R, E>, i: nat, seen: set<K>, done: seq<R>)
    requires i < |s| && Progress(s, key, f, i, seen, done) && key(s[i]) in seen
    ensures Progress(s, key, f, i + 1, seen, done)
  {
    assert s[..i + 1] == s[..i] + [s[i]];
    UniqueExtends(s[..i], key, s[i]);
    SeenExtends(s[..i], key, seen, s[i]);
    assert seen + {key(s[i])} == seen;
  }

  lemma KeepItem<T, K(!new), R, E>(s: seq<T>, key: T -> K, f: T -> Result<R, E>, i: nat, seen: set<K>, done: seq<R>, r: R)
    requires i < |s| && Progress(s, key, f, i, seen, done) && key(s[i]) !in seen && f(s[i]) == Success(r)
    ensures Progress(s, key, f, i + 1, seen + {key(s[i])}, done + [r])
  {
    assert s[..i + 1] == s[..i] + [s[i]];
    UniqueExtends(s[..i], key, s[i]);
    SeenExtends(s[..i], key, seen, s[i]);
    MapAllExtends(Unique(s[..i], key), f, s[i]);
  }

  /** A failure among the first occurrences read so far is the failure of the whole. */
  lemma FailItem<T, K(!new), R, E>(s: seq<T>, key: T -> K, f: T -> Result<R, E>, i: nat, seen: set<K>, done: seq<R>, e: E)
    requires i < |s| && Progress(s, key, f, i, seen, done) && key(s[i]) !in seen && f(s[i]) == Failure(e)
    ensures MapAll(Unique(s, key), f) == Failure(e)
  {
    assert s[..i + 1] == s[..i] + [s[i]];
    UniqueExtends(s[..i], key, s[i]);
    MapAllExtends(Unique(s[..i], key), f, s[i]);
    UniqueGrows(s, key, i + 1);
    var all, some := Unique(s, key), Unique(s[..i + 1], key);
    assert all[..|some|] == some;
    FailureStays(all, f, |some|);
  }

  lemma NothingRead<T, K(!new), R, E>(s: seq<T>, key: T -> K, f: T -> Result<R, E>)
    ensures Progress<T, K, R, E>(s, key, f, 0, {}, [])
  {
  }

  lemma AllRead<T, K(!new), R, E>(s: seq<T>, key: T -> K, f: T -> Result<R, E>, seen: set<K>, done: seq<R>)
    requires Progress(s, key, f, |s|, seen, done)
    ensures MapAll(Unique(s, key), f) == Success(done)
  {
    assert s[..|s|] == s;
  }
}
