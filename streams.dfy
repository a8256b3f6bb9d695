/**
 * Counting over the stream of quads a metric has consumed. Every metric's
 * counters are tied to counts of this kind by its class invariant.
 */
module Streams {

  /** The number of elements of s that satisfy p. */
  function Count<T>(s: seq<T>, p: T -> bool): (r: nat)
    ensures r <= |s|
  {
    if |s| == 0 then 0 else Count(s[..|s| - 1], p) + (if p(s[|s| - 1]) then 1 else 0)
  }

  lemma CountAppend<T>(s: seq<T>, x: T, p: T -> bool)
    ensures Count(s + [x], p) == Count(s, p) + (if p(x) then 1 else 0)
  {
    assert (s + [x])[..|s|] == s;
  }

  /** A weaker condition never counts fewer elements. */
  lemma {:induction false} CountMonotone<T>(s: seq<T>, p: T -> bool, q: T -> bool)
    requires forall x :: p(x) ==> q(x)
    ensures Count(s, p) <= Count(s, q)
  {
    if |s| > 0 {
      CountMonotone(s[..|s| - 1], p, q);
    }
  }

  /** Counting a disjoint union is adding the counts. */
  lemma {:induction false} CountDisjointUnion<T>(s: seq<T>, p: T -> bool, a: T -> bool, b: T -> bool)
    requires forall x :: p(x) <==> a(x) || b(x)
    requires forall x :: !(a(x) && b(x))
    ensures Count(s, p) == Count(s, a) + Count(s, b)
  {
    if |s| > 0 {
      CountDisjointUnion(s[..|s| - 1], p, a, b);
    }
  }

  /** Nothing is counted exactly when no element satisfies the condition. */
  lemma {:induction false} CountZero<T>(s: seq<T>, p: T -> bool)
    ensures Count(s, p) == 0 <==> forall i :: 0 <= i < |s| ==> !p(s[i])
  {
    if |s| > 0 {
      CountZero(s[..|s| - 1], p);
      assert forall i :: 0 <= i < |s| - 1 ==> s[..|s| - 1][i] == s[i];
    }
  }

  /** The sum of f over the elements of s. */
  function Total<T>(s: seq<T>, f: T -> nat): nat
  {
    if |s| == 0 then 0 else Total(s[..|s| - 1], f) + f(s[|s| - 1])
  }

  lemma TotalAppend<T>(s: seq<T>, x: T, f: T -> nat)
    ensures Total(s + [x], f) == Total(s, f) + f(x)
  {
    assert (s + [x])[..|s|] == s;
  }

  /**
   * When every element adds at most c, and nothing unless it satisfies p,
   * the sum is at most c times the count of p.
   */
  lemma {:induction false} TotalDominated<T>(s: seq<T>, f: T -> nat, p: T -> bool, c: nat)
    requires forall x :: f(x) <= (if p(x) then c else 0)
    ensures Total(s, f) <= c * Count(s, p)
  {
    if |s| > 0 {
      TotalDominated(s[..|s| - 1], f, p, c);
    }
  }

  /** A pointwise smaller function never sums to more. */
  lemma {:induction false} TotalMonotone<T>(s: seq<T>, f: T -> nat, g: T -> nat)
    requires forall x :: f(x) <= g(x)
    ensures Total(s, f) <= Total(s, g)
  {
    if |s| > 0 {
      TotalMonotone(s[..|s| - 1], f, g);
    }
  }

  /** Some element satisfies p exactly when one before the last or the last one does. */
  lemma ExistsLast<T>(s: seq<T>, init: seq<T>, p: T -> bool)
    requires |s| > 0 && init == s[..|s| - 1]
    ensures (exists j :: 0 <= j < |s| && p(s[j])) <==>
      (exists j :: 0 <= j < |init| && p(init[j])) || p(s[|s| - 1])
  {
    if exists j :: 0 <= j < |init| && p(init[j]) {
      var j :| 0 <= j < |init| && p(init[j]);
      assert s[j] == init[j];
    }
    if exists j :: 0 <= j < |s| && p(s[j]) {
      var j :| 0 <= j < |s| && p(s[j]);
      if j < |s| - 1 {
        assert init[j] == s[j];
      }
    }
  }

  /** The keys of the elements of s that satisfy p: what a seen-cache holds after s. */
  function KeySet<T, K>(s: seq<T>, p: T -> bool, key: T -> K): set<K>
  {
    if |s| == 0 then {}
    else
      var last := s[|s| - 1];
      KeySet(s[..|s| - 1], p, key) + (if p(last) then {key(last)} else {})
  }

  lemma KeySetAppend<T, K>(s: seq<T>, x: T, p: T -> bool, key: T -> K)
    ensures KeySet(s + [x], p, key) == KeySet(s, p, key) + (if p(x) then {key(x)} else {})
  {
    assert (s + [x])[..|s|] == s;
  }

  /** Each counted element adds at most one key. */
  lemma {:induction false} KeySetBound<T, K>(s: seq<T>, p: T -> bool, key: T -> K)
    ensures |KeySet(s, p, key)| <= Count(s, p)
  {
    if |s| > 0 {
      KeySetBound(s[..|s| - 1], p, key);
    }
  }

  /**
   * The number of elements of s whose key enters the cache for the first
   * time and passes judge.
   */
  function FirstHits<T, K(==)>(s: seq<T>, enter: T -> bool, key: T -> K, judge: K -> bool): nat
  {
    if |s| == 0 then 0
    else
      var init, last := s[..|s| - 1], s[|s| - 1];
      FirstHits(init, enter, key, judge)
      + (if enter(last) && key(last) !in KeySet(init, enter, key) && judge(key(last)) then 1 else 0)
  }

  /**
   * A seen-cache after s: it holds the keys of the elements that entered it,
   * every entry is true, and hits counts the first entries that pass judge.
   */
  ghost predicate SeenCache<T, K>(s: seq<T>, enter: T -> bool, key: T -> K, judge: K -> bool, cache: map<K, bool>, hits: nat)
  {
    cache.Keys == KeySet(s, enter, key)
    && (forall k :: k in cache ==> cache[k])
    && hits == FirstHits(s, enter, key, judge)
  }

  lemma SeenCacheEmpty<T, K>(enter: T -> bool, key: T -> K, judge: K -> bool)
    ensures SeenCache([], enter, key, judge, map[], 0)
  {
  }

  /**
   * One more element: a key that enters for the first time is cached as
   * true and is a hit when it passes judge; otherwise nothing changes.
   */
  lemma SeenCacheStep<T, K>(s: seq<T>, x: T, enter: T -> bool, key: T -> K, judge: K -> bool, cache: map<K, bool>, hits: nat)
    requires SeenCache(s, enter, key, judge, cache, hits)
    ensures enter(x) && key(x) !in cache ==>
      SeenCache(s + [x], enter, key, judge, cache[key(x) := true], if judge(key(x)) then hits + 1 else hits)
    ensures !(enter(x) && key(x) !in cache) ==> SeenCache(s + [x], enter, key, judge, cache, hits)
  {
    assert (s + [x])[..|s|] == s;
  }

  /** Every hit entered the cache. */
  lemma {:induction false} FirstHitsBound<T, K>(s: seq<T>, enter: T -> bool, key: T -> K, judge: K -> bool)
    ensures FirstHits(s, enter, key, judge) <= Count(s, enter)
  {
    if |s| > 0 {
      FirstHitsBound(s[..|s| - 1], enter, key, judge);
    }
  }

  /** The elements that enter and whose key passes judge. */
  function Judged<T, K>(enter: T -> bool, key: T -> K, judge: K -> bool): T -> bool
  {
    y => enter(y) && judge(key(y))
  }

  /** The hit keys are the entered keys that pass judge. */
  lemma {:induction false} KeySetJudged<T, K>(s: seq<T>, enter: T -> bool, key: T -> K, judge: K -> bool, k: K)
    ensures k in KeySet(s, Judged(enter, key, judge), key) <==> k in KeySet(s, enter, key) && judge(k)
  {
    if |s| > 0 {
      KeySetJudged(s[..|s| - 1], enter, key, judge, k);
    }
  }

  /** The hits are the distinct entered keys that pass judge: each is counted once. */
  lemma {:induction false} FirstHitsDistinct<T, K>(s: seq<T>, enter: T -> bool, key: T -> K, judge: K -> bool)
    ensures FirstHits(s, enter, key, judge) == |KeySet(s, Judged(enter, key, judge), key)|
  {
    if |s| > 0 {
      var init, last := s[..|s| - 1], s[|s| - 1];
      var p := Judged(enter, key, judge);
      FirstHitsDistinct(init, enter, key, judge);
      KeySetJudged(init, enter, key, judge, key(last));
      assert p(last) == (enter(last) && judge(key(last)));
      assert KeySet(s, p, key) == KeySet(init, p, key) + (if p(last) then {key(last)} else {});
      assert FirstHits(s, enter, key, judge) == FirstHits(init, enter, key, judge)
        + (if enter(last) && key(last) !in KeySet(init, enter, key) && judge(key(last)) then 1 else 0);
      if p(last) && key(last) !in KeySet(init, p, key) {
        assert |KeySet(s, p, key)| == |KeySet(init, p, key)| + 1;
      } else {
        assert KeySet(s, p, key) == KeySet(init, p, key);
      }
    }
  }

  /**
   * A first-occurrence directory after s: each key of an element that
   * entered maps to the first element with that key.
   */
  function FirstSeen<T, K>(s: seq<T>, enter: T -> bool, key: T -> K): map<K, T>
  {
    if |s| == 0 then map[]
    else
      var m, last := FirstSeen(s[..|s| - 1], enter, key), s[|s| - 1];
      if enter(last) && key(last) !in m then m[key(last) := last] else m
  }

  lemma FirstSeenAppend<T, K>(s: seq<T>, x: T, enter: T -> bool, key: T -> K)
    ensures FirstSeen(s + [x], enter, key) ==
      var m := FirstSeen(s, enter, key);
      if enter(x) && key(x) !in m then m[key(x) := x] else m
  {
    assert (s + [x])[..|s|] == s;
  }

  /** The directory holds exactly the keys of the elements that entered. */
  lemma {:induction false} FirstSeenKeys<T, K>(s: seq<T>, enter: T -> bool, key: T -> K)
    ensures FirstSeen(s, enter, key).Keys == KeySet(s, enter, key)
  {
    if |s| > 0 {
      FirstSeenKeys(s[..|s| - 1], enter, key);
    }
  }

  /** Something entered exactly when the directory is not empty. */
  lemma {:induction false} FirstSeenEmpty<T, K>(s: seq<T>, enter: T -> bool, key: T -> K)
    ensures |FirstSeen(s, enter, key)| == 0 <==> Count(s, enter) == 0
  {
    if |s| > 0 {
      FirstSeenEmpty(s[..|s| - 1], enter, key);
      var m, last := FirstSeen(s[..|s| - 1], enter, key), s[|s| - 1];
      if enter(last) && key(last) in m {
        assert |m| != 0;
      }
    }
  }

  /**
   * Each entry is the first element of s that entered with its key: it
   * sits at some index, and no element before it entered with that key.
   */
  lemma {:induction false} FirstSeenIsFirst<T, K>(s: seq<T>, enter: T -> bool, key: T -> K, k: K)
    requires k in FirstSeen(s, enter, key)
    ensures exists i :: (0 <= i < |s| && s[i] == FirstSeen(s, enter, key)[k] && enter(s[i]) && key(s[i]) == k
      && forall j :: 0 <= j < i ==> !(enter(s[j]) && key(s[j]) == k))
  {
    var init, last := s[..|s| - 1], s[|s| - 1];
    var m := FirstSeen(init, enter, key);
    if k in m {
      FirstSeenIsFirst(init, enter, key, k);
      var i :| 0 <= i < |init| && init[i] == m[k] && enter(init[i]) && key(init[i]) == k
        && forall j :: 0 <= j < i ==> !(enter(init[j]) && key(init[j]) == k);
      assert s[i] == init[i];
      assert forall j :: 0 <= j < i ==> s[j] == init[j];
    } else {
      FirstSeenKeys(init, enter, key);
      NotInKeySet(init, enter, key, k);
      assert s[|s| - 1] == FirstSeen(s, enter, key)[k];
      assert forall j :: 0 <= j < |s| - 1 ==> s[j] == init[j];
    }
  }

  /** A key outside KeySet belongs to no element that entered. */
  lemma {:induction false} NotInKeySet<T, K>(s: seq<T>, p: T -> bool, key: T -> K, k: K)
    requires k !in KeySet(s, p, key)
    ensures forall j :: 0 <= j < |s| ==> !(p(s[j]) && key(s[j]) == k)
  {
    if |s| > 0 {
      NotInKeySet(s[..|s| - 1], p, key, k);
      assert forall j :: 0 <= j < |s| - 1 ==> s[j] == s[..|s| - 1][j];
    }
  }
}
