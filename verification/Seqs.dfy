/** Comprehensions over sequences: `[f(x) for x in s]`, `[x for x in s if p(x)]`, `s[-n:]`, and facts about them. */
module Seqs {
  import opened Wrappers
  import opened Sorting

  function Map<A, B>(f: A -> B, s: seq<A>): seq<B> {
    seq(|s|, i requires 0 <= i < |s| => f(s[i]))
  }

  function Filter<T>(p: T -> bool, s: seq<T>): seq<T> {
    if |s| == 0 then []
    else Filter(p, s[..|s| - 1]) + (if p(s[|s| - 1]) then [s[|s| - 1]] else [])
  }

  /** Python's `s[-n:]` for a positive n. */
  function LastOf<T>(s: seq<T>, n: int): seq<T>
    requires n > 0
  {
    if n >= |s| then s else s[|s| - n..]
  }

  predicate NoRepeats<T(==)>(s: seq<T>) {
    forall i, j | 0 <= i < j < |s| :: s[i] != s[j]
  }

  /** What one step keeps holds all the way from `i` to `j`. */
  lemma {:induction false} Throughout(good: nat -> bool, i: nat, j: nat)
    requires i <= j && good(i) && forall k: nat | i <= k < j && good(k) :: good(k + 1)
    ensures good(j)
  {
    if i < j {
      Throughout(good, i, j - 1);
    }
  }

  lemma ConcatAssoc<T>(a: seq<T>, b: seq<T>, c: seq<T>)
    ensures a + b + c == a + (b + c)
  {
  }

  lemma FilterSnoc<T>(p: T -> bool, s: seq<T>, x: T)
    ensures Filter(p, s + [x]) == Filter(p, s) + (if p(x) then [x] else [])
  {
    assert (s + [x])[..|s + [x]| - 1] == s;
  }

  lemma {:induction false} FilterMeaning<T(!new)>(p: T -> bool, s: seq<T>)
    ensures forall x :: x in Filter(p, s) <==> x in s && p(x)
    ensures |Filter(p, s)| <= |s|
  {
    if |s| > 0 {
      FilterMeaning(p, s[..|s| - 1]);
      assert s == s[..|s| - 1] + [s[|s| - 1]];
    }
  }

  lemma {:induction false} FilterConcat<T>(p: T -> bool, a: seq<T>, b: seq<T>)
    ensures Filter(p, a + b) == Filter(p, a) + Filter(p, b)
  {
    if |b| == 0 {
      assert a + b == a;
    } else {
      assert (a + b)[..|a + b| - 1] == a + b[..|b| - 1];
      FilterConcat(p, a, b[..|b| - 1]);
    }
  }

  lemma {:induction false} FilterSame<T(!new)>(p: T -> bool, q: T -> bool, s: seq<T>)
    requires forall x | x in s :: p(x) == q(x)
    ensures Filter(p, s) == Filter(q, s)
  {
    if |s| > 0 {
      FilterSame(p, q, s[..|s| - 1]);
    }
  }

  lemma {:induction false} FilterMap<A(!new), B>(f: A -> B, p: B -> bool, q: A -> bool, s: seq<A>)
    requires forall x :: q(x) == p(f(x))
    ensures Filter(p, Map(f, s)) == Map(f, Filter(q, s))
  {
    if |s| > 0 {
      FilterMap(f, p, q, s[..|s| - 1]);
      assert Map(f, s)[..|s| - 1] == Map(f, s[..|s| - 1]);
    }
  }

  lemma {:induction false} FilterSorted<T(!new)>(leq: (T, T) -> bool, p: T -> bool, s: seq<T>)
    requires Sorted(leq, s)
    ensures Sorted(leq, Filter(p, s))
  {
    if |s| > 0 {
      var front := s[..|s| - 1];
      assert Sorted(leq, front);
      FilterSorted(leq, p, front);
      FilterMeaning(p, front);
      var kept := Filter(p, front);
      forall i | 0 <= i < |kept| ensures leq(kept[i], s[|s| - 1]) {
        assert kept[i] in front;
      }
    }
  }

  lemma FilterDistinct<T(!new)>(p: T -> bool, s: seq<T>)
    requires NoRepeats(s)
    ensures NoRepeats(Filter(p, s))
  {
    var differ := (a: T, b: T) => a != b;
    assert Sorted(differ, s);
    FilterSorted(differ, p, s);
    var r := Filter(p, s);
    forall i, j | 0 <= i < j < |r| ensures r[i] != r[j] {
      assert differ(r[i], r[j]);
    }
  }

  lemma {:induction false} FilterNone<T(!new)>(p: T -> bool, s: seq<T>)
    requires forall x | x in s :: !p(x)
    ensures Filter(p, s) == []
  {
    if |s| > 0 {
      FilterNone(p, s[..|s| - 1]);
    }
  }

  lemma MapIn<A(!new), B(!new)>(f: A -> B, s: seq<A>)
    ensures forall y :: y in Map(f, s) <==> exists x | x in s :: f(x) == y
  {
    forall x | x in s ensures f(x) in Map(f, s) {
      var i :| 0 <= i < |s| && s[i] == x;
      assert Map(f, s)[i] == f(x);
    }
  }

  lemma MapLastOf<A, B>(f: A -> B, s: seq<A>, n: int)
    requires n > 0
    ensures LastOf(Map(f, s), n) == Map(f, LastOf(s, n))
  {
  }

  /** Sorting images under `f` is sorting by the pulled-back order. */
  lemma {:induction false} SortMap<A(!new), B(!new)>(f: A -> B, leq: (B, B) -> bool, back: (A, A) -> bool, s: seq<A>)
    requires forall a, b :: back(a, b) <==> leq(f(a), f(b))
    ensures Sort(leq, Map(f, s)) == Map(f, Sort(back, s))
  {
    if |s| > 0 {
      SortMap(f, leq, back, s[..|s| - 1]);
      assert Map(f, s)[..|s| - 1] == Map(f, s[..|s| - 1]);
      InsertMap(f, leq, back, Sort(back, s[..|s| - 1]), s[|s| - 1]);
    }
  }

  lemma MapSnoc<A, B>(f: A -> B, s: seq<A>, x: A)
    ensures Map(f, s + [x]) == Map(f, s) + [f(x)]
  {
  }

  lemma {:induction false} InsertMap<A(!new), B(!new)>(f: A -> B, leq: (B, B) -> bool, back: (A, A) -> bool, s: seq<A>,
                                                       x: A)
    requires forall a, b :: back(a, b) <==> leq(f(a), f(b))
    ensures Insert(leq, Map(f, s), f(x)) == Map(f, Insert(back, s, x))
  {
    if |s| == 0 || back(s[|s| - 1], x) {
      MapSnoc(f, s, x);
    } else {
      var front, last := s[..|s| - 1], s[|s| - 1];
      InsertMap(f, leq, back, front, x);
      MapSnoc(f, front, last);
      assert s == front + [last];
      MapSnoc(f, Insert(back, front, x), last);
      assert Map(f, s)[..|s| - 1] == Map(f, front);
    }
  }

  lemma RepeatsPermute<T>(s: seq<T>, r: seq<T>)
    requires multiset(s) == multiset(r) && NoRepeats(s)
    ensures NoRepeats(r)
  {
    forall i, j | 0 <= i < j < |r| ensures r[i] != r[j] {
      AtMostOnce(s, r[i]);
      assert r == r[..i] + [r[i]] + r[i + 1..j] + [r[j]] + r[j + 1..];
    }
  }

  lemma {:induction false} AtMostOnce<T>(s: seq<T>, x: T)
    requires NoRepeats(s)
    ensures multiset(s)[x] <= 1
  {
    if |s| > 0 {
      AtMostOnce(s[..|s| - 1], x);
      assert s == s[..|s| - 1] + [s[|s| - 1]];
    }
  }

  lemma {:induction false} DistinctSize<T>(s: seq<T>)
    requires NoRepeats(s)
    ensures |set x | x in s| == |s|
  {
    if |s| > 0 {
      var front := s[..|s| - 1];
      DistinctSize(front);
      assert (set x | x in s) == (set x | x in front) + {s[|s| - 1]};
    } else {
      assert (set x | x in s) == {};
    }
  }

  function After<T>(before: (T, T) -> bool, s: seq<T>, g: T): set<T> {
    set h | h in s && before(g, h)
  }

  /** In a list in strict order, an entry is among the last n exactly when fewer than n entries come after it. */
  lemma LastByRank<T(!new)>(before: (T, T) -> bool, s: seq<T>, n: int, g: T)
    requires Sorted(before, s) && (forall x, y :: before(x, y) ==> !before(y, x))
    requires g in s && n > 0
    ensures g in LastOf(s, n) <==> |After(before, s, g)| < n
  {
    var i :| 0 <= i < |s| && s[i] == g;
    var tail := s[i + 1..];
    assert forall a, b | 0 <= a < b < |s| :: before(s[a], s[b]);
    assert NoRepeats(tail);
    DistinctSize(tail);
    assert After(before, s, g) == (set x | x in tail) by {
      forall h ensures h in s && before(g, h) <==> h in tail {
        if h in s && before(g, h) {
          var j :| 0 <= j < |s| && s[j] == h;
          assert j > i;
          assert tail[j - i - 1] == h;
        }
      }
    }
    if n < |s| {
      var last := LastOf(s, n);
      if |tail| < n {
        assert last[n - |s| + i] == g;
      } else {
        forall k | 0 <= k < |last| ensures last[k] != g {
          assert last[k] == s[|s| - n + k];
          assert before(g, last[k]);
        }
      }
    }
  }

  // ------------------------------------------------------------ grouping by key (`groups.setdefault(k, []).append(x)`)

  function Keys<T, K(==)>(key: T -> Option<K>, s: seq<T>): set<K> {
    set i | 0 <= i < |s| && key(s[i]).Some? :: key(s[i]).value
  }

  function WithKey<T, K(==)>(key: T -> Option<K>, s: seq<T>, k: K): seq<T> {
    Filter(x => key(x) == Some(k), s)
  }

  lemma WithKeyMeaning<T(!new), K(!new)>(key: T -> Option<K>, s: seq<T>, k: K)
    ensures forall x :: x in WithKey(key, s, k) <==> x in s && key(x) == Some(k)
  {
    FilterMeaning((x: T) => key(x) == Some(k), s);
  }

  lemma WithKeyDistinct<T(!new), K(!new)>(key: T -> Option<K>, s: seq<T>, k: K)
    requires NoRepeats(s)
    ensures NoRepeats(WithKey(key, s, k))
  {
    FilterDistinct((x: T) => key(x) == Some(k), s);
  }

  lemma WithKeySnoc<T, K>(key: T -> Option<K>, s: seq<T>, x: T, k: K)
    ensures WithKey(key, s + [x], k) == WithKey(key, s, k) + (if key(x) == Some(k) then [x] else [])
  {
    FilterSnoc((y: T) => key(y) == Some(k), s, x);
  }

  lemma WithKeyConcat<T, K>(key: T -> Option<K>, a: seq<T>, b: seq<T>, k: K)
    ensures WithKey(key, a + b, k) == WithKey(key, a, k) + WithKey(key, b, k)
  {
    FilterConcat((y: T) => key(y) == Some(k), a, b);
  }

  /** Elements that all carry key `own`. */
  ghost predicate OneKey<T, K>(key: T -> Option<K>, s: seq<T>, own: K) {
    forall i | 0 <= i < |s| :: key(s[i]) == Some(own)
  }

  lemma {:induction false} WithOneKey<T, K>(key: T -> Option<K>, s: seq<T>, own: K, k: K)
    requires OneKey(key, s, own)
    ensures WithKey(key, s, k) == if k == own then s else []
  {
    if |s| > 0 {
      WithOneKey(key, s[..|s| - 1], own, k);
      assert s == s[..|s| - 1] + [s[|s| - 1]];
      WithKeySnoc(key, s[..|s| - 1], s[|s| - 1], k);
    }
  }

  lemma WithKeyNone<T(!new), K(!new)>(key: T -> Option<K>, s: seq<T>, k: K)
    requires forall x | x in s :: key(x) != Some(k)
    ensures WithKey(key, s, k) == []
  {
    FilterNone((x: T) => key(x) == Some(k), s);
  }

  /** Keys in order of first appearance. */
  function FirstKeys<T, K(==)>(key: T -> Option<K>, s: seq<T>): seq<K> {
    if |s| == 0 then []
    else
      var r, x := FirstKeys(key, s[..|s| - 1]), s[|s| - 1];
      if key(x).Some? && key(x).value !in r then r + [key(x).value] else r
  }

  lemma KeysSnoc<T, K>(key: T -> Option<K>, s: seq<T>, x: T)
    ensures Keys(key, s + [x]) == Keys(key, s) + (if key(x).Some? then {key(x).value} else {})
  {
    forall k | k in Keys(key, s) + (if key(x).Some? then {key(x).value} else {}) ensures k in Keys(key, s + [x]) {
      if key(x) == Some(k) {
        assert (s + [x])[|s|] == x;
      } else {
        var i :| 0 <= i < |s| && key(s[i]) == Some(k);
        assert (s + [x])[i] == s[i];
      }
    }
  }

  lemma {:induction false} FirstKeysMeaning<T, K>(key: T -> Option<K>, s: seq<T>)
    ensures NoRepeats(FirstKeys(key, s))
    ensures forall k :: k in FirstKeys(key, s) <==> k in Keys(key, s)
  {
    if |s| > 0 {
      FirstKeysMeaning(key, s[..|s| - 1]);
      assert s == s[..|s| - 1] + [s[|s| - 1]];
      KeysSnoc(key, s[..|s| - 1], s[|s| - 1]);
    }
  }

  ghost predicate GroupedBy<T, K>(key: T -> Option<K>, s: seq<T>, groups: map<K, seq<T>>) {
    && groups.Keys == Keys(key, s)
    && forall k | k in groups :: groups[k] == WithKey(key, s, k)
  }

  lemma GroupedStep<T(!new), K(!new)>(key: T -> Option<K>, s: seq<T>, groups: map<K, seq<T>>, x: T)
    requires GroupedBy(key, s, groups)
    ensures key(x) == None ==> GroupedBy(key, s + [x], groups)
    ensures key(x).Some? ==>
              GroupedBy(key, s + [x],
                        groups[key(x).value := (if key(x).value in groups then groups[key(x).value] else []) + [x]])
  {
    KeysSnoc(key, s, x);
    forall k ensures WithKey(key, s + [x], k) == WithKey(key, s, k) + (if key(x) == Some(k) then [x] else []) {
      WithKeySnoc(key, s, x, k);
    }
    if key(x).Some? && key(x).value !in groups {
      var k := key(x).value;
      forall y | y in s ensures key(y) != Some(k) {
        var i :| 0 <= i < |s| && s[i] == y;
      }
      WithKeyNone(key, s, k);
    }
  }

  method GroupBy<T(!new), K(!new)>(key: T -> Option<K>, s: seq<T>) returns (order: seq<K>, groups: map<K, seq<T>>)
    ensures order == FirstKeys(key, s) && GroupedBy(key, s, groups)
    ensures forall k :: k in order <==> k in groups
  {
    groups := map[];
    order := [];
    for i := 0 to |s|
      invariant order == FirstKeys(key, s[..i])
      invariant GroupedBy(key, s[..i], groups)
    {
      var x := s[i];
      assert s[..i + 1] == s[..i] + [x];
      GroupedStep(key, s[..i], groups, x);
      FirstKeysMeaning(key, s[..i]);
      if key(x).Some? {
        var k := key(x).value;
        if k !in groups {
          order := order + [k];
        }
        groups := groups[k := (if k in groups then groups[k] else []) + [x]];
      }
    }
    assert s[..|s|] == s;
    FirstKeysMeaning(key, s);
  }
}
