/**
 * Kotlin's `sortBy { key }` and `sortByDescending { key }`: a stable sort by a selector
 * whose values are compared with their natural order (numbers, or strings by `compareTo`).
 */
module Ordering {
  import opened Seqs
  import Text

  /** A selector value: the screens sort by `Long`/`Int` fields or by strings. */
  datatype Key = IntKey(n: int) | StrKey(s: string)

  /** The natural order of selector values (an `IntKey` first when the two kinds are mixed, which no caller does). */
  predicate KeyLt(a: Key, b: Key) {
    match (a, b)
    case (IntKey(x), IntKey(y)) => x < y
    case (StrKey(x), StrKey(y)) => Text.StrLt(x, y)
    case (IntKey(_), StrKey(_)) => true
    case (StrKey(_), IntKey(_)) => false
  }

  lemma KeyLtIrreflexive(a: Key)
    ensures !KeyLt(a, a)
  {
    if a.StrKey? { Text.StrLtIrreflexive(a.s); }
  }

  lemma KeyLtTransitive(a: Key, b: Key, c: Key)
    requires KeyLt(a, b) && KeyLt(b, c)
    ensures KeyLt(a, c)
  {
    if a.StrKey? { Text.StrLtTransitive(a.s, b.s, c.s); }
  }

  lemma KeyLtTotal(a: Key, b: Key)
    ensures KeyLt(a, b) || a == b || KeyLt(b, a)
  {
    if a.StrKey? && b.StrKey? { Text.StrLtTotal(a.s, b.s); }
  }

  /** In a sort that is ascending (`desc == false`) or descending, `a` must come strictly before `b`. */
  predicate Before(a: Key, b: Key, desc: bool) {
    if desc then KeyLt(b, a) else KeyLt(a, b)
  }

  lemma BeforeAsymmetric(a: Key, b: Key, desc: bool)
    requires Before(a, b, desc)
    ensures !Before(b, a, desc)
  {
    if Before(b, a, desc) {
      KeyLtTransitive(a, b, a);
      KeyLtTransitive(b, a, b);
      KeyLtIrreflexive(a);
    }
  }

  /** "May precede" is transitive. */
  lemma NotBeforeTransitive(a: Key, b: Key, c: Key, desc: bool)
    requires !Before(b, a, desc) && !Before(c, b, desc)
    ensures !Before(c, a, desc)
  {
    KeyLtTotal(a, b);
    KeyLtTotal(b, c);
    KeyLtIrreflexive(a);
    if a != b && b != c {
      if desc { KeyLtTransitive(c, b, a); } else { KeyLtTransitive(a, b, c); }
      if desc { BeforeAsymmetric(a, c, desc); } else { BeforeAsymmetric(a, c, desc); }
    } else if a != b {
      if desc { BeforeAsymmetric(a, b, desc); } else { BeforeAsymmetric(a, b, desc); }
    } else if b != c {
      if desc { BeforeAsymmetric(b, c, desc); } else { BeforeAsymmetric(b, c, desc); }
    }
  }

  /** No element is followed by one that should have come before it. */
  ghost predicate SortedBy<T>(s: seq<T>, key: T -> Key, desc: bool) {
    forall i, j :: 0 <= i < j < |s| ==> !Before(key(s[j]), key(s[i]), desc)
  }

  /** Places `x` in front of the first element that `x` does not have to follow. */
  function Insert<T>(x: T, t: seq<T>, key: T -> Key, desc: bool): (r: seq<T>)
    ensures multiset(r) == multiset(t) + multiset{x}
    ensures |r| == |t| + 1
  {
    if t == [] then [x]
    else if Before(key(t[0]), key(x), desc) then
      assert t == [t[0]] + t[1..];
      [t[0]] + Insert(x, t[1..], key, desc)
    else [x] + t
  }

  /** `sortBy { key }` (`desc == false`) or `sortByDescending { key }`; stable. */
  function SortBy<T>(s: seq<T>, key: T -> Key, desc: bool): (r: seq<T>)
    ensures multiset(r) == multiset(s)
    ensures |r| == |s|
  {
    if s == [] then []
    else
      assert s == [s[0]] + s[1..];
      Insert(s[0], SortBy(s[1..], key, desc), key, desc)
  }

  lemma SortedTail<T>(t: seq<T>, key: T -> Key, desc: bool)
    requires t != [] && SortedBy(t, key, desc)
    ensures SortedBy(t[1..], key, desc)
  {
    forall i, j | 0 <= i < j < |t| - 1 ensures !Before(key(t[1..][j]), key(t[1..][i]), desc) {
      assert t[1..][i] == t[i + 1] && t[1..][j] == t[j + 1];
    }
  }

  /** The head that `x` had to follow stays in front of the sorted insertion into the tail. */
  lemma SortedAfterHead<T>(x: T, t: seq<T>, u: seq<T>, key: T -> Key, desc: bool)
    requires t != [] && Before(key(t[0]), key(x), desc) && SortedBy(t, key, desc)
    requires SortedBy(u, key, desc) && multiset(u) == multiset(t[1..]) + multiset{x}
    ensures SortedBy([t[0]] + u, key, desc)
  {
    var r := [t[0]] + u;
    forall j | 0 <= j < |u| ensures !Before(key(u[j]), key(t[0]), desc) {
      assert u[j] in multiset(u);
      if u[j] == x {
        BeforeAsymmetric(key(t[0]), key(x), desc);
      } else {
        assert u[j] in multiset(t[1..]);
        var k :| 0 <= k < |t| - 1 && t[1..][k] == u[j];
        assert t[k + 1] == u[j];
      }
    }
    forall i, j | 0 <= i < j < |r| ensures !Before(key(r[j]), key(r[i]), desc) {
      if i == 0 { assert r[j] == u[j - 1]; } else { assert r[i] == u[i - 1] && r[j] == u[j - 1]; }
    }
  }

  /** An element that need not follow the head of a sorted list may go in front of it. */
  lemma SortedAtFront<T>(x: T, t: seq<T>, key: T -> Key, desc: bool)
    requires SortedBy(t, key, desc) && (t != [] ==> !Before(key(t[0]), key(x), desc))
    ensures SortedBy([x] + t, key, desc)
  {
    var r := [x] + t;
    forall i, j | 0 <= i < j < |r| ensures !Before(key(r[j]), key(r[i]), desc) {
      if i == 0 {
        assert r[j] == t[j - 1];
        if j > 1 { NotBeforeTransitive(key(x), key(t[0]), key(t[j - 1]), desc); }
      } else {
        assert r[i] == t[i - 1] && r[j] == t[j - 1];
      }
    }
  }

  lemma {:induction false} InsertSorted<T>(x: T, t: seq<T>, key: T -> Key, desc: bool)
    requires SortedBy(t, key, desc)
    ensures SortedBy(Insert(x, t, key, desc), key, desc)
  {
    if t != [] && Before(key(t[0]), key(x), desc) {
      SortedTail(t, key, desc);
      InsertSorted(x, t[1..], key, desc);
      SortedAfterHead(x, t, Insert(x, t[1..], key, desc), key, desc);
    } else {
      SortedAtFront(x, t, key, desc);
    }
  }

  /** `SortBy` sorts. */
  lemma {:induction false} SortBySorted<T>(s: seq<T>, key: T -> Key, desc: bool)
    ensures SortedBy(SortBy(s, key, desc), key, desc)
  {
    if s != [] {
      SortBySorted(s[1..], key, desc);
      InsertSorted(s[0], SortBy(s[1..], key, desc), key, desc);
    }
  }

  /** `filter { key(it) == k }`: the elements whose key equals `k`, in their order. */
  function WithKey<T>(s: seq<T>, key: T -> Key, k: Key): seq<T> {
    if s == [] then [] else (if key(s[0]) == k then [s[0]] else []) + WithKey(s[1..], key, k)
  }

  lemma {:induction false} InsertStable<T>(x: T, t: seq<T>, key: T -> Key, desc: bool, k: Key)
    ensures WithKey(Insert(x, t, key, desc), key, k) ==
            (if key(x) == k then [x] else []) + WithKey(t, key, k)
  {
    var r := Insert(x, t, key, desc);
    if t == [] {
      assert r[1..] == [];
    } else if Before(key(t[0]), key(x), desc) {
      InsertStable(x, t[1..], key, desc, k);
      var u := Insert(x, t[1..], key, desc);
      assert r[0] == t[0] && r[1..] == u;
      if key(x) == k {
        KeyLtIrreflexive(key(x));
      }
      WithKeySkip(x, r, t, u, key, k);
    } else {
      assert r[0] == x && r[1..] == t;
    }
  }

  /** The step of `InsertStable` where `x` goes past the head `t[0]`, whose key differs from `x`'s when `x`'s is `k`. */
  lemma WithKeySkip<T>(x: T, r: seq<T>, t: seq<T>, u: seq<T>, key: T -> Key, k: Key)
    requires r != [] && t != [] && r[0] == t[0] && r[1..] == u
    requires key(x) == k ==> key(t[0]) != k
    requires WithKey(u, key, k) == (if key(x) == k then [x] else []) + WithKey(t[1..], key, k)
    ensures WithKey(r, key, k) == (if key(x) == k then [x] else []) + WithKey(t, key, k)
  {
    var a := if key(x) == k then [x] else [];
    var w := WithKey(t[1..], key, k);
    if key(x) == k {
      assert WithKey(r, key, k) == a + w;
      assert WithKey(t, key, k) == w;
    } else {
      assert a + WithKey(t, key, k) == WithKey(t, key, k);
    }
  }

  /**
   * Stability: for every key, the elements carrying it keep their original relative order,
   * so `sortBy` never reorders songs that tie on the selector.
   */
  lemma {:induction false} SortByStable<T>(s: seq<T>, key: T -> Key, desc: bool, k: Key)
    ensures WithKey(SortBy(s, key, desc), key, k) == WithKey(s, key, k)
  {
    if s != [] {
      SortByStable(s[1..], key, desc, k);
      InsertStable(s[0], SortBy(s[1..], key, desc), key, desc, k);
    }
  }

  /** A list that is already in order is left as it is. */
  lemma {:induction false} SortBySortedIdentity<T>(s: seq<T>, key: T -> Key, desc: bool)
    requires SortedBy(s, key, desc)
    ensures SortBy(s, key, desc) == s
  {
    if s != [] {
      assert SortedBy(s[1..], key, desc) by {
        forall i, j | 0 <= i < j < |s| - 1 ensures !Before(key(s[1..][j]), key(s[1..][i]), desc) {
          assert s[1..][i] == s[i + 1] && s[1..][j] == s[j + 1];
        }
      }
      SortBySortedIdentity(s[1..], key, desc);
      var t := s[1..];
      if t != [] {
        assert !Before(key(t[0]), key(s[0]), desc) by { assert t[0] == s[1]; }
      }
      assert [s[0]] + t == s;
    }
  }

  /** Filtering a sorted list leaves it sorted: the sorted list can be filtered by the search query afterwards. */
  lemma {:induction false} FilterSorted<T>(s: seq<T>, p: T -> bool, key: T -> Key, desc: bool)
    requires SortedBy(s, key, desc)
    ensures SortedBy(Filter(s, p), key, desc)
  {
    if s != [] {
      SortedTail(s, key, desc);
      FilterSorted(s[1..], p, key, desc);
      if p(s[0]) {
        var f := Filter(s[1..], p);
        if f != [] {
          var m :| 0 <= m < |s| - 1 && s[1..][m] == f[0];
          assert s[m + 1] == f[0];
        }
        SortedAtFront(s[0], f, key, desc);
      }
    }
  }

  /** `reversed()` of a list sorted one way is sorted the other way. */
  lemma ReverseSorted<T>(s: seq<T>, key: T -> Key, desc: bool)
    requires SortedBy(s, key, desc)
    ensures SortedBy(Reverse(s), key, !desc)
  {
    var r := Reverse(s);
    forall i, j | 0 <= i < j < |r| ensures !Before(key(r[j]), key(r[i]), !desc) {
      assert r[i] == s[|s| - 1 - i] && r[j] == s[|s| - 1 - j];
    }
  }

  /** The elements with key `k` of a list with one more element at the end. */
  lemma {:induction false} WithKeySnoc<T>(s: seq<T>, x: T, key: T -> Key, k: Key)
    ensures WithKey(s + [x], key, k) == WithKey(s, key, k) + (if key(x) == k then [x] else [])
  {
    if s != [] {
      assert (s + [x])[1..] == s[1..] + [x];
      WithKeySnoc(s[1..], x, key, k);
    } else {
      assert s + [x] == [x];
    }
  }

  /** Reversing a list reverses, for every key, the order of the elements carrying it. */
  lemma {:induction false} WithKeyReverse<T>(s: seq<T>, key: T -> Key, k: Key)
    ensures WithKey(Reverse(s), key, k) == Reverse(WithKey(s, key, k))
  {
    if s != [] {
      var c := if key(s[0]) == k then [s[0]] else [];
      var w := WithKey(s[1..], key, k);
      assert Reverse(s) == Reverse(s[1..]) + [s[0]];
      WithKeySnoc(Reverse(s[1..]), s[0], key, k);
      WithKeyReverse(s[1..], key, k);
      assert Reverse(c + w) == Reverse(w) + c;
    }
  }
}
