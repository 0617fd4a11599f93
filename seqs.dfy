/** List operations of the Kotlin standard library used by the core, on Dafny sequences. */
module Seqs {
  import opened Wrappers

  /** `filter { p(it) }`. */
  function Filter<T>(s: seq<T>, p: T -> bool): (r: seq<T>)
    ensures |r| <= |s|
    ensures forall i :: 0 <= i < |r| ==> r[i] in s && p(r[i])
    ensures forall i :: 0 <= i < |s| && p(s[i]) ==> s[i] in r
    ensures multiset(r) <= multiset(s)
  {
    if s == [] then []
    else
      var t := s[1..];
      var h := if p(s[0]) then [s[0]] else [];
      assert s == [s[0]] + t;
      assert multiset(h) <= multiset([s[0]]);
      h + Filter(t, p)
  }

  /** `r` is `s` with some elements left out, the rest in their order in `s`. */
  predicate IsSubsequence<T(==)>(r: seq<T>, s: seq<T>)
    decreases |s|
  {
    r == [] ||
    (s != [] && ((r[0] == s[0] && IsSubsequence(r[1..], s[1..])) || IsSubsequence(r, s[1..])))
  }

  /** `filter` keeps the elements it keeps in their original order. */
  lemma {:induction false} FilterSubsequence<T>(s: seq<T>, p: T -> bool)
    ensures IsSubsequence(Filter(s, p), s)
  {
    if s != [] {
      FilterSubsequence(s[1..], p);
      var r := Filter(s, p);
      if p(s[0]) {
        assert r[0] == s[0] && r[1..] == Filter(s[1..], p);
      } else {
        assert r == Filter(s[1..], p);
      }
    }
  }

  lemma {:induction false} FilterAppend<T>(s: seq<T>, t: seq<T>, p: T -> bool)
    ensures Filter(s + t, p) == Filter(s, p) + Filter(t, p)
  {
    if s == [] {
      assert s + t == t;
    } else {
      assert (s + t)[1..] == s[1..] + t;
      FilterAppend(s[1..], t, p);
    }
  }

  /** A prefix one longer is the prefix plus the next element. */
  lemma TakeSnoc<T>(s: seq<T>, i: int)
    requires 0 <= i < |s|
    ensures s[..i + 1] == s[..i] + [s[i]]
  {
  }

  lemma FilterSnoc<T>(s: seq<T>, x: T, p: T -> bool)
    ensures Filter(s + [x], p) == Filter(s, p) + (if p(x) then [x] else [])
  {
    FilterAppend(s, [x], p);
  }

  /** Every element of `Filter(s, p)` satisfies `p`; an element only ever appears in the filter of a list it is in. */
  lemma {:induction false} FilterAll<T>(s: seq<T>, p: T -> bool)
    requires forall i :: 0 <= i < |s| ==> p(s[i])
    ensures Filter(s, p) == s
  {
    if s != [] {
      FilterAll(s[1..], p);
    }
  }

  lemma {:induction false} FilterNone<T>(s: seq<T>, p: T -> bool)
    requires forall i :: 0 <= i < |s| ==> !p(s[i])
    ensures Filter(s, p) == []
  {
    if s != [] {
      FilterNone(s[1..], p);
    }
  }

  /** No element occurs twice. */
  ghost predicate NoDup<T>(s: seq<T>) {
    s == [] || (s[0] !in s[1..] && NoDup(s[1..]))
  }

  lemma {:induction false} NoDupIndex<T>(s: seq<T>, i: int, j: int)
    requires NoDup(s) && 0 <= i < j < |s|
    ensures s[i] != s[j]
  {
    if i == 0 {
      assert s[j] == s[1..][j - 1];
    } else {
      NoDupIndex(s[1..], i - 1, j - 1);
    }
  }

  lemma {:induction false} NoDupSnoc<T>(s: seq<T>, x: T)
    requires NoDup(s) && x !in s
    ensures NoDup(s + [x])
  {
    if s != [] {
      assert (s + [x])[1..] == s[1..] + [x];
      NoDupSnoc(s[1..], x);
    }
  }

  lemma {:induction false} NoDupAppend<T>(a: seq<T>, b: seq<T>)
    requires NoDup(a) && NoDup(b)
    requires forall x :: x in a ==> x !in b
    ensures NoDup(a + b)
  {
    if a != [] {
      assert (a + b)[1..] == a[1..] + b;
      NoDupAppend(a[1..], b);
      assert a[0] in a && (a + b)[0] == a[0];
      assert a[0] !in a[1..] + b;
    } else {
      assert a + b == b;
    }
  }

  lemma {:induction false} FilterNoDup<T>(s: seq<T>, p: T -> bool)
    requires NoDup(s)
    ensures NoDup(Filter(s, p))
  {
    if s != [] {
      var t := Filter(s[1..], p);
      FilterNoDup(s[1..], p);
      assert s[0] !in t;
      if p(s[0]) {
        assert ([s[0]] + t)[1..] == t;
      } else {
        assert [] + t == t;
      }
    }
  }

  /** `indexOf(x)`: the first index of `x`, or -1. */
  function IndexOf<T(==)>(s: seq<T>, x: T): (r: int)
    ensures -1 <= r < |s|
    ensures r == -1 <==> x !in s
    ensures 0 <= r ==> s[r] == x
  {
    if s == [] then -1
    else if s[0] == x then 0
    else var k := IndexOf(s[1..], x); if k == -1 then -1 else k + 1
  }

  /** No occurrence comes before the one `IndexOf` finds. */
  lemma {:induction false} IndexOfFirst<T>(s: seq<T>, x: T)
    ensures forall j :: 0 <= j < IndexOf(s, x) ==> s[j] != x
  {
    if s != [] && s[0] != x {
      IndexOfFirst(s[1..], x);
      assert forall j :: 0 < j < |s| ==> s[j] == s[1..][j - 1];
    }
  }

  /** An occurrence with none before it is the one `IndexOf` finds. */
  lemma IndexOfAt<T>(s: seq<T>, x: T, k: int)
    requires 0 <= k < |s| && s[k] == x
    requires forall j :: 0 <= j < k ==> s[j] != x
    ensures IndexOf(s, x) == k
  {
    IndexOfFirst(s, x);
  }

  /** Appending after an occurrence does not move the first occurrence. */
  lemma IndexOfAppend<T>(a: seq<T>, b: seq<T>, x: T)
    requires x in a
    ensures IndexOf(a + b, x) == IndexOf(a, x)
  {
    var k := IndexOf(a, x);
    IndexOfFirst(a, x);
    assert forall j :: 0 <= j <= k ==> (a + b)[j] == a[j];
    IndexOfAt(a + b, x, k);
  }

  lemma AppendAssoc<T>(x: seq<T>, y: seq<T>, z: seq<T>)
    ensures x + (y + z) == (x + y) + z
  {
  }

  /** Slicing a concatenation inside its first part. */
  lemma SliceAppend<T>(a: seq<T>, b: seq<T>, k: int)
    requires 0 <= k <= |a|
    ensures (a + b)[..k] == a[..k]
    ensures (a + b)[k..] == a[k..] + b
  {
  }

  /** `MutableList.remove(x)`: drops the first occurrence of `x`, if any. */
  function RemoveFirst<T(==)>(s: seq<T>, x: T): (r: seq<T>)
    ensures x !in s ==> r == s
    ensures x in s ==> |r| == |s| - 1
  {
    if s == [] then []
    else if s[0] == x then s[1..]
    else
      assert s == [s[0]] + s[1..];
      [s[0]] + RemoveFirst(s[1..], x)
  }

  /** What `RemoveFirst` leaves: everything before the first occurrence of `x` and everything after it. */
  lemma {:induction false} RemoveFirstAt<T>(s: seq<T>, x: T)
    requires x in s
    ensures RemoveFirst(s, x) == s[..IndexOf(s, x)] + s[IndexOf(s, x) + 1..]
  {
    var t := s[1..];
    if s[0] == x {
      assert IndexOf(s, x) == 0;
      assert s[..0] + s[1..] == t;
    } else {
      assert x in t by { assert s == [s[0]] + t; }
      var k := IndexOf(t, x);
      assert IndexOf(s, x) == k + 1;
      assert RemoveFirst(s, x) == [s[0]] + RemoveFirst(t, x);
      assert RemoveFirst(t, x) == t[..k] + t[k + 1..] by {
        RemoveFirstAt(t, x);
      }
      ConsSlices(s, k);
    }
  }

  /** Putting the head back in front of a tail with one element cut out. */
  lemma ConsSlices<T>(s: seq<T>, k: int)
    requires 0 <= k < |s| - 1
    ensures [s[0]] + (s[1..][..k] + s[1..][k + 1..]) == s[..k + 1] + s[k + 2..]
  {
    assert s[..k + 1] == [s[0]] + s[1..][..k];
    assert s[k + 2..] == s[1..][k + 1..];
  }

  /** Removing the first occurrence takes exactly one copy of `x` away, or nothing when there is none. */
  lemma {:induction false} RemoveFirstMultiset<T>(s: seq<T>, x: T)
    ensures multiset(RemoveFirst(s, x)) == multiset(s) - multiset{x}
  {
    if s != [] {
      var t := s[1..];
      assert multiset(s) == multiset{s[0]} + multiset(t) by {
        assert s == [s[0]] + t;
      }
      if s[0] != x {
        RemoveFirstMultiset(t, x);
        assert multiset(RemoveFirst(s, x)) == multiset{s[0]} + multiset(RemoveFirst(t, x));
      }
    }
  }

  /** Two positions holding the same element make it occur at least twice. */
  lemma PairCount<T>(s: seq<T>, i: int, j: int)
    requires 0 <= i < j < |s|
    ensures s[i] == s[j] ==> multiset(s)[s[i]] >= 2
  {
    if s[i] == s[j] {
      assert s == s[..j] + s[j..];
      assert s[i] in s[..j] && s[j] in s[j..];
      assert multiset(s)[s[i]] == multiset(s[..j])[s[i]] + multiset(s[j..])[s[i]];
    }
  }

  /** On a list without duplicates, removing the first occurrence removes the element altogether. */
  lemma {:induction false} RemoveFirstNoDup<T>(s: seq<T>, x: T)
    requires NoDup(s)
    ensures NoDup(RemoveFirst(s, x))
    ensures x !in RemoveFirst(s, x)
    ensures multiset(RemoveFirst(s, x)) == multiset(s) - multiset{x}
  {
    RemoveFirstMultiset(s, x);
    if s != [] {
      var t := s[1..];
      RemoveFirstNoDup(t, x);
      if s[0] != x {
        var r := RemoveFirst(t, x);
        assert s[0] !in r by {
          assert s[0] !in multiset(t);
        }
        assert ([s[0]] + r)[1..] == r;
      }
    }
  }

  /** `toSet()` / `distinct()`: the first occurrence of every element, in order (a LinkedHashSet). */
  function Dedupe<T(==)>(s: seq<T>): (r: seq<T>)
    ensures forall i :: 0 <= i < |r| ==> r[i] in s
    ensures forall i :: 0 <= i < |s| ==> s[i] in r
    ensures |r| <= |s|
    decreases |s|
  {
    if s == [] then []
    else
      var d := Dedupe(s[..|s| - 1]);
      assert forall i :: 0 <= i < |s| - 1 ==> s[i] == s[..|s| - 1][i];
      if s[|s| - 1] in d then d else d + [s[|s| - 1]]
  }

  lemma {:induction false} DedupeNoDup<T>(s: seq<T>)
    ensures NoDup(Dedupe(s))
    decreases |s|
  {
    if s != [] {
      var d := Dedupe(s[..|s| - 1]);
      DedupeNoDup(s[..|s| - 1]);
      if s[|s| - 1] !in d {
        NoDupSnoc(d, s[|s| - 1]);
      }
    }
  }

  lemma {:induction false} DedupeOfNoDup<T>(s: seq<T>)
    requires NoDup(s)
    ensures Dedupe(s) == s
    decreases |s|
  {
    if s != [] {
      var init := s[..|s| - 1];
      NoDupInit(s);
      DedupeOfNoDup(init);
      assert init + [s[|s| - 1]] == s;
    }
  }

  lemma {:induction false} NoDupInit<T>(s: seq<T>)
    requires NoDup(s) && s != []
    ensures NoDup(s[..|s| - 1]) && s[|s| - 1] !in s[..|s| - 1]
  {
    if |s| > 1 {
      var t := s[1..];
      NoDupInit(t);
      assert t[..|t| - 1] == s[..|s| - 1][1..];
      assert s[..|s| - 1] == [s[0]] + t[..|t| - 1];
      assert s[|s| - 1] == t[|t| - 1];
      assert s[0] != s[|s| - 1];
    }
  }

  lemma DedupeSnoc<T>(s: seq<T>, x: T)
    ensures Dedupe(s + [x]) == if x in Dedupe(s) then Dedupe(s) else Dedupe(s) + [x]
  {
    assert (s + [x])[..|s + [x]| - 1] == s;
  }

  /** `mapNotNull { f(it) }`. */
  function MapNotNull<T, U>(s: seq<T>, f: T -> Option<U>): (r: seq<U>)
    ensures |r| <= |s|
  {
    if s == [] then []
    else OptionList(f(s[0])) + MapNotNull(s[1..], f)
  }

  /** Every element `mapNotNull` keeps is what `f` gave for some element of the input. */
  lemma {:induction false} MapNotNullSources<T, U>(s: seq<T>, f: T -> Option<U>)
    ensures forall i :: 0 <= i < |MapNotNull(s, f)| ==> exists x :: x in s && f(x) == Some(MapNotNull(s, f)[i])
  {
    if s != [] {
      MapNotNullSources(s[1..], f);
      var r, h, t := MapNotNull(s, f), OptionList(f(s[0])), MapNotNull(s[1..], f);
      assert r == h + t;
      forall i | 0 <= i < |r| ensures exists x :: x in s && f(x) == Some(r[i]) {
        if i < |h| {
          assert f(s[0]) == Some(r[i]);
        } else {
          assert r[i] == t[i - |h|];
          var x :| x in s[1..] && f(x) == Some(t[i - |h|]);
          assert x in s;
        }
      }
    } else {
      assert MapNotNull(s, f) == [];
    }
  }

  /** `listOfNotNull(o)`. */
  function OptionList<U>(o: Option<U>): seq<U> {
    match o
    case Some(v) => [v]
    case None => []
  }

  lemma {:induction false} MapNotNullAppend<T, U>(s: seq<T>, t: seq<T>, f: T -> Option<U>)
    ensures MapNotNull(s + t, f) == MapNotNull(s, f) + MapNotNull(t, f)
  {
    if s == [] {
      assert s + t == t;
    } else {
      var st := s + t;
      assert st[0] == s[0];
      assert st[1..] == s[1..] + t;
      MapNotNullAppend(s[1..], t, f);
      calc {
        MapNotNull(st, f);
        OptionList(f(s[0])) + MapNotNull(s[1..] + t, f);
        OptionList(f(s[0])) + (MapNotNull(s[1..], f) + MapNotNull(t, f));
      }
    }
  }

  /** `map { f(it) }`. */
  function Map<T, U>(s: seq<T>, f: T -> U): (r: seq<U>)
    ensures |r| == |s|
    ensures forall i :: 0 <= i < |s| ==> r[i] == f(s[i])
  {
    seq(|s|, i requires 0 <= i < |s| => f(s[i]))
  }

  /** Keeping what `parse` accepts of what `show` wrote gives the list back when `parse` inverts `show`. */
  lemma {:induction false} MapNotNullInverse<T, U>(s: seq<T>, show: T -> U, parse: U -> Option<T>)
    requires forall x :: parse(show(x)) == Some(x)
    ensures MapNotNull(Map(s, show), parse) == s
  {
    if s != [] {
      var ts := Map(s, show);
      assert ts[1..] == Map(s[1..], show);
      MapNotNullInverse(s[1..], show, parse);
      assert OptionList(parse(ts[0])) == [s[0]];
      assert s == [s[0]] + s[1..];
    }
  }

  /** `sumOf { f(it) }`. */
  function SumOf<T>(s: seq<T>, f: T -> int): int {
    if s == [] then 0 else f(s[0]) + SumOf(s[1..], f)
  }

  /** `firstOrNull { p(it) }`. */
  function FirstWhere<T>(s: seq<T>, p: T -> bool): (r: Option<T>)
    ensures r.None? <==> forall i :: 0 <= i < |s| ==> !p(s[i])
    ensures r.Some? ==> exists i :: 0 <= i < |s| && s[i] == r.value && p(s[i]) &&
                                   forall j :: 0 <= j < i ==> !p(s[j])
  {
    if s == [] then None
    else if p(s[0]) then Some(s[0])
    else
      var r := FirstWhere(s[1..], p);
      assert r.Some? ==> exists i :: 0 <= i < |s| - 1 && s[1..][i] == r.value && p(s[1..][i]) &&
                                       forall j :: 0 <= j < i ==> !p(s[1..][j]);
      r
  }

  /** `reverse()`. */
  function Reverse<T>(s: seq<T>): (r: seq<T>)
    ensures |r| == |s|
    ensures forall i :: 0 <= i < |s| ==> r[i] == s[|s| - 1 - i]
  {
    seq(|s|, i requires 0 <= i < |s| => s[|s| - 1 - i])
  }

  lemma ReverseMultiset<T>(s: seq<T>)
    ensures multiset(Reverse(s)) == multiset(s)
    decreases |s|
  {
    if s != [] {
      var r := Reverse(s);
      ReverseMultiset(s[1..]);
      assert r == Reverse(s[1..]) + [s[0]];
      assert s == [s[0]] + s[1..];
    }
  }
}
