/**
 * Grouping a list by a string key into an insertion-ordered map (Kotlin's `mutableMapOf`,
 * a LinkedHashMap): the keys in order of first appearance, each with the elements that carry it.
 * The album, artist and year groupings of the library screens are instances.
 */
module Grouping {
  import opened Wrappers
  import opened Seqs

  /** The distinct keys, in the order in which they first appear. */
  function GroupKeys<T>(s: seq<T>, key: T -> string): (r: seq<string>)
    ensures forall i :: 0 <= i < |s| ==> key(s[i]) in r
  {
    Dedupe(Map(s, key))
  }

  /** Every listed key is the key of some element. */
  lemma GroupKeysOrigin<T>(s: seq<T>, key: T -> string, j: int)
    requires 0 <= j < |GroupKeys(s, key)|
    ensures exists i :: 0 <= i < |s| && key(s[i]) == GroupKeys(s, key)[j]
  {
    var ks := Map(s, key);
    assert GroupKeys(s, key)[j] in ks;
  }

  /** The test "has key `k`". */
  function KeyIs<T>(key: T -> string, k: string): T -> bool {
    x => key(x) == k
  }

  /** The elements whose key is `k`, in list order. */
  function Members<T>(s: seq<T>, key: T -> string, k: string): (r: seq<T>)
    ensures forall i :: 0 <= i < |r| ==> key(r[i]) == k
  {
    Filter(s, KeyIs(key, k))
  }

  /** No key is listed twice, so the group names are pairwise distinct. */
  lemma GroupKeysDistinct<T>(s: seq<T>, key: T -> string)
    ensures NoDup(GroupKeys(s, key))
  {
    DedupeNoDup(Map(s, key));
  }

  lemma GroupKeysSnoc<T>(s: seq<T>, x: T, key: T -> string)
    ensures GroupKeys(s + [x], key) ==
            if key(x) in GroupKeys(s, key) then GroupKeys(s, key) else GroupKeys(s, key) + [key(x)]
  {
    assert Map(s + [x], key) == Map(s, key) + [key(x)];
    DedupeSnoc(Map(s, key), key(x));
  }

  lemma MembersSnoc<T>(s: seq<T>, x: T, key: T -> string, k: string)
    ensures Members(s + [x], key, k) == Members(s, key, k) + (if key(x) == k then [x] else [])
  {
    FilterSnoc(s, x, KeyIs(key, k));
  }

  /** A key that is not listed has no members. */
  lemma MembersOfAbsentKey<T>(s: seq<T>, key: T -> string, k: string)
    requires k !in GroupKeys(s, key)
    ensures Members(s, key, k) == []
  {
    FilterNone(s, KeyIs(key, k));
  }

  /** A key with members is listed. */
  lemma MembersListed<T>(s: seq<T>, key: T -> string, k: string)
    requires Members(s, key, k) != []
    ensures k in GroupKeys(s, key)
  {
    if k !in GroupKeys(s, key) {
      MembersOfAbsentKey(s, key, k);
    }
  }

  /** One more element: the keys grow by its key exactly when that key had no members before. */
  lemma GroupKeysNext<T>(s: seq<T>, key: T -> string, i: int)
    requires 0 <= i < |s|
    ensures GroupKeys(s[..i + 1], key) ==
            if Members(s[..i], key, key(s[i])) != [] then GroupKeys(s[..i], key) else GroupKeys(s[..i], key) + [key(s[i])]
  {
    var prefix, k := s[..i], key(s[i]);
    TakeSnoc(s, i);
    GroupKeysSnoc(prefix, s[i], key);
    if Members(prefix, key, k) != [] {
      MembersListed(prefix, key, k);
    } else if k in GroupKeys(prefix, key) {
      var j :| 0 <= j < |GroupKeys(prefix, key)| && GroupKeys(prefix, key)[j] == k;
      MembersOfKey(prefix, key, j);
    }
  }

  /** Every listed key has at least one member. */
  lemma MembersOfKey<T>(s: seq<T>, key: T -> string, j: int)
    requires 0 <= j < |GroupKeys(s, key)|
    ensures Members(s, key, GroupKeys(s, key)[j]) != []
  {
    var k := GroupKeys(s, key)[j];
    var i :| 0 <= i < |s| && key(s[i]) == k;
    assert s[i] in Members(s, key, k);
  }

  /** Each element belongs to the group of its own key and to no other. */
  lemma GroupPartition<T>(s: seq<T>, key: T -> string, i: int, k: string)
    requires 0 <= i < |s|
    ensures s[i] in Members(s, key, k) <==> key(s[i]) == k
  {
  }

  /** The first member of a group is the first element of the list with that key. */
  lemma MembersHead<T>(s: seq<T>, key: T -> string, k: string)
    requires Members(s, key, k) != []
    ensures Some(Members(s, key, k)[0]) == FirstWhere(s, KeyIs(key, k))
  {
    MembersHeadFilter(s, KeyIs(key, k));
  }

  lemma {:induction false} MembersHeadFilter<T>(s: seq<T>, p: T -> bool)
    requires Filter(s, p) != []
    ensures Some(Filter(s, p)[0]) == FirstWhere(s, p)
  {
    if !p(s[0]) {
      MembersHeadFilter(s[1..], p);
    }
  }

  /** The sizes of the groups listed in `ks`, added up. */
  function TotalSize<T>(s: seq<T>, key: T -> string, ks: seq<string>): int {
    if ks == [] then 0 else |Members(s, key, ks[0])| + TotalSize(s, key, ks[1..])
  }

  lemma {:induction false} TotalSizeSnoc<T>(s: seq<T>, key: T -> string, ks: seq<string>, k: string)
    ensures TotalSize(s, key, ks + [k]) == TotalSize(s, key, ks) + |Members(s, key, k)|
  {
    if ks != [] {
      assert (ks + [k])[1..] == ks[1..] + [k];
      TotalSizeSnoc(s, key, ks[1..], k);
    }
  }

  /** Adding one element grows the total over distinct keys by one exactly when its key is among them. */
  lemma {:induction false} TotalSizeAdd<T>(s: seq<T>, x: T, key: T -> string, ks: seq<string>)
    requires NoDup(ks)
    ensures TotalSize(s + [x], key, ks) == TotalSize(s, key, ks) + (if key(x) in ks then 1 else 0)
  {
    if ks != [] {
      TotalSizeAdd(s, x, key, ks[1..]);
      MembersSnoc(s, x, key, ks[0]);
      assert ks == [ks[0]] + ks[1..];
    }
  }

  /** The groups split the list: their sizes add up to its length. */
  lemma {:induction false} GroupSizes<T>(s: seq<T>, key: T -> string)
    ensures TotalSize(s, key, GroupKeys(s, key)) == |s|
    decreases |s|
  {
    if s != [] {
      var init := s[..|s| - 1];
      var x := s[|s| - 1];
      assert s == init + [x];
      var ks := GroupKeys(init, key);
      GroupSizes(init, key);
      GroupKeysSnoc(init, x, key);
      GroupKeysDistinct(init, key);
      TotalSizeAdd(init, x, key, ks);
      if key(x) !in ks {
        TotalSizeSnoc(s, key, ks, key(x));
        MembersSnoc(init, x, key, key(x));
        MembersOfAbsentKey(init, key, key(x));
      }
    }
  }

  /** When group `j` records `count(gs[j])` members of key `ks[j]`, the counts add up to the total size. */
  lemma {:induction false} SumOfCounts<G, T>(gs: seq<G>, count: G -> int, s: seq<T>, key: T -> string, ks: seq<string>)
    requires |gs| == |ks|
    requires forall j :: 0 <= j < |gs| ==> count(gs[j]) == |Members(s, key, ks[j])|
    ensures SumOf(gs, count) == TotalSize(s, key, ks)
  {
    if gs != [] {
      SumOfCounts(gs[1..], count, s, key, ks[1..]);
    }
  }

  /** `map.values` of an insertion-ordered map: the values in key insertion order. */
  function ValuesInOrder<V>(keys: seq<string>, m: map<string, V>): (r: seq<V>)
    requires forall j :: 0 <= j < |keys| ==> keys[j] in m
    ensures |r| == |keys| && forall j :: 0 <= j < |keys| ==> r[j] == m[keys[j]]
  {
    seq(|keys|, j requires 0 <= j < |keys| => m[keys[j]])
  }
}
