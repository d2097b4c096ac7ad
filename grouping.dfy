/**
 * Grouping into a JavaScript `Map` filled in a loop
 * (`if (!map.has(k)) map.set(k, []); map.get(k).push(x)`).
 * A `Map` iterates its keys in insertion order, which is the order in
 * which each key first occurs in the input.
 */
module Grouping {
  import opened Seqs

  /** The distinct keys of `s`, in order of first occurrence. */
  function KeysOf<T, K(==)>(s: seq<T>, key: T -> K): (ks: seq<K>)
    ensures Distinct(ks)
    ensures forall i :: 0 <= i < |s| ==> key(s[i]) in ks
    decreases |s|
  {
    if |s| == 0 then []
    else
      var ks := KeysOf(s[..|s| - 1], key);
      var k := key(s[|s| - 1]);
      assert forall i :: 0 <= i < |s| - 1 ==> s[..|s| - 1][i] == s[i];
      if k in ks then ks else ks + [k]
  }

  /** A group key always comes from some element of the input. */
  lemma {:induction false} KeysOfOccur<T, K>(s: seq<T>, key: T -> K, k: K)
    requires k in KeysOf(s, key)
    ensures exists i :: 0 <= i < |s| && key(s[i]) == k
    decreases |s|
  {
    var s' := s[..|s| - 1];
    if k in KeysOf(s', key) {
      KeysOfOccur(s', key, k);
      var i :| 0 <= i < |s'| && key(s'[i]) == k;
      assert s[i] == s'[i];
    } else {
      assert key(s[|s| - 1]) == k;
    }
  }

  /** The members of group `k`, in input order. */
  function Members<T, K(==)>(s: seq<T>, key: T -> K, k: K): (g: seq<T>)
    ensures |g| <= |s|
    decreases |s|
  {
    if |s| == 0 then []
    else Members(s[..|s| - 1], key, k) + (if key(s[|s| - 1]) == k then [s[|s| - 1]] else [])
  }

  /** A group holds only elements of the input with its key, and every element with that key. */
  lemma {:induction false} MembersExactly<T, K>(s: seq<T>, key: T -> K, k: K)
    ensures forall i :: 0 <= i < |Members(s, key, k)| ==> Members(s, key, k)[i] in s && key(Members(s, key, k)[i]) == k
    ensures forall i :: 0 <= i < |s| && key(s[i]) == k ==> s[i] in Members(s, key, k)
    decreases |s|
  {
    if |s| > 0 {
      var s' := s[..|s| - 1];
      MembersExactly(s', key, k);
      assert s == s' + [s[|s| - 1]];
    }
  }

  lemma {:induction false} MembersOfAbsentKey<T, K>(s: seq<T>, key: T -> K, k: K)
    requires k !in KeysOf(s, key)
    ensures Members(s, key, k) == []
    decreases |s|
  {
    if |s| > 0 {
      var s' := s[..|s| - 1];
      assert KeysOf(s', key) <= KeysOf(s, key);
      MembersOfAbsentKey(s', key, k);
    }
  }

  /** Total size of the groups named in `ks`. */
  function SizeOfGroups<T, K(==)>(s: seq<T>, key: T -> K, ks: seq<K>): nat
    decreases |ks|
  {
    if |ks| == 0 then 0
    else SizeOfGroups(s, key, ks[..|ks| - 1]) + |Members(s, key, ks[|ks| - 1])|
  }

  lemma {:induction false} SizeOfGroupsSnoc<T, K>(s: seq<T>, x: T, key: T -> K, ks: seq<K>)
    requires Distinct(ks)
    ensures SizeOfGroups(s + [x], key, ks) == SizeOfGroups(s, key, ks) + (if key(x) in ks then 1 else 0)
    decreases |ks|
  {
    if |ks| > 0 {
      var ks' := ks[..|ks| - 1];
      var k := ks[|ks| - 1];
      assert Distinct(ks');
      SizeOfGroupsSnoc(s, x, key, ks');
      assert (s + [x])[..|s + [x]| - 1] == s;
      assert key(x) in ks <==> key(x) in ks' || key(x) == k;
      assert key(x) == k ==> key(x) !in ks';
    }
  }

  /** Grouping is a partition: the group sizes add up to the input length. */
  lemma {:induction false} GroupSizesSum<T, K>(s: seq<T>, key: T -> K)
    ensures SizeOfGroups(s, key, KeysOf(s, key)) == |s|
    decreases |s|
  {
    if |s| > 0 {
      var s' := s[..|s| - 1];
      var x := s[|s| - 1];
      assert s == s' + [x];
      var ks := KeysOf(s', key);
      GroupSizesSum(s', key);
      SizeOfGroupsSnoc(s', x, key, ks);
      if key(x) !in ks {
        MembersOfAbsentKey(s', key, key(x));
        assert KeysOf(s, key) == ks + [key(x)];
        assert (ks + [key(x)])[..|ks|] == ks;
      }
    }
  }

  /** Each element lies in the group of its own key and in no other. */
  lemma ElementInExactlyOneGroup<T, K>(s: seq<T>, key: T -> K, i: nat, k: K)
    requires i < |s|
    ensures key(s[i]) in KeysOf(s, key)
    ensures s[i] in Members(s, key, k) <==> key(s[i]) == k
  {
    MembersExactly(s, key, k);
  }

  lemma MembersSnoc<T, K>(s: seq<T>, x: T, key: T -> K, k: K)
    ensures Members(s + [x], key, k) == Members(s, key, k) + (if key(x) == k then [x] else [])
  {
    assert (s + [x])[..|s + [x]| - 1] == s;
  }

  lemma KeysOfSnoc<T, K>(s: seq<T>, x: T, key: T -> K)
    ensures KeysOf(s + [x], key) == if key(x) in KeysOf(s, key) then KeysOf(s, key) else KeysOf(s, key) + [key(x)]
  {
    assert (s + [x])[..|s + [x]| - 1] == s;
  }

  /** `order` and `groups` are the grouping of `p`: keys in first-occurrence order, each with its members. */
  ghost predicate Grouped<T, K(!new)>(p: seq<T>, key: T -> K, order: seq<K>, groups: map<K, seq<T>>)
  {
    order == KeysOf(p, key) &&
    (forall k :: k in groups <==> k in order) &&
    (forall k :: k in groups ==> groups[k] == Members(p, key, k))
  }

  /** One turn of the filling loop keeps the map equal to the grouping of the prefix read so far. */
  lemma GroupStep<T, K(!new)>(p: seq<T>, x: T, key: T -> K, order: seq<K>, groups: map<K, seq<T>>)
    requires Grouped(p, key, order, groups)
    ensures Grouped(p + [x], key, if key(x) in groups then order else order + [key(x)],
                    groups[key(x) := (if key(x) in groups then groups[key(x)] else []) + [x]])
  {
    var k := key(x);
    KeysOfSnoc(p, x, key);
    if k !in groups {
      MembersOfAbsentKey(p, key, k);
    }
    var groups' := groups[k := (if k in groups then groups[k] else []) + [x]];
    forall k' | k' in groups'
      ensures groups'[k'] == Members(p + [x], key, k')
    {
      MembersSnoc(p, x, key, k');
    }
  }

  /** Fills the group map exactly as the source loop does. */
  method GroupBy<T, K(==,!new)>(s: seq<T>, key: T -> K) returns (order: seq<K>, groups: map<K, seq<T>>)
    ensures order == KeysOf(s, key)
    ensures forall k :: k in groups <==> k in order
    ensures forall k :: k in groups ==> groups[k] == Members(s, key, k)
  {
    order := [];
    groups := map[];
    var i := 0;
    assert s[..0] == [];
    while i < |s|
      invariant 0 <= i <= |s|
      invariant Grouped(s[..i], key, order, groups)
    {
      var x := s[i];
      var k := key(x);
      GroupStep(s[..i], x, key, order, groups);
      assert s[..i + 1] == s[..i] + [x];
      // `map.set(k, [])` for a new key, then `push(x)`.
      var group := if k in groups then groups[k] else [];
      if k !in groups {
        order := order + [k];
      }
      groups := groups[k := group + [x]];
      i := i + 1;
    }
    assert s[..|s|] == s;
  }

  /** Reduces every group of a `GroupBy` to one value, keyed as the groups are. */
  method MapGroups<T, K(==,!new), V>(s: seq<T>, key: T -> K, f: (K, seq<T>) -> V) returns (order: seq<K>, table: map<K, V>)
    ensures order == KeysOf(s, key)
    ensures forall k :: k in table <==> k in order
    ensures forall k :: k in table ==> table[k] == f(k, Members(s, key, k))
  {
    var groups;
    order, groups := GroupBy(s, key);
    table := map[];
    for i := 0 to |order|
      invariant forall k :: k in table <==> k in order[..i]
      invariant forall k :: k in table ==> table[k] == f(k, Members(s, key, k))
    {
      var k := order[i];
      assert order[..i + 1] == order[..i] + [k];
      table := table[k := f(k, groups[k])];
    }
    assert order[..|order|] == order;
  }
}
