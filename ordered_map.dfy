/**
 * The iteration order of the ordered key/value maps the canister stores its
 * records in: entries come out in ascending key order. A map is viewed here
 * through its sorted key sequence, and a filtering scan over it through the
 * sub-sequence of keys whose values pass the filter.
 */
module OrderedMap {

  /** Strictly ascending, hence also free of duplicates. */
  ghost predicate Increasing(ks: seq<nat>) {
    forall i, j :: 0 <= i < j < |ks| ==> ks[i] < ks[j]
  }

  /** `k` is the smallest element of `s`. */
  predicate IsLeast(k: nat, s: set<nat>) {
    k in s && forall j :: j in s ==> k <= j
  }

  lemma {:induction false} LeastExists(s: set<nat>)
    requires s != {}
    ensures exists k :: IsLeast(k, s)
  {
    var x :| x in s;
    if s == {x} {
      assert IsLeast(x, s);
    } else {
      LeastExists(s - {x});
      var m :| IsLeast(m, s - {x});
      var least := if x < m then x else m;
      forall j | j in s ensures least <= j {
        if j != x {
          assert j in s - {x};
        }
      }
      assert IsLeast(least, s);
    }
  }

  lemma Prepend(k: nat, rest: seq<nat>)
    requires Increasing(rest)
    requires forall j :: j in rest ==> k < j
    ensures Increasing([k] + rest)
  {
    forall i, j | 0 <= i < j < |[k] + rest| ensures ([k] + rest)[i] < ([k] + rest)[j] {
      assert ([k] + rest)[j] == rest[j - 1] && rest[j - 1] in rest;
      if i > 0 {
        assert ([k] + rest)[i] == rest[i - 1];
      }
    }
  }

  lemma Append(ks: seq<nat>, k: nat)
    requires Increasing(ks)
    requires forall j :: j in ks ==> j < k
    ensures Increasing(ks + [k])
  {
    forall i, j | 0 <= i < j < |ks + [k]| ensures (ks + [k])[i] < (ks + [k])[j] {
      assert (ks + [k])[i] == ks[i] && ks[i] in ks;
      if j < |ks| {
        assert (ks + [k])[j] == ks[j];
      }
    }
  }

  /** The smallest element of a non-empty set. */
  function Least(s: set<nat>): (k: nat)
    requires s != {}
    ensures IsLeast(k, s)
  {
    LeastExists(s);
    var k :| IsLeast(k, s);
    k
  }

  /** The keys of `m` in the order an iteration over the map visits them. */
  function SortedKeys<V>(m: map<nat, V>): (ks: seq<nat>)
    ensures Increasing(ks)
    ensures forall k :: k in ks <==> k in m
    decreases |m|
  {
    if |m| == 0 then []
    else
      var k := Least(m.Keys);
      assert |(m - {k}).Keys| == |m.Keys - {k}| == |m.Keys| - 1;
      var rest := SortedKeys(m - {k});
      assert forall j :: j in rest ==> k < j;
      Prepend(k, rest);
      [k] + rest
  }

  /** The keys of `ks`, in their order, whose values in `m` pass `keep`. */
  function FilterKeys<V>(m: map<nat, V>, ks: seq<nat>, keep: V -> bool): (r: seq<nat>)
    requires forall k :: k in ks ==> k in m
    ensures forall k :: k in r <==> k in ks && keep(m[k])
    ensures Increasing(ks) ==> Increasing(r)
  {
    if ks == [] then []
    else
      var rest := FilterKeys(m, ks[1..], keep);
      assert Increasing(ks) ==> Increasing(rest) && forall k :: k in rest ==> ks[0] < k by {
        if Increasing(ks) {
          assert Increasing(ks[1..]);
          forall k | k in rest ensures ks[0] < k {
            var i :| 0 <= i < |ks[1..]| && ks[1..][i] == k;
            assert ks[i + 1] == k;
          }
        }
      }
      if keep(m[ks[0]]) then
        assert Increasing(ks) ==> Increasing([ks[0]] + rest) by {
          if Increasing(ks) { Prepend(ks[0], rest); }
        }
        [ks[0]] + rest
      else rest
  }

  /** The elements of `ks`, as a set. */
  function Elements(ks: seq<nat>): (s: set<nat>)
    ensures forall k :: k in s <==> k in ks
  {
    if ks == [] then {} else {ks[0]} + Elements(ks[1..])
  }

  lemma {:induction false} IncreasingLength(ks: seq<nat>)
    requires Increasing(ks)
    ensures |Elements(ks)| == |ks|
  {
    if ks != [] {
      var tail := ks[1..];
      assert Increasing(tail);
      IncreasingLength(tail);
      assert ks[0] !in Elements(tail);
    }
  }

  /** A duplicate-free sequence is as long as the set of its elements. */
  lemma IncreasingCount(ks: seq<nat>, s: set<nat>)
    requires Increasing(ks)
    requires forall k :: k in ks <==> k in s
    ensures |ks| == |s|
  {
    IncreasingLength(ks);
    assert Elements(ks) == s;
  }

  /**
   * The keys of `m`, ascending, whose values pass `keep`: the entries a
   * filtering scan over the map yields, in the order it yields them.
   */
  function KeysWhere<V>(m: map<nat, V>, keep: V -> bool): (ks: seq<nat>)
    ensures Increasing(ks)
    ensures forall k :: k in ks <==> k in m && keep(m[k])
  {
    FilterKeys(m, SortedKeys(m), keep)
  }

  /** The values stored under `ks`, in the same order. */
  function ValuesAt<V>(m: map<nat, V>, ks: seq<nat>): (vs: seq<V>)
    requires forall k :: k in ks ==> k in m
    ensures |vs| == |ks|
    ensures forall i :: 0 <= i < |ks| ==> vs[i] == m[ks[i]]
  {
    seq(|ks|, i requires 0 <= i < |ks| => m[ks[i]])
  }

  /** Every value `ValuesAt` returns is stored, and every listed key's value is returned. */
  lemma ValuesAtCovers<V>(m: map<nat, V>, ks: seq<nat>)
    requires forall k :: k in ks ==> k in m
    ensures forall i :: 0 <= i < |ks| ==> ValuesAt(m, ks)[i] in m.Values
    ensures forall k :: k in ks ==> m[k] in ValuesAt(m, ks)
  {
  }
}
