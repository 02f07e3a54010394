/**
 * Python's dict as the pipeline uses it: keys keep their insertion order,
 * assigning an existing key replaces its value in place, and a dict
 * comprehension or `dict.update` assigns its pairs one after another.
 */
module PyDict {

  datatype Dict<K(==), V> = Dict(keys: seq<K>, entries: map<K, V>)

  /** The key order lists every key of the map exactly once. */
  ghost predicate Wf<K, V>(d: Dict<K, V>)
  {
    && (forall i, j :: 0 <= i < j < |d.keys| ==> d.keys[i] != d.keys[j])
    && d.entries.Keys == set k | k in d.keys
  }

  function Empty<K(==), V>(): (d: Dict<K, V>)
    ensures Wf(d) && d.entries == map[]
  {
    Dict([], map[])
  }

  /** A dict is truthy when it has at least one key. */
  predicate Truthy<K(==), V>(d: Dict<K, V>)
  {
    |d.keys| > 0
  }

  /** `d[k] = v`: an existing key keeps its position, a new key goes last. */
  function Assign<K(==), V>(d: Dict<K, V>, k: K, v: V): (r: Dict<K, V>)
    ensures Wf(d) ==> Wf(r)
    ensures r.entries == d.entries[k := v]
    ensures d.keys <= r.keys
  {
    if k in d.entries then Dict(d.keys, d.entries[k := v])
    else Dict(d.keys + [k], d.entries[k := v])
  }

  /** Assigns the pairs in order: a dict comprehension, or `dict.update`. */
  function AssignAll<K(==), V>(d: Dict<K, V>, ps: seq<(K, V)>): (r: Dict<K, V>)
    ensures Wf(d) ==> Wf(r)
    ensures r.entries.Keys == d.entries.Keys + KeysOf(ps)
    ensures d.keys <= r.keys
    decreases |ps|
  {
    if ps == [] then d
    else
      var init := ps[..|ps| - 1];
      var r := Assign(AssignAll(d, init), ps[|ps| - 1].0, ps[|ps| - 1].1);
      assert forall i :: 0 <= i < |init| ==> init[i] == ps[i];
      r
  }

  /** The keys the pairs mention. */
  function KeysOf<K(==), V>(ps: seq<(K, V)>): set<K>
  {
    set i | 0 <= i < |ps| :: ps[i].0
  }

  /** `{k: v for (k, v) in ps}`. */
  function FromPairs<K(==), V>(ps: seq<(K, V)>): (d: Dict<K, V>)
  {
    AssignAll(Empty(), ps)
  }

  /** `list(d.items())`. */
  function Items<K(==), V>(d: Dict<K, V>): (ps: seq<(K, V)>)
    requires Wf(d)
    ensures |ps| == |d.keys|
    ensures forall i :: 0 <= i < |ps| ==> ps[i].0 == d.keys[i] && ps[i].1 == d.entries[d.keys[i]]
  {
    seq(|d.keys|, i requires 0 <= i < |d.keys| => (d.keys[i], d.entries[d.keys[i]]))
  }

  /** `list(d.values())`, in key order. */
  function ValueList<K(==), V>(d: Dict<K, V>): (vs: seq<V>)
    requires Wf(d)
    ensures |vs| == |d.keys|
    ensures forall i :: 0 <= i < |vs| ==> vs[i] == d.entries[d.keys[i]]
  {
    seq(|d.keys|, i requires 0 <= i < |d.keys| => d.entries[d.keys[i]])
  }

  /** A copy of `d` after `d.update(e)`. */
  function Update<K(==), V>(d: Dict<K, V>, e: Dict<K, V>): (r: Dict<K, V>)
    requires Wf(e)
  {
    AssignAll(d, Items(e))
  }

  /** A pair whose key does not recur later decides that key's value. */
  lemma {:induction false} AssignAllLastWins<K, V>(d: Dict<K, V>, ps: seq<(K, V)>, i: int)
    requires 0 <= i < |ps|
    requires forall j :: i < j < |ps| ==> ps[j].0 != ps[i].0
    ensures ps[i].0 in AssignAll(d, ps).entries
    ensures AssignAll(d, ps).entries[ps[i].0] == ps[i].1
  {
    if i < |ps| - 1 {
      var init := ps[..|ps| - 1];
      AssignAllLastWins(d, init, i);
    }
  }

  /** A key no pair mentions keeps its value from `d`. */
  lemma {:induction false} AssignAllUntouched<K, V>(d: Dict<K, V>, ps: seq<(K, V)>, k: K)
    requires forall j :: 0 <= j < |ps| ==> ps[j].0 != k
    requires k in d.entries
    ensures k in AssignAll(d, ps).entries
    ensures AssignAll(d, ps).entries[k] == d.entries[k]
  {
    if ps != [] {
      AssignAllUntouched(d, ps[..|ps| - 1], k);
    }
  }

  /** Every value of the result comes from a pair with that key, or from `d`. */
  lemma {:induction false} AssignAllOrigin<K, V>(d: Dict<K, V>, ps: seq<(K, V)>, k: K)
    requires k in AssignAll(d, ps).entries
    ensures || (exists i :: 0 <= i < |ps| && ps[i].0 == k && ps[i].1 == AssignAll(d, ps).entries[k])
            || (k in d.entries && d.entries[k] == AssignAll(d, ps).entries[k])
  {
    if ps != [] {
      var init := ps[..|ps| - 1];
      if k != ps[|ps| - 1].0 {
        AssignAllOrigin(d, init, k);
        assert forall i :: 0 <= i < |init| ==> init[i] == ps[i];
      }
    }
  }

  /**
   * `d.update(e)`: the keys of both, `e`'s value wherever `e` has the key,
   * `d`'s value elsewhere, and `d`'s keys keep their places at the front.
   */
  lemma UpdateSemantics<K, V>(d: Dict<K, V>, e: Dict<K, V>)
    requires Wf(d) && Wf(e)
    ensures Wf(Update(d, e))
    ensures Update(d, e).entries.Keys == d.entries.Keys + e.entries.Keys
    ensures forall k :: k in e.entries ==> Update(d, e).entries[k] == e.entries[k]
    ensures forall k :: k in d.entries && k !in e.entries ==> Update(d, e).entries[k] == d.entries[k]
    ensures d.keys <= Update(d, e).keys
  {
    var ps := Items(e);
    assert KeysOf(ps) == e.entries.Keys by {
      forall k | k in e.entries ensures k in KeysOf(ps) {
        var i :| 0 <= i < |e.keys| && e.keys[i] == k;
        assert ps[i].0 == k;
      }
    }
    forall k | k in e.entries
      ensures Update(d, e).entries[k] == e.entries[k]
    {
      var i :| 0 <= i < |e.keys| && e.keys[i] == k;
      AssignAllLastWins(d, ps, i);
    }
    forall k | k in d.entries && k !in e.entries
      ensures Update(d, e).entries[k] == d.entries[k]
    {
      AssignAllUntouched(d, ps, k);
    }
  }

  /** A pair whose key does not recur later. */
  ghost predicate LastWith<K, V>(ps: seq<(K, V)>, i: int)
    requires 0 <= i < |ps|
  {
    forall j :: i < j < |ps| ==> ps[j].0 != ps[i].0
  }

  /**
   * `{k: v for (k, v) in ps}`: exactly the keys the pairs mention, each
   * holding the value of its last pair, and every value comes from a pair.
   */
  lemma FromPairsSemantics<K, V>(ps: seq<(K, V)>)
    ensures Wf(FromPairs(ps))
    ensures FromPairs(ps).entries.Keys == KeysOf(ps)
    ensures forall i :: 0 <= i < |ps| && LastWith(ps, i) ==> FromPairs(ps).entries[ps[i].0] == ps[i].1
    ensures forall k :: k in FromPairs(ps).entries ==>
              exists i :: 0 <= i < |ps| && ps[i].0 == k && ps[i].1 == FromPairs(ps).entries[k]
  {
    forall i | 0 <= i < |ps| && LastWith(ps, i)
      ensures FromPairs(ps).entries[ps[i].0] == ps[i].1
    {
      AssignAllLastWins(Empty(), ps, i);
    }
    forall k | k in FromPairs(ps).entries
      ensures exists i :: 0 <= i < |ps| && ps[i].0 == k && ps[i].1 == FromPairs(ps).entries[k]
    {
      AssignAllOrigin(Empty(), ps, k);
    }
  }
}
