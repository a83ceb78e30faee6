/** The locked map of the producer: an ordered map behind a mutex, each method one atomic operation. */
module ThreadSafeMaps {
  import opened Words

  /** What an index lookup finds: the loop that should walk to the index never advances its counter. */
  function At<V>(m: map<int, V>, index: int): Option<V> {
    if index == 0 && m.Keys != {} then Some(m[Least(m.Keys)]) else None
  }

  /** The key with `index` smaller keys. */
  ghost function NthKey(keys: set<int>, index: nat): (k: int)
    requires index < |keys|
    ensures k in keys
    decreases index
  {
    if index == 0 then Least(keys) else NthKey(keys - {Least(keys)}, index - 1)
  }

  /** What the lookup is documented to return: the value at the index in iteration order, or nothing. */
  ghost function DocumentedAt<V>(m: map<int, V>, index: int): Option<V> {
    if 0 <= index < |m.Keys| then Some(m[NthKey(m.Keys, index)]) else None
  }

  /** The code meets its documentation exactly when the index is 0 or out of range. */
  lemma AtIsDocumentedIff<V>(m: map<int, V>, index: int)
    ensures At(m, index) == DocumentedAt(m, index) <==> index <= 0 || index >= |m.Keys|
  {
    assert index == 0 ==> (m.Keys != {} <==> 0 < |m.Keys|);
  }

  class ThreadSafeMap<V> {
    var map_: map<int, V>

    constructor ()
      ensures map_ == map[]
    {
      map_ := map[];
    }

    /** emplace: an existing entry wins. */
    method Put(k: int, v: V)
      modifies this
      ensures map_ == if k in old(map_) then old(map_) else old(map_)[k := v]
    {
      if k !in map_ {
        map_ := map_[k := v];
      }
    }

    method Get(k: int) returns (r: Option<V>)
      ensures r == if k in map_ then Some(map_[k]) else None
    {
      var present := Exists(k);
      r := if present then Some(map_[k]) else None;
    }

    method Exists(k: int) returns (present: bool)
      ensures present <==> k in map_
    {
      present := k in map_;
    }

    method Remove(k: int)
      modifies this
      ensures map_ == old(map_) - {k}
    {
      if k in map_ {
        map_ := map_ - {k};
      }
    }

    /** The loop visits the entries in key order and compares a counter that stays 0. */
    method GetAt(index: int) returns (r: Option<V>)
      ensures r == At(map_, index)
      ensures r.Some? <==> index == 0 && map_ != map[]
      ensures r.Some? ==> exists k :: IsLeast(map_.Keys, k) && r.value == map_[k]
    {
      r := None;
      var current := 0;
      if index < 0 || index >= |map_| {
        return;
      }
      var rest := map_.Keys;
      while rest != {}
        invariant rest <= map_.Keys && r.None? && current == 0
        invariant index == 0 ==> rest == map_.Keys
      {
        var k := Least(rest);
        if current == index {
          r := Some(map_[k]);
          break;
        }
        rest := rest - {k};
      }
    }
  }
}
