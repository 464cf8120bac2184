/** Fixed tables of (key, value) slots in which key 0 marks a free slot, as the RIL client's
  * request history and handler tables; each stands for a finite map.
  */
module RilSlots {
  datatype Slot<K, V> = Slot(key: K, value: V)

  /** No two slots in use have the same key. */
  ghost predicate Distinct<K, V>(s: seq<Slot<K, V>>, zero: K) {
    forall i, j :: 0 <= i < j < |s| && s[i].key == s[j].key ==> s[i].key == zero
  }

  /** The map that the slots in use make up. */
  ghost function Entries<K(!new), V>(s: seq<Slot<K, V>>, zero: K): (m: map<K, V>)
    requires Distinct(s, zero)
  {
    map i | 0 <= i < |s| && s[i].key != zero :: s[i].key := s[i].value
  }

  /** Slots in use are the entries. */
  lemma InEntries<K(!new), V>(s: seq<Slot<K, V>>, zero: K)
    requires Distinct(s, zero)
    ensures forall k :: k in Entries(s, zero) <==> k != zero && exists i :: 0 <= i < |s| && s[i].key == k
    ensures forall i :: 0 <= i < |s| && s[i].key != zero ==>
              s[i].key in Entries(s, zero) && Entries(s, zero)[s[i].key] == s[i].value
  {}

  /** The slots' contents if `k -> v` is written over the entry of `was`; key `zero` erases. */
  ghost function Moved<K, V>(m: map<K, V>, was: K, k: K, v: V, zero: K): map<K, V> {
    if k == zero then m - {was} else (m - {was})[k := v]
  }

  /** Overwriting one slot replaces its entry, so long as the new key is in no other slot. */
  lemma Stored<K(!new), V>(s: seq<Slot<K, V>>, i: nat, k: K, v: V, zero: K)
    requires i < |s| && Distinct(s, zero)
    requires forall j :: 0 <= j < |s| && j != i ==> s[j].key != k || k == zero
    ensures Distinct(s[i := Slot(k, v)], zero)
    ensures Entries(s[i := Slot(k, v)], zero) == Moved(Entries(s, zero), s[i].key, k, v, zero)
  {
    var s' := s[i := Slot(k, v)];
    var m, m' := Entries(s, zero), Entries(s', zero);
    var goal := Moved(m, s[i].key, k, v, zero);
    InEntries(s, zero);
    InEntries(s', zero);
    hide Entries, Distinct;
    forall j | 0 <= j < |s| && j != i ensures s'[j] == s[j] {}
    assert s'[i] == Slot(k, v);
    forall x | x in m' ensures x in goal && m'[x] == goal[x] {
      var j :| 0 <= j < |s'| && s'[j].key == x;
    }
    forall x | x in goal ensures x in m' {
      if x != k {
        var j :| 0 <= j < |s| && s[j].key == x;
      }
    }
    assert m' == goal;
  }

  ghost function Keys<K(!new), V>(s: seq<Slot<K, V>>, zero: K): set<K> {
    set i | 0 <= i < |s| && s[i].key != zero :: s[i].key
  }

  /** There are as many entries as slots exactly when no slot is free. */
  lemma Occupancy<K(!new), V>(s: seq<Slot<K, V>>, zero: K)
    requires Distinct(s, zero)
    ensures |Entries(s, zero)| <= |s|
    ensures |Entries(s, zero)| == |s| <==> forall i :: 0 <= i < |s| ==> s[i].key != zero
  {
    CountKeys(s, zero);
    InEntries(s, zero);
    var m := Entries(s, zero);
    assert m.Keys == Keys(s, zero);
    assert |m.Keys| == |m|;
  }

  lemma {:induction false} CountKeys<K(!new), V>(s: seq<Slot<K, V>>, zero: K)
    requires Distinct(s, zero)
    ensures |Keys(s, zero)| <= |s|
    ensures |Keys(s, zero)| == |s| <==> forall i :: 0 <= i < |s| ==> s[i].key != zero
  {
    if s != [] {
      var n := |s| - 1;
      var init := s[..n];
      CountKeys(init, zero);
      forall i | 0 <= i < n ensures init[i].key == s[i].key {}
      if s[n].key == zero {
        assert Keys(s, zero) == Keys(init, zero);
      } else {
        assert Keys(s, zero) == Keys(init, zero) + {s[n].key};
        assert s[n].key !in Keys(init, zero);
      }
    }
  }
}
