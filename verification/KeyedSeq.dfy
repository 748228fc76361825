/** Vectors searched by key, and the maps they stand for. */
module KeyedSeq {
  import opened Prelude

  ghost predicate Distinct<K(!new), V(!new)>(s: seq<V>, key: V -> K) {
    forall i, j :: 0 <= i < j < |s| ==> key(s[i]) != key(s[j])
  }

  /** The first element with the key. */
  function Find<K(==), V>(s: seq<V>, key: V -> K, k: K): Option<V> {
    if s == [] then None else if key(s[0]) == k then Some(s[0]) else Find(s[1..], key, k)
  }

  ghost function Keys<K, V>(s: seq<V>, key: V -> K): set<K> {
    set i | 0 <= i < |s| :: key(s[i])
  }

  ghost function ToMap<K, V>(s: seq<V>, key: V -> K): map<K, V> {
    map k | k in Keys(s, key) && Find(s, key, k).Some? :: Find(s, key, k).value
  }

  /** Remove every element with the key. */
  function Without<K(==), V>(s: seq<V>, key: V -> K, k: K): seq<V> {
    if s == [] then []
    else (if key(s[0]) == k then [] else [s[0]]) + Without(s[1..], key, k)
  }

  /** Replace the element with this one's key, or append. */
  function Upsert<K(==), V>(s: seq<V>, key: V -> K, v: V): seq<V> {
    if s == [] then [v]
    else if key(s[0]) == key(v) then [v] + s[1..]
    else [s[0]] + Upsert(s[1..], key, v)
  }

  /** Insert keeping keys ascending, in front of the first greater one. */
  function Insert<V>(s: seq<V>, key: V -> nat, v: V): seq<V> {
    if s == [] then [v]
    else if key(v) < key(s[0]) then [v] + s
    else [s[0]] + Insert(s[1..], key, v)
  }

  ghost predicate Ascending<V(!new)>(s: seq<V>, key: V -> nat) {
    forall i, j :: 0 <= i < j < |s| ==> key(s[i]) < key(s[j])
  }

  lemma {:induction false} FindHit<K, V>(s: seq<V>, key: V -> K, k: K)
    ensures Find(s, key, k).Some? <==> k in Keys(s, key)
    ensures Find(s, key, k).Some? ==> Find(s, key, k).value in s && key(Find(s, key, k).value) == k
  {
    if s != [] {
      FindHit(s[1..], key, k);
      if k in Keys(s, key) && key(s[0]) != k {
        var i :| 0 <= i < |s| && key(s[i]) == k;
        assert key(s[1..][i - 1]) == k;
      }
      if k in Keys(s[1..], key) {
        var i :| 0 <= i < |s[1..]| && key(s[1..][i]) == k;
        assert key(s[i + 1]) == k;
      }
      assert k in Keys(s, key) <==> key(s[0]) == k || k in Keys(s[1..], key);
    }
  }

  lemma MapLookup<K, V>(s: seq<V>, key: V -> K, k: K)
    ensures k in ToMap(s, key) <==> Find(s, key, k).Some?
    ensures k in ToMap(s, key) ==> ToMap(s, key)[k] == Find(s, key, k).value
  {
    FindHit(s, key, k);
  }

  /** Vectors that find the same things stand for the same map. */
  lemma SameMap<K(!new), V(!new)>(a: seq<V>, b: seq<V>, key: V -> K)
    requires forall k :: Find(a, key, k) == Find(b, key, k)
    ensures ToMap(a, key) == ToMap(b, key)
  {
    forall k
      ensures k in ToMap(a, key) <==> k in ToMap(b, key)
      ensures k in ToMap(a, key) ==> ToMap(a, key)[k] == ToMap(b, key)[k]
    {
      assert Find(a, key, k) == Find(b, key, k);
      MapLookup(a, key, k);
      MapLookup(b, key, k);
    }
  }

  lemma {:induction false} UpsertFinds<K, V>(s: seq<V>, key: V -> K, v: V, k: K)
    ensures Find(Upsert(s, key, v), key, k) == if k == key(v) then Some(v) else Find(s, key, k)
  {
    if s != [] {
      UpsertFinds(s[1..], key, v, k);
      if key(s[0]) != key(v) {
        assert Upsert(s, key, v)[1..] == Upsert(s[1..], key, v);
      } else {
        assert Upsert(s, key, v)[1..] == s[1..];
      }
    }
  }

  lemma {:induction false} WithoutFinds<K, V>(s: seq<V>, key: V -> K, gone: K, k: K)
    ensures Find(Without(s, key, gone), key, k) == if k == gone then None else Find(s, key, k)
  {
    if s != [] {
      WithoutFinds(s[1..], key, gone, k);
      var rest := Without(s[1..], key, gone);
      if key(s[0]) != gone {
        assert Without(s, key, gone)[1..] == rest;
      } else {
        assert Without(s, key, gone) == rest;
      }
    }
  }

  lemma UpsertMap<K(!new), V(!new)>(s: seq<V>, key: V -> K, v: V)
    ensures ToMap(Upsert(s, key, v), key) == ToMap(s, key)[key(v) := v]
  {
    forall k
      ensures k in ToMap(Upsert(s, key, v), key) <==> k in ToMap(s, key)[key(v) := v]
      ensures k in ToMap(s, key)[key(v) := v] ==> ToMap(Upsert(s, key, v), key)[k] == ToMap(s, key)[key(v) := v][k]
    {
      UpsertFinds(s, key, v, k);
      MapLookup(s, key, k);
      MapLookup(Upsert(s, key, v), key, k);
    }
  }

  lemma WithoutMap<K(!new), V(!new)>(s: seq<V>, key: V -> K, gone: K)
    ensures ToMap(Without(s, key, gone), key) == ToMap(s, key) - {gone}
  {
    forall k
      ensures k in ToMap(Without(s, key, gone), key) <==> k in ToMap(s, key) - {gone}
      ensures k in ToMap(s, key) - {gone} ==> ToMap(Without(s, key, gone), key)[k] == ToMap(s, key)[k]
    {
      WithoutFinds(s, key, gone, k);
      MapLookup(s, key, k);
      MapLookup(Without(s, key, gone), key, k);
    }
  }

  lemma {:induction false} InsertFinds<V>(s: seq<V>, key: V -> nat, v: V, k: nat)
    requires Find(s, key, key(v)).None?
    ensures Find(Insert(s, key, v), key, k) == if k == key(v) then Some(v) else Find(s, key, k)
  {
    if s != [] {
      if key(v) < key(s[0]) {
        assert Insert(s, key, v)[1..] == s;
      } else {
        InsertFinds(s[1..], key, v, k);
        assert Insert(s, key, v)[1..] == Insert(s[1..], key, v);
      }
    }
  }

  lemma {:induction false} InsertElements<V>(s: seq<V>, key: V -> nat, v: V, x: V)
    ensures x in Insert(s, key, v) <==> x == v || x in s
  {
    if s != [] {
      InsertElements(s[1..], key, v, x);
    }
  }

  lemma {:induction false} InsertAscends<V(!new)>(s: seq<V>, key: V -> nat, v: V)
    requires Ascending(s, key) && Find(s, key, key(v)).None?
    ensures Ascending(Insert(s, key, v), key)
  {
    if s != [] && key(s[0]) <= key(v) {
      InsertAscends(s[1..], key, v);
      var r, rest := Insert(s, key, v), Insert(s[1..], key, v);
      assert r == [s[0]] + rest;
      forall j | 1 <= j < |r| ensures key(r[0]) < key(r[j]) {
        InsertElements(s[1..], key, v, r[j]);
        assert r[j] in rest;
        if r[j] in s[1..] {
          var i :| 0 <= i < |s[1..]| && s[1..][i] == r[j];
          assert s[i + 1] == r[j];
        }
      }
      forall i, j | 0 <= i < j < |r| ensures key(r[i]) < key(r[j]) {
        if i > 0 {
          assert r[i] == rest[i - 1] && r[j] == rest[j - 1];
        }
      }
    }
  }

  lemma InsertMap<V(!new)>(s: seq<V>, key: V -> nat, v: V)
    requires Find(s, key, key(v)).None?
    ensures ToMap(Insert(s, key, v), key) == ToMap(s, key)[key(v) := v]
  {
    forall k
      ensures k in ToMap(Insert(s, key, v), key) <==> k in ToMap(s, key)[key(v) := v]
      ensures k in ToMap(s, key)[key(v) := v] ==> ToMap(Insert(s, key, v), key)[k] == ToMap(s, key)[key(v) := v][k]
    {
      InsertFinds(s, key, v, k);
      MapLookup(s, key, k);
      MapLookup(Insert(s, key, v), key, k);
    }
  }
}
