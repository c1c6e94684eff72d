/**
 * The parcel table: identifiers to parcels. Callers upper-case identifiers before
 * every use; the table itself compares them exactly.
 */
module ParcelStore {
  import opened Optional
  import opened ParcelModel

  type Store = map<string, Parcel>

  /** `putParcel`: inserts the parcel under its own identifier, replacing any earlier one. */
  function Put(m: Store, p: Parcel): (r: Store)
    ensures r.Keys == m.Keys + {p.id}
    ensures r[p.id] == p
    ensures forall k :: k in m && k != p.id ==> r[k] == m[k]
  {
    m[p.id := p]
  }

  /** `getParcel`: the parcel stored under `id`, or None. */
  function Get(m: Store, id: string): (r: Option<Parcel>)
    ensures r.Some? <==> id in m
    ensures r.Some? ==> r.value == m[id]
  {
    if id in m then Some(m[id]) else None
  }

  /** `containsParcel`. */
  predicate Contains(m: Store, id: string) {
    id in m
  }

  /** `removeParcel`: deletes `id` if present; nothing else changes and a missing id is no error. */
  function Remove(m: Store, id: string): (r: Store)
    ensures r.Keys == m.Keys - {id}
    ensures forall k :: k in r ==> r[k] == m[k]
    ensures id in m ==> |r| == |m| - 1
    ensures id !in m ==> r == m
  {
    var r := m - {id};
    assert r.Keys == m.Keys - {id};
    r
  }

  /** Inserts the parcels in order, so a later parcel with the same identifier wins. */
  function PutAll(m: Store, ps: seq<Parcel>): Store
    decreases |ps|
  {
    if |ps| == 0 then m else PutAll(Put(m, ps[0]), ps[1..])
  }

  /** An old entry that no inserted parcel replaces keeps its value. */
  lemma {:induction false} PutAllKeeps(m: Store, ps: seq<Parcel>, k: string)
    requires k in m && forall i :: 0 <= i < |ps| ==> ps[i].id != k
    ensures k in PutAll(m, ps) && PutAll(m, ps)[k] == m[k]
    decreases |ps|
  {
    if |ps| > 0 {
      assert ps[0].id != k;
      assert forall i :: 0 <= i < |ps[1..]| ==> ps[1..][i].id == ps[i + 1].id;
      PutAllKeeps(Put(m, ps[0]), ps[1..], k);
    }
  }

  /** A parcel that no later parcel with the same identifier follows is the one stored. */
  lemma {:induction false} PutAllLastWins(m: Store, ps: seq<Parcel>, i: nat)
    requires i < |ps| && forall j :: i < j < |ps| ==> ps[j].id != ps[i].id
    ensures ps[i].id in PutAll(m, ps) && PutAll(m, ps)[ps[i].id] == ps[i]
    decreases |ps|
  {
    var m' := Put(m, ps[0]);
    assert forall j :: 0 <= j < |ps[1..]| ==> ps[1..][j] == ps[j + 1];
    if i == 0 {
      PutAllKeeps(m', ps[1..], ps[0].id);
    } else {
      PutAllLastWins(m', ps[1..], i - 1);
    }
  }

  /**
   * After a bulk insert the keys are the old keys plus every inserted identifier;
   * for each identifier the last parcel inserted with it is the one stored; an old
   * entry whose identifier no inserted parcel carries keeps its value.
   */
  lemma PutAllContents(m: Store, ps: seq<Parcel>)
    ensures forall k :: k in PutAll(m, ps) <==> (k in m || exists i :: 0 <= i < |ps| && ps[i].id == k)
    ensures forall i :: 0 <= i < |ps| && (forall j :: i < j < |ps| ==> ps[j].id != ps[i].id) ==>
              PutAll(m, ps)[ps[i].id] == ps[i]
    ensures forall k :: k in m && (forall i :: 0 <= i < |ps| ==> ps[i].id != k) ==> PutAll(m, ps)[k] == m[k]
    ensures |ps| > 0 ==> PutAll(m, ps)[ps[|ps| - 1].id] == ps[|ps| - 1]
  {
    PutAllKeys(m, ps);
    forall i | 0 <= i < |ps| && (forall j :: i < j < |ps| ==> ps[j].id != ps[i].id)
      ensures PutAll(m, ps)[ps[i].id] == ps[i]
    {
      PutAllLastWins(m, ps, i);
    }
    forall k | k in m && (forall i :: 0 <= i < |ps| ==> ps[i].id != k)
      ensures PutAll(m, ps)[k] == m[k]
    {
      PutAllKeeps(m, ps, k);
    }
    if |ps| > 0 {
      PutAllLastWins(m, ps, |ps| - 1);
    }
  }

  /** After a bulk insert the keys are the old keys plus every inserted identifier. */
  lemma {:induction false} PutAllKeys(m: Store, ps: seq<Parcel>)
    ensures forall k :: k in PutAll(m, ps) <==> (k in m || exists i :: 0 <= i < |ps| && ps[i].id == k)
    decreases |ps|
  {
    if |ps| > 0 {
      var m' := Put(m, ps[0]);
      PutAllKeys(m', ps[1..]);
      forall k
        ensures k in PutAll(m, ps) <==> (k in m || exists i :: 0 <= i < |ps| && ps[i].id == k)
      {
        if exists i :: 0 <= i < |ps[1..]| && ps[1..][i].id == k {
          var i :| 0 <= i < |ps[1..]| && ps[1..][i].id == k;
          assert ps[i + 1].id == k;
        }
        if exists i :: 0 <= i < |ps| && ps[i].id == k {
          var i :| 0 <= i < |ps| && ps[i].id == k;
          if i > 0 {
            assert ps[1..][i - 1].id == k;
          }
        }
      }
    }
  }
}
