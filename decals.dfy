/** The `Decal` record of the configurator's store and the pure operations
    the store performs on its ordered collection of decals: attaching an id
    to a new record and filtering the collection by id. */
module Decals {

  datatype Option<+T> = None | Some(value: T)

  /** A `[number, number, number]` triple: a position, an Euler rotation in
      radians or a per-axis scale. */
  datatype Vec3 = Vec3(x: real, y: real, z: real)

  /** `Omit<Decal, 'id'>`: the record a caller hands to `addDecal`. */
  datatype DecalSpec = DecalSpec(position: Vec3, rotation: Vec3, scale: Vec3, textureUrl: string)

  /** A placed decal. */
  datatype Decal = Decal(id: string, position: Vec3, rotation: Vec3, scale: Vec3, textureUrl: string)

  /** The fields of a decal other than its id. */
  function SpecOf(d: Decal): DecalSpec {
    DecalSpec(d.position, d.rotation, d.scale, d.textureUrl)
  }

  /** `{ ...decal, id }`: the spread copies every field of the input and adds the id. */
  function WithId(spec: DecalSpec, id: string): (d: Decal)
    ensures d.id == id && SpecOf(d) == spec
  {
    Decal(id, spec.position, spec.rotation, spec.scale, spec.textureUrl)
  }

  /** Forgetting the id and putting it back gives the same decal. */
  lemma WithIdSpecOf(d: Decal)
    ensures WithId(SpecOf(d), d.id) == d
  {
  }

  ghost predicate HasId(ds: seq<Decal>, id: string) {
    exists i :: 0 <= i < |ds| && ds[i].id == id
  }

  /** No two decals of the collection share an id. */
  ghost predicate UniqueIds(ds: seq<Decal>) {
    forall i, j :: 0 <= i < j < |ds| ==> ds[i].id != ds[j].id
  }

  /** `decals.filter((d) => d.id !== id)`: every decal whose id differs from
      `id`, in the original order; ALL entries with that id are dropped. */
  function Without(ds: seq<Decal>, id: string): (r: seq<Decal>)
    ensures |r| <= |ds|
    ensures forall d :: d in r <==> d in ds && d.id != id
    ensures !HasId(r, id)
    decreases |ds|
  {
    if ds == [] then []
    else if ds[0].id == id then Without(ds[1..], id)
    else [ds[0]] + Without(ds[1..], id)
  }

  /** Filtering distributes over concatenation: the surviving decals keep
      their relative order. */
  lemma {:induction false} WithoutConcat(a: seq<Decal>, b: seq<Decal>, id: string)
    ensures Without(a + b, id) == Without(a, id) + Without(b, id)
    decreases |a|
  {
    if a == [] {
      assert a + b == b;
    } else {
      assert (a + b)[0] == a[0];
      assert (a + b)[1..] == a[1..] + b;
      WithoutConcat(a[1..], b, id);
    }
  }

  /** Removing an id that no decal carries changes nothing. */
  lemma {:induction false} WithoutAbsent(ds: seq<Decal>, id: string)
    requires !HasId(ds, id)
    ensures Without(ds, id) == ds
    decreases |ds|
  {
    if ds != [] {
      assert ds[0].id != id;
      assert !HasId(ds[1..], id) by {
        forall i | 0 <= i < |ds[1..]| ensures ds[1..][i].id != id {
          assert ds[1..][i] == ds[i + 1];
        }
      }
      WithoutAbsent(ds[1..], id);
      assert ds == [ds[0]] + ds[1..];
    }
  }

  /** Filtering keeps ids pairwise distinct. */
  lemma {:induction false} WithoutKeepsUnique(ds: seq<Decal>, id: string)
    requires UniqueIds(ds)
    ensures UniqueIds(Without(ds, id))
    decreases |ds|
  {
    if ds != [] {
      var tail := ds[1..];
      assert UniqueIds(tail) by {
        forall i, j | 0 <= i < j < |tail| ensures tail[i].id != tail[j].id {
          assert tail[i] == ds[i + 1] && tail[j] == ds[j + 1];
        }
      }
      WithoutKeepsUnique(tail, id);
      if ds[0].id != id {
        var rest := Without(tail, id);
        forall k | 0 <= k < |rest| ensures rest[k].id != ds[0].id {
          assert rest[k] in tail;
          var m :| 0 <= m < |tail| && tail[m] == rest[k];
          assert tail[m] == ds[m + 1];
        }
        var r := [ds[0]] + rest;
        forall i, j | 0 <= i < j < |r| ensures r[i].id != r[j].id {
          assert r[j] == rest[j - 1];
          if i > 0 { assert r[i] == rest[i - 1]; }
        }
      }
    }
  }

  /** With unique ids, the id of the entry at `i` occurs nowhere else. */
  lemma UniqueIdsAround(ds: seq<Decal>, i: int)
    requires UniqueIds(ds) && 0 <= i < |ds|
    ensures !HasId(ds[..i], ds[i].id) && !HasId(ds[i + 1..], ds[i].id)
  {
  }

  /** Filtering out the id of a last entry that occurs nowhere before it
      removes just that entry. */
  lemma WithoutLast(pre: seq<Decal>, d: Decal)
    requires !HasId(pre, d.id)
    ensures Without(pre + [d], d.id) == pre
  {
    assert Without([d], d.id) == [] by { assert [d][1..] == []; }
    WithoutAbsent(pre, d.id);
    WithoutConcat(pre, [d], d.id);
  }

  /** Filtering out an id that occurs only at position `|pre|` removes that
      one entry. */
  lemma WithoutSingleOccurrence(pre: seq<Decal>, d: Decal, post: seq<Decal>)
    requires !HasId(pre, d.id) && !HasId(post, d.id)
    ensures Without(pre + [d] + post, d.id) == pre + post
  {
    WithoutLast(pre, d);
    WithoutAbsent(post, d.id);
    WithoutConcat(pre + [d], post, d.id);
  }

  /** With unique ids, filtering by the id of the entry at `i` removes that
      one entry and nothing else. */
  lemma WithoutUniquePresent(ds: seq<Decal>, i: int)
    requires UniqueIds(ds) && 0 <= i < |ds|
    ensures Without(ds, ds[i].id) == ds[..i] + ds[i + 1..]
  {
    UniqueIdsAround(ds, i);
    assert ds == ds[..i] + [ds[i]] + ds[i + 1..];
    WithoutSingleOccurrence(ds[..i], ds[i], ds[i + 1..]);
  }

  /** Appending a decal whose id is fresh keeps ids pairwise distinct. */
  lemma AppendKeepsUnique(ds: seq<Decal>, spec: DecalSpec, id: string)
    requires UniqueIds(ds) && !HasId(ds, id)
    ensures UniqueIds(ds + [WithId(spec, id)])
  {
  }
}
