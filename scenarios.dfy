/** Client sequences of store actions and clicks, proved from the actions'
    contracts alone. */
module Scenarios {
  import opened Decals
  import opened ConfigStore
  import opened Placement
  import CarModel

  /** Selecting a texture and toggling decal mode twice leaves both the
      selection and the mode as they were after the selection. */
  method SelectionSurvivesToggles(store: Store, url: string)
    modifies store
    ensures store.selectedDecalTexture == Some(url)
    ensures store.State() == old(store.State()).(selectedDecalTexture := Some(url))
  {
    store.SetSelectedDecalTexture(Some(url));
    store.ToggleDecalMode();
    store.ToggleDecalMode();
  }

  /** A decal placed at scale 0.5 keeps scale 0.5 after the store's scale is
      set to 1.5: the scale is captured at click time. */
  method ScaleCapturedAtClick(store: Store, event: PointerEvent, three: ThreeMath, freshId: string)
    requires store.Valid() && !HasId(store.decals, freshId)
    requires PlacementEnabled(store.decalMode, store.selectedDecalTexture) && event.hit.face.Some?
    requires store.decalScale == 0.5
    modifies store, event
    ensures |store.decals| == |old(store.decals)| + 1
    ensures store.decals[|store.decals| - 1].scale == Vec3(0.5, 0.5, 0.5)
    ensures store.decalScale == 1.5
  {
    CarModel.HandlePointerUp(store, event, three, freshId);
    store.SetDecalScale(1.5);
  }

  /** After clearing, one placement yields a collection of exactly one decal. */
  method ClearThenAdd(store: Store, decal: DecalSpec, freshId: string)
    requires store.Valid()
    modifies store
    ensures store.Valid() && store.decals == [WithId(decal, freshId)]
  {
    store.ClearDecals();
    store.AddDecal(decal, freshId);
  }

  /** Adding a decal and then removing its id restores the collection. */
  method AddThenRemove(store: Store, decal: DecalSpec, freshId: string)
    requires store.Valid() && !HasId(store.decals, freshId)
    modifies store
    ensures store.Valid() && store.State() == old(store.State())
  {
    ghost var before := store.decals;
    store.AddDecal(decal, freshId);
    WithoutConcat(before, [WithId(decal, freshId)], freshId);
    WithoutAbsent(before, freshId);
    assert [WithId(decal, freshId)][1..] == [];
    store.RemoveDecal(freshId);
  }
}
