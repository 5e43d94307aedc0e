/** The pointer-up handler of the older primitive-shape car: the same gate
    and face check as the car model's, but a fixed scale of 0.5 and no user
    spin. */
module CarMesh {
  import opened Decals
  import opened ConfigStore
  import opened Placement
  import CarModel

  /** The fixed scale of every decal this handler places. */
  const FixedScale: real := 0.5

  /** What one pointer-up does; the store's scale and rotation play no part. */
  function PointerUpOutcome(decalMode: bool, texture: Option<string>, hit: Hit, three: ThreeMath): (o: Outcome)
    ensures GatedLike(o, decalMode, texture, hit)
    ensures o.Consumed? && o.placement.Some? ==>
              var d := o.placement.value;
              && d.position == hit.point
              && d.textureUrl == texture.value && d.textureUrl != ""
              && d.scale == Vec3(0.5, 0.5, 0.5)
              && d.rotation == BaseOrientation(hit.face.value, hit.matrixWorld, three)
  {
    if !PlacementEnabled(decalMode, texture) then Passed
    else if hit.face.None? then Consumed(None)
    else
      var euler := BaseOrientation(hit.face.value, hit.matrixWorld, three);
      Consumed(Some(DecalSpec(hit.point, euler, Vec3(FixedScale, FixedScale, FixedScale), texture.value)))
  }

  /** This handler places what the car model's handler places when the
      store's scale is 0.5 and its rotation 0. */
  lemma MatchesCarModelAtDefaults(decalMode: bool, texture: Option<string>, hit: Hit, three: ThreeMath)
    ensures PointerUpOutcome(decalMode, texture, hit, three)
            == CarModel.PointerUpOutcome(decalMode, texture, 0.5, 0.0, hit, three)
  {
  }

  /** `handlePointerUp` of the primitive car. */
  method HandlePointerUp(store: Store, event: PointerEvent, three: ThreeMath, freshId: string)
    requires store.Valid() && !HasId(store.decals, freshId)
    modifies store`decals, event`propagationStopped
    ensures store.Valid()
    ensures var o := PointerUpOutcome(store.decalMode, store.selectedDecalTexture, event.hit, three);
            && event.propagationStopped == (old(event.propagationStopped) || o.Consumed?)
            && store.State() == old(store.State()).(decals := Apply(old(store.decals), o, freshId))
  {
    if !(store.decalMode && Truthy(store.selectedDecalTexture)) {
      return;
    }
    event.StopPropagation();
    var point, face := event.hit.point, event.hit.face;
    if face.None? {
      return;
    }
    var normal := face.value.normal;
    if event.hit.matrixWorld.Some? {
      normal := three.transformDirection(normal, event.hit.matrixWorld.value);
    }
    var euler := three.baseEuler(normal);
    store.AddDecal(DecalSpec(point, euler, Vec3(FixedScale, FixedScale, FixedScale),
                             store.selectedDecalTexture.value), freshId);
  }
}
