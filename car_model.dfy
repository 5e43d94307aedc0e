/** The pointer-up handler of the rendered car model: it places a decal at
    the hit point, turned onto the surface normal, spun by the user's
    rotation about its projection axis and scaled by the user's scale. */
module CarModel {
  import opened Decals
  import opened ConfigStore
  import opened Placement

  /** What one pointer-up does, given the store's values at click time. */
  function PointerUpOutcome(
    decalMode: bool, texture: Option<string>, decalScale: real, decalRotation: real,
    hit: Hit, three: ThreeMath): (o: Outcome)
    ensures GatedLike(o, decalMode, texture, hit)
    ensures o.Consumed? && o.placement.Some? ==>
              var d, base := o.placement.value, BaseOrientation(hit.face.value, hit.matrixWorld, three);
              && d.position == hit.point
              && d.textureUrl == texture.value && d.textureUrl != ""
              && d.scale == Vec3(decalScale, decalScale, decalScale)
              && d.rotation.x == base.x && d.rotation.y == base.y
              && d.rotation.z == base.z + decalRotation * Pi / 180.0
  {
    if !PlacementEnabled(decalMode, texture) then Passed
    else if hit.face.None? then Consumed(None)
    else
      var euler := BaseOrientation(hit.face.value, hit.matrixWorld, three);
      var spun := euler.(z := euler.z + DegreesToRadians(decalRotation));
      Consumed(Some(DecalSpec(hit.point, spun, Vec3(decalScale, decalScale, decalScale), texture.value)))
  }

  /** With no user rotation the decal keeps the base orientation exactly. */
  lemma ZeroRotationKeepsBase(
    decalMode: bool, texture: Option<string>, decalScale: real, hit: Hit, three: ThreeMath)
    requires PlacementEnabled(decalMode, texture) && hit.face.Some?
    ensures PointerUpOutcome(decalMode, texture, decalScale, 0.0, hit, three).placement
            == Some(DecalSpec(hit.point, BaseOrientation(hit.face.value, hit.matrixWorld, three),
                              Vec3(decalScale, decalScale, decalScale), texture.value))
  {
  }

  /** Changing the user rotation by `delta` degrees changes only the z angle,
      by `delta` converted to radians; 90 degrees adds exactly pi / 2. */
  lemma RotationOffsetIsAdditive(
    decalMode: bool, texture: Option<string>, decalScale: real, theta: real, delta: real,
    hit: Hit, three: ThreeMath)
    requires PlacementEnabled(decalMode, texture) && hit.face.Some?
    ensures var a := PointerUpOutcome(decalMode, texture, decalScale, theta, hit, three).placement.value;
            var b := PointerUpOutcome(decalMode, texture, decalScale, theta + delta, hit, three).placement.value;
            && b.rotation.z == a.rotation.z + DegreesToRadians(delta)
            && b == a.(rotation := a.rotation.(z := b.rotation.z))
    ensures DegreesToRadians(90.0) == Pi / 2.0
  {
  }

  /** `handlePointerUp`: gate, consume, face check, base orientation, user
      spin, capture of scale and texture, then `addDecal` with `freshId`,
      the id the generator hands out. */
  method HandlePointerUp(store: Store, event: PointerEvent, three: ThreeMath, freshId: string)
    requires store.Valid() && !HasId(store.decals, freshId)
    modifies store`decals, event`propagationStopped
    ensures store.Valid()
    ensures var o := PointerUpOutcome(store.decalMode, store.selectedDecalTexture,
                                      store.decalScale, store.decalRotation, event.hit, three);
            && event.propagationStopped == (old(event.propagationStopped) || o.Consumed?)
            && store.State() == old(store.State()).(decals := Apply(old(store.decals), o, freshId))
  {
    if !(store.decalMode && Truthy(store.selectedDecalTexture)) {
      return;
    }
    event.StopPropagation();
    var point, face := event.hit.point, event.hit.face;
    if face.None? {
      return;
    }
    var normal := face.value.normal;
    if event.hit.matrixWorld.Some? {
      normal := three.transformDirection(normal, event.hit.matrixWorld.value);
    }
    var euler := three.baseEuler(normal);
    var userRotationRad := (store.decalRotation * Pi) / 180.0;
    euler := euler.(z := euler.z + userRotationRad);
    store.AddDecal(DecalSpec(point, euler,
                             Vec3(store.decalScale, store.decalScale, store.decalScale),
                             store.selectedDecalTexture.value), freshId);
  }
}
