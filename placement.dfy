/** What the two pointer-up handlers share: the pointer event the renderer
    delivers, the three.js calls they make, the placement gate and the
    outcome of one pointer-up. */
module Placement {
  import opened Decals

  /** The sixteen entries of an object's world matrix. */
  type Matrix4 = seq<real>

  /** The intersected triangle of a hit; only its normal is used. */
  datatype Face = Face(normal: Vec3)

  /** What a raycast hit reports: the point, the face if one was resolved,
      and the hit object's world matrix if it has one. */
  datatype Hit = Hit(point: Vec3, face: Option<Face>, matrixWorld: Option<Matrix4>)

  /** The three.js geometry the handlers call, left uninterpreted:
      `transformDirection` is `Vector3.transformDirection`, and `baseEuler`
      is `Quaternion.setFromUnitVectors((0, 0, 1), normal)` followed by
      `Euler.setFromQuaternion`, the base orientation for a normal. */
  datatype ThreeMath = ThreeMath(
    transformDirection: (Vec3, Matrix4) -> Vec3,
    baseEuler: Vec3 -> Vec3)

  /** `Math.PI`. */
  const Pi: real := 3.141592653589793

  /** A pointer event; `stopPropagation` is the only thing a handler changes on it. */
  class PointerEvent {
    const hit: Hit
    var propagationStopped: bool

    constructor (hit: Hit)
      ensures this.hit == hit && !propagationStopped
    {
      this.hit := hit;
      propagationStopped := false;
    }

    method StopPropagation()
      modifies this`propagationStopped
      ensures propagationStopped
    {
      propagationStopped := true;
    }
  }

  /** JavaScript truthiness of a `string | null`: `null` and `""` are falsy. */
  predicate Truthy(texture: Option<string>) {
    texture.Some? && texture.value != ""
  }

  /** `decalMode && selectedDecalTexture`: a click may place a decal. */
  predicate PlacementEnabled(decalMode: bool, texture: Option<string>) {
    decalMode && Truthy(texture)
  }

  /** The face normal, carried into world space when the object has a world matrix. */
  function WorldNormal(face: Face, matrixWorld: Option<Matrix4>, three: ThreeMath): Vec3 {
    if matrixWorld.Some? then three.transformDirection(face.normal, matrixWorld.value) else face.normal
  }

  /** The Euler angles that turn the decal's +z projection axis onto the world normal. */
  function BaseOrientation(face: Face, matrixWorld: Option<Matrix4>, three: ThreeMath): Vec3 {
    three.baseEuler(WorldNormal(face, matrixWorld, three))
  }

  /** `(degrees * Math.PI) / 180`. */
  function DegreesToRadians(degrees: real): real {
    (degrees * Pi) / 180.0
  }

  /** The outcome of one pointer-up: not consumed, so it falls through to the
      orbit controls; or consumed, with the record passed to `addDecal` if a
      face was hit. */
  datatype Outcome = Passed | Consumed(placement: Option<DecalSpec>)

  /** The decals after `addDecal` runs for the outcome (with `id` from the
      generator), or unchanged when nothing is placed. */
  function Apply(decals: seq<Decal>, outcome: Outcome, id: string): (r: seq<Decal>)
    ensures outcome.Consumed? && outcome.placement.Some? ==>
              |r| == |decals| + 1 && r[..|decals|] == decals &&
              r[|decals|].id == id && SpecOf(r[|decals|]) == outcome.placement.value
    ensures !(outcome.Consumed? && outcome.placement.Some?) ==> r == decals
  {
    if outcome.Consumed? && outcome.placement.Some? then decals + [WithId(outcome.placement.value, id)]
    else decals
  }

  /** Gate and face check are the same in both handlers: the event is
      consumed exactly when the gate passes, and a decal is placed exactly
      when, moreover, a face was hit. */
  ghost predicate GatedLike(outcome: Outcome, decalMode: bool, texture: Option<string>, hit: Hit) {
    && (outcome.Passed? <==> !PlacementEnabled(decalMode, texture))
    && (outcome.Consumed? && outcome.placement.Some? <==>
          PlacementEnabled(decalMode, texture) && hit.face.Some?)
  }
}
