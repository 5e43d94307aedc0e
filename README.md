# Car configurator: store and decal placement

A model in Dafny of the core of a browser car configurator. A user paints the car
body and clicks on the car to place image decals. The model covers two parts.

- **The configuration store** (`ConfigStore.Store`). It is one shared object with
  these fields: body colour, decal mode, selected decal texture, decal scale,
  decal rotation in degrees, and the ordered decal collection. It also holds two
  read-only preset tables. Every action is a method whose `modifies` clause names
  only the field that action replaces. Its `ensures` clause gives the whole new
  state as `old(State())` with that one field updated. The object invariant
  `Valid()` says that decal ids are pairwise distinct. `addDecal` and
  `removeDecal` keep it, so ids stay distinct across any sequence of actions.
  `removeDecal` is the collection filter `Decals.Without`. Lemmas prove four
  things about it:
  - no remaining decal has the removed id;
  - a membership characterisation holds (a decal survives exactly when it was
    there and has a different id);
  - it distributes over concatenation, so the survivors keep their order;
  - removing an absent id is the identity.

  A further lemma covers the case where ids are distinct: filtering by an id
  that is present then removes exactly that one entry.
- **The pointer-up handlers** of `src/components/CarModel.tsx` (the live one)
  and `src/components/CarMesh.tsx` (the older primitive car). Each handler is an
  imperative method with the source's early returns and in-place updates of
  `normal` and `euler`. Its postcondition ties the event's propagation flag and
  the store's new state to a pure `PointerUpOutcome` function. That function's
  contract is the design contract:
  - the event is consumed exactly when `decalMode && selectedDecalTexture` is
    truthy;
  - a decal is placed exactly when, in addition, a face was hit;
  - the placed record has the hit point as its position and the selected texture
    as its `textureUrl`;
  - its scale is the uniform triple (`decalScale` for the car model, 0.5 for the
    mesh);
  - its rotation is the base orientation, plus `decalRotation * pi / 180` on z
    for the car model and nothing for the mesh.

Two kinds of input are parameters of the model.
- The three.js calls (`transformDirection` and the shortest-arc quaternion
  converted to Euler angles) are the two function values in
  `Placement.ThreeMath`, so the model leaves them uninterpreted.
- The id source `crypto.randomUUID` becomes a `freshId` argument. Its
  precondition `!HasId(decals, freshId)` is the generator's promise that the id
  is new.

In two places the code differs from the system's stated design, and the model
follows the code.
- The placement gate uses JavaScript truthiness, so an empty-string texture is
  rejected as well as `null` (`Placement.Truthy`).
- `removeDecal` filters out every entry with the id, not only the first.
  `Decals.WithoutUniquePresent` shows that the two readings agree while ids are
  distinct.

## Model

| member | source | states |
|---|---|---|
| `Decals.WithId` | src/store/useStore.ts:68 | the appended record carries the generated id and exactly the caller's fields |
| `Decals.Without` | src/store/useStore.ts:70-73 | the filtered collection is no longer, holds exactly the decals with a different id, and has none with the removed id |
| `Decals.WithoutConcat` | src/store/useStore.ts:72 | filtering distributes over concatenation, so surviving decals keep their relative order |
| `Decals.WithoutAbsent` | src/store/useStore.ts:70-73 | removing an id that no decal carries leaves the collection unchanged |
| `Decals.WithoutKeepsUnique` | src/store/useStore.ts:70-73 | removal keeps ids pairwise distinct |
| `Decals.WithoutUniquePresent` | src/store/useStore.ts:70-73 | with distinct ids, removing the id at position i removes exactly that entry and keeps the rest in order |
| `Decals.AppendKeepsUnique` | src/store/useStore.ts:66-69 | appending a record whose id is fresh keeps ids pairwise distinct |
| `ConfigStore.Store.constructor` | src/store/useStore.ts:44-106 | initial state is colour #e63946, mode off, no texture, scale 0.5, rotation 0, no decals; the 12 preset colours and 3 preset decals |
| `ConfigStore.Store.SetBodyColor` | src/store/useStore.ts:47 | replaces only the body colour, unvalidated |
| `ConfigStore.Store.ToggleDecalMode` | src/store/useStore.ts:51 | negates only the decal mode; the selected texture is untouched |
| `ConfigStore.Store.SetDecalMode` | src/store/useStore.ts:52 | replaces only the decal mode |
| `ConfigStore.Store.SetSelectedDecalTexture` | src/store/useStore.ts:56 | replaces only the selected texture, null included |
| `ConfigStore.Store.SetDecalScale` | src/store/useStore.ts:60 | stores any scale as-is, no clamping, nothing else changes |
| `ConfigStore.Store.SetDecalRotation` | src/store/useStore.ts:62 | stores any rotation as-is, no clamping, nothing else changes |
| `ConfigStore.Store.AddDecal` | src/store/useStore.ts:66-69 | grows the collection by one, the old decals are an unchanged prefix, the last one is the caller's fields plus the fresh id, ids stay distinct |
| `ConfigStore.Store.RemoveDecal` | src/store/useStore.ts:70-73 | no decal with the id remains, the collection is the order-preserving filter, an absent id is a no-op, a present id removes just its entry, ids stay distinct |
| `ConfigStore.Store.ClearDecals` | src/store/useStore.ts:74 | empties only the collection |
| `Placement.PointerEvent.StopPropagation` | src/components/CarModel.tsx:75 | the event is marked consumed |
| `Placement.Apply` | src/store/useStore.ts:66-69 | a placement appends one decal with the fresh id after an unchanged prefix; any other outcome leaves the collection unchanged |
| `CarModel.PointerUpOutcome` | src/components/CarModel.tsx:72-102 | consumed iff mode is on and texture truthy; placed iff also a face; position is the hit point, texture the selection, scale the uniform decalScale, rotation the base with decalRotation in radians added to z |
| `CarModel.ZeroRotationKeepsBase` | src/components/CarModel.tsx:87-98 | with rotation 0 the decal's rotation is the base orientation |
| `CarModel.RotationOffsetIsAdditive` | src/components/CarModel.tsx:92-94 | adding delta degrees changes only the z angle, by delta * pi / 180; 90 degrees is pi / 2 |
| `CarModel.HandlePointerUp` | src/components/CarModel.tsx:72-102 | propagation is stopped iff the gate passes; the store's decals become the outcome applied; no other store field changes |
| `CarMesh.PointerUpOutcome` | src/components/CarMesh.tsx:53-82 | same gate and face check; position is the hit point, texture the selection, scale always 0.5, rotation the base orientation unspun |
| `CarMesh.MatchesCarModelAtDefaults` | src/components/CarMesh.tsx:71-81 | the older handler places what the live one places with scale 0.5 and rotation 0 |
| `CarMesh.HandlePointerUp` | src/components/CarMesh.tsx:53-82 | propagation is stopped iff the gate passes; the store's decals become the outcome applied; no other store field changes |
| `Scenarios.SelectionSurvivesToggles` | src/store/useStore.ts:51-56 | a selection followed by two toggles leaves the selection and the mode as they were |
| `Scenarios.ScaleCapturedAtClick` | src/components/CarModel.tsx:99 | a decal placed at scale 0.5 keeps scale 0.5 after setDecalScale(1.5) |
| `Scenarios.ClearThenAdd` | src/store/useStore.ts:66-74 | after clearing, one add gives a collection of exactly that one decal |
| `Scenarios.AddThenRemove` | src/store/useStore.ts:66-73 | adding a decal and removing its id restores the whole state |

## Left out

- Three.js geometry (`face.normal.clone`, `transformDirection`,
  `Quaternion.setFromUnitVectors`, `Euler.setFromQuaternion`): these are
  floating-point library calls. They are parameters (`Placement.ThreeMath`), so
  the model does not prove that a normal of (0, 1, 0) gives a quarter turn about
  x.
- Numbers are exact reals. IEEE double rounding of the degrees-to-radians
  conversion and of `Math.PI` is not modelled; `Pi` is the decimal value of
  `Math.PI`.
- `crypto.randomUUID`: its randomness is not modelled. The id is an argument
  that the caller guarantees is not already in use.
- The handlers read the store's values from the render in which the closure was
  created. The model reads the store's current fields, that is, it assumes the
  view has re-rendered since the last action.
- Rendering: the decal components, the scene graph, the material-colour
  traversal effect of `src/components/CarModel.tsx` and the subscription and
  re-render mechanics of the state library. The model keeps only the
  synchronous state transitions.
- `src/components/ConfigPanel.tsx`, `src/components/Scene.tsx`,
  `src/components/LoadingScreen.tsx` and the `src/app` pages are UI layout,
  lighting, camera controls, asynchronous model loading and logging. They are not
  part of this model. The slider ranges in the panel are not enforced by the
  store, and the model does not enforce them either.
