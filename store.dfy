/** The configurator's single shared store: its fields, its fixed defaults,
    its two read-only preset tables and every action that replaces fields. */
module ConfigStore {
  import opened Decals

  /** An entry of the preset decal table. */
  datatype PresetDecal = PresetDecal(name: string, url: string)

  /** The twelve preset body colours, in the order the panel shows them. */
  const PresetColors: seq<string> := [
    "#e63946", // red
    "#f4a261", // orange
    "#e9c46a", // yellow
    "#2a9d8f", // teal
    "#264653", // dark blue
    "#1d3557", // navy
    "#457b9d", // steel blue
    "#a8dadc", // light blue
    "#f1faee", // off white
    "#000000", // black
    "#ffffff", // white
    "#6b705c"  // olive
  ]

  /** The three preset decal images. */
  const PresetDecals: seq<PresetDecal> := [
    PresetDecal("Flame", "https://cdn-icons-png.flaticon.com/512/785/785116.png"),
    PresetDecal("Star", "https://cdn-icons-png.flaticon.com/512/1828/1828884.png"),
    PresetDecal("Lightning", "https://cdn-icons-png.flaticon.com/512/1146/1146869.png")
  ]

  /** The mutable part of the store, as one value. */
  datatype ConfigState = ConfigState(
    bodyColor: string,
    decalMode: bool,
    selectedDecalTexture: Option<string>,
    decalScale: real,
    decalRotation: real,
    decals: seq<Decal>)

  /** The state the store is created with. */
  const InitialState: ConfigState := ConfigState("#e63946", false, None, 0.5, 0.0, [])

  class Store {
    var bodyColor: string
    var decalMode: bool
    var selectedDecalTexture: Option<string>
    var decalScale: real
    /** In degrees. */
    var decalRotation: real
    var decals: seq<Decal>
    /** The preset tables are constants: no action can replace them. */
    const presetColors: seq<string>
    const presetDecals: seq<PresetDecal>

    function State(): ConfigState
      reads this
    {
      ConfigState(bodyColor, decalMode, selectedDecalTexture, decalScale, decalRotation, decals)
    }

    /** The store's invariant: ids are pairwise distinct. */
    ghost predicate Valid()
      reads this
    {
      UniqueIds(decals)
    }

    constructor ()
      ensures Valid() && State() == InitialState
      ensures presetColors == PresetColors && |presetColors| == 12
      ensures presetDecals == PresetDecals && |presetDecals| == 3
    {
      bodyColor := "#e63946";
      decalMode := false;
      selectedDecalTexture := None;
      decalScale := 0.5;
      decalRotation := 0.0;
      decals := [];
      presetColors := PresetColors;
      presetDecals := PresetDecals;
    }

    /** Replaces the body colour, unvalidated. */
    method SetBodyColor(color: string)
      modifies this`bodyColor
      ensures State() == old(State()).(bodyColor := color)
    {
      bodyColor := color;
    }

    /** Negates the decal mode; the selected texture is left alone. */
    method ToggleDecalMode()
      modifies this`decalMode
      ensures decalMode == !old(decalMode)
      ensures State() == old(State()).(decalMode := !old(decalMode))
    {
      decalMode := !decalMode;
    }

    method SetDecalMode(mode: bool)
      modifies this`decalMode
      ensures State() == old(State()).(decalMode := mode)
    {
      decalMode := mode;
    }

    /** Replaces the pending texture; `None` stands for `null`. */
    method SetSelectedDecalTexture(url: Option<string>)
      modifies this`selectedDecalTexture
      ensures State() == old(State()).(selectedDecalTexture := url)
    {
      selectedDecalTexture := url;
    }

    /** Stores any value as-is: no clamping to the slider's range. */
    method SetDecalScale(scale: real)
      modifies this`decalScale
      ensures State() == old(State()).(decalScale := scale)
    {
      decalScale := scale;
    }

    /** Stores any value as-is: no clamping to the slider's range. */
    method SetDecalRotation(rotation: real)
      modifies this`decalRotation
      ensures State() == old(State()).(decalRotation := rotation)
    {
      decalRotation := rotation;
    }

    /** Appends `{ ...decal, id }`, where `id` comes from the id generator,
        which promises an id no current decal carries. */
    method AddDecal(decal: DecalSpec, id: string)
      requires Valid() && !HasId(decals, id)
      modifies this`decals
      ensures Valid()
      ensures State() == old(State()).(decals := old(decals) + [WithId(decal, id)])
      ensures |decals| == |old(decals)| + 1 && decals[..|old(decals)|] == old(decals)
      ensures decals[|decals| - 1].id == id && SpecOf(decals[|decals| - 1]) == decal
    {
      AppendKeepsUnique(decals, decal, id);
      decals := decals + [WithId(decal, id)];
    }

    /** Drops every decal with this id; a no-op when there is none. */
    method RemoveDecal(id: string)
      requires Valid()
      modifies this`decals
      ensures Valid() && !HasId(decals, id)
      ensures State() == old(State()).(decals := Without(old(decals), id))
      ensures !HasId(old(decals), id) ==> decals == old(decals)
      ensures forall i :: 0 <= i < |old(decals)| && old(decals)[i].id == id ==>
                decals == old(decals)[..i] + old(decals)[i + 1..]
    {
      WithoutKeepsUnique(decals, id);
      if !HasId(decals, id) {
        WithoutAbsent(decals, id);
      }
      forall i | 0 <= i < |decals| && decals[i].id == id
        ensures Without(decals, id) == decals[..i] + decals[i + 1..]
      {
        WithoutUniquePresent(decals, i);
      }
      decals := Without(decals, id);
    }

    method ClearDecals()
      modifies this`decals
      ensures Valid()
      ensures State() == old(State()).(decals := [])
    {
      decals := [];
    }
  }
}
