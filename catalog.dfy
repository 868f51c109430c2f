/**
 * The fixed data tables of the AutoShade panel: the catalog of objects that
 * can be fitted to an end of the shade, and the built-in configuration
 * presets.
 */
module Catalog {

  /** The sentinel an end slot holds when nothing is fitted there. */
  const NoModel: string := "None"

  /** One entry of the object catalog: its display name and its game object id. */
  datatype CatalogObject = CatalogObject(name: string, id: nat)

  /** The object catalog, in display order. Ids repeat; names do not. */
  const ObjectData: seq<CatalogObject> := [
    CatalogObject("Shade (Standard)", 3458),
    CatalogObject("JetDoor (Front)", 3095),
    CatalogObject("JetDoor (Back)", 3095),
    CatalogObject("Nbbal (Dark)", 6959),
    CatalogObject("Nbbal (Orange)", 8417),
    CatalogObject("Tower", 16327),
    CatalogObject("Crate", 3798),
    CatalogObject("Jetty", 3406),
    CatalogObject("Jetty + Shade", 3406),
    CatalogObject("Mesh", 3280)
  ]

  /** The model the panel starts with in both end caches. */
  const StandardShade: string := "Shade (Standard)"

  /** Whether `m` names an object of the catalog. */
  predicate IsCatalogName(m: string) {
    exists i :: 0 <= i < |ObjectData| && ObjectData[i].name == m
  }

  /** What an end slot may hold: the sentinel or a catalog name. */
  predicate IsSlotValue(m: string) {
    m == NoModel || IsCatalogName(m)
  }

  /**
   * A built-in preset: the three side flags it sets and the model it puts
   * on both ends (`NoModel` clears both ends).
   */
  datatype Preset = Preset(name: string, left: bool, right: bool, bottom: bool, model: string)

  /** The built-in presets, in display order. */
  const DefaultPresets: seq<Preset> := [
    Preset("Full Coverage (Standard)", true, true, true, "Shade (Standard)"),
    Preset("Full Coverage (Tower)", true, true, true, "Tower"),
    Preset("Full Coverage (Crate)", true, true, true, "Crate"),
    Preset("Full Coverage (Jetty)", true, true, true, "Jetty"),
    Preset("Full Coverage (Mesh)", true, true, true, "Mesh"),
    Preset("Sides Only (Left + Right)", true, true, false, "None"),
    Preset("Tunnel Mode (U-Shape)", true, true, true, "None"),
    Preset("Bottom Only", false, false, true, "None"),
    Preset("Ends Only (Front + Back)", false, false, false, "Shade (Standard)"),
    Preset("Reset All", false, false, false, "None")
  ]

  /** The sentinel is not the name of any catalog object. */
  lemma NoModelIsNotCatalogName()
    ensures !IsCatalogName(NoModel)
  {
  }

  /** The standard shade, which the caches start with, is in the catalog. */
  lemma StandardShadeIsCatalogName()
    ensures IsCatalogName(StandardShade)
  {
    assert ObjectData[0].name == StandardShade;
  }

  /** No two catalog entries share a name, so a name picks out one card. */
  lemma CatalogNamesDistinct()
    ensures forall i, j :: 0 <= i < |ObjectData| && 0 <= j < |ObjectData| && ObjectData[i].name == ObjectData[j].name ==> i == j
  {
  }

  /** Every built-in preset puts the sentinel or a catalog name on the ends. */
  lemma DefaultPresetModelsAreSlotValues()
    ensures forall k :: 0 <= k < |DefaultPresets| ==> IsSlotValue(DefaultPresets[k].model)
  {
    // the five catalog models the presets use, each with its catalog entry
    assert IsCatalogName("Shade (Standard)") by { assert ObjectData[0].name == "Shade (Standard)"; }
    assert IsCatalogName("Tower") by { assert ObjectData[5].name == "Tower"; }
    assert IsCatalogName("Crate") by { assert ObjectData[6].name == "Crate"; }
    assert IsCatalogName("Jetty") by { assert ObjectData[7].name == "Jetty"; }
    assert IsCatalogName("Mesh") by { assert ObjectData[9].name == "Mesh"; }
  }
}
