# AutoShade panel configuration model

A Dafny model of the logic inside the AutoShade Pro configuration panel
(`ui/script.js`). The panel edits one configuration record: a material, three
side flags (left, right, bottom), two end slots (front, back) that hold either
the sentinel `"None"` or a model name from a fixed catalog, and a per-end cache
of the last model fitted, so that a disabled end can be re-enabled with it.
The user changes the record through the editor's transitions, the panel
redraws its controls from it, and named copies of it can be saved to and
deleted from a list in local storage.

Files and modules:

- `catalog.dfy`, module `Catalog`: the object catalog (`OBJECT_DATA`), the
  built-in presets (`DEFAULT_PRESETS`) and facts about them (names distinct,
  `"None"` not a name, every preset model is `"None"` or a catalog name).
- `state.dfy`, module `ShadeState`: the configuration as a value `State`, the
  invariant `WellFormed` (each cache entry is a catalog name, each end is
  `"None"` or a catalog name, an occupied end holds exactly its cached model),
  each editor transition as a function from old to new configuration, the
  view `refreshUI` draws as the function `Render`, and the lemmas relating them.
- `editor.dfy`, module `Editor`: class `Panel`, the global record updated in
  place by each editor method, plus the page controls that `RefreshUI`
  rewrites with two loops. `RefreshUI` makes the controls `Render` of the
  record. Each other method requires and keeps `Valid()` (well formed, page
  shows the record). `ToggleSide`, `ToggleCap`, `SetCap` and `ApplyPreset` end
  in the state their `ShadeState` function gives. `SetTheme` changes only the
  material, and `ApplyState` installs the state it is given.
- `selector.dfy`, module `Selector`: the local-storage entry of custom presets
  (`Absent`, `Malformed` or `Written(list)`), reading it, saving a copy of the
  configuration, deleting by index, the class `PresetStore` that does so in
  place, and the loop that marks the selected object card.
- `nav.dfy`, module `Nav`: the guard of `openSelector`.
- `session.dfy`, module `Session`: the page (configuration plus stored
  presets) driven by one user event at a time through the handlers, with only
  the events the page offers (a click on a card the selector built, or on a
  button or checkbox). It proves that any such run from page load keeps the
  invariant, and that a saved preset loads back exactly.

## Model

| member | source | states |
|---|---|---|
| Catalog.NoModelIsNotCatalogName | ui/script.js:10-21 | the sentinel `"None"` is not the name of any catalog object |
| Catalog.StandardShadeIsCatalogName | ui/script.js:10-21 | the model both caches start with is a catalog name |
| Catalog.CatalogNamesDistinct | ui/script.js:10-21 | two catalog entries with the same name are the same entry (ids do repeat) |
| Catalog.DefaultPresetModelsAreSlotValues | ui/script.js:24-37 | every built-in preset's model is `"None"` or a catalog name |
| ShadeState.SetCap | ui/script.js:200-212 | enabling sets the end and its cache entry to the model; disabling sets the end to `"None"` and keeps its cache entry; the other end, the sides and the material are untouched |
| ShadeState.ToggleCap | ui/script.js:193-198 | a checked end gets its cached model, an unchecked one `"None"`; the cache never changes; the other end, sides and material are untouched |
| ShadeState.ToggleSide | ui/script.js:185-191 | exactly the named side is flipped; other sides, ends, cache and material are untouched |
| ShadeState.ApplyPreset | ui/script.js:239-248 | sides become exactly (l, r, b) and the material is kept; a model other than `"None"` goes on both ends and into both cache entries; `"None"` clears both ends and keeps the cache |
| ShadeState.Render | ui/script.js:214-237 | each side checkbox and card highlight equals its flag; each end checkbox is checked iff the end is not `"None"`, its wrapper is disabled iff it is, and its label is the end's model when occupied and the cached model otherwise |
| ShadeState.Initial | ui/script.js:40-46 | the panel starts with material "Light", only the bottom side attached, no end fitted and both caches holding the standard shade |
| ShadeState.InitialWellFormed | ui/script.js:40-46 | the initial configuration satisfies the invariant |
| ShadeState.SetCapPreservesWellFormed | ui/script.js:200-212 | setCap with a catalog model preserves the invariant |
| ShadeState.ToggleCapPreservesWellFormed | ui/script.js:193-198 | toggleCap preserves the invariant |
| ShadeState.ToggleSidePreservesWellFormed | ui/script.js:185-191 | toggleSide preserves the invariant |
| ShadeState.ApplyPresetPreservesWellFormed | ui/script.js:239-248 | applyPreset with `"None"` or a catalog model preserves the invariant |
| ShadeState.DefaultPresetsPreserveWellFormed | ui/script.js:91-97 | applying any built-in preset, as its card does, preserves the invariant |
| ShadeState.CacheNeverHoldsNoModel | ui/script.js:42-44 | in a well-formed configuration no cache entry is `"None"` |
| ShadeState.DisableThenEnableRestores | ui/script.js:193-209 | unchecking an occupied end and checking it again gives back the whole configuration |
| ShadeState.EnableThenDisableRestores | ui/script.js:193-209 | checking an empty end and unchecking it again gives back the whole configuration |
| ShadeState.ToggleSideTwice | ui/script.js:185-191 | toggling the same side twice gives back the whole configuration |
| ShadeState.DisablingKeepsLabel | ui/script.js:228-232 | disabling an end unchecks it but its label keeps naming the same model |
| Editor.Panel.constructor | ui/script.js:40-46 | the page starts with the initial configuration, redrawn, and valid |
| Editor.Panel.RefreshUI | ui/script.js:214-237 | after the two loops the page controls are exactly `Render` of the configuration |
| Editor.Panel.SetTheme | ui/script.js:178-183 | the material becomes the theme; nothing else in the record changes; the invariant is kept |
| Editor.Panel.ToggleSide | ui/script.js:185-191 | reading the mirrored checkbox, the record becomes `ShadeState.ToggleSide` of the old one; the invariant is kept |
| Editor.Panel.ToggleCap | ui/script.js:193-198 | the record becomes `ShadeState.ToggleCap` of the old one; the invariant is kept |
| Editor.Panel.SetCap | ui/script.js:200-212 | the record becomes `ShadeState.SetCap` of the old one; the invariant is kept |
| Editor.Panel.ApplyPreset | ui/script.js:239-252 | after the loop over both ends the record is `ShadeState.ApplyPreset` of the old one; the invariant is kept |
| Editor.Panel.ApplyState | ui/script.js:254-268 | the record becomes exactly the given well-formed state; the invariant is kept |
| Selector.IsUsableName | ui/script.js:148-149 | a cancelled prompt or an empty name aborts the save; any non-empty name is used |
| Selector.ReadPresets | ui/script.js:143-145 | a written entry reads as its list; a missing or unparsable entry reads as the empty list |
| Selector.SavePreset | ui/script.js:147-157 | a cancelled or empty name leaves the entry unchanged; otherwise the list gains exactly one entry, at its end, holding the name and the configuration, and keeps earlier entries in order |
| Selector.RemovePreset | ui/script.js:160-168 | a declined confirmation leaves the entry unchanged; otherwise exactly the element at the index is removed and the others keep their order |
| Selector.SaveThenRemoveRestoresList | ui/script.js:147-166 | deleting the preset just saved gives back the list as it was |
| Selector.SavePreservesAllWellFormed | ui/script.js:147-157 | saving a well-formed configuration keeps every stored preset well formed, so loading one meets `ApplyState`'s precondition |
| Selector.RemovePreservesAllWellFormed | ui/script.js:160-168 | deleting keeps every remaining stored preset well formed |
| Selector.CardMarks | ui/script.js:122-126 | card i is marked iff its name is the end's model; at most one card is marked, none when the end is `"None"`, one when it is a catalog name |
| Selector.PresetStore.GetCustomPresets | ui/script.js:143-145 | returns the stored list, or the empty list when the entry is missing or unparsable |
| Selector.PresetStore.SaveCurrentAsPreset | ui/script.js:147-158 | the entry becomes `SavePreset` of the old entry, the prompt's answer and a copy of the panel's configuration |
| Selector.PresetStore.DeletePreset | ui/script.js:160-168 | the entry becomes `RemovePreset` of the old entry at the card's index |
| Nav.OpensSelector | ui/script.js:51 | the preset list always opens; an end's model list opens iff that end's checkbox is checked |
| Nav.OpensSelectorIffEndActive | ui/script.js:51 | on a page showing the configuration, an end's model list opens iff the end is occupied |
| Nav.OpenCapSelectorShowsCatalogModel | ui/script.js:50-60 | in a well-formed configuration an end's model list opens only on a catalog model, so exactly one card is marked |
| Session.Offered | ui/script.js:91-139 | an object card exists for each catalog entry, a preset card for each built-in preset, and a custom card and delete mark for each stored preset; buttons and checkboxes are always there |
| Session.Handle | ui/script.js:95-136 | an object card calls setCap(end, its name, true), a built-in card applyPreset with its l, r, b, m, a custom card applyState with its state, and a delete mark deletePreset at its index; save and delete change only storage, all other events change only the configuration |
| Session.HandlePreservesConsistent | ui/script.js:91-139 | every handler an offered event reaches (object card, preset card, custom card, delete, save, side, end checkbox, theme) keeps the configuration well formed and every stored preset well formed |
| Session.RunPreservesConsistent | ui/script.js:91-139 | any feasible sequence of events keeps the page consistent, by induction on the sequence |
| Session.SessionKeepsInvariant | ui/script.js:10-46 | from page load, with well-formed stored presets, after any feasible sequence of events each end holds `"None"` or a catalog name and each cache entry a catalog name |
| Session.RunKeepsStorage | ui/script.js:147-168 | only saving and deleting write the stored presets: any run of other events leaves them as they were, by induction on the run |
| Session.SaveThenLoadRestores | ui/script.js:104-158 | saving under a non-empty name, then any events that do not write storage, then clicking the new custom card gives back exactly the configuration that was saved |

## Left out

- The host bridge (`sync`, `generate`, `undo`, `updateSetting`, `updateKey`): one-way calls into the game runtime with no result the panel observes.
- All DOM work beyond the controls `refreshUI` sets: building the selector cards, showing and hiding views (`openSelector` past its guard, whose only use in this model is `Nav`'s statement of when an end's list opens; `closeSelector`, `toggleSettings`), the save button's visibility, the theme button highlight and the "Custom Config"/"Custom Preset" label text.
- `currentContext`: it is set up in the record, written by `openSelector` (ui/script.js:53) and never read; it is also in the saved JSON copy, where `applyState` ignores it.
- Local storage, `JSON.stringify`/`JSON.parse`, `prompt` and `confirm`: the entry is modelled by what it parses to (missing, unparsable or a list), the copy of the configuration is a value copy, and the prompt and confirmation results are method inputs. A stored value that parses to something other than a list of presets is not modelled.
- Editor.Panel.ToggleCap: the checkbox value the browser has just set is passed in as `checked` rather than read from the page.
- Editor.Panel.SetCap: requires a catalog model; its two callers pass an object card's name or the end's cached model, so other names are not modelled on the panel (`ShadeState.SetCap` itself takes any name).
- Editor.Panel.ApplyPreset: requires `"None"` or a catalog model; it is only called from the built-in preset cards (`DefaultPresetModelsAreSlotValues`).
- Editor.Panel.ApplyState: requires the new state to be well formed; the code does not check this, but every stored preset is a copy of a well-formed configuration (`SavePreservesAllWellFormed`, `RemovePreservesAllWellFormed`).
- Selector.PresetStore.DeletePreset: requires a valid index; the code only ever passes a card's position in the list, so `splice` on a negative or out-of-range index is not modelled.
- The reference sharing `applyState` creates between the record and the parsed preset: each load parses a fresh copy, so it cannot be observed.
- The page's markup is not part of this model: that the side cards, end checkboxes and theme buttons call `toggleSide`, `toggleCap` and `setTheme` is taken from the handlers' names and arguments.
- Session.SessionKeepsInvariant: assumes the stored presets found at page load are well formed; a hand-edited local-storage entry could hold any state, which `applyState` would load unchecked.
- Side flags are set through `toggleSide` only while the checkboxes mirror the record, as `refreshUI` leaves them; a page whose checkboxes disagree with the record is outside `Panel.Valid()`.
