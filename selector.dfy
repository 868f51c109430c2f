/**
 * The selector's list logic: the custom presets kept in one local-storage
 * entry (read, append a copy of the configuration, remove by index), and
 * which object card is marked as selected when choosing an end's model.
 * The entry is modelled by what it decodes to; the JSON text is not.
 */
module Selector {
  import opened Catalog
  import opened ShadeState
  import Editor

  /** A user-saved preset: its name and a copy of the configuration. */
  datatype CustomPreset = CustomPreset(name: string, state: State)

  /**
   * The local-storage entry holding the custom presets: never written,
   * holding text that does not parse, or holding a list of presets.
   */
  datatype StoredPresets = Absent | Malformed | Written(presets: seq<CustomPreset>)

  /** The answer to the name prompt: cancelled, or the text entered (possibly empty). */
  datatype Prompt = Cancelled | Entered(text: string)

  /**
   * Whether the prompt gave a name the preset can be saved under: a
   * cancelled prompt and an empty name are both falsy and abort the save.
   */
  predicate IsUsableName(answer: Prompt)
    ensures answer == Cancelled || answer == Entered("") ==> !IsUsableName(answer)
    ensures answer.Entered? && |answer.text| > 0 ==> IsUsableName(answer)
  {
    answer.Entered? && answer.text != ""
  }

  /** getCustomPresets: the stored list, or the empty list when the entry is missing or does not parse. */
  function ReadPresets(entry: StoredPresets): (list: seq<CustomPreset>)
    ensures entry.Written? ==> list == entry.presets
    ensures !entry.Written? ==> list == []
  {
    match entry
    case Written(presets) => presets
    case _ => []
  }

  /**
   * The entry after saveCurrentAsPreset: unchanged when the prompt was
   * cancelled or left empty; otherwise the list read back gains exactly one
   * preset, at its end, holding `snapshot`, and keeps every earlier preset
   * in order.
   */
  function SavePreset(entry: StoredPresets, answer: Prompt, snapshot: State): (r: StoredPresets)
    ensures !IsUsableName(answer) ==> r == entry
    ensures IsUsableName(answer) ==> r.Written?
    ensures IsUsableName(answer) ==> |ReadPresets(r)| == |ReadPresets(entry)| + 1
    ensures IsUsableName(answer) ==> ReadPresets(r)[..|ReadPresets(entry)|] == ReadPresets(entry)
    ensures IsUsableName(answer) ==> ReadPresets(r)[|ReadPresets(entry)|] == CustomPreset(answer.text, snapshot)
  {
    if !IsUsableName(answer) then entry
    else Written(ReadPresets(entry) + [CustomPreset(answer.text, snapshot)])
  }

  /**
   * The entry after deletePreset(index): unchanged when the confirmation is
   * declined; otherwise the list read back loses exactly the preset at
   * `index` and keeps the others in order.
   */
  function RemovePreset(entry: StoredPresets, index: nat, confirmed: bool): (r: StoredPresets)
    requires index < |ReadPresets(entry)|
    ensures !confirmed ==> r == entry
    ensures confirmed ==> r.Written? && |ReadPresets(r)| == |ReadPresets(entry)| - 1
    ensures confirmed ==> forall j :: 0 <= j < index ==> ReadPresets(r)[j] == ReadPresets(entry)[j]
    ensures confirmed ==> forall j :: index <= j < |ReadPresets(r)| ==> ReadPresets(r)[j] == ReadPresets(entry)[j + 1]
    ensures confirmed ==> multiset(ReadPresets(r)) + multiset{ReadPresets(entry)[index]} == multiset(ReadPresets(entry))
  {
    if !confirmed then entry
    else
      var list := ReadPresets(entry);
      assert list == list[..index] + [list[index]] + list[index + 1..];
      Written(list[..index] + list[index + 1..])
  }

  /** Every preset in the list holds a well-formed configuration. */
  predicate AllWellFormed(list: seq<CustomPreset>) {
    forall j :: 0 <= j < |list| ==> WellFormed(list[j].state)
  }

  /** Deleting the preset just saved gives back the list as it was before saving. */
  lemma SaveThenRemoveRestoresList(entry: StoredPresets, answer: Prompt, snapshot: State)
    requires IsUsableName(answer)
    ensures |ReadPresets(entry)| < |ReadPresets(SavePreset(entry, answer, snapshot))|
    ensures ReadPresets(RemovePreset(SavePreset(entry, answer, snapshot), |ReadPresets(entry)|, true)) == ReadPresets(entry)
  {
  }

  /** Saving a well-formed configuration keeps every stored preset well formed. */
  lemma SavePreservesAllWellFormed(entry: StoredPresets, answer: Prompt, snapshot: State)
    requires AllWellFormed(ReadPresets(entry)) && WellFormed(snapshot)
    ensures AllWellFormed(ReadPresets(SavePreset(entry, answer, snapshot)))
  {
  }

  /** Deleting a preset keeps every remaining preset well formed. */
  lemma RemovePreservesAllWellFormed(entry: StoredPresets, index: nat, confirmed: bool)
    requires index < |ReadPresets(entry)| && AllWellFormed(ReadPresets(entry))
    ensures AllWellFormed(ReadPresets(RemovePreset(entry, index, confirmed)))
  {
  }

  /**
   * The object cards of an end's selector, in catalog order: card `i` is
   * marked selected exactly when its name is the end's current model. As
   * catalog names are distinct, at most one card is marked, none when the
   * end is empty, and exactly one when it holds a catalog name.
   */
  method CardMarks(current: string) returns (marks: seq<bool>)
    ensures |marks| == |ObjectData|
    ensures forall i :: 0 <= i < |marks| ==> (marks[i] <==> ObjectData[i].name == current)
    ensures forall i, j :: 0 <= i < |marks| && 0 <= j < |marks| && marks[i] && marks[j] ==> i == j
    ensures current == NoModel ==> forall i :: 0 <= i < |marks| ==> !marks[i]
    ensures IsCatalogName(current) ==> exists i :: 0 <= i < |marks| && marks[i]
  {
    marks := [];
    for i := 0 to |ObjectData|
      invariant |marks| == i
      invariant forall k :: 0 <= k < i ==> (marks[k] <==> ObjectData[k].name == current)
    {
      marks := marks + [ObjectData[i].name == current];
    }
    CatalogNamesDistinct();
    NoModelIsNotCatalogName();
  }

  /** The custom presets, kept in local storage. */
  class PresetStore {
    var entry: StoredPresets

    constructor (stored: StoredPresets)
      ensures entry == stored
    {
      entry := stored;
    }

    /** getCustomPresets: reads the stored list; a missing or unparsable entry reads as empty. */
    method GetCustomPresets() returns (list: seq<CustomPreset>)
      ensures list == ReadPresets(entry)
    {
      list := ReadPresets(entry);
    }

    /**
     * saveCurrentAsPreset: `answer` is the prompt's result; with a usable
     * name, appends a copy of the panel's configuration under that name.
     */
    method SaveCurrentAsPreset(answer: Prompt, panel: Editor.Panel)
      modifies this
      ensures entry == SavePreset(old(entry), answer, panel.Snapshot())
    {
      if !IsUsableName(answer) {
        return;
      }
      var presets := GetCustomPresets();
      presets := presets + [CustomPreset(answer.text, panel.Snapshot())];
      entry := Written(presets);
    }

    /**
     * deletePreset: `index` is the card's position in the list as last read
     * and `confirmed` the confirmation's result; removes that preset.
     */
    method DeletePreset(index: nat, confirmed: bool)
      requires index < |ReadPresets(entry)|
      modifies this
      ensures entry == RemovePreset(old(entry), index, confirmed)
    {
      if !confirmed {
        return;
      }
      var presets := GetCustomPresets();
      presets := presets[..index] + presets[index + 1..];
      entry := Written(presets);
    }
  }
}
