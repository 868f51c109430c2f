/**
 * The configuration the panel edits, as a value: the material, the three
 * side flags, the two end slots and the per-end cache of the last model
 * used. Each editor transition is given here as a function from the old
 * configuration to the new one; the `Editor` module applies them in place.
 * The controls `refreshUI` draws are a function of the configuration too.
 */
module ShadeState {
  import opened Catalog

  /** The three side attachments. */
  datatype Side = Left | Right | Bottom

  /** The two end slots (caps). */
  datatype End = Front | Back {
    /** The end that is not this one. */
    function Other(): End {
      if this == Front then Back else Front
    }
  }

  /** One value per side. */
  datatype PerSide<T> = PerSide(left: T, right: T, bottom: T) {
    function Get(s: Side): T {
      match s
      case Left => left
      case Right => right
      case Bottom => bottom
    }

    /** This record with the value for side `s` replaced by `v`. */
    function Set(s: Side, v: T): (r: PerSide<T>)
      ensures r.Get(s) == v
      ensures forall t :: t != s ==> r.Get(t) == Get(t)
    {
      match s
      case Left => this.(left := v)
      case Right => this.(right := v)
      case Bottom => this.(bottom := v)
    }
  }

  /** One value per end. */
  datatype PerEnd<T> = PerEnd(front: T, back: T) {
    function Get(e: End): T {
      match e
      case Front => front
      case Back => back
    }

    /** This record with the value for end `e` replaced by `v`. */
    function Set(e: End, v: T): (r: PerEnd<T>)
      ensures r.Get(e) == v
      ensures r.Get(e.Other()) == Get(e.Other())
    {
      match e
      case Front => this.(front := v)
      case Back => this.(back := v)
    }
  }

  /**
   * The configuration record. `ends` holds `NoModel` or a model name per
   * end; `cachedModels` remembers, per end, the model last fitted there so
   * that a disabled end can be re-enabled with it.
   */
  datatype State = State(
    material: string,
    sides: PerSide<bool>,
    ends: PerEnd<string>,
    cachedModels: PerEnd<string>)

  /**
   * The configuration the panel starts with: the "Light" material, only the
   * bottom side attached, no end fitted, and both caches holding the
   * standard shade so that enabling an end fits it.
   */
  function Initial(): (st: State)
    ensures st.material == "Light"
    ensures !st.sides.Get(Left) && !st.sides.Get(Right) && st.sides.Get(Bottom)
    ensures forall e :: st.ends.Get(e) == NoModel && st.cachedModels.Get(e) == StandardShade
  {
    State("Light", PerSide(false, false, true), PerEnd(NoModel, NoModel), PerEnd(StandardShade, StandardShade))
  }

  /**
   * The invariant of one end: its cache entry is a catalog name, its slot
   * is the sentinel or a catalog name, and an occupied slot holds exactly
   * the cached model.
   */
  predicate EndWellFormed(st: State, e: End) {
    && IsCatalogName(st.cachedModels.Get(e))
    && IsSlotValue(st.ends.Get(e))
    && (st.ends.Get(e) != NoModel ==> st.ends.Get(e) == st.cachedModels.Get(e))
  }

  /** The invariant of the configuration: both ends are well formed. */
  predicate WellFormed(st: State) {
    EndWellFormed(st, Front) && EndWellFormed(st, Back)
  }

  /**
   * setCap: enabling an end fits `model` there and caches it; disabling it
   * clears the slot and keeps the cache. Nothing else changes.
   */
  function SetCap(st: State, e: End, model: string, isActive: bool): (r: State)
    ensures r.ends.Get(e) == (if isActive then model else NoModel)
    ensures r.cachedModels.Get(e) == (if isActive then model else st.cachedModels.Get(e))
    ensures r.ends.Get(e.Other()) == st.ends.Get(e.Other())
    ensures r.cachedModels.Get(e.Other()) == st.cachedModels.Get(e.Other())
    ensures r.sides == st.sides && r.material == st.material
  {
    if isActive then
      st.(ends := st.ends.Set(e, model), cachedModels := st.cachedModels.Set(e, model))
    else
      st.(ends := st.ends.Set(e, NoModel))
  }

  /**
   * toggleCap: the end's checkbox now reads `checked`; the end is set to
   * its cached model when checked and cleared otherwise. The cache itself
   * never changes.
   */
  function ToggleCap(st: State, e: End, checked: bool): (r: State)
    ensures r.ends.Get(e) == (if checked then st.cachedModels.Get(e) else NoModel)
    ensures r.ends.Get(e.Other()) == st.ends.Get(e.Other())
    ensures r.cachedModels == st.cachedModels
    ensures r.sides == st.sides && r.material == st.material
  {
    SetCap(st, e, st.cachedModels.Get(e), checked)
  }

  /** toggleSide: flips side `s` and nothing else. */
  function ToggleSide(st: State, s: Side): (r: State)
    ensures r.sides.Get(s) == !st.sides.Get(s)
    ensures forall t :: t != s ==> r.sides.Get(t) == st.sides.Get(t)
    ensures r.ends == st.ends && r.cachedModels == st.cachedModels && r.material == st.material
  {
    st.(sides := st.sides.Set(s, !st.sides.Get(s)))
  }

  /**
   * applyPreset: the sides become exactly (l, r, b); a model other than
   * the sentinel goes on both ends and into both cache entries, while the
   * sentinel clears both ends and keeps the cache. The material is kept.
   */
  function ApplyPreset(st: State, l: bool, r: bool, b: bool, model: string): (res: State)
    ensures res.sides.Get(Left) == l && res.sides.Get(Right) == r && res.sides.Get(Bottom) == b
    ensures res.material == st.material
    ensures model != NoModel ==> forall e :: res.ends.Get(e) == model && res.cachedModels.Get(e) == model
    ensures model == NoModel ==> forall e :: res.ends.Get(e) == NoModel
    ensures model == NoModel ==> res.cachedModels == st.cachedModels
  {
    var cached := if model != NoModel then PerEnd(model, model) else st.cachedModels;
    State(st.material, PerSide(l, r, b), PerEnd(model, model), cached)
  }

  /**
   * What the panel shows: a checkbox and a card highlight per side, and per
   * end a checkbox, a "disabled" mark on its wrapper and a label.
   */
  datatype View = View(
    sideChecks: PerSide<bool>,
    sideCardsActive: PerSide<bool>,
    endChecks: PerEnd<bool>,
    endWrapsDisabled: PerEnd<bool>,
    labels: PerEnd<string>)

  /** Whether end `e` has a model fitted. */
  predicate IsActive(st: State, e: End) {
    st.ends.Get(e) != NoModel
  }

  /**
   * refreshUI as a function of the configuration: every side control
   * mirrors its flag; an end is checked exactly when its slot is occupied,
   * its wrapper is disabled exactly when it is not, and its label names the
   * fitted model, or the cached one when the end is empty.
   */
  function Render(st: State): (v: View)
    ensures forall s :: v.sideChecks.Get(s) == st.sides.Get(s) && v.sideCardsActive.Get(s) == st.sides.Get(s)
    ensures forall e :: v.endChecks.Get(e) <==> st.ends.Get(e) != NoModel
    ensures forall e :: v.endWrapsDisabled.Get(e) <==> st.ends.Get(e) == NoModel
    ensures forall e :: v.labels.Get(e) == (if st.ends.Get(e) != NoModel then st.ends.Get(e) else st.cachedModels.Get(e))
  {
    var checks := PerEnd(IsActive(st, Front), IsActive(st, Back));
    View(
      st.sides,
      st.sides,
      checks,
      PerEnd(!checks.front, !checks.back),
      PerEnd(
        if checks.front then st.ends.front else st.cachedModels.front,
        if checks.back then st.ends.back else st.cachedModels.back))
  }

  // ---------------------------------------------------------------------
  // Properties of the transitions

  /** The panel starts in a well-formed configuration. */
  lemma InitialWellFormed()
    ensures WellFormed(Initial())
  {
    StandardShadeIsCatalogName();
  }

  /** setCap with a catalog model keeps the configuration well formed. */
  lemma SetCapPreservesWellFormed(st: State, e: End, model: string, isActive: bool)
    requires WellFormed(st) && IsCatalogName(model)
    ensures WellFormed(SetCap(st, e, model, isActive))
  {
  }

  /** toggleCap keeps the configuration well formed. */
  lemma ToggleCapPreservesWellFormed(st: State, e: End, checked: bool)
    requires WellFormed(st)
    ensures WellFormed(ToggleCap(st, e, checked))
  {
  }

  /** toggleSide keeps the configuration well formed. */
  lemma ToggleSidePreservesWellFormed(st: State, s: Side)
    requires WellFormed(st)
    ensures WellFormed(ToggleSide(st, s))
  {
  }

  /** applyPreset with the sentinel or a catalog model keeps the configuration well formed. */
  lemma ApplyPresetPreservesWellFormed(st: State, l: bool, r: bool, b: bool, model: string)
    requires WellFormed(st) && IsSlotValue(model)
    ensures WellFormed(ApplyPreset(st, l, r, b, model))
  {
  }

  /** Every built-in preset keeps the configuration well formed. */
  lemma DefaultPresetsPreserveWellFormed(st: State, k: nat)
    requires WellFormed(st) && k < |DefaultPresets|
    ensures WellFormed(ApplyPreset(st, DefaultPresets[k].left, DefaultPresets[k].right, DefaultPresets[k].bottom, DefaultPresets[k].model))
  {
    DefaultPresetModelsAreSlotValues();
    var p := DefaultPresets[k];
    ApplyPresetPreservesWellFormed(st, p.left, p.right, p.bottom, p.model);
  }

  /** A well-formed configuration never caches the sentinel. */
  lemma CacheNeverHoldsNoModel(st: State, e: End)
    requires WellFormed(st)
    ensures st.cachedModels.Get(e) != NoModel
  {
  }

  /** Disabling an occupied end and enabling it again restores the configuration exactly. */
  lemma DisableThenEnableRestores(st: State, e: End)
    requires WellFormed(st) && st.ends.Get(e) != NoModel
    ensures ToggleCap(ToggleCap(st, e, false), e, true) == st
  {
  }

  /** Enabling an empty end and disabling it again restores the configuration exactly. */
  lemma EnableThenDisableRestores(st: State, e: End)
    requires st.ends.Get(e) == NoModel
    ensures ToggleCap(ToggleCap(st, e, true), e, false) == st
  {
  }

  /** Toggling the same side twice restores the configuration exactly. */
  lemma ToggleSideTwice(st: State, s: Side)
    ensures ToggleSide(ToggleSide(st, s), s) == st
  {
  }

  /**
   * Disabling an end in a well-formed configuration leaves its label as it
   * was: the panel keeps naming the model that re-enabling will restore.
   */
  lemma DisablingKeepsLabel(st: State, e: End)
    requires WellFormed(st)
    ensures Render(ToggleCap(st, e, false)).labels.Get(e) == Render(st).labels.Get(e)
    ensures !Render(ToggleCap(st, e, false)).endChecks.Get(e)
  {
  }
}
