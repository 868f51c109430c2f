/**
 * The editor: the panel's one global configuration record, updated in place
 * by each user action, together with the controls `refreshUI` redraws from
 * it. The calls that push the configuration to the host after each change
 * are not part of this model.
 */
module Editor {
  import opened Catalog
  import opened ShadeState

  class Panel {
    // the global configuration record
    var material: string
    var sides: PerSide<bool>
    var ends: PerEnd<string>
    var cachedModels: PerEnd<string>
    // the controls on the page, as last drawn
    var view: View

    /** A copy of the configuration record. */
    function Snapshot(): State
      reads this
    {
      State(material, sides, ends, cachedModels)
    }

    /** The configuration is well formed and the page shows it. */
    ghost predicate Valid()
      reads this
    {
      WellFormed(Snapshot()) && view == Render(Snapshot())
    }

    /** Page load: the initial configuration, then a first `refreshUI` over whatever `page` showed. */
    constructor (page: View)
      ensures Valid() && Snapshot() == Initial()
    {
      var st := Initial();
      material, sides, ends, cachedModels := st.material, st.sides, st.ends, st.cachedModels;
      view := page;
      new;
      RefreshUI();
      InitialWellFormed();
    }

    /** refreshUI: redraws every side control, then every end control, from the configuration. */
    method RefreshUI()
      modifies this`view
      ensures view == Render(Snapshot())
    {
      var allSides := [Left, Right, Bottom];
      for i := 0 to |allSides|
        invariant forall k :: 0 <= k < i ==> view.sideChecks.Get(allSides[k]) == sides.Get(allSides[k])
        invariant forall k :: 0 <= k < i ==> view.sideCardsActive.Get(allSides[k]) == sides.Get(allSides[k])
      {
        var s := allSides[i];
        view := view.(
          sideChecks := view.sideChecks.Set(s, sides.Get(s)),
          sideCardsActive := view.sideCardsActive.Set(s, sides.Get(s)));
      }
      assert allSides[0] == Left && allSides[1] == Right && allSides[2] == Bottom;
      assert view.sideChecks == sides && view.sideCardsActive == sides;
      var allEnds := [Front, Back];
      for i := 0 to |allEnds|
        invariant view.sideChecks == sides && view.sideCardsActive == sides
        invariant forall k :: 0 <= k < i ==> view.endChecks.Get(allEnds[k]) == IsActive(Snapshot(), allEnds[k])
        invariant forall k :: 0 <= k < i ==> view.endWrapsDisabled.Get(allEnds[k]) == !IsActive(Snapshot(), allEnds[k])
        invariant forall k :: 0 <= k < i ==>
          view.labels.Get(allEnds[k]) == (if IsActive(Snapshot(), allEnds[k]) then ends.Get(allEnds[k]) else cachedModels.Get(allEnds[k]))
      {
        var e := allEnds[i];
        var isActive := ends.Get(e) != NoModel;
        var model := if isActive then ends.Get(e) else cachedModels.Get(e);
        view := view.(
          endChecks := view.endChecks.Set(e, isActive),
          endWrapsDisabled := view.endWrapsDisabled.Set(e, !isActive),
          labels := view.labels.Set(e, model));
      }
      assert allEnds[0] == Front && allEnds[1] == Back;
    }

    /** setTheme: the material becomes `theme`; nothing else changes. */
    method SetTheme(theme: string)
      requires Valid()
      modifies this
      ensures Valid()
      ensures Snapshot() == old(Snapshot()).(material := theme)
    {
      material := theme;
    }

    /** toggleSide: flips side `s`'s checkbox and copies it into the configuration. */
    method ToggleSide(s: Side)
      requires Valid()
      modifies this
      ensures Valid()
      ensures Snapshot() == ShadeState.ToggleSide(old(Snapshot()), s)
    {
      var checked := !view.sideChecks.Get(s);
      view := view.(sideChecks := view.sideChecks.Set(s, checked));
      sides := sides.Set(s, checked);
      RefreshUI();
      ToggleSidePreservesWellFormed(old(Snapshot()), s);
    }

    /**
     * toggleCap: the user has just set end `e`'s checkbox to `checked`; the
     * end is re-enabled with its cached model or disabled.
     */
    method ToggleCap(e: End, checked: bool)
      requires Valid()
      modifies this
      ensures Valid()
      ensures Snapshot() == ShadeState.ToggleCap(old(Snapshot()), e, checked)
    {
      var model := cachedModels.Get(e);
      assert EndWellFormed(Snapshot(), e);
      SetCap(e, model, checked);
    }

    /** setCap: fits `model` on end `e` and caches it, or clears the end and keeps the cache. */
    method SetCap(e: End, model: string, isActive: bool)
      requires Valid() && IsCatalogName(model)
      modifies this
      ensures Valid()
      ensures Snapshot() == ShadeState.SetCap(old(Snapshot()), e, model, isActive)
    {
      view := view.(endChecks := view.endChecks.Set(e, isActive));
      if isActive {
        ends := ends.Set(e, model);
        cachedModels := cachedModels.Set(e, model);
      } else {
        ends := ends.Set(e, NoModel);
      }
      RefreshUI();
      SetCapPreservesWellFormed(old(Snapshot()), e, model, isActive);
    }

    /**
     * applyPreset: sets the sides to (l, r, b), then walks both ends, fitting
     * and caching `model`, or clearing the end when `model` is the sentinel.
     */
    method ApplyPreset(l: bool, r: bool, b: bool, model: string)
      requires Valid() && IsSlotValue(model)
      modifies this
      ensures Valid()
      ensures Snapshot() == ShadeState.ApplyPreset(old(Snapshot()), l, r, b, model)
    {
      sides := PerSide(l, r, b);
      var allEnds := [Front, Back];
      for i := 0 to |allEnds|
        invariant material == old(material) && sides == PerSide(l, r, b)
        invariant forall k :: 0 <= k < i ==> ends.Get(allEnds[k]) == model
        invariant forall k :: i <= k < |allEnds| ==> ends.Get(allEnds[k]) == old(ends).Get(allEnds[k])
        invariant model != NoModel ==> forall k :: 0 <= k < i ==> cachedModels.Get(allEnds[k]) == model
        invariant model != NoModel ==> forall k :: i <= k < |allEnds| ==> cachedModels.Get(allEnds[k]) == old(cachedModels).Get(allEnds[k])
        invariant model == NoModel ==> cachedModels == old(cachedModels)
      {
        var e := allEnds[i];
        if model != NoModel {
          ends := ends.Set(e, model);
          cachedModels := cachedModels.Set(e, model);
        } else {
          ends := ends.Set(e, NoModel);
        }
      }
      assert allEnds[0] == Front && allEnds[1] == Back;
      assert ends == PerEnd(model, model);
      RefreshUI();
      ApplyPresetPreservesWellFormed(old(Snapshot()), l, r, b, model);
    }

    /** applyState: the configuration becomes the saved `newState`, field by field. */
    method ApplyState(newState: State)
      requires Valid() && WellFormed(newState)
      modifies this
      ensures Valid()
      ensures Snapshot() == newState
    {
      material := newState.material;
      sides := newState.sides;
      ends := newState.ends;
      cachedModels := newState.cachedModels;
      RefreshUI();
    }
  }
}
