/**
 * Navigation: the guard that decides whether the selector opens. The
 * showing and hiding of views is not part of this model.
 */
module Nav {
  import opened Catalog
  import opened ShadeState

  /** What the selector is opened for: the preset list, or an end's model. */
  datatype Context = Presets | Cap(end: End)

  /**
   * openSelector's guard: the preset list always opens; an end's model
   * list opens only while that end's checkbox is checked.
   */
  function OpensSelector(ctx: Context, v: View): (opens: bool)
    ensures ctx.Presets? ==> opens
    ensures ctx.Cap? ==> (opens <==> v.endChecks.Get(ctx.end))
  {
    ctx.Presets? || v.endChecks.Get(ctx.end)
  }

  /**
   * On a page that shows the configuration, an end's model list opens
   * exactly when that end is occupied.
   */
  lemma OpensSelectorIffEndActive(st: State, e: End)
    ensures OpensSelector(Cap(e), Render(st)) <==> st.ends.Get(e) != NoModel
  {
  }

  /**
   * In a well-formed configuration, an end's model list opens only on a
   * catalog model, so exactly one object card is then marked selected.
   */
  lemma OpenCapSelectorShowsCatalogModel(st: State, e: End)
    requires WellFormed(st) && OpensSelector(Cap(e), Render(st))
    ensures IsCatalogName(st.ends.Get(e))
  {
  }
}
