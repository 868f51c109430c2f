/**
 * A page session: the configuration and the stored custom presets, changed
 * by one user event at a time through the handlers the panel wires to its
 * buttons, checkboxes and cards. Only events the page offers can happen:
 * a click on a card that is on screen.
 */
module Session {
  import opened Catalog
  import opened ShadeState
  import opened Selector

  /** What the page keeps between events. */
  datatype Page = Page(config: State, stored: StoredPresets)

  /** A user event and the handler it reaches. */
  datatype Event =
    | PickTheme(theme: string)                    // theme button: setTheme
    | ClickSide(side: Side)                       // side card: toggleSide
    | CheckCap(end: End, checked: bool)           // end checkbox: toggleCap
    | PickModel(end: End, card: nat)              // object card of an end's list: setCap(end, name, true)
    | PickPreset(card: nat)                       // built-in preset card: applyPreset
    | PickCustom(card: nat)                       // custom preset card: applyState
    | SaveCurrent(answer: Prompt)                 // save button: saveCurrentAsPreset
    | DeleteCustom(card: nat, confirmed: bool)    // a custom card's delete mark: deletePreset

  /**
   * Whether the page offers the event: a card event needs its card to be
   * among those the selector built (one per catalog object, one per
   * built-in preset, one per stored custom preset); the buttons and
   * checkboxes are always there.
   */
  predicate Offered(p: Page, ev: Event)
    ensures ev.PickModel? ==> (Offered(p, ev) <==> ev.card < |ObjectData|)
    ensures ev.PickPreset? ==> (Offered(p, ev) <==> ev.card < |DefaultPresets|)
    ensures ev.PickCustom? || ev.DeleteCustom? ==> (Offered(p, ev) <==> ev.card < |ReadPresets(p.stored)|)
    ensures ev.PickTheme? || ev.ClickSide? || ev.CheckCap? || ev.SaveCurrent? ==> Offered(p, ev)
  {
    match ev
    case PickModel(e, i) => i < |ObjectData|
    case PickPreset(k) => k < |DefaultPresets|
    case PickCustom(k) => k < |ReadPresets(p.stored)|
    case DeleteCustom(k, _) => k < |ReadPresets(p.stored)|
    case _ => true
  }

  /** Whether the event's handler writes the stored custom presets. */
  predicate ChangesStorage(ev: Event) {
    ev.SaveCurrent? || ev.DeleteCustom?
  }

  /**
   * The page after the handler of an offered event has run. Storage events
   * leave the configuration alone and every other event leaves storage
   * alone; each card calls its handler with the card's own data.
   */
  function Handle(p: Page, ev: Event): (q: Page)
    requires Offered(p, ev)
    ensures ChangesStorage(ev) ==> q.config == p.config
    ensures !ChangesStorage(ev) ==> q.stored == p.stored
    ensures ev.PickModel? ==> q.config == SetCap(p.config, ev.end, ObjectData[ev.card].name, true)
    ensures ev.PickPreset? ==> q.config == ApplyPreset(p.config,
      DefaultPresets[ev.card].left, DefaultPresets[ev.card].right, DefaultPresets[ev.card].bottom, DefaultPresets[ev.card].model)
    ensures ev.PickCustom? ==> q.config == ReadPresets(p.stored)[ev.card].state
    ensures ev.SaveCurrent? ==> q.stored == SavePreset(p.stored, ev.answer, p.config)
    ensures ev.DeleteCustom? ==> q.stored == RemovePreset(p.stored, ev.card, ev.confirmed)
  {
    match ev
    case PickTheme(t) => p.(config := p.config.(material := t))
    case ClickSide(s) => p.(config := ToggleSide(p.config, s))
    case CheckCap(e, c) => p.(config := ToggleCap(p.config, e, c))
    case PickModel(e, i) => p.(config := SetCap(p.config, e, ObjectData[i].name, true))
    case PickPreset(k) =>
      var d := DefaultPresets[k];
      p.(config := ApplyPreset(p.config, d.left, d.right, d.bottom, d.model))
    case PickCustom(k) => p.(config := ReadPresets(p.stored)[k].state)
    case SaveCurrent(answer) => p.(stored := SavePreset(p.stored, answer, p.config))
    case DeleteCustom(k, c) => p.(stored := RemovePreset(p.stored, k, c))
  }

  /** Whether every event of `events` is offered by the page it reaches. */
  predicate Feasible(p: Page, events: seq<Event>)
    decreases |events|
  {
    events == [] || (Offered(p, events[0]) && Feasible(Handle(p, events[0]), events[1..]))
  }

  /** The page after a feasible sequence of events. */
  function Run(p: Page, events: seq<Event>): Page
    requires Feasible(p, events)
    decreases |events|
  {
    if events == [] then p else Run(Handle(p, events[0]), events[1..])
  }

  /** The configuration is well formed and so is every stored preset. */
  predicate Consistent(p: Page) {
    WellFormed(p.config) && AllWellFormed(ReadPresets(p.stored))
  }

  /** Every handler keeps the page consistent. */
  lemma HandlePreservesConsistent(p: Page, ev: Event)
    requires Consistent(p) && Offered(p, ev)
    ensures Consistent(Handle(p, ev))
  {
    match ev
    case PickTheme(t) =>
    case ClickSide(s) =>
      ToggleSidePreservesWellFormed(p.config, s);
    case CheckCap(e, c) =>
      ToggleCapPreservesWellFormed(p.config, e, c);
    case PickModel(e, i) =>
      SetCapPreservesWellFormed(p.config, e, ObjectData[i].name, true);
    case PickPreset(k) =>
      DefaultPresetsPreserveWellFormed(p.config, k);
    case PickCustom(k) =>
    case SaveCurrent(answer) =>
      SavePreservesAllWellFormed(p.stored, answer, p.config);
    case DeleteCustom(k, c) =>
      RemovePreservesAllWellFormed(p.stored, k, c);
  }

  /** A feasible sequence of events keeps the page consistent. */
  lemma {:induction false} RunPreservesConsistent(p: Page, events: seq<Event>)
    requires Consistent(p) && Feasible(p, events)
    ensures Consistent(Run(p, events))
    decreases |events|
  {
    if events != [] {
      HandlePreservesConsistent(p, events[0]);
      RunPreservesConsistent(Handle(p, events[0]), events[1..]);
    }
  }

  /**
   * From page load with well-formed stored presets, whatever the user does,
   * the ends hold "None" or catalog names, the caches hold catalog names,
   * and every stored preset is safe to load.
   */
  lemma SessionKeepsInvariant(stored: StoredPresets, events: seq<Event>)
    requires AllWellFormed(ReadPresets(stored)) && Feasible(Page(Initial(), stored), events)
    ensures Consistent(Run(Page(Initial(), stored), events))
    ensures forall e :: IsSlotValue(Run(Page(Initial(), stored), events).config.ends.Get(e))
    ensures forall e :: IsCatalogName(Run(Page(Initial(), stored), events).config.cachedModels.Get(e))
  {
    InitialWellFormed();
    RunPreservesConsistent(Page(Initial(), stored), events);
  }

  /** Events that do not write storage leave the stored presets as they were. */
  lemma {:induction false} RunKeepsStorage(p: Page, events: seq<Event>)
    requires Feasible(p, events)
    requires forall i :: 0 <= i < |events| ==> !ChangesStorage(events[i])
    ensures Run(p, events).stored == p.stored
    decreases |events|
  {
    if events != [] {
      RunKeepsStorage(Handle(p, events[0]), events[1..]);
    }
  }

  /**
   * Saving the configuration under a non-empty name, changing the
   * configuration in any way that does not touch storage, then clicking the
   * new custom card gives back the saved configuration exactly.
   */
  lemma SaveThenLoadRestores(p: Page, name: string, events: seq<Event>)
    requires name != ""
    requires Feasible(Handle(p, SaveCurrent(Entered(name))), events)
    requires forall i :: 0 <= i < |events| ==> !ChangesStorage(events[i])
    ensures var q := Run(Handle(p, SaveCurrent(Entered(name))), events);
      && Offered(q, PickCustom(|ReadPresets(p.stored)|))
      && Handle(q, PickCustom(|ReadPresets(p.stored)|)).config == p.config
  {
    RunKeepsStorage(Handle(p, SaveCurrent(Entered(name))), events);
  }
}
