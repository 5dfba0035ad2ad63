/**
 * The feature lifecycle state machine (src/core/Feature.js).
 *
 * The source's class chain Feature -> DOMFeature -> FilterFeature -> concrete
 * feature is one class here, `Feature`, whose `kind` says which capabilities a
 * feature has: every concrete feature of the extension is a DOMFeature, so every
 * feature carries the observer list and the hidden-element set; only filter
 * features carry a filter list. The operations of DOMFeature.js, FilterFeature.js
 * and the concrete features live in their own modules and take the feature as an
 * argument.
 *
 * Hooks (onBeforeInit, onInit, onAfterInit, onActivate, onDeactivate) are given
 * as outcomes: each either completes or throws. The ghost `hookLog` records
 * which hooks ran, in order.
 */
module Features {
  import opened Common
  import opened Document

  /** Which filter a filter feature is; decides its list key and its matching rule. */
  datatype FilterKind = ChannelFilter | WordFilter | NamedFilter

  /**
   * What a feature's `onActivate` is: a filter's (FilterFeature.js), the
   * suggestions feature's (src/features/HideSuggestionsFeature.js), or that of a
   * DOM feature outside this model.
   */
  datatype Kind = DomOnly | Suggestions | Filter(filter: FilterKind)

  datatype Hook = BeforeInit | Init | AfterInit | OnActivate | OnDeactivate

  /** The three lifecycle flags of a feature. */
  datatype Flags = Flags(enabled: bool, isActive: bool, initialized: bool)

  /** The effect of one lifecycle operation: new flags, what it returns or throws, the hooks it ran. */
  datatype Step = Step(after: Flags, result: Outcome, calls: seq<Hook>)

  /** What the lifecycle operations read of a feature but never change: its kind and configuration. */
  datatype Setting = Setting(kind: Kind, config: map<string, Json>)

  /** What the lifecycle operations change on a feature: its flags, its filter list, the elements it tracks. */
  datatype Local = Local(flags: Flags, list: seq<string>, targets: set<ElemId>)

  /** What a feature holds of the page's bookkeeping: its connected observers and its injected CSS by id. */
  datatype Attachments = Attachments(observers: seq<ObserverId>, css: map<string, string>)

  /** How each hook behaves when an initialization runs. */
  datatype InitHooks = InitHooks(beforeInit: Outcome, init: Outcome, afterInit: Outcome, activate: Outcome)

  /** What `getState` returns; `filterList` is present for filter features only. */
  datatype FeatureState = FeatureState(
    name: string, enabled: bool, config: map<string, Json>, filterList: Option<seq<string>>)

  /** The argument of `setState`; an absent field is `undefined`. */
  datatype StateUpdate = StateUpdate(
    enabled: Option<bool>, config: Option<map<string, Json>>, filterList: Option<seq<string>>)

  /** `config.defaultEnabled ?? false`, read by truthiness. */
  predicate DefaultEnabled(config: map<string, Json>) {
    "defaultEnabled" in config && Truthy(config["defaultEnabled"])
  }

  // ------------------------------------------------ lifecycle as step functions

  function ActivateStep(fl: Flags, hook: Outcome): Step {
    if !fl.initialized || fl.isActive then Step(fl, Completed, [])
    else if hook.Completed? then Step(Flags(true, true, true), Completed, [OnActivate])
    else Step(Flags(false, false, true), hook, [OnActivate])
  }

  function DeactivateStep(fl: Flags, hook: Outcome): Step {
    if !fl.isActive then Step(fl, Completed, [])
    else Step(fl.(enabled := false, isActive := false), hook, [OnDeactivate])
  }

  function ToggleStep(fl: Flags, state: bool, hook: Outcome): Step {
    if state == fl.isActive then Step(fl, Completed, [])
    else if state then ActivateStep(fl, hook)
    else DeactivateStep(fl, hook)
  }

  /** The part of initialization before activation: the three init hooks, then the flag. */
  function PrepareStep(fl: Flags, h: InitHooks): Step {
    if fl.initialized then Step(fl, Completed, [])
    else if h.beforeInit.Threw? then Step(fl, h.beforeInit, [BeforeInit])
    else if h.init.Threw? then Step(fl, h.init, [BeforeInit, Init])
    else if h.afterInit.Threw? then Step(fl, h.afterInit, [BeforeInit, Init, AfterInit])
    else Step(fl.(initialized := true), Completed, [BeforeInit, Init, AfterInit])
  }

  function InitStep(fl: Flags, h: InitHooks): Step {
    if fl.initialized then Step(fl, Completed, [])
    else if h.beforeInit.Threw? then Step(fl, h.beforeInit, [BeforeInit])
    else if h.init.Threw? then Step(fl, h.init, [BeforeInit, Init])
    else if h.afterInit.Threw? then Step(fl, h.afterInit, [BeforeInit, Init, AfterInit])
    else
      var ready := fl.(initialized := true);
      if ready.enabled && !ready.isActive then
        var a := ActivateStep(ready, h.activate);
        Step(a.after, a.result, [BeforeInit, Init, AfterInit] + a.calls)
      else Step(ready, Completed, [BeforeInit, Init, AfterInit])
  }

  /** The flag part of `setState`: a plain assignment before initialization, a toggle after. */
  function SetStateStep(fl: Flags, enabled: Option<bool>, hook: Outcome): Step {
    if enabled.None? then Step(fl, Completed, [])
    else if !fl.initialized then Step(fl.(enabled := enabled.value), Completed, [])
    else ToggleStep(fl, enabled.value, hook)
  }

  /** The documented invariant: a feature is active only once initialized. */
  predicate ActiveOnlyInitialized(fl: Flags) {
    fl.isActive ==> fl.initialized
  }

  /**
   * The stronger invariant every lifecycle operation keeps: the runtime state
   * agrees with the preference as soon as the feature is initialized.
   */
  predicate Converged(fl: Flags) {
    fl.isActive == (fl.initialized && fl.enabled)
  }

  lemma InitialFlagsConverged(config: map<string, Json>)
    ensures Converged(Flags(DefaultEnabled(config), false, false))
  {
  }

  lemma InitIsNoOpOnceInitialized(fl: Flags, h: InitHooks)
    requires fl.initialized
    ensures InitStep(fl, h) == Step(fl, Completed, [])
  {
  }

  /** All three init hooks complete: the feature is initialized; if a hook throws it is not, and the error is returned. */
  lemma InitOutcome(fl: Flags, h: InitHooks)
    requires !fl.initialized && ActiveOnlyInitialized(fl)
    ensures var s := InitStep(fl, h);
      && (s.after.initialized <==> h.beforeInit.Completed? && h.init.Completed? && h.afterInit.Completed?)
      && (!s.after.initialized ==> s.after == fl && s.result.Threw?)
  {
  }

  /** After the three init hooks, an enabled feature is activated exactly once, and a second init changes nothing. */
  lemma InitActivatesOnce(fl: Flags, h: InitHooks)
    requires !fl.initialized && ActiveOnlyInitialized(fl) && fl.enabled
    requires h.beforeInit.Completed? && h.init.Completed? && h.afterInit.Completed?
    ensures var s := InitStep(fl, h);
      && s.calls == [BeforeInit, Init, AfterInit, OnActivate]
      && s.after.initialized
      && s.after.isActive == s.after.enabled == h.activate.Completed?
      && s.result == h.activate
      && InitStep(s.after, h) == Step(s.after, Completed, [])
  {
  }

  /** Activation either makes the feature enabled and active, or rolls both back and rethrows. */
  lemma ActivateOutcome(fl: Flags, hook: Outcome)
    requires fl.initialized && !fl.isActive
    ensures var s := ActivateStep(fl, hook);
      && s.calls == [OnActivate] && s.result == hook
      && (hook.Completed? ==> s.after.enabled && s.after.isActive)
      && (hook.Threw? ==> !s.after.enabled && !s.after.isActive)
  {
  }

  /** Deactivation clears both flags even when its hook throws. */
  lemma DeactivateNoRollback(fl: Flags, hook: Outcome)
    requires fl.isActive
    ensures var s := DeactivateStep(fl, hook);
      && !s.after.enabled && !s.after.isActive && s.result == hook && s.after.initialized == fl.initialized
  {
  }

  /**
   * Once an activation has completed, activating again does nothing; activate
   * then deactivate ends disabled and inactive.
   */
  lemma ActivateIdempotent(fl: Flags, h1: Outcome, h2: Outcome, h3: Outcome)
    requires h1.Completed?
    ensures var a := ActivateStep(fl, h1).after;
      && ActivateStep(a, h2).after == a
      && (fl.initialized ==> !DeactivateStep(a, h3).after.isActive && !DeactivateStep(a, h3).after.enabled)
  {
  }

  // ------------------------------------------------- runs of lifecycle events

  /** One call of a lifecycle method of Feature.js. */
  datatype Event =
    | InitEvent(hooks: InitHooks)
    | ActivateEvent(hook: Outcome)
    | DeactivateEvent(hook: Outcome)
    | ToggleEvent(state: bool, hook: Outcome)
    | SetStateEvent(enabled: Option<bool>, hook: Outcome)

  function Apply(fl: Flags, e: Event): Flags {
    match e
    case InitEvent(h) => InitStep(fl, h).after
    case ActivateEvent(h) => ActivateStep(fl, h).after
    case DeactivateEvent(h) => DeactivateStep(fl, h).after
    case ToggleEvent(s, h) => ToggleStep(fl, s, h).after
    case SetStateEvent(en, h) => SetStateStep(fl, en, h).after
  }

  function Run(fl: Flags, es: seq<Event>): Flags
    decreases |es|
  {
    if es == [] then fl else Run(Apply(fl, es[0]), es[1..])
  }

  lemma StepKeepsConverged(fl: Flags, e: Event)
    requires Converged(fl)
    ensures Converged(Apply(fl, e))
  {
  }

  /** From a freshly constructed feature, every run of lifecycle calls keeps `isActive == initialized && enabled`. */
  lemma {:induction false} RunKeepsConverged(fl: Flags, es: seq<Event>)
    requires Converged(fl)
    ensures Converged(Run(fl, es)) && ActiveOnlyInitialized(Run(fl, es))
    decreases |es|
  {
    if es != [] {
      StepKeepsConverged(fl, es[0]);
      RunKeepsConverged(Apply(fl, es[0]), es[1..]);
    }
  }

  /** `toggle(s)` with `s` equal to the current runtime state changes nothing. */
  lemma {:induction false} ToggleToCurrentIsNoOp(fl: Flags, es: seq<Event>, hook: Outcome)
    ensures Run(fl, es + [ToggleEvent(Run(fl, es).isActive, hook)]) == Run(fl, es)
    decreases |es|
  {
    if es == [] {
      assert [ToggleEvent(fl.isActive, hook)][1..] == [];
    } else {
      assert (es + [ToggleEvent(Run(fl, es).isActive, hook)])[1..] == es[1..] + [ToggleEvent(Run(fl, es).isActive, hook)];
      ToggleToCurrentIsNoOp(Apply(fl, es[0]), es[1..], hook);
    }
  }

  // ------------------------------------------------------------ the class

  class Feature {
    const name: string
    const kind: Kind
    var enabled: bool
    var isActive: bool
    var initialized: bool
    var config: map<string, Json>
    /** Injected CSS by id: the text of the <style> node `StyleKey(name, id)`. */
    var styleElements: map<string, string>
    /** DOMFeature: connected mutation observers. */
    var observers: seq<ObserverId>
    /** DOMFeature: the elements this feature has hidden. */
    var targetElements: set<ElemId>
    /** FilterFeature: the block list (empty and unused for other kinds). */
    var filterList: seq<string>
    ghost var hookLog: seq<Hook>

    ghost predicate Valid()
      reads this
    {
      && (isActive ==> initialized)
      && (!kind.Filter? ==> filterList == [])
    }

    function Status(): Flags
      reads this`enabled, this`isActive, this`initialized
    {
      Flags(enabled, isActive, initialized)
    }

    constructor (name: string, kind: Kind, config: map<string, Json>)
      ensures Valid() && this.name == name && this.kind == kind
      ensures enabled == DefaultEnabled(config) && !isActive && !initialized
      ensures this.config == config && styleElements == map[]
      ensures observers == [] && targetElements == {} && filterList == [] && hookLog == []
    {
      this.name := name;
      this.kind := kind;
      enabled := DefaultEnabled(config);
      isActive := false;
      this.config := config;
      initialized := false;
      styleElements := map[];
      observers := [];
      targetElements := {};
      filterList := [];
      hookLog := [];
    }

    /** The same flags, list and tracked set as a value. */
    function Now(): Local
      reads this`enabled, this`isActive, this`initialized, this`filterList, this`targetElements
    {
      Local(Status(), filterList, targetElements)
    }

    /** The observers and the injected CSS as a value. */
    function Attached(): Attachments
      reads this`observers, this`styleElements
    {
      Attachments(observers, styleElements)
    }

    function Setup(): Setting
      reads this`config
    {
      Setting(kind, config)
    }

    /** The three init hooks of `initialize`, then the flag; activation is left to the caller. */
    method Prepare(h: InitHooks) returns (r: Outcome)
      requires Valid()
      modifies this`initialized, this`hookLog
      ensures Valid()
      ensures var s := PrepareStep(old(Status()), h);
        Status() == s.after && r == s.result && hookLog == old(hookLog) + s.calls
    {
      if initialized {
        return Completed;
      }
      hookLog := hookLog + [BeforeInit];
      if h.beforeInit.Threw? {
        return h.beforeInit;
      }
      hookLog := hookLog + [Init];
      if h.init.Threw? {
        return h.init;
      }
      hookLog := hookLog + [AfterInit];
      if h.afterInit.Threw? {
        return h.afterInit;
      }
      initialized := true;
      r := Completed;
    }

    /** `initializeSync` / `initialize`: the three init hooks, then activation when enabled. */
    method Initialize(h: InitHooks) returns (r: Outcome)
      requires Valid()
      modifies this`enabled, this`isActive, this`initialized, this`hookLog
      ensures Valid()
      ensures var s := InitStep(old(Status()), h);
        Status() == s.after && r == s.result && hookLog == old(hookLog) + s.calls
    {
      var wasInitialized := initialized;
      r := Prepare(h);
      if !wasInitialized && r.Completed? && enabled && !isActive {
        r := Activate(h.activate);
      }
    }

    /** `activateSync` / `activate`: optimistic flags, rolled back when the hook throws. */
    method Activate(hook: Outcome) returns (r: Outcome)
      requires Valid()
      modifies this`enabled, this`isActive, this`hookLog
      ensures Valid()
      ensures var s := ActivateStep(old(Status()), hook);
        Status() == s.after && r == s.result && hookLog == old(hookLog) + s.calls
    {
      if !initialized || isActive {
        return Completed;
      }
      enabled := true;
      isActive := true;
      hookLog := hookLog + [OnActivate];
      r := hook;
      if hook.Threw? {
        enabled := false;
        isActive := false;
      }
    }

    /** `deactivate`: flags cleared before the hook runs, never restored. */
    method Deactivate(hook: Outcome) returns (r: Outcome)
      requires Valid()
      modifies this`enabled, this`isActive, this`hookLog
      ensures Valid()
      ensures var s := DeactivateStep(old(Status()), hook);
        Status() == s.after && r == s.result && hookLog == old(hookLog) + s.calls
    {
      if !isActive {
        return Completed;
      }
      enabled := false;
      isActive := false;
      hookLog := hookLog + [OnDeactivate];
      r := hook;
    }

    method Toggle(state: bool, hook: Outcome) returns (r: Outcome)
      requires Valid()
      modifies this`enabled, this`isActive, this`hookLog
      ensures Valid()
      ensures var s := ToggleStep(old(Status()), state, hook);
        Status() == s.after && r == s.result && hookLog == old(hookLog) + s.calls
    {
      if state == isActive {
        return Completed;
      }
      if state {
        r := Activate(hook);
      } else {
        r := Deactivate(hook);
      }
    }

    /** `getState`; FilterFeature's override adds the filter list. */
    function GetState(): (s: FeatureState)
      reads this
      ensures s.name == name && s.enabled == enabled && s.config == config
      ensures s.filterList.Some? <==> kind.Filter?
      ensures kind.Filter? ==> s.filterList.value == filterList
    {
      FeatureState(name, enabled, config, if kind.Filter? then Some(filterList) else None)
    }

    /** `injectCSS`: an id already tracked adds nothing. */
    method InjectCSS(page: Page, cssId: string, css: string)
      modifies this`styleElements, page`styleSheets
      ensures cssId in old(styleElements) ==>
        styleElements == old(styleElements) && page.styleSheets == old(page.styleSheets)
      ensures cssId !in old(styleElements) ==>
        && styleElements == old(styleElements)[cssId := css]
        && page.styleSheets == old(page.styleSheets)[StyleKey(name, cssId) := css]
    {
      if cssId in styleElements {
        return;
      }
      page.styleSheets := page.styleSheets[StyleKey(name, cssId) := css];
      styleElements := styleElements[cssId := css];
    }

    /** `removeCSS`: drops only this id's tracking entry and this feature's node for it. */
    method RemoveCSS(page: Page, cssId: string)
      modifies this`styleElements, page`styleSheets
      ensures styleElements == old(styleElements) - {cssId}
      ensures cssId in old(styleElements) ==> page.styleSheets == old(page.styleSheets) - {StyleKey(name, cssId)}
      ensures cssId !in old(styleElements) ==> page.styleSheets == old(page.styleSheets)
    {
      if cssId !in styleElements {
        return;
      }
      page.styleSheets := page.styleSheets - {StyleKey(name, cssId)};
      styleElements := styleElements - {cssId};
    }

    /** `removeAllCSS`: removes exactly the nodes this feature injected, never another feature's. */
    method RemoveAllCSS(page: Page)
      modifies this`styleElements, page`styleSheets
      ensures styleElements == map[]
      ensures page.styleSheets == old(page.styleSheets) - (set id | id in old(styleElements) :: StyleKey(name, id))
      ensures forall k: StyleKey :: k.feature != name ==> (k in page.styleSheets <==> k in old(page.styleSheets))
    {
      var ids := styleElements.Keys;
      while ids != {}
        invariant ids <= old(styleElements).Keys
        invariant styleElements.Keys == ids
        invariant page.styleSheets
          == old(page.styleSheets) - (set id | id in old(styleElements) && id !in ids :: StyleKey(name, id))
        decreases ids
      {
        var id :| id in ids;
        RemoveCSS(page, id);
        ids := ids - {id};
      }
      assert styleElements.Keys == {};
    }

    /** `getLegacyStorageKey`: the feature's name. */
    function LegacyStorageKey(): string {
      name
    }

    /** `getAdditionalStorageKeys`: nothing for a plain feature, the filter-list key for a filter. */
    function AdditionalStorageKeys(): (keys: seq<string>)
      ensures !kind.Filter? ==> keys == []
      ensures kind.Filter? ==> keys == [ListStorageKey(name, kind.filter)]
    {
      if kind.Filter? then [ListStorageKey(name, kind.filter)] else []
    }
  }

  // ------------------------------------------------------------ storage keys

  /** The list key the words filter shares with the popup and the legacy content script. */
  const WordsListKey: string := "blacklistWords"
  /** The list key the channels filter shares with the popup and the legacy content script. */
  const ChannelsListKey: string := "blacklist"

  /** `<name>_list`, FilterFeature's own key for a feature's list. */
  function OwnListKey(name: string): string {
    name + "_list"
  }

  /** `getFilterListStorageKey`: FilterFeature's default, overridden by the two concrete filters. */
  function ListStorageKey(name: string, fk: FilterKind): (key: string)
    ensures fk.NamedFilter? ==> key == OwnListKey(name)
    ensures fk.WordFilter? ==> key == WordsListKey
    ensures fk.ChannelFilter? ==> key == ChannelsListKey
  {
    match fk
    case WordFilter => WordsListKey
    case ChannelFilter => ChannelsListKey
    case NamedFilter => OwnListKey(name)
  }
}
