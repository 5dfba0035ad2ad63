/**
 * The lifecycle of Feature.js with each kind of feature's own hooks bound:
 * `activate` runs the kind's `onActivate` (FilterFeature's for the two filters,
 * HideSuggestionsFeature's for the suggestions feature, a `DomHook` for a DOM
 * feature outside this model) and `deactivate` runs DOMFeature's `onDeactivate`.
 *
 * What an operation does is a function of the feature's `Local` part, its
 * `Setting` and the page's `Layers`; each method is proved against its function,
 * and the functions' flag part is the lifecycle step of Features.
 */
module Lifecycle {
  import opened Common
  import opened Document
  import opened Features
  import opened DomFeatures
  import FilterFeatures
  import HideSuggestions

  /**
   * The `onActivate` of a DOM feature outside this model: whether it throws, and
   * the elements it hides with `hideElements` before that.
   */
  datatype DomHook = DomHook(result: Outcome, hides: seq<Option<ElemId>>)

  /**
   * What an activation reads besides the feature: the store `loadFilterList`
   * reads, the page's video items, its static structure, the watch-next
   * renderer inside `secondary`, and the hooks of the features outside this model.
   */
  datatype Env = Env(store: map<string, Json>, items: seq<VideoItem>, tree: Tree, watchNext: Option<ElemId>,
                     dom: string -> DomHook)

  // ------------------------------------------------------------ activation

  /** How the kind's `onActivate` ends: only the abstract `applyFilters` or an outside hook throws. */
  function ActivationResult(n: string, s: Setting, env: Env): Outcome {
    match s.kind
    case Filter(fk) => FilterFeatures.ApplyResult(fk)
    case Suggestions => Completed
    case DomOnly => env.dom(n).result
  }

  /** The hook a toggle to `state` runs: the kind's `onActivate`, or DOMFeature's cleanup, which completes. */
  function HookFor(n: string, s: Setting, state: bool, env: Env): Outcome {
    if state then ActivationResult(n, s, env) else Completed
  }

  /** The init hooks with the kind's `onActivate` as the activation. */
  function Bound(h: InitHooks, n: string, s: Setting, env: Env): InitHooks {
    h.(activate := ActivationResult(n, s, env))
  }

  /** The list after the kind's `onActivate`: a filter reloads it from the store. */
  function ActivatedList(n: string, s: Setting, list: seq<string>, env: Env): seq<string> {
    if s.kind.Filter? then FilterFeatures.LoadFilterList(n, s.kind.filter, env.store) else list
  }

  /** What a filter's or an outside feature's `onActivate` hides. */
  function Hidden(n: string, s: Setting, env: Env): set<ElemId> {
    match s.kind
    case Filter(fk) => FilterFeatures.Hits(fk, FilterFeatures.LoadFilterList(n, fk, env.store), s.config, env.items)
    case Suggestions => {}
    case DomOnly => Present(env.dom(n).hides)
  }

  /** The tracked set after the kind's `onActivate`, from `t` before. */
  function ActivatedTargets(n: string, s: Setting, t: set<ElemId>, env: Env): set<ElemId> {
    if s.kind.Suggestions? then HideSuggestions.SuggestionsTargets(env.tree, env.watchNext, t)
    else t + Hidden(n, s, env)
  }

  /** One page layer after the kind's `onActivate`, from the layer `m` and the tracked set `t` before. */
  function ActivatedLayer(n: string, s: Setting, t: set<ElemId>, layer: Layer, m: map<ElemId, map<string, string>>,
                          env: Env): map<ElemId, map<string, string>> {
    if s.kind.Suggestions? then HideSuggestions.SuggestionsLayer(layer, n, env.tree, env.watchNext, t, m)
    else Over(Hide, layer, n, m, Hidden(n, s, env))
  }

  /** The feature after `activate`: nothing unless initialized and inactive, else the flags and the hook's effect. */
  function ActivateLocal(n: string, s: Setting, l: Local, env: Env): Local {
    if !l.flags.initialized || l.flags.isActive then l
    else Local(ActivateStep(l.flags, ActivationResult(n, s, env)).after, ActivatedList(n, s, l.list, env),
               ActivatedTargets(n, s, l.targets, env))
  }

  /** The page after `activate`. */
  function ActivateLayers(n: string, s: Setting, l: Local, lay: Layers, env: Env): Layers {
    if !l.flags.initialized || l.flags.isActive then lay
    else Layers(ActivatedLayer(n, s, l.targets, AttrLayer, lay.attrs, env),
                ActivatedLayer(n, s, l.targets, StyleLayer, lay.style, env))
  }

  /** Whether the kind's `onActivate` reaches `observeDOM`: a filter whose `applyFilters` completes, and the suggestions feature. */
  predicate Observes(s: Setting) {
    match s.kind
    case Filter(fk) => FilterFeatures.ApplyResult(fk).Completed?
    case Suggestions => true
    case DomOnly => false
  }

  /** Whether `activate` registers an observer: its hook runs, reaches `observeDOM`, and the page has a body. */
  predicate ActivationObserves(s: Setting, l: Local, w: Wiring) {
    l.flags.initialized && !l.flags.isActive && Observes(s) && w.body
  }

  /** The feature's observers and CSS after `activate`: the page's next observer id is appended when one is registered. */
  function ActivateAttached(s: Setting, l: Local, a: Attachments, w: Wiring): Attachments {
    if ActivationObserves(s, l, w) then a.(observers := a.observers + [w.next]) else a
  }

  /** The page's bookkeeping after `activate`: a registered observer is connected and the id counter moves on. */
  function ActivateWiring(s: Setting, l: Local, w: Wiring): Wiring {
    if ActivationObserves(s, l, w) then w.(live := w.live + {w.next}, next := w.next + 1) else w
  }

  // ------------------------------------------------------------ deactivation

  /** The feature after `deactivate`: an active one is disabled and tracks nothing. */
  function DeactivateLocal(l: Local): Local {
    if !l.flags.isActive then l else Local(DeactivateStep(l.flags, Completed).after, l.list, {})
  }

  /** The page after `deactivate`: an active feature shows everything it tracked. */
  function DeactivateLayers(n: string, l: Local, lay: Layers): Layers {
    if !l.flags.isActive then lay
    else Layers(Over(Show, AttrLayer, n, lay.attrs, l.targets), Over(Show, StyleLayer, n, lay.style, l.targets))
  }

  /** The feature's observers and CSS after `deactivate`: an active feature holds none. */
  function DeactivateAttached(l: Local, a: Attachments): Attachments {
    if !l.flags.isActive then a else Attachments([], map[])
  }

  /** The page's bookkeeping after `deactivate`: an active feature's observers are disconnected and its <style> nodes removed. */
  function DeactivateWiring(n: string, l: Local, a: Attachments, w: Wiring): Wiring {
    if !l.flags.isActive then w
    else w.(live := w.live - (set o | o in a.observers), sheets := w.sheets - (set id | id in a.css :: StyleKey(n, id)))
  }

  // ------------------------------------------------------------ toggle and init

  function ToggleLocal(n: string, s: Setting, l: Local, state: bool, env: Env): Local {
    if state == l.flags.isActive then l
    else if state then ActivateLocal(n, s, l, env)
    else DeactivateLocal(l)
  }

  function ToggleLayers(n: string, s: Setting, l: Local, lay: Layers, state: bool, env: Env): Layers {
    if state == l.flags.isActive then lay
    else if state then ActivateLayers(n, s, l, lay, env)
    else DeactivateLayers(n, l, lay)
  }

  function ToggleAttached(s: Setting, l: Local, a: Attachments, w: Wiring, state: bool): Attachments {
    if state == l.flags.isActive then a
    else if state then ActivateAttached(s, l, a, w)
    else DeactivateAttached(l, a)
  }

  function ToggleWiring(n: string, s: Setting, l: Local, a: Attachments, w: Wiring, state: bool): Wiring {
    if state == l.flags.isActive then w
    else if state then ActivateWiring(s, l, w)
    else DeactivateWiring(n, l, a, w)
  }

  /** The lifecycle step of a toggle with the kind's hooks. */
  function ToggleOutcome(n: string, s: Setting, fl: Flags, state: bool, env: Env): Step {
    ToggleStep(fl, state, HookFor(n, s, state, env))
  }

  /** Whether `initialize` goes on to activate: not yet initialized, the init hooks completed, enabled. */
  predicate InitActivates(l: Local, h: InitHooks) {
    var p := PrepareStep(l.flags, h);
    !l.flags.initialized && p.result.Completed? && p.after.enabled
  }

  function InitLocal(n: string, s: Setting, l: Local, h: InitHooks, env: Env): Local {
    var ready := l.(flags := PrepareStep(l.flags, h).after);
    if InitActivates(l, h) then ActivateLocal(n, s, ready, env) else ready
  }

  function InitLayers(n: string, s: Setting, l: Local, h: InitHooks, lay: Layers, env: Env): Layers {
    var ready := l.(flags := PrepareStep(l.flags, h).after);
    if InitActivates(l, h) then ActivateLayers(n, s, ready, lay, env) else lay
  }

  function InitAttached(s: Setting, l: Local, h: InitHooks, a: Attachments, w: Wiring): Attachments {
    var ready := l.(flags := PrepareStep(l.flags, h).after);
    if InitActivates(l, h) then ActivateAttached(s, ready, a, w) else a
  }

  function InitWiring(s: Setting, l: Local, h: InitHooks, w: Wiring): Wiring {
    var ready := l.(flags := PrepareStep(l.flags, h).after);
    if InitActivates(l, h) then ActivateWiring(s, ready, w) else w
  }

  // ------------------------------------------------------------ properties

  /** The flags a toggle leaves are those of the lifecycle step with the kind's hook. */
  lemma ToggleFollowsLifecycle(n: string, s: Setting, l: Local, state: bool, env: Env)
    ensures ToggleLocal(n, s, l, state, env).flags == ToggleOutcome(n, s, l.flags, state, env).after
  {
  }

  /** The flags `initialize` leaves are those of the init step with the kind's `onActivate`. */
  lemma InitFollowsLifecycle(n: string, s: Setting, l: Local, h: InitHooks, env: Env)
    ensures InitLocal(n, s, l, h, env).flags == InitStep(l.flags, Bound(h, n, s, env)).after
  {
  }

  /** An uninitialized feature ends `initialize` initialized exactly when its three init hooks complete. */
  lemma InitInitializes(n: string, s: Setting, l: Local, h: InitHooks, env: Env)
    requires !l.flags.initialized
    ensures InitLocal(n, s, l, h, env).flags.initialized
        <==> h.beforeInit.Completed? && h.init.Completed? && h.afterInit.Completed?
  {
  }

  /**
   * Switching a filter on reloads its list from the store and hides every item
   * that list selects; it ends active exactly when its kind's `applyFilters`
   * does not throw.
   */
  lemma {:induction false} EnablingFilterLoadsStore(n: string, s: Setting, l: Local, lay: Layers, env: Env)
    requires s.kind.Filter? && l.flags.initialized && !l.flags.isActive
    ensures var after := ToggleLocal(n, s, l, true, env);
      && after.list == FilterFeatures.LoadFilterList(n, s.kind.filter, env.store)
      && (after.flags.isActive <==> !s.kind.filter.NamedFilter?)
      && after.targets == l.targets + FilterFeatures.Hits(s.kind.filter, after.list, s.config, env.items)
    ensures var after := ToggleLocal(n, s, l, true, env);
      var page := ToggleLayers(n, s, l, lay, true, env);
      forall e :: e in FilterFeatures.Hits(s.kind.filter, after.list, s.config, env.items) ==>
        DisplayNone(page.style, e) && Marker(n) in Attrs(page.attrs, e)
  {
    var after := ToggleLocal(n, s, l, true, env);
    var hits := FilterFeatures.Hits(s.kind.filter, after.list, s.config, env.items);
    forall e | e in hits
      ensures DisplayNone(ToggleLayers(n, s, l, lay, true, env).style, e)
      ensures Marker(n) in Attrs(ToggleLayers(n, s, l, lay, true, env).attrs, e)
    {
      HiddenElementsMarked(n, lay.attrs, lay.style, hits, e);
    }
  }

  /**
   * Switching an active feature off disables it, keeps its list, leaves it
   * tracking nothing, and shows every element it tracked: none keeps its
   * `display: none` or this feature's marker.
   */
  lemma {:induction false} DisablingShowsTracked(n: string, s: Setting, l: Local, lay: Layers, env: Env)
    requires l.flags.isActive
    ensures var after := ToggleLocal(n, s, l, false, env);
      && !after.flags.enabled && !after.flags.isActive && after.list == l.list && after.targets == {}
    ensures var page := ToggleLayers(n, s, l, lay, false, env);
      forall e :: e in l.targets ==> !DisplayNone(page.style, e) && Marker(n) !in Attrs(page.attrs, e)
  {
    var page := ToggleLayers(n, s, l, lay, false, env);
    forall e | e in l.targets
      ensures !DisplayNone(page.style, e) && Marker(n) !in Attrs(page.attrs, e)
    {
      assert page.style[e] == ShownStyle(Attrs(lay.style, e));
      assert page.attrs[e] == ShownAttrs(Attrs(lay.attrs, e), n);
    }
  }

  /**
   * An enabled filter that `initialize` activates loads its list from the store
   * at that point, whatever the load merge gave it.
   */
  lemma InitLoadsFilterFromStore(n: string, s: Setting, l: Local, h: InitHooks, env: Env)
    requires s.kind.Filter? && InitActivates(l, h) && !l.flags.isActive
    ensures InitLocal(n, s, l, h, env).list == FilterFeatures.LoadFilterList(n, s.kind.filter, env.store)
    ensures InitLocal(n, s, l, h, env).targets
         == l.targets + FilterFeatures.Hits(s.kind.filter, FilterFeatures.LoadFilterList(n, s.kind.filter, env.store),
                                            s.config, env.items)
  {
  }

  // ------------------------------------------------------------ the methods

  /** `activate` of a DOM feature outside this model: the flags, and its hook hides what it names. */
  method DomActivate(f: Feature, page: Page, env: Env) returns (r: Outcome)
    requires f.Valid() && f.kind.DomOnly?
    modifies f`enabled, f`isActive, f`hookLog, f`targetElements, page`attrs, page`style
    ensures f.Valid()
    ensures f.Now() == ActivateLocal(f.name, f.Setup(), old(f.Now()), env)
    ensures page.Now() == ActivateLayers(f.name, f.Setup(), old(f.Now()), old(page.Now()), env)
    ensures f.Attached() == ActivateAttached(f.Setup(), old(f.Now()), old(f.Attached()), old(page.Wires()))
    ensures page.Wires() == ActivateWiring(f.Setup(), old(f.Now()), old(page.Wires()))
    ensures var s := ActivateStep(old(f.Status()), env.dom(f.name).result);
      r == s.result && f.hookLog == old(f.hookLog) + s.calls
  {
    if !f.initialized || f.isActive {
      return Completed;
    }
    HideElements(f, page, env.dom(f.name).hides);
    r := f.Activate(env.dom(f.name).result);
  }

  /** `activate` of the suggestions feature: the flags, then its `onActivate`, which completes. */
  method SuggestionsActivate(f: Feature, page: Page, env: Env) returns (r: Outcome)
    requires f.Valid() && f.kind.Suggestions? && page.Valid()
    modifies f`enabled, f`isActive, f`hookLog, f`targetElements, f`observers
    modifies page`attrs, page`style, page`liveObservers, page`nextObserver
    ensures f.Valid() && page.Valid()
    ensures f.Now() == ActivateLocal(f.name, f.Setup(), old(f.Now()), env)
    ensures page.Now() == ActivateLayers(f.name, f.Setup(), old(f.Now()), old(page.Now()), env)
    ensures f.Attached() == ActivateAttached(f.Setup(), old(f.Now()), old(f.Attached()), old(page.Wires()))
    ensures page.Wires() == ActivateWiring(f.Setup(), old(f.Now()), old(page.Wires()))
    ensures var s := ActivateStep(old(f.Status()), Completed);
      r == s.result && f.hookLog == old(f.hookLog) + s.calls
  {
    if !f.initialized || f.isActive {
      return Completed;
    }
    HideSuggestions.OnActivate(f, page, env.tree, env.watchNext);
    r := f.Activate(Completed);
  }

  /** `activate` with the kind's `onActivate`. */
  method Activate(f: Feature, page: Page, env: Env) returns (r: Outcome)
    requires f.Valid() && page.Valid()
    modifies f`enabled, f`isActive, f`hookLog, f`filterList, f`targetElements, f`observers
    modifies page`attrs, page`style, page`liveObservers, page`nextObserver
    ensures f.Valid() && page.Valid()
    ensures f.Now() == ActivateLocal(f.name, f.Setup(), old(f.Now()), env)
    ensures page.Now() == ActivateLayers(f.name, f.Setup(), old(f.Now()), old(page.Now()), env)
    ensures f.Attached() == ActivateAttached(f.Setup(), old(f.Now()), old(f.Attached()), old(page.Wires()))
    ensures page.Wires() == ActivateWiring(f.Setup(), old(f.Now()), old(page.Wires()))
    ensures var s := ActivateStep(old(f.Status()), ActivationResult(f.name, f.Setup(), env));
      r == s.result && f.hookLog == old(f.hookLog) + s.calls
  {
    match f.kind
    case Filter(fk) =>
      r := FilterFeatures.Activate(f, page, env.store, env.items);
    case Suggestions =>
      r := SuggestionsActivate(f, page, env);
    case DomOnly =>
      r := DomActivate(f, page, env);
  }

  /** `deactivate` with DOMFeature's `onDeactivate`. */
  method Deactivate(f: Feature, page: Page) returns (r: Outcome)
    requires f.Valid() && page.Valid()
    modifies f`enabled, f`isActive, f`hookLog, f`observers, f`targetElements, f`styleElements
    modifies page`liveObservers, page`attrs, page`style, page`styleSheets
    ensures f.Valid() && page.Valid()
    ensures f.Now() == DeactivateLocal(old(f.Now()))
    ensures page.Now() == DeactivateLayers(f.name, old(f.Now()), old(page.Now()))
    ensures f.Attached() == DeactivateAttached(old(f.Now()), old(f.Attached()))
    ensures page.Wires() == DeactivateWiring(f.name, old(f.Now()), old(f.Attached()), old(page.Wires()))
    ensures r == Completed && f.hookLog == old(f.hookLog) + DeactivateStep(old(f.Status()), Completed).calls
  {
    r := DomFeatures.Deactivate(f, page);
  }

  /** `toggle`: nothing when the state matches, else `activate` or `deactivate`. */
  method Toggle(f: Feature, state: bool, page: Page, env: Env) returns (r: Outcome)
    requires f.Valid() && page.Valid()
    modifies f`enabled, f`isActive, f`hookLog, f`filterList, f`targetElements, f`observers, f`styleElements
    modifies page`attrs, page`style, page`liveObservers, page`nextObserver, page`styleSheets
    ensures f.Valid() && page.Valid()
    ensures f.Now() == ToggleLocal(f.name, f.Setup(), old(f.Now()), state, env)
    ensures page.Now() == ToggleLayers(f.name, f.Setup(), old(f.Now()), old(page.Now()), state, env)
    ensures f.Attached() == ToggleAttached(f.Setup(), old(f.Now()), old(f.Attached()), old(page.Wires()), state)
    ensures page.Wires() == ToggleWiring(f.name, f.Setup(), old(f.Now()), old(f.Attached()), old(page.Wires()), state)
    ensures var s := ToggleOutcome(f.name, f.Setup(), old(f.Status()), state, env);
      r == s.result && f.hookLog == old(f.hookLog) + s.calls
  {
    if state == f.isActive {
      return Completed;
    }
    if state {
      r := Activate(f, page, env);
    } else {
      r := Deactivate(f, page);
    }
  }

  /** `initialize`: the init hooks, then, for an enabled feature, `activate` with its kind's hook. */
  method Initialize(f: Feature, h: InitHooks, page: Page, env: Env) returns (r: Outcome)
    requires f.Valid() && page.Valid()
    modifies f`enabled, f`isActive, f`initialized, f`hookLog, f`filterList, f`targetElements, f`observers
    modifies page`attrs, page`style, page`liveObservers, page`nextObserver
    ensures f.Valid() && page.Valid()
    ensures f.Now() == InitLocal(f.name, f.Setup(), old(f.Now()), h, env)
    ensures page.Now() == InitLayers(f.name, f.Setup(), old(f.Now()), h, old(page.Now()), env)
    ensures f.Attached() == InitAttached(f.Setup(), old(f.Now()), h, old(f.Attached()), old(page.Wires()))
    ensures page.Wires() == InitWiring(f.Setup(), old(f.Now()), h, old(page.Wires()))
    ensures var s := InitStep(old(f.Status()), Bound(h, f.name, f.Setup(), env));
      r == s.result && f.hookLog == old(f.hookLog) + s.calls
  {
    var wasInitialized := f.initialized;
    r := f.Prepare(h);
    if !wasInitialized && r.Completed? && f.enabled && !f.isActive {
      r := Activate(f, page, env);
    }
  }

  /**
   * `setState` of Feature.js: before initialization only `enabled` is assigned;
   * after it, the value goes through `toggle`, whose throw skips the config merge.
   */
  method SetState(f: Feature, u: StateUpdate, page: Page, env: Env) returns (r: Outcome)
    requires f.Valid() && page.Valid()
    modifies f`enabled, f`isActive, f`hookLog, f`filterList, f`targetElements, f`observers, f`styleElements
    modifies f`config, page`attrs, page`style, page`liveObservers, page`nextObserver, page`styleSheets
    ensures f.Valid() && page.Valid()
    ensures var s := SetStateStep(old(f.Status()), u.enabled, HookFor(f.name, old(f.Setup()), u.enabled == Some(true), env));
      f.Status() == s.after && r == s.result && f.hookLog == old(f.hookLog) + s.calls
    ensures u.enabled.Some? && old(f.initialized) ==>
      && f.Now() == ToggleLocal(f.name, old(f.Setup()), old(f.Now()), u.enabled.value, env)
      && page.Now() == ToggleLayers(f.name, old(f.Setup()), old(f.Now()), old(page.Now()), u.enabled.value, env)
      && f.Attached() == ToggleAttached(old(f.Setup()), old(f.Now()), old(f.Attached()), old(page.Wires()), u.enabled.value)
      && page.Wires() == ToggleWiring(f.name, old(f.Setup()), old(f.Now()), old(f.Attached()), old(page.Wires()), u.enabled.value)
    ensures !(u.enabled.Some? && old(f.initialized)) ==>
      && f.filterList == old(f.filterList) && f.targetElements == old(f.targetElements) && page.Now() == old(page.Now())
      && f.Attached() == old(f.Attached()) && page.Wires() == old(page.Wires())
    ensures f.config == if r.Completed? && u.config.Some? then old(f.config) + u.config.value else old(f.config)
  {
    r := Completed;
    if u.enabled.Some? && !f.initialized {
      f.enabled := u.enabled.value;
    } else if u.enabled.Some? {
      r := Toggle(f, u.enabled.value, page, env);
      ToggleFollowsLifecycle(f.name, old(f.Setup()), old(f.Now()), u.enabled.value, env);
      if r.Threw? {
        return;
      }
    }
    if u.config.Some? {
      f.config := f.config + u.config.value;
    }
  }

  /**
   * FilterFeature's `setState`: Feature's, then the list is replaced when one is
   * supplied; when Feature's part throws the list is what that part left.
   */
  method SetFilterState(f: Feature, u: StateUpdate, page: Page, env: Env) returns (r: Outcome)
    requires f.Valid() && f.kind.Filter? && page.Valid()
    modifies f`enabled, f`isActive, f`hookLog, f`filterList, f`targetElements, f`observers, f`styleElements
    modifies f`config, page`attrs, page`style, page`liveObservers, page`nextObserver, page`styleSheets
    ensures f.Valid() && page.Valid()
    ensures var s := SetStateStep(old(f.Status()), u.enabled, HookFor(f.name, old(f.Setup()), u.enabled == Some(true), env));
      f.Status() == s.after && r == s.result && f.hookLog == old(f.hookLog) + s.calls
    ensures var toggled := u.enabled.Some? && old(f.initialized);
      var after := if toggled then ToggleLocal(f.name, old(f.Setup()), old(f.Now()), u.enabled.value, env) else old(f.Now());
      && f.targetElements == after.targets
      && page.Now() == (if toggled then ToggleLayers(f.name, old(f.Setup()), old(f.Now()), old(page.Now()), u.enabled.value, env)
                        else old(page.Now()))
      && f.filterList == (if r.Completed? && u.filterList.Some? then u.filterList.value else after.list)
      && f.Attached() == (if toggled then ToggleAttached(old(f.Setup()), old(f.Now()), old(f.Attached()), old(page.Wires()), u.enabled.value)
                          else old(f.Attached()))
      && page.Wires() == (if toggled then ToggleWiring(f.name, old(f.Setup()), old(f.Now()), old(f.Attached()), old(page.Wires()), u.enabled.value)
                          else old(page.Wires()))
    ensures f.config == if r.Completed? && u.config.Some? then old(f.config) + u.config.value else old(f.config)
  {
    r := SetState(f, u, page, env);
    if r.Completed? && u.filterList.Some? {
      f.filterList := u.filterList.value;
    }
  }
}
