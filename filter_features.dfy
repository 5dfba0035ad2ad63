/**
 * List-based filtering shared by the filter features (src/core/FilterFeature.js):
 * the block list and its edits, the storage key it lives under, loading it, and
 * re-applying the filter after a change. `applyFilters` dispatches on the filter
 * kind; FilterFeature's own version, which a subclass must override, throws.
 */
module FilterFeatures {
  import opened Common
  import opened Document
  import opened Features
  import opened DomFeatures
  import Words = BlacklistedWords
  import Channels = BlacklistedChannels

  /** The error FilterFeature's abstract `applyFilters` throws. */
  const MissingApplyFilters: string := "must implement applyFilters()"

  /** What `applyFilters` returns for a filter kind: only the abstract one throws. */
  function ApplyResult(fk: FilterKind): (r: Outcome)
    ensures r.Threw? <==> fk.NamedFilter?
  {
    if fk.NamedFilter? then Threw(MissingApplyFilters) else Completed
  }

  /** The elements `applyFilters` hides for a filter with this list and config. */
  function Hits(fk: FilterKind, list: seq<string>, config: map<string, Json>, items: seq<VideoItem>): set<ElemId> {
    match fk
    case WordFilter => Words.Matching(list, Words.CaseSensitive(config), items)
    case ChannelFilter => Channels.Matching(list, items)
    case NamedFilter => {}
  }

  /** An item is hit by a filter exactly when that filter's own test selects it. */
  lemma HitsAreSelected(fk: FilterKind, list: seq<string>, config: map<string, Json>, items: seq<VideoItem>, e: ElemId)
    ensures fk.WordFilter? ==> (e in Hits(fk, list, config, items)
      <==> exists it :: it in items && Words.Selects(list, Words.CaseSensitive(config), it) && it.elem == e)
    ensures fk.ChannelFilter? ==> (e in Hits(fk, list, config, items)
      <==> exists it :: it in items && Channels.Selects(list, it) && it.elem == e)
    ensures fk.NamedFilter? ==> e !in Hits(fk, list, config, items)
  {
    Words.MatchingIsSelected(list, Words.CaseSensitive(config), items, e);
    Channels.MatchingIsSelected(list, items, e);
  }

  /** `applyFilters` of the feature's kind. */
  method ApplyFilters(f: Feature, page: Page, items: seq<VideoItem>) returns (r: Outcome)
    requires f.kind.Filter?
    modifies f`targetElements, page`attrs, page`style
    ensures r == ApplyResult(f.kind.filter)
    ensures f.targetElements == old(f.targetElements) + Hits(f.kind.filter, f.filterList, f.config, items)
    ensures page.attrs == Over(Hide, AttrLayer, f.name, old(page.attrs), Hits(f.kind.filter, f.filterList, f.config, items))
    ensures page.style == Over(Hide, StyleLayer, f.name, old(page.style), Hits(f.kind.filter, f.filterList, f.config, items))
  {
    match f.kind.filter
    case WordFilter =>
      Words.ApplyFilters(f, page, items);
      r := Completed;
    case ChannelFilter =>
      Channels.ApplyFilters(f, page, items);
      r := Completed;
    case NamedFilter =>
      OverEmpty(Hide, AttrLayer, f.name, page.attrs);
      OverEmpty(Hide, StyleLayer, f.name, page.style);
      r := Threw(MissingApplyFilters);
  }

  /** `loadFilterList` of the feature's kind, on the store's current contents. */
  function LoadFilterList(name: string, fk: FilterKind, store: map<string, Json>): (r: seq<string>)
    ensures fk.NamedFilter? && OwnListKey(name) in store ==> r == ListValue(store[OwnListKey(name)])
    ensures fk.NamedFilter? && OwnListKey(name) !in store ==> r == []
  {
    match fk
    case WordFilter => Words.LoadedList(store)
    case ChannelFilter => Channels.LoadedList(store)
    case NamedFilter =>
      var key := OwnListKey(name);
      if key in store && Truthy(store[key]) then ListValue(store[key]) else []
  }

  /** A list written under the feature's list key is the list the feature loads. */
  lemma SavedListIsLoaded(name: string, fk: FilterKind, store: map<string, Json>, l: seq<string>)
    ensures LoadFilterList(name, fk, store[ListStorageKey(name, fk) := ToJsonList(l)]) == l
  {
    match fk
    case WordFilter => Words.SavedListIsLoaded(store, l);
    case ChannelFilter => Channels.SavedListIsLoaded(store, l);
    case NamedFilter => ListValueOfToJsonList(l);
  }

  /** `updateFilterList`: the list becomes the array given (or empty), then the filter is re-applied when enabled. */
  method UpdateFilterList(f: Feature, page: Page, newList: Json, items: seq<VideoItem>) returns (r: Outcome)
    requires f.Valid() && f.kind.Filter?
    modifies f`filterList, f`targetElements, page`attrs, page`style
    ensures f.Valid()
    ensures f.filterList == ListValue(newList)
    ensures !f.enabled ==>
      && r == Completed && f.targetElements == old(f.targetElements)
      && page.attrs == old(page.attrs) && page.style == old(page.style)
    ensures f.enabled ==>
      && r == ApplyResult(f.kind.filter)
      && f.targetElements == old(f.targetElements) + Hits(f.kind.filter, f.filterList, f.config, items)
      && page.attrs == Over(Hide, AttrLayer, f.name, old(page.attrs), Hits(f.kind.filter, f.filterList, f.config, items))
      && page.style == Over(Hide, StyleLayer, f.name, old(page.style), Hits(f.kind.filter, f.filterList, f.config, items))
  {
    f.filterList := ListValue(newList);
    r := Completed;
    if f.enabled {
      r := ApplyFilters(f, page, items);
    }
  }

  /** `addToFilter`: appends an absent item (so the list never gains a duplicate) and re-applies when enabled. */
  method AddToFilter(f: Feature, page: Page, item: string, items: seq<VideoItem>) returns (r: Outcome)
    requires f.Valid() && f.kind.Filter?
    modifies f`filterList, f`targetElements, page`attrs, page`style
    ensures f.Valid()
    ensures f.filterList == AddIfAbsent(old(f.filterList), item)
    ensures item in old(f.filterList) || !f.enabled ==>
      && r == Completed
      && f.targetElements == old(f.targetElements) && page.attrs == old(page.attrs) && page.style == old(page.style)
    ensures item !in old(f.filterList) && f.enabled ==>
      && r == ApplyResult(f.kind.filter)
      && f.targetElements == old(f.targetElements) + Hits(f.kind.filter, f.filterList, f.config, items)
      && page.attrs == Over(Hide, AttrLayer, f.name, old(page.attrs), Hits(f.kind.filter, f.filterList, f.config, items))
      && page.style == Over(Hide, StyleLayer, f.name, old(page.style), Hits(f.kind.filter, f.filterList, f.config, items))
  {
    r := Completed;
    if item !in f.filterList {
      f.filterList := f.filterList + [item];
      if f.enabled {
        r := ApplyFilters(f, page, items);
      }
    }
  }

  /**
   * `removeFromFilter`: removes the first occurrence only; when enabled, every
   * element this feature hid is shown before the filter is re-applied.
   */
  method RemoveFromFilter(f: Feature, page: Page, item: string, items: seq<VideoItem>) returns (r: Outcome)
    requires f.Valid() && f.kind.Filter?
    modifies f`filterList, f`targetElements, page`attrs, page`style
    ensures f.Valid()
    ensures f.filterList == RemoveFirst(old(f.filterList), item)
    ensures if item in old(f.filterList) && f.enabled then
      && r == ApplyResult(f.kind.filter)
      && f.targetElements == Hits(f.kind.filter, f.filterList, f.config, items)
      && page.attrs == Over(Hide, AttrLayer, f.name,
                            Over(Show, AttrLayer, f.name, old(page.attrs), old(f.targetElements)),
                            Hits(f.kind.filter, f.filterList, f.config, items))
      && page.style == Over(Hide, StyleLayer, f.name,
                            Over(Show, StyleLayer, f.name, old(page.style), old(f.targetElements)),
                            Hits(f.kind.filter, f.filterList, f.config, items))
    else
      && r == Completed
      && f.targetElements == old(f.targetElements) && page.attrs == old(page.attrs) && page.style == old(page.style)
  {
    r := Completed;
    var index := IndexOf(f.filterList, item);
    if index > -1 {
      // splice(index, 1)
      f.filterList := RemoveFirst(f.filterList, item);
      if f.enabled {
        r := ShowAllThenApply(f, page, items);
      }
    }
  }

  /** Shows every element the feature hid, then re-applies the filter to the current list. */
  method ShowAllThenApply(f: Feature, page: Page, items: seq<VideoItem>) returns (r: Outcome)
    requires f.kind.Filter?
    modifies f`targetElements, page`attrs, page`style
    ensures r == ApplyResult(f.kind.filter)
    ensures f.targetElements == Hits(f.kind.filter, f.filterList, f.config, items)
    ensures page.attrs == Over(Hide, AttrLayer, f.name,
                               Over(Show, AttrLayer, f.name, old(page.attrs), old(f.targetElements)),
                               Hits(f.kind.filter, f.filterList, f.config, items))
    ensures page.style == Over(Hide, StyleLayer, f.name,
                               Over(Show, StyleLayer, f.name, old(page.style), old(f.targetElements)),
                               Hits(f.kind.filter, f.filterList, f.config, items))
  {
    ShowAllHiddenElements(f, page);
    r := ApplyFilters(f, page, items);
  }

  /** `clearFilter`: empties the list; when enabled, shows every element this feature hid. */
  method ClearFilter(f: Feature, page: Page)
    requires f.Valid() && f.kind.Filter?
    modifies f`filterList, f`targetElements, page`attrs, page`style
    ensures f.Valid()
    ensures f.filterList == []
    ensures !f.enabled ==>
      && f.targetElements == old(f.targetElements)
      && page.attrs == old(page.attrs) && page.style == old(page.style)
    ensures f.enabled ==>
      && f.targetElements == {}
      && page.attrs == Over(Show, AttrLayer, f.name, old(page.attrs), old(f.targetElements))
      && page.style == Over(Show, StyleLayer, f.name, old(page.style), old(f.targetElements))
  {
    f.filterList := [];
    if f.enabled {
      ShowAllHiddenElements(f, page);
    }
  }

  /**
   * `loadAdditionalData(key, value)`: only the feature's own list key has an
   * effect; a falsy value loads the empty list.
   */
  method LoadAdditionalData(f: Feature, page: Page, key: string, value: Json, items: seq<VideoItem>)
    returns (r: Outcome)
    requires f.Valid() && f.kind.Filter?
    modifies f`filterList, f`targetElements, page`attrs, page`style
    ensures f.Valid()
    ensures key != ListStorageKey(f.name, f.kind.filter) ==>
      && r == Completed && f.filterList == old(f.filterList)
      && f.targetElements == old(f.targetElements) && page.attrs == old(page.attrs) && page.style == old(page.style)
    ensures key == ListStorageKey(f.name, f.kind.filter) ==> f.filterList == ListValue(value)
    ensures key == ListStorageKey(f.name, f.kind.filter) && !f.enabled ==>
      && r == Completed
      && f.targetElements == old(f.targetElements) && page.attrs == old(page.attrs) && page.style == old(page.style)
    ensures key == ListStorageKey(f.name, f.kind.filter) && f.enabled ==>
      && r == ApplyResult(f.kind.filter)
      && f.targetElements == old(f.targetElements) + Hits(f.kind.filter, f.filterList, f.config, items)
      && page.attrs == Over(Hide, AttrLayer, f.name, old(page.attrs), Hits(f.kind.filter, f.filterList, f.config, items))
      && page.style == Over(Hide, StyleLayer, f.name, old(page.style), Hits(f.kind.filter, f.filterList, f.config, items))
  {
    r := Completed;
    if key == ListStorageKey(f.name, f.kind.filter) {
      f.filterList := ListValue(value);
      if f.enabled {
        r := ApplyFilters(f, page, items);
      }
    }
  }

  /**
   * FilterFeature's `onActivate`: load the list from the store, apply it, and
   * observe the page. A throwing `applyFilters` ends the hook before observing.
   */
  method OnActivate(f: Feature, page: Page, store: map<string, Json>, items: seq<VideoItem>) returns (r: Outcome)
    requires f.Valid() && f.kind.Filter? && page.Valid()
    modifies f`filterList, f`targetElements, f`observers, page`attrs, page`style, page`liveObservers, page`nextObserver
    ensures f.Valid() && page.Valid()
    ensures f.filterList == LoadFilterList(f.name, f.kind.filter, store)
    ensures r == ApplyResult(f.kind.filter)
    ensures f.targetElements == old(f.targetElements) + Hits(f.kind.filter, f.filterList, f.config, items)
    ensures page.attrs == Over(Hide, AttrLayer, f.name, old(page.attrs), Hits(f.kind.filter, f.filterList, f.config, items))
    ensures page.style == Over(Hide, StyleLayer, f.name, old(page.style), Hits(f.kind.filter, f.filterList, f.config, items))
    ensures r.Completed? && page.hasBody ==>
      && f.observers == old(f.observers) + [old(page.nextObserver)] && old(page.nextObserver) !in old(page.liveObservers)
      && page.liveObservers == old(page.liveObservers) + {old(page.nextObserver)}
      && page.nextObserver == old(page.nextObserver) + 1
    ensures r.Threw? || !page.hasBody ==>
      f.observers == old(f.observers) && page.liveObservers == old(page.liveObservers)
      && page.nextObserver == old(page.nextObserver)
  {
    f.filterList := LoadFilterList(f.name, f.kind.filter, store);
    r := ApplyFilters(f, page, items);
    if r.Completed? {
      var _ := ObserveDOM(f, page);
    }
  }

  /**
   * `activate` of a filter feature: the optimistic flags, then FilterFeature's
   * hook; when the hook throws, the flags are rolled back but what the hook did
   * to the list and the page stays.
   */
  method Activate(f: Feature, page: Page, store: map<string, Json>, items: seq<VideoItem>) returns (r: Outcome)
    requires f.Valid() && f.kind.Filter? && page.Valid()
    modifies f`enabled, f`isActive, f`hookLog, f`filterList, f`targetElements, f`observers
    modifies page`attrs, page`style, page`liveObservers, page`nextObserver
    ensures f.Valid() && page.Valid()
    ensures !old(f.initialized) || old(f.isActive) ==>
      && r == Completed && f.Status() == old(f.Status()) && f.hookLog == old(f.hookLog)
      && f.filterList == old(f.filterList) && f.targetElements == old(f.targetElements)
      && f.observers == old(f.observers) && page.attrs == old(page.attrs) && page.style == old(page.style)
      && page.liveObservers == old(page.liveObservers) && page.nextObserver == old(page.nextObserver)
    ensures old(f.initialized) && !old(f.isActive) ==>
      && r == ApplyResult(f.kind.filter)
      && f.Status() == ActivateStep(old(f.Status()), r).after
      && f.hookLog == old(f.hookLog) + ActivateStep(old(f.Status()), r).calls
      && f.filterList == LoadFilterList(f.name, f.kind.filter, store)
      && f.targetElements == old(f.targetElements) + Hits(f.kind.filter, f.filterList, f.config, items)
      && page.attrs == Over(Hide, AttrLayer, f.name, old(page.attrs), Hits(f.kind.filter, f.filterList, f.config, items))
      && page.style == Over(Hide, StyleLayer, f.name, old(page.style), Hits(f.kind.filter, f.filterList, f.config, items))
    ensures old(f.initialized) && !old(f.isActive) && r.Completed? && page.hasBody ==>
      && f.observers == old(f.observers) + [old(page.nextObserver)] && old(page.nextObserver) !in old(page.liveObservers)
      && page.liveObservers == old(page.liveObservers) + {old(page.nextObserver)}
      && page.nextObserver == old(page.nextObserver) + 1
    ensures old(f.initialized) && !old(f.isActive) && (r.Threw? || !page.hasBody) ==>
      f.observers == old(f.observers) && page.liveObservers == old(page.liveObservers)
      && page.nextObserver == old(page.nextObserver)
  {
    if !f.initialized || f.isActive {
      return Completed;
    }
    var hook := OnActivate(f, page, store, items);
    r := f.Activate(hook);
  }

  /**
   * `saveFilterList` as the source has it: the list is written under `<name>_list`,
   * which is not the key the channels and words filters read first.
   */
  method SaveFilterListAsWritten(f: Feature, store: map<string, Json>) returns (saved: map<string, Json>)
    ensures saved == store[OwnListKey(f.name) := ToJsonList(f.filterList)]
  {
    saved := store[OwnListKey(f.name) := ToJsonList(f.filterList)];
  }

  /** The shared list keys do not end in `_list`, so no feature's own key is one of them. */
  lemma OwnKeyIsNotShared(name: string, fk: FilterKind)
    requires !fk.NamedFilter?
    ensures OwnListKey(name) != ListStorageKey(name, fk)
  {
    var k := OwnListKey(name);
    assert k[|k| - 5] == '_';
    if fk.WordFilter? {
      assert WordsListKey[|WordsListKey| - 5] == 'W';
    } else {
      assert ChannelsListKey[|ChannelsListKey| - 5] == 'k';
    }
  }

  /** The shared key of a channels or words filter holds a list, which the loader prefers. */
  predicate SharedKeyHolds(name: string, fk: FilterKind, store: map<string, Json>) {
    !fk.NamedFilter? && ListStorageKey(name, fk) in store && Truthy(store[ListStorageKey(name, fk)])
  }

  /**
   * Once the shared key (`blacklist` or `blacklistWords`) holds a list, a list saved
   * under the feature's own key is never loaded: the older shared list wins.
   */
  lemma SavedAsWrittenIsShadowed(name: string, fk: FilterKind, store: map<string, Json>, l: seq<string>)
    requires SharedKeyHolds(name, fk, store)
    ensures LoadFilterList(name, fk, store[OwnListKey(name) := ToJsonList(l)]) == LoadFilterList(name, fk, store)
  {
    OwnKeyIsNotShared(name, fk);
  }

  /** A concrete store on which the save as written is lost: `["new"]` is saved, `["old"]` is loaded. */
  lemma SaveAsWrittenLosesList()
    ensures var store := map[ChannelsListKey := ToJsonList(["old"])];
      var saved := store[OwnListKey(Channels.Name) := ToJsonList(["new"])];
      LoadFilterList(Channels.Name, ChannelFilter, saved) == ["old"] != ["new"]
  {
    var store := map[ChannelsListKey := ToJsonList(["old"])];
    SavedAsWrittenIsShadowed(Channels.Name, ChannelFilter, store, ["new"]);
    ListValueOfToJsonList(["old"]);
  }

  /**
   * `saveFilterList` writing under `getFilterListStorageKey`, the key the feature's own
   * `loadFilterList` reads first: what is saved is what is loaded next.
   */
  method SaveFilterList(f: Feature, store: map<string, Json>) returns (saved: map<string, Json>)
    requires f.kind.Filter?
    ensures saved == store[ListStorageKey(f.name, f.kind.filter) := ToJsonList(f.filterList)]
    ensures LoadFilterList(f.name, f.kind.filter, saved) == f.filterList
  {
    saved := store[ListStorageKey(f.name, f.kind.filter) := ToJsonList(f.filterList)];
    SavedListIsLoaded(f.name, f.kind.filter, store, f.filterList);
  }

  /**
   * `updateBlacklist` / `updateBlacklistWords` as the source has them: `updateFilterList`,
   * then, unless that threw, `saveFilterList` under `<name>_list`. Only a feature whose
   * own key is its list key loads the saved list back; while the shared key holds a
   * list, the next load still returns the shared one.
   */
  method UpdateAndSave(f: Feature, page: Page, newList: Json, items: seq<VideoItem>, store: map<string, Json>)
    returns (r: Outcome, saved: map<string, Json>)
    requires f.Valid() && f.kind.Filter?
    modifies f`filterList, f`targetElements, page`attrs, page`style
    ensures f.Valid() && f.filterList == ListValue(newList)
    ensures r == (if f.enabled then ApplyResult(f.kind.filter) else Completed)
    ensures r.Threw? ==> saved == store
    ensures r.Completed? ==> saved == store[OwnListKey(f.name) := ToJsonList(f.filterList)]
    ensures r.Completed? && f.kind.filter.NamedFilter? ==>
      LoadFilterList(f.name, f.kind.filter, saved) == ListValue(newList)
    ensures r.Completed? && SharedKeyHolds(f.name, f.kind.filter, store) ==>
      LoadFilterList(f.name, f.kind.filter, saved) == LoadFilterList(f.name, f.kind.filter, store)
  {
    r := UpdateFilterList(f, page, newList, items);
    saved := store;
    if r.Completed? {
      saved := SaveFilterListAsWritten(f, store);
      if f.kind.filter.NamedFilter? {
        SavedListIsLoaded(f.name, f.kind.filter, store, f.filterList);
      } else if SharedKeyHolds(f.name, f.kind.filter, store) {
        SavedAsWrittenIsShadowed(f.name, f.kind.filter, store, f.filterList);
      }
    }
  }

  /**
   * The same update with the list saved under `getFilterListStorageKey`: the list
   * stored is the list the feature loads next.
   */
  method UpdateAndSaveCorrected(f: Feature, page: Page, newList: Json, items: seq<VideoItem>, store: map<string, Json>)
    returns (r: Outcome, saved: map<string, Json>)
    requires f.Valid() && f.kind.Filter?
    modifies f`filterList, f`targetElements, page`attrs, page`style
    ensures f.Valid() && f.filterList == ListValue(newList)
    ensures r == (if f.enabled then ApplyResult(f.kind.filter) else Completed)
    ensures r.Threw? ==> saved == store
    ensures r.Completed? ==>
      && saved == store[ListStorageKey(f.name, f.kind.filter) := ToJsonList(f.filterList)]
      && LoadFilterList(f.name, f.kind.filter, saved) == ListValue(newList)
  {
    r := UpdateFilterList(f, page, newList, items);
    saved := store;
    if r.Completed? {
      saved := SaveFilterList(f, store);
    }
  }
}
