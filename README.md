# FocusTube core, modelled in Dafny

FocusTube is a browser extension that hides parts of YouTube: Shorts, suggestions, and videos from blocked channels or with blocked words in the title. This project models the extension's core as Dafny datatypes, functions, classes and methods, and proves properties of that model:

- **Feature lifecycle** (`features.dfy`, module `Features`). A feature has three flags (`enabled`, `isActive`, `initialized`) that move through guarded steps: initialize, activate, deactivate, toggle and setState. Activation is optimistic and rolls back when its hook throws. Deactivation never rolls back. Each lifecycle method of the `Feature` class is proved against a step function on the flags.
- **Each kind's hooks** (`lifecycle.dfy`, module `Lifecycle`). `activate` runs the kind's own `onActivate`: a filter reloads its list from the store, hides what it selects and observes the page; the suggestions feature hides the panel; a DOM feature outside this model hides what its hook names. `deactivate` runs DOMFeature's `onDeactivate`, which shows every tracked element. Each method is proved against a function of the feature's local part, its setting and the page.
- **DOM bookkeeping** (`document.dfy`, `dom_features.dfy`). A page keeps attributes and inline styles per element. A feature tracks the elements it hid, marks them with its own `data-focustube-<name>` attribute, and keeps a list of observers.
- **Block-list filtering** (`filter_features.dfy`, `blacklisted_channels.dfy`, `blacklisted_words.dfy`). This covers the list edits, the storage key a filter uses, its load precedence, and the two matching rules. Channels match by exact membership. Words match by case-insensitive substring.
- **Suggestions hiding** (`hide_suggestions.dfy`). One loop over the children of the secondary panel: it hides every child except comments and live chat, and re-shows those two if this feature had hidden them.
- **The feature manager** (`feature_manager.dfy`, module `Manager`). It covers:
  - registration, where a new feature replaces an old one of the same name;
  - the load merge: legacy keys, then the unified map, then list keys;
  - initialization that isolates failures;
  - message routing and storage-change routing;
  - saving, stats and cleanup.
- **The popup controller** (`popup_controller.dfy`, module `Popup`). It covers the merge of unified and legacy state, adding to a list with trim and dedup, removing every occurrence, and the visibility toggle.
- **The config registry and message bus** (`config_registry.dfy`, module `Config`). Values are validated, listeners are notified in order, and the bus supports subscribe/unsubscribe and rejects untyped messages.
- **The legacy content script** (`legacy_content.dfy`, module `Legacy`). Six switch variables and two lists are resolved from the store. `switchChange` messages and storage changes reassign them. Each pass runs exactly one of a hide or a show branch per switch.

Modelling conventions:

- **Store.** The browser's key-value store is a `map<string, Json>`. JavaScript's `undefined` is a missing key or `None`.
- **Failures.** Every hook, storage write or message send that can fail is an `Outcome` parameter (`Completed` or `Threw`).
- **Hook log.** A ghost `hookLog` records which lifecycle hooks ran, in order.
- **Elements.** Elements are abstract ids. Query results (`getElementById`, `querySelectorAll`, children, text) are parameters.
- **One feature class.** The class chain Feature → DOMFeature → FilterFeature → concrete feature is one class, `Features.Feature`, with a `kind` tag. The operations of DOMFeature.js, FilterFeature.js and the concrete features take the feature as an argument.

`showElements` (src/core/DOMFeature.js:60-84) removes the shared hiding attributes and styles (`hidden`, `aria-hidden`, `inert`, `display`, …). So a feature that shows an element also undoes what another feature did to it. Only the `data-focustube-<name>` marker is kept per feature (`DomFeatures.ShowScopesOnlyTheMarker`).

## Model

| member | source | states |
|---|---|---|
| Features.Feature.constructor | src/core/Feature.js:14-25 | a new feature has `enabled` equal to `defaultEnabled` (false when absent), is neither active nor initialized, and tracks no CSS, observers, elements or list |
| Features.InitialFlagsConverged | src/core/Feature.js:20-23 | a fresh feature satisfies `isActive == initialized && enabled` |
| Features.InitIsNoOpOnceInitialized | src/core/Feature.js:31-34 | initialize on an initialized feature changes nothing and runs no hook |
| Features.InitOutcome | src/core/Feature.js:31-57 | `initialized` becomes true exactly when all three init hooks complete; when one throws, the flags are unchanged and the error is returned |
| Features.InitActivatesOnce | src/core/Feature.js:47-52 | after a successful init of an enabled feature, activation runs exactly once (hooks in order BeforeInit, Init, AfterInit, OnActivate), and a second init is a no-op |
| Features.ActivateOutcome | src/core/Feature.js:90-113 | activation runs `onActivate` once; on success `enabled` and `isActive` are both true, on a throw both are reset to false and the error propagates |
| Features.DeactivateNoRollback | src/core/Feature.js:146-162 | deactivating an active feature leaves `enabled` and `isActive` false even when `onDeactivate` throws; `initialized` is kept |
| Features.ActivateIdempotent | src/core/Feature.js:118-141 | a second activate after a successful one changes nothing; deactivate after it turns both flags off |
| Features.StepKeepsConverged | src/core/Feature.js:31-175 | each lifecycle operation preserves `isActive == initialized && enabled` |
| Features.RunKeepsConverged | src/core/Feature.js:31-175 | every sequence of lifecycle calls preserves that invariant and hence `isActive ⇒ initialized` |
| Features.ToggleToCurrentIsNoOp | src/core/Feature.js:167-175 | after any run, `toggle(s)` with `s` equal to the current `isActive` changes nothing |
| Features.Feature.Initialize | src/core/Feature.js:31-84 | the new flags, the result and the hooks run are those of the init step function |
| Features.Feature.Activate | src/core/Feature.js:90-141 | the new flags, result and hooks run are those of the activate step (guarded by `initialized && !isActive`) |
| Features.Feature.Deactivate | src/core/Feature.js:146-162 | the new flags, result and hooks run are those of the deactivate step (no-op when inactive) |
| Features.Feature.Toggle | src/core/Feature.js:167-175 | toggle is a no-op when the state matches, else activate or deactivate |
| Features.Feature.GetState | src/core/Feature.js:266-272 | the state carries the name, `enabled` and config, and the filter list exactly for filter features (src/core/FilterFeature.js:115-120) |
| Features.Feature.InjectCSS | src/core/Feature.js:218-234 | an already-tracked id adds nothing; a new id is tracked and its style node added to the page |
| Features.Feature.RemoveCSS | src/core/Feature.js:239-252 | exactly that id is untracked and only its style node is removed |
| Features.Feature.RemoveAllCSS | src/core/Feature.js:257-261 | the tracking map is empty and exactly this feature's tracked style nodes are removed; other features' nodes stay |
| Features.Feature.AdditionalStorageKeys | src/core/FilterFeature.js:140-142 | a filter feature's additional keys are exactly its list key; other features have none (src/core/Feature.js:306-308) |
| Features.ListStorageKey | src/core/FilterFeature.js:133-135 | the list key is `<name>_list`, overridden to `blacklistWords` (src/features/HideBlacklistedWordsFeature.js:67-69) and `blacklist` (src/features/HideBlacklistedChannelsFeature.js:57-59) |
| Lifecycle.Activate | src/core/Feature.js:118-141 | the flags, result and hooks run are the activate step with the kind's `onActivate` outcome; the list, tracked set and page are those `ActivateLocal`/`ActivateLayers` give: a filter's list reloaded from the store and its hits hidden (src/core/FilterFeature.js:80-84), the suggestions panel processed (src/features/HideSuggestionsFeature.js:17-20); the feature's observers and the page's live observers are those `ActivateAttached`/`ActivateWiring` give: a filter whose `applyFilters` completed and the suggestions feature register one fresh observer when the page has a body, and nothing else is registered or removed |
| Lifecycle.Deactivate | src/core/Feature.js:146-162 | the deactivate step with DOMFeature's `onDeactivate` (src/core/DOMFeature.js:234-238): an active feature is switched off, tracks nothing, and the page shows what it tracked; its observers are no longer live and its list of them is empty, its <style> nodes are removed from the page and its CSS map is empty (`DeactivateAttached`/`DeactivateWiring`); an inactive feature keeps them |
| Lifecycle.Toggle | src/core/Feature.js:167-175 | nothing when the state matches; otherwise activate or deactivate with the kind's hooks, with the flags, list, tracked set, page, observers and CSS that follow (`ToggleAttached`/`ToggleWiring`) |
| Lifecycle.Initialize | src/core/Feature.js:31-84 | the init step with the kind's `onActivate` bound: the flags, result, hooks run, list, tracked set and page are those of `InitStep`, `InitLocal` and `InitLayers`, and the observer its activation registers is that of `InitAttached`/`InitWiring` |
| Lifecycle.SetState | src/core/Feature.js:277-289 | before init only `enabled` is assigned and nothing else moves; after init the value goes through toggle with the kind's hooks, moving the observers and CSS as `Toggle` does; otherwise they are unchanged; the config is merged, new keys winning, unless the toggle threw |
| Lifecycle.SetFilterState | src/core/FilterFeature.js:122-127 | Feature's `setState`, with its observers and CSS, then the list replaced by the one supplied when that part completed; otherwise the list is what the toggle left |
| Lifecycle.ToggleFollowsLifecycle | src/core/Feature.js:167-175 | the flags a toggle leaves are those of the lifecycle toggle step with the kind's hook |
| Lifecycle.InitFollowsLifecycle | src/core/Feature.js:31-84 | the flags `initialize` leaves are those of the init step with the kind's `onActivate` |
| Lifecycle.InitInitializes | src/core/Feature.js:31-57 | an uninitialized feature ends initialized exactly when its three init hooks complete |
| Lifecycle.EnablingFilterLoadsStore | src/core/FilterFeature.js:80-84 | switching a filter on loads its list from the store, tracks what that list selects, hides and marks each such element, and ends active exactly when its `applyFilters` does not throw |
| Lifecycle.DisablingShowsTracked | src/core/DOMFeature.js:234-238 | switching an active feature off disables it, keeps its list, tracks nothing, and no element it tracked keeps `display: none` or its marker |
| Lifecycle.InitLoadsFilterFromStore | src/core/FilterFeature.js:80-84 | an enabled filter that `initialize` activates takes its list from the store at that point, whatever the load merge gave it, and tracks what that list selects |
| Document.MarkerInjective | src/core/DOMFeature.js:48 | distinct feature names give distinct marker attributes |
| Document.HideIdempotent | src/core/DOMFeature.js:39-48 | hiding an element twice leaves the same attributes and styles as hiding it once |
| Document.ShowKeepsOtherMarkers | src/core/DOMFeature.js:69-78 | showing removes this feature's marker and keeps every other feature's marker |
| DomFeatures.EffectIdempotent | src/core/DOMFeature.js:38-50 | hiding or showing one element twice equals doing it once |
| DomFeatures.OverCompose | src/core/DOMFeature.js:35-54 | hiding (or showing) two sets of elements in turn equals doing it to their union |
| DomFeatures.OverCommute | src/core/DOMFeature.js:30-85 | hide and show on disjoint sets commute |
| DomFeatures.HiddenElementsMarked | src/core/DOMFeature.js:38-48 | a hidden element carries `data-focustube-<name>=hidden`, the shared hiding attributes and `display: none` |
| DomFeatures.ShowScopesOnlyTheMarker | src/core/DOMFeature.js:69-78 | showing removes this feature's marker, the shared hiding attributes and `display: none`, and keeps other features' markers |
| DomFeatures.HideElements | src/core/DOMFeature.js:30-55 | every non-null element given is tracked and hidden, null entries are skipped, nothing else changes |
| DomFeatures.ShowElements | src/core/DOMFeature.js:60-85 | every non-null element given is untracked and shown, nothing else changes |
| DomFeatures.HideTwiceIsHideOnce | src/core/DOMFeature.js:50 | hideElements repeated on the same list changes neither the page nor the tracked set |
| DomFeatures.HideById | src/core/DOMFeature.js:90-95 | the element with that id, if any, is hidden and tracked |
| DomFeatures.ShowById | src/core/DOMFeature.js:100-105 | the element with that id, if any, is shown and untracked |
| DomFeatures.ShowAllHiddenElements | src/core/DOMFeature.js:166-169 | exactly the previously tracked elements are shown and the tracked set is empty |
| DomFeatures.ObserveDOM | src/core/DOMFeature.js:110-147 | without a body no observer is registered and the result is null; with one, the result is the next unused id, which is appended to the feature's observers and made live, and the id counter moves past it |
| DomFeatures.DisconnectObservers | src/core/DOMFeature.js:152-161 | the observer list is empty and exactly its observers are no longer live |
| DomFeatures.OnDeactivate | src/core/DOMFeature.js:234-238 | afterwards observers, tracked elements and CSS map are all empty, the tracked elements are shown and this feature's style nodes removed |
| DomFeatures.Deactivate | src/core/Feature.js:146-162 | a DOM feature's deactivate: the lifecycle step plus, when it was active, the cleanup of `onDeactivate` (src/core/DOMFeature.js:234-238): its tracked elements shown, its observers no longer live and its style nodes removed; when inactive nothing changes |
| DomFeatures.ElementContainsText | src/core/DOMFeature.js:174-202 | false for a null element; otherwise true iff some searched text contains the search string under the case rule |
| DomFeatures.AnyIncludes | src/core/DOMFeature.js:183-200 | true iff some text of the list contains the search under the case rule |
| DomFeatures.ElementContainsTextIgnoresCase | src/core/DOMFeature.js:174-183 | with the default case-insensitive search, the case of the search string does not matter |
| FilterFeatures.ApplyResult | src/core/FilterFeature.js:32-34 | only FilterFeature's own `applyFilters` throws; the two concrete filters complete |
| FilterFeatures.HitsAreSelected | src/core/FilterFeature.js:32-34 | the elements a filter hides are exactly those of the items its matching rule selects; the abstract filter hides nothing |
| FilterFeatures.ApplyFilters | src/core/FilterFeature.js:32-34 | the selected items are added to the hidden set and hidden; nothing is un-hidden |
| FilterFeatures.LoadFilterList | src/core/FilterFeature.js:89-99 | the default loader reads `<name>_list` and yields `[]` when absent; the concrete filters use their own precedence |
| FilterFeatures.SavedListIsLoaded | src/core/FilterFeature.js:133-135 | a list written under the feature's list key is exactly the list its loader returns |
| FilterFeatures.UpdateFilterList | src/core/FilterFeature.js:14-20 | the list becomes the array given (or `[]`); when enabled the filter is re-applied, otherwise the page is untouched |
| FilterFeatures.AddToFilter | src/core/FilterFeature.js:46-53 | the item is appended only when absent, so no duplicate appears; only then, and only when enabled, is the filter re-applied |
| FilterFeatures.RemoveFromFilter | src/core/FilterFeature.js:58-68 | only the first occurrence is removed and the rest keep their order; when enabled, every tracked element is shown before the filter is re-applied; an absent item changes nothing |
| FilterFeatures.ClearFilter | src/core/FilterFeature.js:73-78 | the list is empty; when enabled every tracked element is shown and the hidden set is empty |
| FilterFeatures.LoadAdditionalData | src/core/FilterFeature.js:147-157 | only the feature's own key sets the list (a falsy value gives `[]`) and re-applies when enabled; any other key changes nothing |
| FilterFeatures.OnActivate | src/core/FilterFeature.js:80-84 | the list is loaded from the store and the filter's hits hidden in both page layers; when that completes on a page with a body, one fresh observer is appended and made live, otherwise no observer is added |
| FilterFeatures.Activate | src/core/Feature.js:118-141 | activating a filter: guarded like every feature; when guarded out nothing changes; when it runs, the list is loaded, its hits hidden and tracked, and one observer added as `onActivate` states |
| FilterFeatures.SaveFilterListAsWritten | src/core/FilterFeature.js:104-113 | the list is written under `<name>_list`, whichever key the feature loads from |
| FilterFeatures.OwnKeyIsNotShared | src/core/FilterFeature.js:105 | `<name>_list` is never `blacklist` or `blacklistWords` (src/features/HideBlacklistedChannelsFeature.js:57-59), so the two writes never meet |
| FilterFeatures.SavedAsWrittenIsShadowed | src/core/FilterFeature.js:104-113 | once `blacklist` (or `blacklistWords`) holds a list, saving under the feature's own `<name>_list` key does not change what the channels (or words) filter loads (src/features/HideBlacklistedChannelsFeature.js:64-73) |
| FilterFeatures.SaveAsWrittenLosesList | src/features/HideBlacklistedChannelsFeature.js:64-73 | a concrete store where `["new"]` is saved and `["old"]` is loaded |
| FilterFeatures.SaveFilterList | src/core/FilterFeature.js:104-113 | saving under the feature's list key: the list saved is the list loaded next |
| FilterFeatures.UpdateAndSave | src/features/HideBlacklistedChannelsFeature.js:49-52 | update then save as written (also src/features/HideBlacklistedWordsFeature.js:59-62): the list is replaced; unless the re-filter threw, the store gains `<name>_list` and nothing else; while the shared key holds a list, the next load still returns the old shared list |
| FilterFeatures.UpdateAndSaveCorrected | src/features/HideBlacklistedChannelsFeature.js:49-52 | the same update saved under the list key the feature loads from: the next load returns the new list |
| BlacklistedChannels.New | src/features/HideBlacklistedChannelsFeature.js:6-10 | the channels filter is enabled by default, not yet active or initialized, with an empty list |
| BlacklistedChannels.MatchesFilter | src/features/HideBlacklistedChannelsFeature.js:19-21 | a channel matches iff it occurs in the list (exact, case-sensitive) |
| BlacklistedChannels.MatchingIsSelected | src/features/HideBlacklistedChannelsFeature.js:26-44 | the hidden set is exactly the elements of the items whose channel link text is listed |
| BlacklistedChannels.SkipsNonChannelItems | src/features/HideBlacklistedChannelsFeature.js:30-34 | an item with no channel link, or whose href lacks `/@`, is never selected |
| BlacklistedChannels.ApplyFilters | src/features/HideBlacklistedChannelsFeature.js:26-44 | matching items are hidden and tracked; nothing is un-hidden |
| BlacklistedChannels.LoadedList | src/features/HideBlacklistedChannelsFeature.js:64-73 | `blacklist` when truthy (an empty array wins), else `hideBlacklistedChannels_list`, else `[]` |
| BlacklistedChannels.SavedListIsLoaded | src/features/HideBlacklistedChannelsFeature.js:57-73 | a list written under `blacklist` is the list loaded, whatever the other key holds |
| BlacklistedWords.New | src/features/HideBlacklistedWordsFeature.js:6-11 | the words filter is enabled by default, case-insensitive, with an empty list |
| BlacklistedWords.MatchesFilter | src/features/HideBlacklistedWordsFeature.js:20-33 | a title matches iff it is non-empty and contains some list word, both lowercased unless case-sensitive |
| BlacklistedWords.SomeWordIn | src/features/HideBlacklistedWordsFeature.js:27-32 | true iff some normalised list word occurs in the text; an empty list never matches |
| BlacklistedWords.LowerIdempotent | src/features/HideBlacklistedWordsFeature.js:23-25 | lowercasing twice equals lowercasing once |
| BlacklistedWords.MatchIgnoresTitleCase | src/features/HideBlacklistedWordsFeature.js:23-32 | with the default `caseSensitive: false`, the case of the title does not matter |
| BlacklistedWords.AddingWordKeepsMatches | src/features/HideBlacklistedWordsFeature.js:27-32 | adding a word never un-matches a title |
| BlacklistedWords.MatchingIsSelected | src/features/HideBlacklistedWordsFeature.js:38-54 | the hidden set is exactly the elements of the items with a matching title; items without a title are skipped |
| BlacklistedWords.ApplyFilters | src/features/HideBlacklistedWordsFeature.js:38-54 | matching items are hidden and tracked; nothing is un-hidden |
| BlacklistedWords.LoadedList | src/features/HideBlacklistedWordsFeature.js:74-83 | `blacklistWords` when truthy (an empty array wins), else `hideBlacklistedWords_list`, else `[]` |
| BlacklistedWords.SavedListIsLoaded | src/features/HideBlacklistedWordsFeature.js:67-83 | a list written under `blacklistWords` is the list loaded |
| HideSuggestions.New | src/features/HideSuggestionsFeature.js:6-11 | the suggestions feature is a DOM feature enabled by default |
| HideSuggestions.UntrackedKeptUntouched | src/features/HideSuggestionsFeature.js:50-56 | a comments or chat child this feature had not tracked is left exactly as it was |
| HideSuggestions.HideSecondaryChildren | src/features/HideSuggestionsFeature.js:45-60 | every child that is not comments or live chat is hidden and tracked; tracked comments and chat children are shown and untracked |
| HideSuggestions.HideSecondaryContent | src/features/HideSuggestionsFeature.js:38-68 | a no-op without `secondary`; otherwise the loop's effect plus the watch-next renderer hidden when present |
| HideSuggestions.HideSuggestions | src/features/HideSuggestionsFeature.js:25-33 | the tracked set and both page layers are those `SuggestionsTargets` and `SuggestionsLayer` give: `related` always hidden, the secondary panel processed only on a `/watch` path (src/features/HideSuggestionsFeature.js:73-75) |
| HideSuggestions.SuggestionsTracked | src/features/HideSuggestionsFeature.js:25-68 | off a watch page only `related` is added to the tracked set; on one, every non-preserved child and the watch-next renderer are tracked and no comments or chat child is |
| HideSuggestions.OnActivate | src/features/HideSuggestionsFeature.js:17-20 | the tracked set and page layers are those after `hideSuggestions`; one fresh observer is appended and made live when the page has a body, none otherwise |
| Manager.NewestWins | src/core/FeatureManager.js:24-28 | after registering a sequence, each name maps to the last feature registered under it |
| Manager.Untouched | src/core/FeatureManager.js:19-32 | names never registered keep their previous entry |
| Manager.StorageKeys | src/core/FeatureManager.js:68-86 | the key list starts with the unified key, followed by each feature's legacy and additional keys |
| Manager.FeatureKeysComplete | src/core/FeatureManager.js:68-86 | a key is requested iff some registered feature declares it |
| Manager.LegacyOwnersAreNames | src/core/FeatureManager.js:287-295 | a legacy key is owned iff it is a non-empty feature name, and its owner is that feature |
| Manager.AdditionalOwnerIsLast | src/core/FeatureManager.js:308-318 | an additional key belongs to the last feature in order that declares it |
| Manager.UndeclaredHasNoOwner | src/core/FeatureManager.js:308-318 | a key no feature declares has no additional owner |
| Manager.UnifiedEntry | src/core/FeatureManager.js:297-306 | a unified entry is used only when it holds `enabled` |
| Manager.LoadedEnabled | src/core/FeatureManager.js:287-306 | `enabled` after loading: a unified entry with `enabled` wins, else a present legacy value, else the previous value |
| Manager.UnifiedOverridesLegacy | src/core/FeatureManager.js:297-306 | whatever the legacy key holds, a unified entry decides |
| Manager.LegacyUsedWithoutUnifiedEntry | src/core/FeatureManager.js:287-295 | without a unified entry the legacy value decides |
| Manager.ShadowedListNotLoaded | src/core/FeatureManager.js:308-318 | when two filters share a list key, only the later-declared one receives the stored list |
| Manager.AdditionalOwnerDeclares | src/core/FeatureManager.js:308-318 | every owned additional key is declared by its owner |
| Manager.SavedStore | src/core/FeatureManager.js:228-247 | saving writes only the unified key and keeps every other key |
| Manager.SaveThenLoad | src/core/FeatureManager.js:228-306 | loading what was saved restores each feature's `enabled` and its config |
| Manager.Answer | src/core/FeatureManager.js:332-353 | a message answers success iff its operation completed, else the error thrown |
| Manager.Route | src/core/FeatureManager.js:389-411 | a change to a key with no owner, or whose owner is not initialized, is ignored; a toggle happens only for a boolean on the legacy key; a list load only for the owner's list key |
| Manager.RouteAll | src/core/FeatureManager.js:390-411 | each change in turn is routed on its own |
| Manager.RouteAllSnoc | src/core/FeatureManager.js:390-411 | routing one more change appends its action |
| Manager.UnownedChangeIgnored | src/core/FeatureManager.js:391-393 | a change to an unowned key, or one whose owner is not initialized, is routed to nothing: no feature and not the page changes |
| Manager.CountEnabledIsCardinality | src/core/FeatureManager.js:419-431 | the enabled count is the number of enabled features |
| Manager.ReapplyKeepsActive | src/core/FeatureManager.js:196-212 | an active feature whose config changes runs deactivate then activate and ends active when both hooks complete; an inactive one is untouched |
| Manager.ReapplyFollowsLifecycle | src/core/FeatureManager.js:206-209 | the flags after the re-application are those of deactivate-then-activate with the kind's `onActivate` |
| Manager.ReapplyRefiltersStoredList | src/core/FeatureManager.js:206-209 | after a config change an active filter reloads its list from the store (src/core/FilterFeature.js:80-84), tracks exactly what it selects under the new config, and every element it hid that the new filter does not select is shown |
| Manager.Reapply | src/core/FeatureManager.js:206-209 | an active feature is deactivated then activated with its kind's hooks: flags, result, hooks run, list, tracked set and page are those of `ReapplyStep`, `ReapplyLocal` and `ReapplyLayers`, its observers and CSS those of `ReapplyAttached`/`ReapplyWiring`; an inactive one is untouched |
| Manager.StorageRunFollowsLifecycle | src/core/FeatureManager.js:395-401 | over a run of storage changes a feature's flags are those of the lifecycle run of its own toggles, with its kind's hook |
| Manager.StorageRunKeepsConverged | src/core/FeatureManager.js:395-401 | a feature that starts with `isActive == initialized && enabled` keeps it over any run of storage changes |
| Manager.OthersKeepLocal | src/core/FeatureManager.js:391-409 | actions naming other features leave a feature's flags, list and tracked set as they were |
| Manager.AttachKeepsSound | src/core/DOMFeature.js:135-146 | registering an observer keeps the bookkeeping sound (every live id below the counter, every recorded observer live, none recorded by two features), and the new id was not live |
| Manager.DetachKeepsSound | src/core/DOMFeature.js:152-161 | disconnecting one feature's observers keeps the bookkeeping sound |
| Manager.TogglePlumbingIs | src/core/Feature.js:167-175 | a toggle leaves the bookkeeping as it was, registers one observer when it activates a kind that observes, or disconnects an active feature entirely |
| Manager.InitPlumbingIs | src/core/Feature.js:47-52 | `initialize` leaves the bookkeeping as it was or registers one observer, and only when it activates |
| Manager.ReapplyPlumbingIs | src/core/FeatureManager.js:206-209 | a config change leaves the bookkeeping as it was, or disconnects an active feature, and re-registers one observer only when it was also initialized |
| Manager.ToggleKeepsSound | src/core/Feature.js:167-175 | a toggle keeps the bookkeeping sound |
| Manager.ReapplyKeepsSound | src/core/FeatureManager.js:206-209 | a re-application keeps the bookkeeping sound |
| Manager.StorageRunKeepsSound | src/core/FeatureManager.js:395-401 | any run of storage-driven toggles keeps the bookkeeping sound |
| Manager.InitKeepsSound | src/core/FeatureManager.js:165-173 | the init loop keeps the bookkeeping sound |
| Manager.FeatureManager.constructor | src/core/FeatureManager.js:10-14 | the manager starts empty and not initialized |
| Manager.FeatureManager.Features | src/core/FeatureManager.js:377 | the features in registration order |
| Manager.FeatureManager.Get | src/core/FeatureManager.js:45-47 | finds the feature registered under the name, or nothing |
| Manager.FeatureManager.Has | src/core/FeatureManager.js:52-54 | true iff `get` finds a feature, and then the name is in the order |
| Manager.FeatureManager.Register | src/core/FeatureManager.js:19-32 | the name maps to the new feature; a new name is appended to the order, an existing one keeps its place |
| Manager.FeatureManager.RegisterAll | src/core/FeatureManager.js:37-40 | the map and order are those after registering the features one by one |
| Manager.FeatureManager.CollectStorageKeys | src/core/FeatureManager.js:68-86 | the keys requested and the legacy and additional owner maps of the registered features |
| Manager.FeatureManager.LoadLegacy | src/core/FeatureManager.js:287-295 | every feature's `enabled` takes its defined legacy value |
| Manager.FeatureManager.LoadEntry | src/core/FeatureManager.js:297-306 | one unified entry sets its feature's `enabled` and merges its config; no other feature changes |
| Manager.FeatureManager.LoadUnified | src/core/FeatureManager.js:297-306 | every feature with a unified entry takes its `enabled` and merged config |
| Manager.FeatureManager.LoadKey | src/core/FeatureManager.js:308-318 | one additional key sets its owner's list |
| Manager.FeatureManager.VisitAdditionalKeys | src/core/FeatureManager.js:308-318 | after the loop over additional keys each feature holds the list the pass assigns it |
| Manager.FeatureManager.LoadAdditional | src/core/FeatureManager.js:308-318 | each filter's list is the one stored under its key (falsy gives `[]`); others keep theirs |
| Manager.FeatureManager.LoadStates | src/core/FeatureManager.js:252-323 | legacy, then unified, then additional keys: every feature's `enabled`, config and list are the merged values |
| Manager.FeatureManager.InitializeEach | src/core/FeatureManager.js:165-173 | every feature, in order, takes its own `initialize` with its kind's hooks from the state the loop starts in, whatever the others did; the page is the result of those initializations in turn, the observers registered are `InitAllPlumbing` of the bookkeeping before; no config changes |
| Manager.FeatureManager.InitFlags | src/core/FeatureManager.js:165-173 | after the init loop, a feature that was not initialized is initialized exactly when none of its three init hooks threw |
| Manager.FeatureManager.LoadThenInitialize | src/core/FeatureManager.js:153-173 | every feature is loaded from the store and then initialized from what the load gave it; its config is the loaded one; the page and the observers are those of the init loop from the page and bookkeeping before the load |
| Manager.FeatureManager.InitializeAll | src/core/FeatureManager.js:153-177 | afterwards the manager is initialized; a second call changes nothing, observers and CSS included; the first loads, then initializes every feature, the page and bookkeeping following; a feature ends initialized iff its init hooks complete |
| Manager.FeatureManager.GetAllStates | src/core/FeatureManager.js:217-223 | one state per registered feature, each its `getState` |
| Manager.FeatureManager.SaveStates | src/core/FeatureManager.js:228-247 | a successful write stores the unified map of states; a failed one leaves the store and returns the error |
| Manager.FeatureManager.ToggleFeature | src/core/FeatureManager.js:182-191 | an unknown name changes nothing, saves nothing and completes; otherwise only the named feature toggles, its observers and CSS moving as `TogglePlumbing` gives, and the states are saved only when the toggle completed |
| Manager.FeatureManager.ToggleNamed | src/core/FeatureManager.js:183-189 | toggling a registered feature: the result is the toggle outcome, only that feature moves, and the page and bookkeeping are those `Performed` states for its toggle |
| Manager.FeatureManager.UpdateFeatureConfig | src/core/FeatureManager.js:196-212 | the config is merged; an active feature is deactivated and reactivated, its observers and CSS moving as `ReapplyPlumbing` gives; states are saved when that completed; an unknown name is a no-op |
| Manager.FeatureManager.ReconfigureNamed | src/core/FeatureManager.js:203-209 | the config merged, new keys winning, then the re-application: the result is that of `ReapplyStep`, and the features, page and bookkeeping are those `Reconfigured` states |
| Manager.FeatureManager.HandleMessage | src/core/FeatureManager.js:328-360 | `getStates` answers with all states; an unknown type answers `Unknown message type` and changes nothing; `toggleFeature`/`switchChange` toggle the named feature only and answer with the toggle-and-save outcome; `updateConfig` merges the config, re-applies an active feature and answers with that outcome; the observers and CSS follow the toggle or re-application; the channel is kept open exactly for the three asynchronous types |
| Manager.FeatureManager.Perform | src/core/FeatureManager.js:393-409 | a routed action toggles or reloads the list of its feature only; a toggle moves that feature's observers and CSS as `TogglePlumbing` gives; a reload of an enabled filter hides its hits in both page layers and tracks them, and nothing else on the page or in the bookkeeping changes |
| Manager.FeatureManager.PerformChange | src/core/FeatureManager.js:390-410 | one change is routed against the owner map and performed, with the effect `Performed` states |
| Manager.FeatureManager.OnStorageChanged | src/core/FeatureManager.js:371-413 | only `sync` changes act; the state is `Reached` from the state before: each feature's flags and list after its routed actions, the page and tracked sets after each reload of a then-enabled filter, and the observers and CSS `PlumbingAfter` the routed toggles |
| Manager.FeatureManager.ChangeStep | src/core/FeatureManager.js:390-410 | one change performed extends the run `Reached` describes by its routed action |
| Manager.FeatureManager.StepReached | src/core/FeatureManager.js:390-410 | a state `Reached` after some actions, followed by one action performed as `Performed` states, is `Reached` after the longer run |
| Manager.FeatureManager.GetStats | src/core/FeatureManager.js:419-431 | total is the number of features, `enabled + disabled = total`, `initialized + uninitialized = total`, and enabled counts the enabled features |
| Manager.FeatureManager.Cleanup | src/core/FeatureManager.js:436-451 | every enabled feature is deactivated with DOMFeature's `onDeactivate`, the rest are untouched; afterwards no converged feature is active, and the page is `CleanupLayers` of the page before; each enabled, active feature holds no observer and no CSS, none of its observers is live and none of its <style> nodes is left (src/core/DOMFeature.js:234-238); every other feature keeps its observers and CSS |
| Manager.CleanupDetaches | src/core/FeatureManager.js:436-451 | after the cleanup run, an enabled, active feature holds no observer and no CSS, none of the observers it held is live and none of its <style> nodes is left; every other feature holds what it held |
| Manager.FeatureManager.CleanupDetachesAll | src/core/DOMFeature.js:234-238 | the same, read back into every feature's observer list and CSS map and the page's live observers and style nodes |
| Manager.CleanupShowsTracked | src/core/FeatureManager.js:436-451 | after cleanup no element that an enabled, active feature tracked keeps `display: none` (src/core/DOMFeature.js:234-238) |
| Manager.CleanupShowsAllTracked | src/core/FeatureManager.js:436-451 | the same for every feature of the run at once |
| Popup.DefaultFlag | src/ui/PopupController.js:125-134 | the default is true exactly for hideShorts, hideSuggestions, hideBlacklistedChannels and hideBlacklistedWords |
| Popup.EntryEnabled | src/ui/PopupController.js:119-120 | a unified entry's `enabled`, absent unless the entry is an object holding it |
| Popup.MergedFlag | src/ui/PopupController.js:118-137 | a truthy unified entry gives its `enabled`; else a defined legacy value; else the default |
| Popup.MergedList | src/ui/PopupController.js:140-141 | a list comes from the legacy result only, `[]` when absent |
| Popup.MergeStates | src/ui/PopupController.js:103-144 | exactly the eight feature names, each with its merged flag, plus the two merged lists |
| Popup.PopupAgreesWithManager | src/ui/PopupController.js:118-137 | when each truthy unified entry holds `enabled`, the popup's checkbox matches what the manager loads (src/core/FeatureManager.js:287-306) |
| Popup.EntryWithoutEnabledShowsOff | src/ui/PopupController.js:119-120 | a unified entry without `enabled` shows as unchecked, whatever the legacy key says |
| Popup.AddThenRemove | src/ui/PopupController.js:283-284 | adding an item and then removing it (src/ui/PopupController.js:408) leaves the list as removing alone would |
| Popup.NextDisplay | src/ui/PopupController.js:235-240 | `none` becomes `block`, anything else becomes `none` |
| Popup.ToggleTwice | src/ui/PopupController.js:235-240 | toggling a shown or hidden list twice restores it |
| Popup.PopupController.constructor | src/ui/PopupController.js:7-12 | the controller starts with no states and empty lists |
| Popup.PopupController.SetList | src/ui/PopupController.js:285 | sets one list, leaving the other and the rest of the state |
| Popup.PopupController.LoadStates | src/ui/PopupController.js:69-98 | on a successful read, the states are the merge of the unified and legacy values; a failed read changes nothing |
| Popup.PopupController.ToggleVisibility | src/ui/PopupController.js:235-240 | only the named element's display changes, to its next display |
| Popup.PopupController.HandleFeatureToggle | src/ui/PopupController.js:245-269 | the local state is updated whatever the write does; the flag is stored only on a successful write; storage errors are not propagated |
| Popup.PopupController.AddToList | src/ui/PopupController.js:274-335 | input empty after trim is ignored; the trimmed item is added only when absent, then stored and sent; the input is cleared in every non-empty case that does not throw |
| Popup.PopupController.RemoveFromList | src/ui/PopupController.js:406-437 | every occurrence is removed, the rest keep their order, and the new list is stored and sent |
| Config.FirstError | src/utils/ConfigRegistry.js:39-46 | none iff every validator accepts; otherwise the error of the first validator that rejects |
| Config.Notes | src/utils/ConfigRegistry.js:67-76 | one notification per listener, in registration order, each with `(new, old)` |
| Config.NotesIgnoreFailures | src/utils/ConfigRegistry.js:69-75 | a throwing listener does not change who is notified or with what |
| Config.Pushed | src/utils/ConfigRegistry.js:57-62 | the callback is appended to its key's list, other keys unchanged |
| Config.ConfigRegistry.constructor | src/utils/ConfigRegistry.js:6-9 | the registry starts empty |
| Config.ConfigRegistry.Register | src/utils/ConfigRegistry.js:14-20 | the key's value is `schema.default` and its validators are the schema's |
| Config.ConfigRegistry.Get | src/utils/ConfigRegistry.js:25-28 | the current value, or undefined for an unregistered key |
| Config.ConfigRegistry.OnChange | src/utils/ConfigRegistry.js:57-62 | the listener is appended for its key |
| Config.ConfigRegistry.NotifyListeners | src/utils/ConfigRegistry.js:67-76 | every listener of the key is called in order, whatever the others do; no value changes |
| Config.ConfigRegistry.Validate | src/utils/ConfigRegistry.js:39-46 | the loop finds the first validator error, if any |
| Config.ConfigRegistry.Set | src/utils/ConfigRegistry.js:33-52 | an unregistered key throws; the first validation error throws with the value unchanged; otherwise the value is replaced and every listener notified with `(new, old)` |
| Config.ConfigRegistry.GetAll | src/utils/ConfigRegistry.js:81-87 | every registered key mapped to its current value |
| Config.ConfigRegistry.ResetToDefaults | src/utils/ConfigRegistry.js:92-96 | keys are reset through `set` in order: success iff every default passes its validators, then every value is its default; otherwise it stops at the first rejected key |
| Config.UnsubscribeUndoesSubscribe | src/utils/ConfigRegistry.js:207-226 | unsubscribing a handler just subscribed (and not there before) restores the list |
| Config.UnsubscribeRemovesFirstCopy | src/utils/ConfigRegistry.js:218-226 | when the handler was already there, unsubscribe removes its first copy, not the one just added |
| Config.MessageBus.constructor | src/utils/ConfigRegistry.js:199-202 | the bus starts with no subscribers |
| Config.MessageBus.Subscribe | src/utils/ConfigRegistry.js:207-213 | the handler is appended for its type |
| Config.MessageBus.Unsubscribe | src/utils/ConfigRegistry.js:218-226 | the first occurrence is removed; an unknown type or absent handler changes nothing |
| Config.MessageBus.Handlers | src/utils/ConfigRegistry.js:232 | the handlers of a type, `[]` when none |
| Config.MessageBus.Receive | src/utils/ConfigRegistry.js:295-316 | a message without a type is answered `Message type required` and the channel closed; otherwise it is published to the type's handlers and the channel kept open |
| Common.Includes | src/features/HideBlacklistedWordsFeature.js:31 | `includes`: true iff the needle occurs at some position |
| Common.Trim | src/ui/PopupController.js:278 | `trim`: the slice left after dropping white space (ECMAScript WhiteSpace and LineTerminator) at both ends; empty iff the input is all white space |
| Common.IndexOf | src/core/FilterFeature.js:59 | `indexOf`: the first index holding the value, or -1 exactly when absent |
| Common.RemoveFirst | src/core/FilterFeature.js:59-61 | `splice(indexOf, 1)`: removes exactly the first occurrence and keeps the order of the rest |
| Common.AddIfAbsent | src/core/FilterFeature.js:47-48 | `includes`/`push`: the item is present afterwards, appended only when it was absent, and a list without duplicates keeps none |
| Common.RemoveAll | src/ui/PopupController.js:408 | `filter(y => y !== x)`: no copy remains, every survivor was in the list, and every other element survives |
| Common.RemoveAllCounts | src/ui/PopupController.js:408 | every copy of the removed value is dropped and every other value keeps its count |
| Common.RemoveAllAppend | src/ui/PopupController.js:408 | filtering keeps the relative order of the survivors |
| Common.ListValueOfToJsonList | src/ui/PopupController.js:288 | a list stored as an array is read back unchanged |
| Legacy.TargetRoundTrip | content.js:376-418 | a key names a variable iff it is that variable's key |
| Legacy.ListOf | content.js:358-359 | `?? []`: an absent list is empty |
| Legacy.Assign | content.js:409-418 | an unrecognised key changes no variable |
| Legacy.UnknownKeysIgnored | content.js:409-418 | a batch of unrecognised keys changes nothing |
| Legacy.AssignKeepsOthers | content.js:376-394 | assigning one key leaves every other variable as it was |
| Legacy.ChangedKeyTakesNewValue | content.js:409-418 | after a batch with distinct keys, each recognised key's variable holds its new value |
| Legacy.FlagKeysKept | content.js:6-11 | the six switches stay defined through any batch |
| Legacy.Dispatch | content.js:250-298 | one branch per switch, six in all |
| Legacy.ExactlyOneBranch | content.js:250-298 | for each switch exactly one of its hide or show branches runs: hide iff the switch is on |
| Legacy.BranchesOnce | content.js:250-298 | over switches each tested once, a tested switch takes exactly one branch, hide iff it is on, and an untested one takes none |
| Legacy.InWordList | content.js:122-126 | true iff the lowercased title contains some lowercased list word |
| Legacy.ChannelTestAgrees | content.js:118-120 | the legacy channel test is the channels filter's `matchesFilter` |
| Legacy.WordTestAgrees | content.js:122-126 | the legacy word test agrees with the words filter for a non-empty title; an empty title matches only an empty word, which the filter never matches |
| Legacy.PassHidesOrShowsSelected | content.js:128-178 | each selected tile ends with `display: none` when the pass hides, and with no inline `display` when it shows |
| Legacy.PassKeepsOthers | content.js:128-178 | tiles the pass does not select keep their styles |
| Legacy.InitialVars | content.js:317-359 | the six switches are always defined after initial resolution |
| Legacy.DefaultsAgreeWithPopup | content.js:317-325 | the content script's defaults are the popup's defaults |
| Legacy.InitialAgreesWithPopup | content.js:317-359 | without a unified map, each initial switch equals the popup's checkbox for it |
| Legacy.ContentScript.constructor | content.js:4-14 | no observer, four switches on, two off, empty lists |
| Legacy.ContentScript.SetState | content.js:376-418 | replaces the variables, leaving the observer |
| Legacy.ContentScript.RunListPass | content.js:128-178 | one list pass restyles exactly the selected tiles |
| Legacy.PassSnoc | content.js:128-178 | a pass over one more tile writes that tile after the others, only when it is selected |
| Legacy.ContentScript.HandleDomChanges | content.js:250-298 | one dispatch is recorded and the two list passes run with the current lists and switches |
| Legacy.ContentScript.ObserveDomChanges | content.js:300-372 | the observer is created at most once; the first call resolves the variables from the store and runs a pass, which restyles the page as `HandleDomChanges` does; later calls leave the page alone |
| Legacy.ContentScript.SwitchChange | content.js:375-405 | only `switchChange` acts: the variable named by `switchType` takes the state, others are kept, and a pass restyles the page under the new variables |
| Legacy.ContentScript.StorageChanged | content.js:407-429 | only `sync` changes act: each recognised key is assigned, others ignored, and one pass restyles the page under the new variables |

## Left out

- Every `chrome.*` call (storage get/set/onChanged, runtime messages, `tabs`) is left out. The store is a map parameter, read and write failures are `Outcome` parameters, and responses are datatypes.
- `StorageAdapter`, `MessageBus.sendToContent` and `MessageBus.broadcast` are pure I/O glue over `chrome.*`, so they are not modelled.
- `MessageBus.publish`'s `Promise.allSettled` error logging is left out. `Receive` only states which handlers the message reaches.
- Concurrency is left out: `Promise.all` in `initializeAll` and `cleanup`, the unguarded toggle race, and two `observeDOMChanges` calls that both start before the storage callback. Every transition is atomic here.
- MutationObserver callbacks, TreeWalker and shadow-DOM traversal (`searchShadowDOM`) are not modelled. The texts `elementContainsText` searches are a parameter.
- DomFeatures.ObserveDOM: when the page has no body, the source registers a `DOMContentLoaded` listener that later calls `observeDOM` again and runs the callback once (src/core/DOMFeature.js:121-131). That deferred retry is not modelled: the model only states that no observer is registered now and that the result is null, because page-load events are outside the model.
- CSS text and selectors, and the features that are only selector glue, are left out. In `content.js`, only the two list passes change the modelled page. The other four switches appear only as the branch that runs.
- Case folding is ASCII only. JavaScript's Unicode `toLowerCase` is not modelled.
- Logging is left out, and so are the popup's UI rendering, `initialize` and `updateUI`, which only redraw.
- The popup's storage-change listener is not modelled. It assigns `featureStates.blacklist` / `blacklistWords` from the new values and redraws the lists (src/ui/PopupController.js:442-454), so the model's popup state does not follow changes made elsewhere.
- `register` rejecting a non-`Feature` value is not modelled, because the type system makes every registered value a feature.
- `getFilterList` returning a copy holds by construction: lists are values, so no member states it.
- A stored list that is not an array is read as `[]`. The source keeps the raw value. For a string, the channels filter's `includes` (src/features/HideBlacklistedChannelsFeature.js:19-21) and the legacy tests in content.js (content.js:118-126) do a substring match instead of a membership test. The words filter's `filterList.some` (src/features/HideBlacklistedWordsFeature.js:27) throws, since a string has no `some`.
- Common.Strings: an array's entries that are not strings are dropped. The source keeps them in the list, where `includes` never matches them and the words filter's `toLowerCase` would throw on them (src/features/HideBlacklistedWordsFeature.js:27-31).
- Legacy.ListOf: after a storage change or message, the script assigns the raw new value, so a removed key leaves `undefined` and the next pass's `includes` or `some` would throw (content.js:385-387, 413-414). The model reads such a value as the empty list.
- A unified entry that is `null`, or a message whose `type` is not a string, is not modelled. The source would throw or compare loosely.
- Schema defaults are always present. An `undefined` default is not modelled.
- The popup's `updateConfig` message carries `filterList` inside `config`. The manager merges it into the config and never assigns it to the feature's list. When the filter is active, the re-activation reloads the list from the store (`Manager.ReapplyRefiltersStoredList`), so the list saved afterwards is the stored one; the model keeps that behaviour.
- The DOM features outside this model (Shorts, sidebar, comments, home page, autoplay overlay) are reduced to a `Lifecycle.DomHook`: whether their `onActivate` throws and the elements it hides. Their CSS injection and observers are not modelled.
- The extra `onDeactivate` steps of HideSidebar, HideShorts, HideAutoplayOverlay and HideComments are not modelled. Deactivation always runs DOMFeature's `onDeactivate`, which completes.
- Manager.FeatureManager.InitializeAll: sets the manager's `initialized` flag before the load and the init loop, where the source sets it after them (src/core/FeatureManager.js:175). Neither the load nor the loop reads the flag, and concurrency is left out, so the end state is the same.
- `Feature.setState` is modelled as `Lifecycle.SetState` and `FilterFeature.setState` as `Lifecycle.SetFilterState`, because both call `toggle`, whose hooks depend on the feature's kind.
- Config.ConfigRegistry.ResetToDefaults: does not state the listener notifications it makes, only the values and where it stops, because each key goes through `Set`, whose contract states them.

## Findings

| source | as written | input that shows it | evidently intended | confidence | as-written member | corrected member |
|---|---|---|---|---|---|---|
| src/core/FilterFeature.js:104-113 | `saveFilterList` always writes `<name>_list`. The channels and words filters load `blacklist` / `blacklistWords` first (src/features/HideBlacklistedChannelsFeature.js:64-73), and `updateBlacklist` / `updateBlacklistWords` save through it (src/features/HideBlacklistedChannelsFeature.js:49-52). | The store holds `blacklist = ["old"]`, and `updateBlacklist(["new"])` saves `hideBlacklistedChannels_list = ["new"]`. The next load returns `["old"]`. | Save under `getFilterListStorageKey()`, the key the loader reads first, so that a saved list is the list loaded next. | medium; not executed | FilterFeatures.SaveFilterListAsWritten, FilterFeatures.UpdateAndSave, FilterFeatures.SaveAsWrittenLosesList | FilterFeatures.SaveFilterList, FilterFeatures.UpdateAndSaveCorrected |
