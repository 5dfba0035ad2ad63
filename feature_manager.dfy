/**
 * The mediator (src/core/FeatureManager.js): the registry of features by name,
 * the storage-load merge, failure-isolating initialization, control-message and
 * storage-change routing, statistics and cleanup.
 *
 * Storage is a `map<string, Json>` handed in (what `chrome.storage.sync.get`
 * would deliver) or handed back (what `saveStates` writes); hooks and the
 * outcome of a storage write are `Outcome` parameters.
 */
module Manager {
  import opened Common
  import opened Document
  import opened Features
  import DomFeatures
  import FilterFeatures
  import Lifecycle

  /** The key of the unified map of feature states. */
  const UnifiedKey: string := "focustube_features"

  // ------------------------------------------------------- registration order

  /** The features in the map's insertion order. */
  function Line(features: map<string, Feature>, order: seq<string>): (fs: seq<Feature>)
    requires forall n :: n in order ==> n in features
    ensures |fs| == |order| && forall i :: 0 <= i < |order| ==> fs[i] == features[order[i]]
  {
    seq(|order|, i requires 0 <= i < |order| => features[order[i]])
  }

  /** The name map after `registerAll(fs)`: later registrations of a name overwrite earlier ones. */
  function AfterRegistering(m: map<string, Feature>, fs: seq<Feature>): map<string, Feature>
    decreases |fs|
  {
    if fs == [] then m else AfterRegistering(m[fs[0].name := fs[0]], fs[1..])
  }

  /** The order after `registerAll(fs)`: a new name goes last, a known name keeps its place. */
  function OrderAfterRegistering(order: seq<string>, fs: seq<Feature>): seq<string>
    decreases |fs|
  {
    if fs == [] then order
    else OrderAfterRegistering(if fs[0].name in order then order else order + [fs[0].name], fs[1..])
  }

  /** The last position of `fs` holding a feature called `name`. */
  predicate LastNamed(fs: seq<Feature>, name: string, i: int) {
    0 <= i < |fs| && fs[i].name == name && forall j :: i < j < |fs| ==> fs[j].name != name
  }

  /** `get(name)` after `registerAll(fs)` is the last feature of `fs` with that name, or the earlier entry. */
  lemma {:induction false} NewestWins(m: map<string, Feature>, fs: seq<Feature>, name: string, i: int)
    requires LastNamed(fs, name, i)
    ensures name in AfterRegistering(m, fs) && AfterRegistering(m, fs)[name] == fs[i]
    decreases |fs|
  {
    var m' := m[fs[0].name := fs[0]];
    if i == 0 {
      assert forall j :: 0 <= j < |fs[1..]| ==> fs[1..][j].name != name by {
        forall j | 0 <= j < |fs[1..]| ensures fs[1..][j].name != name {
          assert fs[1..][j] == fs[j + 1];
        }
      }
      Untouched(m', fs[1..], name);
    } else {
      assert LastNamed(fs[1..], name, i - 1) by {
        forall j | i - 1 < j < |fs[1..]| ensures fs[1..][j].name != name {
          assert fs[1..][j] == fs[j + 1];
        }
      }
      NewestWins(m', fs[1..], name, i - 1);
    }
  }

  /** A name none of `fs` carries keeps its entry (or its absence). */
  lemma {:induction false} Untouched(m: map<string, Feature>, fs: seq<Feature>, name: string)
    requires forall j :: 0 <= j < |fs| ==> fs[j].name != name
    ensures name in AfterRegistering(m, fs) <==> name in m
    ensures name in m ==> AfterRegistering(m, fs)[name] == m[name]
    decreases |fs|
  {
    if fs != [] {
      assert forall j :: 0 <= j < |fs[1..]| ==> fs[1..][j].name != name by {
        forall j | 0 <= j < |fs[1..]| ensures fs[1..][j].name != name {
          assert fs[1..][j] == fs[j + 1];
        }
      }
      Untouched(m[fs[0].name := fs[0]], fs[1..], name);
    }
  }

  // ------------------------------------------------------------ storage keys

  /** The keys one feature is read from: its legacy key when non-empty, then its additional keys. */
  function KeysOf(f: Feature): seq<string> {
    (if f.LegacyStorageKey() != "" then [f.LegacyStorageKey()] else []) + f.AdditionalStorageKeys()
  }

  /** The keys of all features, feature by feature. */
  function FeatureKeys(fs: seq<Feature>): seq<string>
    decreases |fs|
  {
    if fs == [] then [] else FeatureKeys(fs[..|fs| - 1]) + KeysOf(fs[|fs| - 1])
  }

  /** The key list `loadStates` reads: the unified key first, then every feature's keys. */
  function StorageKeys(fs: seq<Feature>): (keys: seq<string>)
    ensures |keys| >= 1 && keys[0] == UnifiedKey
    ensures keys[1..] == FeatureKeys(fs)
  {
    [UnifiedKey] + FeatureKeys(fs)
  }

  /** One more feature extends the key list and the two key maps by its own keys. */
  lemma CollectSnoc(fs: seq<Feature>, i: int)
    requires 0 <= i < |fs|
    ensures FeatureKeys(fs[..i + 1]) == FeatureKeys(fs[..i]) + KeysOf(fs[i])
    ensures LegacyOwners(fs[..i + 1])
         == if fs[i].LegacyStorageKey() != "" then LegacyOwners(fs[..i])[fs[i].LegacyStorageKey() := fs[i].name]
            else LegacyOwners(fs[..i])
    ensures AdditionalOwners(fs[..i + 1]) == SetAll(AdditionalOwners(fs[..i]), fs[i].AdditionalStorageKeys(), fs[i].name)
  {
    assert fs[..i + 1][..i] == fs[..i];
  }

  /** A key is read exactly when some feature names it as its legacy or additional key. */
  lemma {:induction false} FeatureKeysComplete(fs: seq<Feature>, k: string)
    ensures k in FeatureKeys(fs) <==> exists f :: f in fs && k in KeysOf(f)
    decreases |fs|
  {
    if fs != [] {
      var init := fs[..|fs| - 1];
      assert fs == init + [fs[|fs| - 1]];
      FeatureKeysComplete(init, k);
    }
  }

  /** `map.set(key, name)` for every key of a list, in order. */
  function SetAll<V>(m: map<string, V>, keys: seq<string>, v: V): map<string, V>
    decreases |keys|
  {
    if keys == [] then m else SetAll(m[keys[0] := v], keys[1..], v)
  }

  lemma {:induction false} SetAllFacts<V>(m: map<string, V>, keys: seq<string>, v: V, k: string)
    ensures k in keys ==> k in SetAll(m, keys, v) && SetAll(m, keys, v)[k] == v
    ensures k !in keys ==> (k in SetAll(m, keys, v) <==> k in m) && (k in m ==> SetAll(m, keys, v)[k] == m[k])
    decreases |keys|
  {
    if keys != [] {
      SetAllFacts(m[keys[0] := v], keys[1..], v, k);
    }
  }

  /** `legacyKeyMap`: legacy key to feature name, the last feature registered for a key winning. */
  function LegacyOwners(fs: seq<Feature>): map<string, string>
    decreases |fs|
  {
    if fs == [] then map[]
    else
      var f := fs[|fs| - 1];
      var m := LegacyOwners(fs[..|fs| - 1]);
      if f.LegacyStorageKey() != "" then m[f.LegacyStorageKey() := f.name] else m
  }

  /** `additionalKeysMap`: additional key to feature name, the last feature registered for a key winning. */
  function AdditionalOwners(fs: seq<Feature>): map<string, string>
    decreases |fs|
  {
    if fs == [] then map[]
    else
      var f := fs[|fs| - 1];
      SetAll(AdditionalOwners(fs[..|fs| - 1]), f.AdditionalStorageKeys(), f.name)
  }

  /** `keyToFeatureMap` of the storage-change listener: both kinds of keys, feature by feature. */
  function KeyOwners(fs: seq<Feature>): map<string, Feature>
    decreases |fs|
  {
    if fs == [] then map[]
    else
      var f := fs[|fs| - 1];
      var m := KeyOwners(fs[..|fs| - 1]);
      SetAll(if f.LegacyStorageKey() != "" then m[f.LegacyStorageKey() := f] else m, f.AdditionalStorageKeys(), f)
  }

  /** Legacy keys are names, so the legacy map sends each non-empty registered name to itself. */
  lemma {:induction false} LegacyOwnersAreNames(fs: seq<Feature>, k: string)
    ensures k in LegacyOwners(fs) <==> k != "" && exists f :: f in fs && f.name == k
    ensures k in LegacyOwners(fs) ==> LegacyOwners(fs)[k] == k
    decreases |fs|
  {
    if fs != [] {
      var init := fs[..|fs| - 1];
      assert fs == init + [fs[|fs| - 1]];
      LegacyOwnersAreNames(init, k);
    }
  }

  /** The last position of `fs` holding a feature that declares `k` as an additional key. */
  predicate LastDeclarer(fs: seq<Feature>, k: string, i: int) {
    0 <= i < |fs| && k in fs[i].AdditionalStorageKeys()
    && forall j :: i < j < |fs| ==> k !in fs[j].AdditionalStorageKeys()
  }

  /** An additional key belongs to the LAST feature that declares it. */
  lemma {:induction false} AdditionalOwnerIsLast(fs: seq<Feature>, k: string, i: int)
    requires LastDeclarer(fs, k, i)
    ensures k in AdditionalOwners(fs) && AdditionalOwners(fs)[k] == fs[i].name
    decreases |fs|
  {
    var init := fs[..|fs| - 1];
    var f := fs[|fs| - 1];
    SetAllFacts(AdditionalOwners(init), f.AdditionalStorageKeys(), f.name, k);
    if i < |fs| - 1 {
      assert LastDeclarer(init, k, i) by {
        forall j | i < j < |init| ensures k !in init[j].AdditionalStorageKeys() {
          assert init[j] == fs[j];
        }
      }
      AdditionalOwnerIsLast(init, k, i);
    }
  }

  /** A key nobody declares has no owner. */
  lemma {:induction false} UndeclaredHasNoOwner(fs: seq<Feature>, k: string)
    requires forall j :: 0 <= j < |fs| ==> k !in fs[j].AdditionalStorageKeys()
    ensures k !in AdditionalOwners(fs)
    decreases |fs|
  {
    if fs != [] {
      var init := fs[..|fs| - 1];
      var f := fs[|fs| - 1];
      SetAllFacts(AdditionalOwners(init), f.AdditionalStorageKeys(), f.name, k);
      assert forall j :: 0 <= j < |init| ==> init[j] == fs[j];
      UndeclaredHasNoOwner(init, k);
    }
  }

  // ------------------------------------------------------------ the load merge

  /**
   * The object stored for `name` in the unified map, when that map is an object
   * and the entry is an object with a defined `enabled`.
   */
  function UnifiedEntry(store: map<string, Json>, name: string): (r: Option<map<string, Json>>)
    ensures r.Some? ==> "enabled" in r.value
  {
    if UnifiedKey in store && store[UnifiedKey].JObj? && name in store[UnifiedKey].fields
      && store[UnifiedKey].fields[name].JObj? && "enabled" in store[UnifiedKey].fields[name].fields
    then Some(store[UnifiedKey].fields[name].fields)
    else None
  }

  /** `enabled` after the legacy pass: a defined value under the feature's (non-empty) name. */
  function LegacyEnabled(store: map<string, Json>, name: string, enabled: bool): bool {
    if name != "" && name in store then Truthy(store[name]) else enabled
  }

  /** `enabled` after the unified pass: the entry's `enabled` when there is one. */
  function UnifiedEnabled(store: map<string, Json>, name: string, enabled: bool): bool {
    match UnifiedEntry(store, name)
    case Some(st) => Truthy(st["enabled"])
    case None => enabled
  }

  /** `enabled` after the load: the unified entry, else a defined legacy value, else unchanged. */
  function LoadedEnabled(store: map<string, Json>, name: string, enabled: bool): (r: bool)
    ensures UnifiedEntry(store, name).Some? ==> r == Truthy(UnifiedEntry(store, name).value["enabled"])
    ensures UnifiedEntry(store, name).None? && name != "" && name in store ==> r == Truthy(store[name])
    ensures UnifiedEntry(store, name).None? && (name == "" || name !in store) ==> r == enabled
  {
    UnifiedEnabled(store, name, LegacyEnabled(store, name, enabled))
  }

  /** `config` after the load: merged with the unified entry's `config` (stored keys winning). */
  function LoadedConfig(store: map<string, Json>, name: string, config: map<string, Json>): map<string, Json> {
    match UnifiedEntry(store, name)
    case Some(st) => if "config" in st && st["config"].JObj? then config + st["config"].fields else config
    case None => config
  }

  /** `filterList` after the load: the value of the feature's list key when it owns that key. */
  function LoadedFilterList(fs: seq<Feature>, store: map<string, Json>, f: Feature, list: seq<string>): seq<string> {
    if f.kind.Filter? then
      var k := ListStorageKey(f.name, f.kind.filter);
      if k in AdditionalOwners(fs) && AdditionalOwners(fs)[k] == f.name && k in store then ListValue(store[k])
      else list
    else list
  }

  /** A feature's list part-way through the list pass, `pending` being the keys not yet visited. */
  function ListPass(fs: seq<Feature>, store: map<string, Json>, pending: set<string>, f: Feature, list: seq<string>): seq<string> {
    if f.kind.Filter? && ListStorageKey(f.name, f.kind.filter) !in pending then LoadedFilterList(fs, store, f, list)
    else list
  }

  lemma ListPassDone(fs: seq<Feature>, store: map<string, Json>, f: Feature, list: seq<string>)
    ensures ListPass(fs, store, {}, f, list) == LoadedFilterList(fs, store, f, list)
  {
  }

  /** Precedence: a unified entry decides `enabled`, whatever the legacy key holds. */
  lemma UnifiedOverridesLegacy(store: map<string, Json>, name: string, enabled: bool, legacy: Json)
    requires name != UnifiedKey && UnifiedEntry(store, name).Some?
    ensures LoadedEnabled(store[name := legacy], name, enabled) == Truthy(UnifiedEntry(store, name).value["enabled"])
  {
    assert UnifiedEntry(store[name := legacy], name) == UnifiedEntry(store, name);
  }

  /** Without a unified entry, a defined legacy value decides `enabled`. */
  lemma LegacyUsedWithoutUnifiedEntry(store: map<string, Json>, name: string, enabled: bool, legacy: Json)
    requires name != "" && name != UnifiedKey && UnifiedEntry(store, name).None?
    ensures LoadedEnabled(store[name := legacy], name, enabled) == Truthy(legacy)
  {
    assert UnifiedEntry(store[name := legacy], name) == UnifiedEntry(store, name);
  }

  /** A feature that is not the last declarer of its list key keeps its list whatever is stored. */
  lemma ShadowedListNotLoaded(fs: seq<Feature>, store: map<string, Json>, i: int, j: int, list: seq<string>)
    requires 0 <= i < j < |fs| && fs[i].kind.Filter? && fs[j].kind.Filter?
    requires fs[i].name != fs[j].name
    requires ListStorageKey(fs[i].name, fs[i].kind.filter) == ListStorageKey(fs[j].name, fs[j].kind.filter)
    requires forall a, b :: 0 <= a < b < |fs| ==> fs[a].name != fs[b].name
    ensures LoadedFilterList(fs, store, fs[i], list) == list
  {
    var k := ListStorageKey(fs[i].name, fs[i].kind.filter);
    var w := LastDeclarerExists(fs, k, j);
    AdditionalOwnerIsLast(fs, k, w);
  }

  /** Some feature is the last declarer of a key the `j`-th feature declares, at `j` or later. */
  lemma {:induction false} LastDeclarerExists(fs: seq<Feature>, k: string, j: int) returns (w: int)
    requires 0 <= j < |fs| && k in fs[j].AdditionalStorageKeys()
    ensures j <= w && LastDeclarer(fs, k, w)
    decreases |fs| - j
  {
    if forall x :: j < x < |fs| ==> k !in fs[x].AdditionalStorageKeys() {
      w := j;
    } else {
      var x :| j < x < |fs| && k in fs[x].AdditionalStorageKeys();
      w := LastDeclarerExists(fs, k, x);
    }
  }

  // ------------------------------------------------------------ saving

  /** The JSON form of one feature's `getState()`. */
  function StateJson(s: FeatureState): Json {
    JObj(map["name" := JStr(s.name), "enabled" := JBool(s.enabled), "config" := JObj(s.config)]
      + (if s.filterList.Some? then map["filterList" := ToJsonList(s.filterList.value)] else map[]))
  }

  /** The store after `saveStates` writes `{focustube_features: states}`. */
  function SavedStore(store: map<string, Json>, states: map<string, FeatureState>): (r: map<string, Json>)
    ensures r.Keys == store.Keys + {UnifiedKey}
    ensures forall k :: k in store && k != UnifiedKey ==> r[k] == store[k]
  {
    store[UnifiedKey := JObj(map n | n in states :: StateJson(states[n]))]
  }

  /**
   * Round trip: loading what `saveStates` wrote gives each saved feature its
   * saved `enabled`, and merges its saved config over the current one.
   */
  lemma SaveThenLoad(store: map<string, Json>, states: map<string, FeatureState>, name: string,
                     enabled: bool, config: map<string, Json>)
    requires name in states
    ensures LoadedEnabled(SavedStore(store, states), name, enabled) == states[name].enabled
    ensures LoadedConfig(SavedStore(store, states), name, config) == config + states[name].config
    ensures LoadedConfig(SavedStore(store, states), name, states[name].config) == states[name].config
  {
    SavedEntry(store, states, name);
  }

  /** The unified entry `saveStates` wrote for a feature holds its flag and config. */
  lemma SavedEntry(store: map<string, Json>, states: map<string, FeatureState>, name: string)
    requires name in states
    ensures UnifiedEntry(SavedStore(store, states), name).Some?
    ensures UnifiedEntry(SavedStore(store, states), name).value["enabled"] == JBool(states[name].enabled)
    ensures var st := UnifiedEntry(SavedStore(store, states), name).value;
      "config" in st && st["config"] == JObj(states[name].config)
  {
    var saved := SavedStore(store, states);
    assert saved[UnifiedKey].fields[name] == StateJson(states[name]);
  }

  // ------------------------------------------------------------ messages

  /** A control message; `state` is read by truthiness, which is how `toggle` uses it. */
  datatype Message = Message(
    msgType: string, featureName: Option<string>, state: bool,
    config: Option<map<string, Json>>, switchType: Option<string>)

  /** What `sendResponse` is given. */
  datatype Response =
    | Ok                                            // {success: true}
    | OkStates(states: map<string, FeatureState>)   // {success: true, states}
    | Failed(error: string)                         // {success: false, error}

  /** The response an operation's outcome turns into. */
  function Answer(r: Outcome): (resp: Response)
    ensures resp.Ok? <==> r.Completed?
    ensures r.Threw? ==> resp == Failed(r.error)
  {
    if r.Completed? then Ok else Failed(r.error)
  }

  // ------------------------------------------------------------ storage changes

  /** One entry of the `changes` object: the key and its `newValue` (`None` when removed). */
  datatype Change = Change(key: string, newValue: Option<Json>)

  /** What the listener does for one change. */
  datatype Action =
    | Ignore
    | ToggleTo(name: string, state: bool)
    | LoadList(name: string, key: string, value: Json)

  /**
   * The routing of one change: the key's owner must exist and be initialized; a
   * boolean on its legacy key toggles it, its additional key reloads its list.
   */
  function Route(owners: map<string, Feature>, initialized: set<string>, c: Change): (a: Action)
    ensures c.key !in owners || owners[c.key].name !in initialized ==> a == Ignore
    ensures a.ToggleTo? ==>
      && c.key in owners && a.name == owners[c.key].name && c.key == a.name
      && c.newValue == Some(JBool(a.state))
    ensures a.LoadList? ==>
      && c.key in owners && a.name == owners[c.key].name
      && owners[c.key].kind.Filter? && c.key == ListStorageKey(a.name, owners[c.key].kind.filter)
  {
    if c.key !in owners then Ignore
    else
      var f := owners[c.key];
      if f.name !in initialized then Ignore
      else if c.newValue.Some? && c.newValue.value.JBool? && c.key == f.LegacyStorageKey() then
        ToggleTo(f.name, c.newValue.value.b)
      else if c.key in f.AdditionalStorageKeys() then
        LoadList(f.name, c.key, if c.newValue.Some? then c.newValue.value else JNull)
      else Ignore
  }

  function RouteAll(owners: map<string, Feature>, initialized: set<string>, cs: seq<Change>): (acts: seq<Action>)
    ensures |acts| == |cs| && forall i :: 0 <= i < |cs| ==> acts[i] == Route(owners, initialized, cs[i])
  {
    seq(|cs|, i requires 0 <= i < |cs| => Route(owners, initialized, cs[i]))
  }

  /** Routing one more change of a run appends its action. */
  lemma RouteAllSnoc(owners: map<string, Feature>, initialized: set<string>, cs: seq<Change>, i: nat)
    requires i < |cs|
    ensures RouteAll(owners, initialized, cs[..i + 1]) == RouteAll(owners, initialized, cs[..i]) + [Route(owners, initialized, cs[i])]
  {
    var l, r := RouteAll(owners, initialized, cs[..i + 1]), RouteAll(owners, initialized, cs[..i]) + [Route(owners, initialized, cs[i])];
    assert forall j :: 0 <= j < |l| ==> l[j] == r[j];
  }

  /** The toggles a run of actions makes on one feature, as lifecycle events. */
  function TogglesFor(acts: seq<Action>, name: string, hook: Outcome): seq<Event>
    decreases |acts|
  {
    if acts == [] then []
    else
      var last := acts[|acts| - 1];
      TogglesFor(acts[..|acts| - 1], name, hook)
        + (if last.ToggleTo? && last.name == name then [ToggleEvent(last.state, hook)] else [])
  }

  lemma RunSnoc(fl: Flags, es: seq<Event>, e: Event)
    ensures Run(fl, es + [e]) == Apply(Run(fl, es), e)
    decreases |es|
  {
    if es != [] {
      assert (es + [e])[1..] == es[1..] + [e];
      RunSnoc(Apply(fl, es[0]), es[1..], e);
    }
  }

  // ------------------------------------------------------------ statistics

  /** What `getStats` returns. */
  datatype Stats = Stats(total: nat, enabled: nat, disabled: int, initialized: nat, uninitialized: int)

  function CountEnabled(features: map<string, Feature>, names: seq<string>): nat
    requires forall n :: n in names ==> n in features
    reads features.Values
    decreases |names|
  {
    if names == [] then 0
    else CountEnabled(features, names[..|names| - 1]) + (if features[names[|names| - 1]].enabled then 1 else 0)
  }

  function CountInitialized(features: map<string, Feature>, names: seq<string>): nat
    requires forall n :: n in names ==> n in features
    reads features.Values
    decreases |names|
  {
    if names == [] then 0
    else CountInitialized(features, names[..|names| - 1]) + (if features[names[|names| - 1]].initialized then 1 else 0)
  }

  /** The enabled count is the number of distinct names whose feature is enabled. */
  lemma {:induction false} CountEnabledIsCardinality(features: map<string, Feature>, names: seq<string>)
    requires forall n :: n in names ==> n in features
    requires Distinct(names)
    ensures CountEnabled(features, names) == |set n | n in names && features[n].enabled|
    decreases |names|
  {
    if names != [] {
      var init := names[..|names| - 1];
      var x := names[|names| - 1];
      assert names == init + [x];
      assert x !in init by {
        forall i | 0 <= i < |init| ensures init[i] != x {
          assert init[i] == names[i];
        }
      }
      CountEnabledIsCardinality(features, init);
      var before := set n | n in init && features[n].enabled;
      var after := set n | n in names && features[n].enabled;
      if features[x].enabled {
        assert after == before + {x};
      } else {
        assert after == before;
      }
    }
  }

  lemma {:induction false} CountInitializedAtMost(features: map<string, Feature>, names: seq<string>)
    requires forall n :: n in names ==> n in features
    ensures CountInitialized(features, names) <= |names|
    decreases |names|
  {
    if names != [] {
      CountInitializedAtMost(features, names[..|names| - 1]);
    }
  }

  lemma {:induction false} CountEnabledAtMost(features: map<string, Feature>, names: seq<string>)
    requires forall n :: n in names ==> n in features
    ensures CountEnabled(features, names) <= |names|
    decreases |names|
  {
    if names != [] {
      CountEnabledAtMost(features, names[..|names| - 1]);
    }
  }

  /** A duplicate-free list of exactly the keys of a map is as long as the map is large. */
  lemma {:induction false} DistinctKeysCount<V>(m: map<string, V>, names: seq<string>)
    requires Distinct(names) && forall n :: n in names <==> n in m
    ensures |names| == |m|
    decreases |names|
  {
    if names != [] {
      var x := names[|names| - 1];
      var init := names[..|names| - 1];
      assert names == init + [x];
      assert x !in init by {
        forall i | 0 <= i < |init| ensures init[i] != x {
          assert init[i] == names[i];
        }
      }
      var m' := m - {x};
      assert forall n :: n in init <==> n in m';
      DistinctKeysCount(m', init);
    } else {
      assert m.Keys == {};
    }
  }

  /** An owner of an additional key is a feature that declares it. */
  lemma {:induction false} AdditionalOwnerDeclares(fs: seq<Feature>, k: string)
    requires k in AdditionalOwners(fs)
    ensures exists i :: 0 <= i < |fs| && fs[i].name == AdditionalOwners(fs)[k] && k in fs[i].AdditionalStorageKeys()
    decreases |fs|
  {
    var init := fs[..|fs| - 1];
    var f := fs[|fs| - 1];
    SetAllFacts(AdditionalOwners(init), f.AdditionalStorageKeys(), f.name, k);
    if k !in f.AdditionalStorageKeys() {
      AdditionalOwnerDeclares(init, k);
      var i :| 0 <= i < |init| && init[i].name == AdditionalOwners(init)[k] && k in init[i].AdditionalStorageKeys();
      assert fs[i] == init[i];
    }
  }

  /** Every key of the storage-change map is owned by one of the features. */
  lemma {:induction false} KeyOwnersAreFeatures(fs: seq<Feature>, k: string)
    requires k in KeyOwners(fs)
    ensures KeyOwners(fs)[k] in fs
    decreases |fs|
  {
    var init := fs[..|fs| - 1];
    var f := fs[|fs| - 1];
    var m := KeyOwners(init);
    var m1 := if f.LegacyStorageKey() != "" then m[f.LegacyStorageKey() := f] else m;
    SetAllFacts(m1, f.AdditionalStorageKeys(), f, k);
    if k !in f.AdditionalStorageKeys() && !(f.LegacyStorageKey() != "" && k == f.LegacyStorageKey()) {
      KeyOwnersAreFeatures(init, k);
      assert fs == init + [f];
    }
  }

  /** Re-applying a feature after a config change: deactivate then activate, when it is active. */
  function ReapplyStep(fl: Flags, off: Outcome, on: Outcome): Step {
    if !fl.isActive then Step(fl, Completed, [])
    else
      var d := DeactivateStep(fl, off);
      if d.result.Threw? then d
      else
        var a := ActivateStep(d.after, on);
        Step(a.after, a.result, d.calls + a.calls)
  }

  /** A config change leaves an active feature active when both hooks complete, and an inactive one alone. */
  lemma ReapplyKeepsActive(fl: Flags, off: Outcome, on: Outcome)
    requires ActiveOnlyInitialized(fl)
    ensures fl.isActive && off.Completed? && on.Completed? ==>
      && ReapplyStep(fl, off, on).after == Flags(true, true, true)
      && ReapplyStep(fl, off, on).calls == [OnDeactivate, OnActivate]
    ensures !fl.isActive ==> ReapplyStep(fl, off, on).after == fl
    ensures fl.isActive && off.Completed? && on.Threw? ==>
      ReapplyStep(fl, off, on).after == Flags(false, false, true) && ReapplyStep(fl, off, on).result == on
  {
  }

  /** The feature after the re-application, `s` holding the merged config. */
  function ReapplyLocal(n: string, s: Setting, l: Local, env: Lifecycle.Env): Local {
    if !l.flags.isActive then l else Lifecycle.ActivateLocal(n, s, Lifecycle.DeactivateLocal(l), env)
  }

  /** The page after the re-application. */
  function ReapplyLayers(n: string, s: Setting, l: Local, lay: Layers, env: Lifecycle.Env): Layers {
    if !l.flags.isActive then lay
    else Lifecycle.ActivateLayers(n, s, Lifecycle.DeactivateLocal(l), Lifecycle.DeactivateLayers(n, l, lay), env)
  }

  /** The flags after the re-application are those of `ReapplyStep` with DOMFeature's cleanup and the kind's `onActivate`. */
  lemma ReapplyFollowsLifecycle(n: string, s: Setting, l: Local, env: Lifecycle.Env)
    ensures ReapplyLocal(n, s, l, env).flags == ReapplyStep(l.flags, Completed, Lifecycle.ActivationResult(n, s, env)).after
  {
  }

  /**
   * After a config change an active filter reloads its list from the store and
   * tracks exactly what that list selects under the new config; an element it
   * hid before that the new filter does not select is shown.
   */
  lemma {:induction false} ReapplyRefiltersStoredList(n: string, s: Setting, l: Local, lay: Layers, env: Lifecycle.Env)
    requires s.kind.Filter? && l.flags.isActive && l.flags.initialized
    ensures var after := ReapplyLocal(n, s, l, env);
      && after.list == FilterFeatures.LoadFilterList(n, s.kind.filter, env.store)
      && after.targets == FilterFeatures.Hits(s.kind.filter, after.list, s.config, env.items)
    ensures var hits := FilterFeatures.Hits(s.kind.filter, FilterFeatures.LoadFilterList(n, s.kind.filter, env.store),
                                            s.config, env.items);
      forall e :: e in l.targets && e !in hits ==> !DisplayNone(ReapplyLayers(n, s, l, lay, env).style, e)
  {
    var hits := FilterFeatures.Hits(s.kind.filter, FilterFeatures.LoadFilterList(n, s.kind.filter, env.store),
                                    s.config, env.items);
    var shown := DomFeatures.Over(DomFeatures.Show, DomFeatures.StyleLayer, n, lay.style, l.targets);
    forall e | e in l.targets && e !in hits
      ensures !DisplayNone(ReapplyLayers(n, s, l, lay, env).style, e)
    {
      assert ReapplyLayers(n, s, l, lay, env).style[e] == shown[e] == ShownStyle(Attrs(lay.style, e));
    }
  }

  /** The re-application step of `updateFeatureConfig`: deactivate, then activate, an active feature. */
  method Reapply(f: Feature, page: Page, env: Lifecycle.Env) returns (r: Outcome)
    requires f.Valid() && page.Valid()
    modifies f`enabled, f`isActive, f`hookLog, f`filterList, f`targetElements, f`observers, f`styleElements
    modifies page`attrs, page`style, page`liveObservers, page`nextObserver, page`styleSheets
    ensures f.Valid() && page.Valid()
    ensures f.Now() == ReapplyLocal(f.name, f.Setup(), old(f.Now()), env)
    ensures page.Now() == ReapplyLayers(f.name, f.Setup(), old(f.Now()), old(page.Now()), env)
    ensures f.Attached() == ReapplyAttached(f.name, f.Setup(), old(f.Now()), old(f.Attached()), old(page.Wires()))
    ensures page.Wires() == ReapplyWiring(f.name, f.Setup(), old(f.Now()), old(f.Attached()), old(page.Wires()))
    ensures var s := ReapplyStep(old(f.Status()), Completed, Lifecycle.ActivationResult(f.name, f.Setup(), env));
      r == s.result && f.hookLog == old(f.hookLog) + s.calls
  {
    r := Completed;
    if f.isActive {
      var _ := Lifecycle.Deactivate(f, page);
      r := Lifecycle.Activate(f, page, env);
    }
  }

  /** The owner of a key is the feature registered under its own name. */
  lemma OwnerRegistered(features: map<string, Feature>, order: seq<string>, k: string)
    requires forall n :: n in order <==> n in features
    requires forall n :: n in features ==> features[n].name == n
    requires k in KeyOwners(Line(features, order))
    ensures KeyOwners(Line(features, order))[k].name in features
    ensures features[KeyOwners(Line(features, order))[k].name] == KeyOwners(Line(features, order))[k]
  {
    var fs := Line(features, order);
    KeyOwnersAreFeatures(fs, k);
    var j :| 0 <= j < |fs| && fs[j] == KeyOwners(fs)[k];
    assert fs[j] == features[order[j]];
  }

  // ------------------------------------------------ effect of a change run

  /** A routed list reload: `loadAdditionalData` on the feature's own list key. */
  function ReloadLocal(s: Setting, l: Local, v: Json, items: seq<VideoItem>): Local {
    if !s.kind.Filter? then l
    else
      Local(l.flags, ListValue(v),
            if l.flags.enabled then l.targets + FilterFeatures.Hits(s.kind.filter, ListValue(v), s.config, items)
            else l.targets)
  }

  /** The page after a routed list reload: an enabled filter hides what the new list selects. */
  function ReloadLayers(n: string, s: Setting, l: Local, v: Json, lay: Layers, items: seq<VideoItem>): Layers {
    if !s.kind.Filter? || !l.flags.enabled then lay
    else
      var hits := FilterFeatures.Hits(s.kind.filter, ListValue(v), s.config, items);
      Layers(DomFeatures.Over(DomFeatures.Hide, DomFeatures.AttrLayer, n, lay.attrs, hits),
             DomFeatures.Over(DomFeatures.Hide, DomFeatures.StyleLayer, n, lay.style, hits))
  }

  /** Whether the action acts on the feature called `n`. */
  predicate Names(a: Action, n: string) {
    !a.Ignore? && a.name == n
  }

  /** What one toggle or reload does to its feature. */
  function ActionLocal(a: Action, s: Setting, l: Local, env: Lifecycle.Env): Local
    requires !a.Ignore?
  {
    match a
    case ToggleTo(n, state) => Lifecycle.ToggleLocal(n, s, l, state, env)
    case LoadList(_, _, v) => ReloadLocal(s, l, v, env.items)
  }

  /** What one toggle or reload does to the page. */
  function ActionLayers(a: Action, s: Setting, l: Local, lay: Layers, env: Lifecycle.Env): Layers
    requires !a.Ignore?
  {
    match a
    case ToggleTo(n, state) => Lifecycle.ToggleLayers(n, s, l, lay, state, env)
    case LoadList(n, _, v) => ReloadLayers(n, s, l, v, lay, env.items)
  }

  /** Feature `n`, with setting `s` and local part `l0` before, after the actions `acts`. */
  function LocalAfter(acts: seq<Action>, n: string, s: Setting, l0: Local, env: Lifecycle.Env): Local
    decreases |acts|
  {
    if acts == [] then l0
    else
      var k := |acts| - 1;
      var before := LocalAfter(acts[..k], n, s, l0, env);
      if Names(acts[k], n) then ActionLocal(acts[k], s, before, env) else before
  }

  /** The page, `lay0` before, after the actions `acts` on features whose local parts were `locals`. */
  function LayersAfter(acts: seq<Action>, lay0: Layers, locals: map<string, Local>, setups: map<string, Setting>,
                       env: Lifecycle.Env): Layers
    decreases |acts|
  {
    if acts == [] then lay0
    else
      var k := |acts| - 1;
      var a := acts[k];
      var before := LayersAfter(acts[..k], lay0, locals, setups, env);
      if !a.Ignore? && a.name in locals && a.name in setups
      then ActionLayers(a, setups[a.name], LocalAfter(acts[..k], a.name, setups[a.name], locals[a.name], env), before, env)
      else before
  }

  /** Over a run of storage changes a feature's flags follow the lifecycle: its toggles, with its kind's hooks. */
  lemma {:induction false} StorageRunFollowsLifecycle(acts: seq<Action>, n: string, s: Setting, l0: Local,
                                                      env: Lifecycle.Env)
    ensures LocalAfter(acts, n, s, l0, env).flags
         == Run(l0.flags, TogglesFor(acts, n, Lifecycle.ActivationResult(n, s, env)))
    decreases |acts|
  {
    if acts != [] {
      var k := |acts| - 1;
      var hook := Lifecycle.ActivationResult(n, s, env);
      var a := acts[k];
      StorageRunFollowsLifecycle(acts[..k], n, s, l0, env);
      if a.ToggleTo? && a.name == n {
        RunSnoc(l0.flags, TogglesFor(acts[..k], n, hook), ToggleEvent(a.state, hook));
        Lifecycle.ToggleFollowsLifecycle(n, s, LocalAfter(acts[..k], n, s, l0, env), a.state, env);
      } else {
        assert TogglesFor(acts, n, hook) == TogglesFor(acts[..k], n, hook) + [];
        assert TogglesFor(acts, n, hook) == TogglesFor(acts[..k], n, hook);
      }
    }
  }

  /** A feature that starts converged is still converged after any run of storage changes. */
  lemma StorageRunKeepsConverged(acts: seq<Action>, n: string, s: Setting, l0: Local, env: Lifecycle.Env)
    requires Converged(l0.flags)
    ensures Converged(LocalAfter(acts, n, s, l0, env).flags)
  {
    StorageRunFollowsLifecycle(acts, n, s, l0, env);
    RunKeepsConverged(l0.flags, TogglesFor(acts, n, Lifecycle.ActivationResult(n, s, env)));
  }

  /** Actions that name other features leave this one as it was. */
  lemma {:induction false} OthersKeepLocal(acts: seq<Action>, n: string, s: Setting, l0: Local, env: Lifecycle.Env)
    requires forall j :: 0 <= j < |acts| ==> !Names(acts[j], n)
    ensures LocalAfter(acts, n, s, l0, env) == l0
    decreases |acts|
  {
    if acts != [] {
      var k := |acts| - 1;
      assert forall j :: 0 <= j < k ==> acts[..k][j] == acts[j];
      OthersKeepLocal(acts[..k], n, s, l0, env);
    }
  }

  /** A change to a key nobody owns, or whose owner is not initialized, changes no feature and not the page. */
  lemma UnownedChangeIgnored(fs: seq<Feature>, initialized: set<string>, c: Change, n: string, s: Setting, l: Local,
                             lay: Layers, locals: map<string, Local>, setups: map<string, Setting>, env: Lifecycle.Env)
    requires c.key !in KeyOwners(fs) || KeyOwners(fs)[c.key].name !in initialized
    ensures Route(KeyOwners(fs), initialized, c) == Ignore
    ensures LocalAfter([Route(KeyOwners(fs), initialized, c)], n, s, l, env) == l
    ensures LayersAfter([Route(KeyOwners(fs), initialized, c)], lay, locals, setups, env) == lay
  {
    assert [Route(KeyOwners(fs), initialized, c)][..0] == [];
  }

  /** An `initialize` of the feature `f` with the hooks `h`. */
  datatype Initing = Initing(f: Feature, h: InitHooks, env: Lifecycle.Env, page: Page)

  /** A toggle of the feature `f` to `state`. */
  datatype Toggling = Toggling(f: Feature, state: bool, env: Lifecycle.Env, page: Page)

  /** A merge of `config` into the feature `f` and its re-application. */
  datatype Reconfiguring = Reconfiguring(f: Feature, config: map<string, Json>, env: Lifecycle.Env, page: Page)

  /** Where a run of storage changes starts: each feature's local part and setting by name, the page, and the bookkeeping. */
  datatype Origin = Origin(locals: map<string, Local>, setups: map<string, Setting>, layers: Layers, plumbing: Plumbing)

  /** One turn of the storage listener: the run so far, the action just performed, and what both depend on. */
  datatype Turn = Turn(before: seq<Action>, a: Action, origin: Origin, env: Lifecycle.Env, page: Page)

  /** Where the change loop starts: the routing table, the initialized names, the changes, and what they act on. */
  datatype ChangeRun = ChangeRun(owners: map<string, Feature>, inits: set<string>, changes: seq<Change>, origin: Origin,
                                 env: Lifecycle.Env, page: Page)

  /** Where the init loop starts, and what each `initialize` reads. */
  datatype InitRun = InitRun(locals: map<string, Local>, logs: map<string, seq<Hook>>, setups: map<string, Setting>,
                             lay0: Layers, plumb0: Plumbing, hooks: string -> InitHooks, env: Lifecycle.Env, page: Page)

  /** A turn of the init loop: its index in the run. */
  datatype InitAt = InitAt(i: int, run: InitRun)

  /** Where the cleanup loop starts: every feature's local part, the page and its bookkeeping. */
  datatype CleanupRun = CleanupRun(locals: map<string, Local>, lay0: Layers, plumb0: Plumbing, page: Page)

  /** A `deactivate` of the feature `f` on `page`. */
  datatype Cleaning = Cleaning(f: Feature, page: Page)

  /** A turn of the cleanup loop: its index in the run. */
  datatype CleanupAt = CleanupAt(i: int, run: CleanupRun)

  // ------------------------------------------------ effect of init and cleanup
  /** The page after `initialize` of the features `names` in turn, from their local parts and settings. */
  function InitAllLayers(names: seq<string>, lay: Layers, locals: map<string, Local>, setups: map<string, Setting>,
                         hooks: string -> InitHooks, env: Lifecycle.Env): Layers
    decreases |names|
  {
    if names == [] then lay
    else
      var k := |names| - 1;
      var n := names[k];
      var before := InitAllLayers(names[..k], lay, locals, setups, hooks, env);
      if n in locals && n in setups then Lifecycle.InitLayers(n, setups[n], locals[n], hooks(n), before, env) else before
  }

  /** The page after `cleanup` deactivated the enabled features among `names`, in turn. */
  function CleanupLayers(names: seq<string>, lay: Layers, locals: map<string, Local>): Layers
    decreases |names|
  {
    if names == [] then lay
    else
      var k := |names| - 1;
      var n := names[k];
      var before := CleanupLayers(names[..k], lay, locals);
      if n in locals && locals[n].flags.enabled then Lifecycle.DeactivateLayers(n, locals[n], before) else before
  }

  /**
   * After `cleanup`, no element that an enabled, active feature tracked keeps
   * `display: none`: its feature showed it, and every later step only shows.
   */
  lemma {:induction false} CleanupShowsTracked(names: seq<string>, lay: Layers, locals: map<string, Local>,
                                               n: string, e: ElemId)
    requires n in names && n in locals && locals[n].flags.enabled && locals[n].flags.isActive
    requires e in locals[n].targets
    ensures !DisplayNone(CleanupLayers(names, lay, locals).style, e)
    decreases |names|
  {
    var k := |names| - 1;
    var m := names[k];
    var before := CleanupLayers(names[..k], lay, locals);
    if m == n {
      assert CleanupLayers(names, lay, locals).style[e] == ShownStyle(Attrs(before.style, e));
    } else {
      assert n in names[..k] by {
        var i :| 0 <= i < |names| && names[i] == n;
        assert i < k && names[..k][i] == n;
      }
      CleanupShowsTracked(names[..k], lay, locals, n, e);
      if m in locals && locals[m].flags.enabled && locals[m].flags.isActive && e in locals[m].targets {
        assert CleanupLayers(names, lay, locals).style[e] == ShownStyle(Attrs(before.style, e));
      }
    }
  }

  /** After the cleanup loop no element any enabled, active feature of `names` tracked keeps `display: none`. */
  lemma CleanupShowsAllTracked(names: seq<string>, lay: Layers, locals: map<string, Local>)
    ensures forall n, e ::
              n in names && n in locals && locals[n].flags.enabled && locals[n].flags.isActive && e in locals[n].targets ==>
              !DisplayNone(CleanupLayers(names, lay, locals).style, e)
  {
    forall n, e | n in names && n in locals && locals[n].flags.enabled && locals[n].flags.isActive && e in locals[n].targets
      ensures !DisplayNone(CleanupLayers(names, lay, locals).style, e)
    {
      CleanupShowsTracked(names, lay, locals, n, e);
    }
  }

  // ------------------------------------------------ observers and injected CSS

  /** Every feature's observers and injected CSS by name, and the page's bookkeeping of both. */
  datatype Plumbing = Plumbing(ties: map<string, Attachments>, wiring: Wiring)

  /** Feature `n` registers one observer: the page's next id, connected and appended to its list. */
  function Attach(n: string, p: Plumbing): Plumbing
    requires n in p.ties
  {
    var w := p.wiring;
    Plumbing(p.ties[n := p.ties[n].(observers := p.ties[n].observers + [w.next])],
             w.(live := w.live + {w.next}, next := w.next + 1))
  }

  /** Feature `n` disconnects its observers and removes its <style> nodes, and holds neither any more. */
  function Detach(n: string, p: Plumbing): Plumbing
    requires n in p.ties
  {
    var a, w := p.ties[n], p.wiring;
    Plumbing(p.ties[n := Attachments([], map[])],
             w.(live := w.live - (set o | o in a.observers), sheets := w.sheets - (set id | id in a.css :: StyleKey(n, id))))
  }

  /** The bookkeeping after a toggle of feature `n`, whose local part was `l`. */
  function TogglePlumbing(n: string, s: Setting, l: Local, p: Plumbing, state: bool): Plumbing
    requires n in p.ties
  {
    Plumbing(p.ties[n := Lifecycle.ToggleAttached(s, l, p.ties[n], p.wiring, state)],
             Lifecycle.ToggleWiring(n, s, l, p.ties[n], p.wiring, state))
  }

  /** The bookkeeping after `initialize` of feature `n`. */
  function InitPlumbing(n: string, s: Setting, l: Local, h: InitHooks, p: Plumbing): Plumbing
    requires n in p.ties
  {
    Plumbing(p.ties[n := Lifecycle.InitAttached(s, l, h, p.ties[n], p.wiring)], Lifecycle.InitWiring(s, l, h, p.wiring))
  }

  /** The feature's observers and CSS after the re-application of a config change. */
  function ReapplyAttached(n: string, s: Setting, l: Local, a: Attachments, w: Wiring): Attachments {
    if !l.flags.isActive then a
    else Lifecycle.ActivateAttached(s, Lifecycle.DeactivateLocal(l), Lifecycle.DeactivateAttached(l, a),
                                    Lifecycle.DeactivateWiring(n, l, a, w))
  }

  /** The page's bookkeeping after the re-application of a config change. */
  function ReapplyWiring(n: string, s: Setting, l: Local, a: Attachments, w: Wiring): Wiring {
    if !l.flags.isActive then w
    else Lifecycle.ActivateWiring(s, Lifecycle.DeactivateLocal(l), Lifecycle.DeactivateWiring(n, l, a, w))
  }

  function ReapplyPlumbing(n: string, s: Setting, l: Local, p: Plumbing): Plumbing
    requires n in p.ties
  {
    Plumbing(p.ties[n := ReapplyAttached(n, s, l, p.ties[n], p.wiring)], ReapplyWiring(n, s, l, p.ties[n], p.wiring))
  }

  /** The bookkeeping after `deactivate` of feature `n`. */
  function DeactivatePlumbing(n: string, l: Local, p: Plumbing): Plumbing
    requires n in p.ties
  {
    Plumbing(p.ties[n := Lifecycle.DeactivateAttached(l, p.ties[n])], Lifecycle.DeactivateWiring(n, l, p.ties[n], p.wiring))
  }

  /** The bookkeeping after the actions `acts`: each toggle moves its feature's observers and CSS; a reload none. */
  function PlumbingAfter(acts: seq<Action>, p0: Plumbing, locals: map<string, Local>, setups: map<string, Setting>,
                         env: Lifecycle.Env): Plumbing
    decreases |acts|
  {
    if acts == [] then p0
    else
      var k := |acts| - 1;
      var a := acts[k];
      var before := PlumbingAfter(acts[..k], p0, locals, setups, env);
      if a.ToggleTo? && a.name in locals && a.name in setups && a.name in before.ties
      then TogglePlumbing(a.name, setups[a.name], LocalAfter(acts[..k], a.name, setups[a.name], locals[a.name], env),
                          before, a.state)
      else before
  }

  /** The bookkeeping after `initialize` of the features `names` in turn. */
  function InitAllPlumbing(names: seq<string>, p0: Plumbing, locals: map<string, Local>, setups: map<string, Setting>,
                           hooks: string -> InitHooks): Plumbing
    decreases |names|
  {
    if names == [] then p0
    else
      var k := |names| - 1;
      var n := names[k];
      var before := InitAllPlumbing(names[..k], p0, locals, setups, hooks);
      if n in locals && n in setups && n in before.ties then InitPlumbing(n, setups[n], locals[n], hooks(n), before)
      else before
  }

  /** The bookkeeping after `cleanup` deactivated the enabled features among `names`, in turn. */
  function CleanupPlumbing(names: seq<string>, p0: Plumbing, locals: map<string, Local>): Plumbing
    decreases |names|
  {
    if names == [] then p0
    else
      var k := |names| - 1;
      var n := names[k];
      var before := CleanupPlumbing(names[..k], p0, locals);
      if n in locals && locals[n].flags.enabled && n in before.ties then DeactivatePlumbing(n, locals[n], before)
      else before
  }

  /**
   * The bookkeeping is sound: every connected observer has an id below the
   * counter, every observer a feature records is connected, and no two
   * features record the same observer.
   */
  predicate Sound(p: Plumbing) {
    && (forall o :: o in p.wiring.live ==> o < p.wiring.next)
    && (forall n, o :: n in p.ties && o in p.ties[n].observers ==> o in p.wiring.live)
    && (forall n, m, o :: n in p.ties && m in p.ties && n != m && o in p.ties[n].observers ==> o !in p.ties[m].observers)
  }

  /** Registering an observer keeps the bookkeeping sound: the new id was not connected, so no feature held it. */
  lemma {:induction false} AttachKeepsSound(n: string, p: Plumbing)
    requires n in p.ties && Sound(p)
    ensures Sound(Attach(n, p))
    ensures p.wiring.next !in p.wiring.live
  {
    var q := Attach(n, p);
    forall m, o | m in q.ties && o in q.ties[m].observers
      ensures o in q.wiring.live
    {
      if m == n && o !in p.ties[n].observers { assert o == p.wiring.next; }
    }
    forall m, m', o | m in q.ties && m' in q.ties && m != m' && o in q.ties[m].observers
      ensures o !in q.ties[m'].observers
    {
      if o == p.wiring.next {
        assert o !in p.wiring.live;
      } else if m == n {
        assert o in p.ties[n].observers;
      }
    }
  }

  /** Disconnecting one feature keeps the bookkeeping sound, and every other feature's observers connected. */
  lemma {:induction false} DetachKeepsSound(n: string, p: Plumbing)
    requires n in p.ties && Sound(p)
    ensures Sound(Detach(n, p))
  {
    var q := Detach(n, p);
    forall m, o | m in q.ties && o in q.ties[m].observers
      ensures o in q.wiring.live
    {
      assert m != n && o in p.ties[m].observers && o !in p.ties[n].observers;
    }
  }

  /** A toggle of one feature, as far as the bookkeeping goes, is nothing, a registration or a disconnection. */
  lemma TogglePlumbingIs(n: string, s: Setting, l: Local, p: Plumbing, state: bool)
    requires n in p.ties
    ensures var q := TogglePlumbing(n, s, l, p, state);
      || q == p
      || (q == Attach(n, p) && state && Lifecycle.ActivationObserves(s, l, p.wiring))
      || (q == Detach(n, p) && !state && l.flags.isActive)
  {
  }

  /** A toggle keeps the bookkeeping sound. */
  lemma ToggleKeepsSound(n: string, s: Setting, l: Local, p: Plumbing, state: bool)
    requires n in p.ties && Sound(p)
    ensures Sound(TogglePlumbing(n, s, l, p, state))
  {
    TogglePlumbingIs(n, s, l, p, state);
    AttachKeepsSound(n, p);
    DetachKeepsSound(n, p);
  }

  /** `initialize`, as far as the bookkeeping goes, is nothing or a registration. */
  lemma InitPlumbingIs(n: string, s: Setting, l: Local, h: InitHooks, p: Plumbing)
    requires n in p.ties
    ensures var q := InitPlumbing(n, s, l, h, p);
      q == p || (q == Attach(n, p) && Lifecycle.InitActivates(l, h))
  {
  }

  /** A config change, as far as the bookkeeping goes, is nothing, a disconnection, or a disconnection and a registration. */
  lemma ReapplyPlumbingIs(n: string, s: Setting, l: Local, p: Plumbing)
    requires n in p.ties
    ensures var q := ReapplyPlumbing(n, s, l, p);
      || q == p
      || (q == Detach(n, p) && l.flags.isActive)
      || (q == Attach(n, Detach(n, p)) && l.flags.isActive && l.flags.initialized)
  {
  }

  /** A config change keeps the bookkeeping sound. */
  lemma ReapplyKeepsSound(n: string, s: Setting, l: Local, p: Plumbing)
    requires n in p.ties && Sound(p)
    ensures Sound(ReapplyPlumbing(n, s, l, p))
  {
    ReapplyPlumbingIs(n, s, l, p);
    DetachKeepsSound(n, p);
    AttachKeepsSound(n, Detach(n, p));
  }

  /** A run of storage changes keeps the bookkeeping sound. */
  lemma {:induction false} StorageRunKeepsSound(acts: seq<Action>, p0: Plumbing, locals: map<string, Local>,
                                                setups: map<string, Setting>, env: Lifecycle.Env)
    requires Sound(p0)
    ensures Sound(PlumbingAfter(acts, p0, locals, setups, env))
    decreases |acts|
  {
    if acts != [] {
      var k := |acts| - 1;
      var a := acts[k];
      var before := PlumbingAfter(acts[..k], p0, locals, setups, env);
      StorageRunKeepsSound(acts[..k], p0, locals, setups, env);
      if a.ToggleTo? && a.name in locals && a.name in setups && a.name in before.ties {
        ToggleKeepsSound(a.name, setups[a.name], LocalAfter(acts[..k], a.name, setups[a.name], locals[a.name], env),
                         before, a.state);
      }
    }
  }

  /** The init loop keeps the bookkeeping sound. */
  lemma {:induction false} InitKeepsSound(names: seq<string>, p0: Plumbing, locals: map<string, Local>,
                                          setups: map<string, Setting>, hooks: string -> InitHooks)
    requires Sound(p0)
    ensures Sound(InitAllPlumbing(names, p0, locals, setups, hooks))
    decreases |names|
  {
    if names != [] {
      var k := |names| - 1;
      var n := names[k];
      var before := InitAllPlumbing(names[..k], p0, locals, setups, hooks);
      InitKeepsSound(names[..k], p0, locals, setups, hooks);
      if n in locals && n in setups && n in before.ties {
        InitPlumbingIs(n, setups[n], locals[n], hooks(n), before);
        AttachKeepsSound(n, before);
      }
    }
  }

  /**
   * After `cleanup`, an enabled, active feature among `names` holds no observer
   * and no CSS, none of the observers it held is connected and none of its
   * <style> nodes is left; every other feature holds what it held.
   */
  lemma {:induction false} CleanupDetaches(names: seq<string>, p0: Plumbing, locals: map<string, Local>, n: string)
    requires n in p0.ties && n in locals
    ensures var q := CleanupPlumbing(names, p0, locals);
      && n in q.ties
      && (n in names && locals[n].flags.enabled && locals[n].flags.isActive ==>
            && q.ties[n] == Attachments([], map[])
            && (forall o :: o in p0.ties[n].observers ==> o !in q.wiring.live)
            && (forall id :: id in p0.ties[n].css ==> StyleKey(n, id) !in q.wiring.sheets))
      && (!(n in names && locals[n].flags.enabled && locals[n].flags.isActive) ==> q.ties[n] == p0.ties[n])
    decreases |names|
  {
    if names != [] {
      var k := |names| - 1;
      var m := names[k];
      assert names == names[..k] + [m];
      CleanupDetaches(names[..k], p0, locals, n);
    }
  }

  // ------------------------------------------------------------ the manager

  class FeatureManager {
    /** Name to feature instance. */
    var features: map<string, Feature>
    /** The names in the insertion order of the source's `Map`. */
    var order: seq<string>
    var initialized: bool

    ghost predicate Valid()
      reads this`features, this`order, features.Values
    {
      && (forall n :: n in features ==> features[n].name == n && features[n].Valid())
      && Distinct(order)
      && (forall n :: n in order <==> n in features)
    }

    constructor ()
      ensures Valid() && features == map[] && order == [] && !initialized
    {
      features := map[];
      order := [];
      initialized := false;
    }

    /** The registered features in insertion order. */
    function Features(): (fs: seq<Feature>)
      requires forall n :: n in order ==> n in features
      reads this`features, this`order
      ensures |fs| == |order| && forall i :: 0 <= i < |order| ==> fs[i] == features[order[i]]
    {
      Line(features, order)
    }

    function Get(name: string): (r: Option<Feature>)
      reads this
      ensures r.Some? <==> name in features
      ensures r.Some? ==> r.value == features[name]
    {
      if name in features then Some(features[name]) else None
    }

    /** `has`: a name is known exactly when `get` finds a feature for it, and then it is in the order. */
    function Has(name: string): (r: bool)
      requires forall n :: n in order <==> n in features
      reads this
      ensures r <==> Get(name).Some?
      ensures r ==> name in order
    {
      name in features
    }

    /**
     * `register`: a new name is appended to the order; an existing name is
     * overwritten in place and keeps its position.
     */
    method Register(f: Feature)
      requires Valid() && f.Valid()
      modifies this`features, this`order
      ensures Valid()
      ensures features == old(features)[f.name := f] && Get(f.name) == Some(f)
      ensures order == if f.name in old(features) then old(order) else old(order) + [f.name]
    {
      if f.name !in features {
        order := order + [f.name];
      }
      features := features[f.name := f];
    }

    /** `registerAll`: `register` for each feature in turn. */
    method RegisterAll(fs: seq<Feature>)
      requires Valid() && forall f :: f in fs ==> f.Valid()
      modifies this`features, this`order
      ensures Valid()
      ensures features == AfterRegistering(old(features), fs)
      ensures order == OrderAfterRegistering(old(order), fs)
    {
      var i := 0;
      while i < |fs|
        invariant 0 <= i <= |fs|
        invariant Valid()
        invariant AfterRegistering(features, fs[i..]) == AfterRegistering(old(features), fs)
        invariant OrderAfterRegistering(order, fs[i..]) == OrderAfterRegistering(old(order), fs)
      {
        assert fs[i..][1..] == fs[i + 1..];
        Register(fs[i]);
        i := i + 1;
      }
    }

    /**
     * The key-collection loop of `loadStates`: the key list, the legacy-key map
     * and the additional-key map.
     */
    /** One feature's turn of the collection: its legacy key, then its additional keys, each with its owner. */
    static method CollectKeysOf(f: Feature, keys: seq<string>, legacy: map<string, string>, additional: map<string, string>)
      returns (keys': seq<string>, legacy': map<string, string>, additional': map<string, string>)
      ensures keys' == keys + KeysOf(f)
      ensures legacy' == if f.LegacyStorageKey() != "" then legacy[f.LegacyStorageKey() := f.name] else legacy
      ensures additional' == SetAll(additional, f.AdditionalStorageKeys(), f.name)
    {
      keys', legacy', additional' := keys, legacy, additional;
      var legacyKey := f.LegacyStorageKey();
      var extra := f.AdditionalStorageKeys();
      if legacyKey != "" {
        keys' := keys' + [legacyKey];
        legacy' := legacy'[legacyKey := f.name];
      }
      ghost var mid := keys';
      if |extra| > 0 {
        keys' := keys' + extra;
        additional' := SetAll(additional', extra, f.name);
      } else {
        assert keys' == mid + extra;
      }
    }

    method CollectStorageKeys() returns (keys: seq<string>, legacy: map<string, string>, additional: map<string, string>)
      requires Valid()
      ensures keys == StorageKeys(Features())
      ensures legacy == LegacyOwners(Features()) && additional == AdditionalOwners(Features())
    {
      var fs := Features();
      keys := [UnifiedKey];
      legacy := map[];
      additional := map[];
      var i := 0;
      while i < |fs|
        invariant 0 <= i <= |fs|
        invariant keys == [UnifiedKey] + FeatureKeys(fs[..i])
        invariant legacy == LegacyOwners(fs[..i]) && additional == AdditionalOwners(fs[..i])
      {
        CollectSnoc(fs, i);
        keys, legacy, additional := CollectKeysOf(fs[i], keys, legacy, additional);
        i := i + 1;
      }
      assert fs[..i] == fs;
    }

    /** The legacy pass: a defined value under a feature's legacy key becomes its `enabled`. */
    method LoadLegacy(store: map<string, Json>, legacy: map<string, string>)
      requires Valid() && legacy == LegacyOwners(Features())
      modifies features.Values`enabled
      ensures Valid()
      ensures forall n :: n in features ==> features[n].enabled == LegacyEnabled(store, n, old(features[n].enabled))
    {
      ghost var fs := Features();
      var ks := legacy.Keys;
      while ks != {}
        invariant ks <= legacy.Keys
        invariant Valid()
        invariant forall n :: n in features ==>
          features[n].enabled == if n in legacy.Keys - ks then LegacyEnabled(store, n, old(features[n].enabled))
                                 else old(features[n].enabled)
        decreases ks
      {
        var k :| k in ks;
        LegacyOwnersAreNames(fs, k);
        var name := legacy[k];
        if name in features && k in store {
          SetEnabled(features[name], Truthy(store[k]));
        }
        ks := ks - {k};
      }
      forall n | n in features
        ensures n != "" ==> n in legacy.Keys
      {
        LegacyOwnersAreNames(fs, n);
        var i :| 0 <= i < |order| && order[i] == n;
        assert fs[i].name == n;
      }
    }

    /** Overwrites one registered feature's flag; the registry stays well-formed. */
    method SetEnabled(f: Feature, v: bool)
      requires Valid() && f in features.Values
      modifies f`enabled
      ensures Valid() && f.enabled == v
    {
      f.enabled := v;
    }

    /** The unified pass for one entry of the unified map. */
    method LoadEntry(store: map<string, Json>, name: string)
      requires Valid()
      modifies features.Values`enabled, features.Values`config
      ensures Valid()
      ensures forall n :: n in features && n != name ==>
        features[n].enabled == old(features[n].enabled) && features[n].config == old(features[n].config)
      ensures name in features ==>
        && features[name].enabled == UnifiedEnabled(store, name, old(features[name].enabled))
        && features[name].config == LoadedConfig(store, name, old(features[name].config))
    {
      if name !in features || UnifiedKey !in store || !store[UnifiedKey].JObj? || name !in store[UnifiedKey].fields {
        return;
      }
      var state := store[UnifiedKey].fields[name];
      if state.JObj? && "enabled" in state.fields {
        var f := features[name];
        f.enabled := Truthy(state.fields["enabled"]);
        if "config" in state.fields && Truthy(state.fields["config"]) && state.fields["config"].JObj? {
          f.config := f.config + state.fields["config"].fields;
        }
      }
    }

    /** The unified pass: an entry with a defined `enabled` overrides it and merges its `config`. */
    method LoadUnified(store: map<string, Json>)
      requires Valid()
      modifies features.Values`enabled, features.Values`config
      ensures Valid()
      ensures forall n :: n in features ==>
        && features[n].enabled == UnifiedEnabled(store, n, old(features[n].enabled))
        && features[n].config == LoadedConfig(store, n, old(features[n].config))
    {
      var saved := if UnifiedKey in store && store[UnifiedKey].JObj? then store[UnifiedKey].fields else map[];
      var names := saved.Keys;
      while names != {}
        invariant names <= saved.Keys
        invariant Valid()
        invariant forall n :: n in features && n !in names ==>
          && features[n].enabled == UnifiedEnabled(store, n, old(features[n].enabled))
          && features[n].config == LoadedConfig(store, n, old(features[n].config))
        invariant forall n :: n in features && n in names ==>
          && features[n].enabled == old(features[n].enabled)
          && features[n].config == old(features[n].config)
        decreases names
      {
        var name :| name in names;
        LoadEntry(store, name);
        names := names - {name};
      }
    }

    /** The list pass for one additional key `key`, owned by `owner`. */
    method LoadKey(store: map<string, Json>, key: string, owner: string, pending: set<string>,
                   ghost fs: seq<Feature>, ghost lists: map<string, seq<string>>)
      requires Valid() && fs == Features() && lists.Keys == features.Keys
      requires key in pending && key in AdditionalOwners(fs) && owner == AdditionalOwners(fs)[key]
      requires owner in features && key in features[owner].AdditionalStorageKeys()
      requires forall n :: n in features ==> features[n].filterList == ListPass(fs, store, pending, features[n], lists[n])
      modifies features.Values`filterList
      ensures Valid()
      ensures forall n :: n in features ==> features[n].filterList == ListPass(fs, store, pending - {key}, features[n], lists[n])
    {
      var f := features[owner];
      if key in store && f.kind.Filter? {
        f.filterList := ListValue(store[key]);
      }
    }

    /** The loop of the list pass, visiting every key of the additional-key map. */
    method VisitAdditionalKeys(store: map<string, Json>, additional: map<string, string>,
                               ghost fs: seq<Feature>, ghost lists: map<string, seq<string>>)
      requires Valid() && fs == Features() && additional == AdditionalOwners(fs) && lists.Keys == features.Keys
      requires forall n :: n in features ==> features[n].filterList == lists[n]
      modifies features.Values`filterList
      ensures Valid()
      ensures forall n :: n in features ==> features[n].filterList == ListPass(fs, store, {}, features[n], lists[n])
    {
      var ks := additional.Keys;
      while ks != {}
        invariant ks <= additional.Keys
        invariant Valid()
        invariant forall n :: n in features ==> features[n].filterList == ListPass(fs, store, ks, features[n], lists[n])
        decreases ks
      {
        var k :| k in ks;
        AdditionalOwnerDeclares(fs, k);
        var name := additional[k];
        ghost var j :| 0 <= j < |fs| && fs[j].name == name && k in fs[j].AdditionalStorageKeys();
        assert name in features && features[name] == fs[j];
        LoadKey(store, k, name, ks, fs, lists);
        ks := ks - {k};
      }
    }

    /** The list pass: the owner of an additional key takes a defined value as its list. */
    method LoadAdditional(store: map<string, Json>, additional: map<string, string>)
      requires Valid() && additional == AdditionalOwners(Features())
      modifies features.Values`filterList
      ensures Valid()
      ensures forall n :: n in features ==>
        features[n].filterList == LoadedFilterList(Features(), store, features[n], old(features[n].filterList))
    {
      ghost var fs := Features();
      ghost var lists := map n | n in features :: features[n].filterList;
      VisitAdditionalKeys(store, additional, fs, lists);
      forall n | n in features
        ensures features[n].filterList == LoadedFilterList(Features(), store, features[n], old(features[n].filterList))
      {
        assert Features() == fs;
        assert lists[n] == old(features[n].filterList);
        ListPassDone(fs, store, features[n], lists[n]);
      }
    }

    /**
     * `loadStates`: the three passes in order. The page's other keys are never
     * read: every function of the merge looks only at keys `StorageKeys` names.
     */
    method LoadStates(store: map<string, Json>)
      requires Valid()
      modifies features.Values`enabled, features.Values`config, features.Values`filterList
      ensures Valid()
      ensures forall n :: n in features ==>
        && features[n].enabled == LoadedEnabled(store, n, old(features[n].enabled))
        && features[n].config == LoadedConfig(store, n, old(features[n].config))
        && features[n].filterList == LoadedFilterList(Features(), store, features[n], old(features[n].filterList))
    {
      var keys, legacy, additional := CollectStorageKeys();
      LoadLegacy(store, legacy);
      LoadUnified(store);
      LoadAdditional(store, additional);
    }

    /** The merged flags and lists, feature by feature, make up `LoadedLocals`. */
    twostate lemma LoadedLocalsAre(store: map<string, Json>)
      requires old(Valid()) && features == old(features) && order == old(order)
      requires forall n :: n in features ==>
        && features[n].enabled == LoadedEnabled(store, n, old(features[n].enabled))
        && features[n].filterList == LoadedFilterList(Features(), store, features[n], old(features[n].filterList))
      requires unchanged(features.Values`isActive, features.Values`initialized, features.Values`targetElements)
      ensures Locals() == old(LoadedLocals(store))
    {
      assert Features() == old(Features());
      forall n | n in features
        ensures Locals()[n] == old(LoadedLocals(store))[n]
      {
      }
    }

    /** The merged configs, feature by feature, make up `LoadedSetups`. */
    twostate lemma LoadedSetupsAre(store: map<string, Json>)
      requires features == old(features)
      requires forall n :: n in features ==> features[n].config == LoadedConfig(store, n, old(features[n].config))
      ensures Setups() == old(LoadedSetups(store))
    {
      forall n | n in features
        ensures Setups()[n] == old(LoadedSetups(store))[n]
      {
      }
    }

    /** When no feature changed, neither did what the load merge makes of their local parts. */
    twostate lemma LoadedLocalsKept(store: map<string, Json>)
      requires old(Valid()) && features == old(features) && order == old(order) && unchanged(features.Values)
      ensures LoadedLocals(store) == old(LoadedLocals(store))
    {
      var fs := Features();
      assert fs == old(Features());
      forall n | n in features
        ensures LoadedLocals(store)[n] == old(LoadedLocals(store))[n]
      {
      }
    }

    /** When no feature changed, neither did what the load merge makes of their settings. */
    twostate lemma LoadedSetupsKept(store: map<string, Json>)
      requires features == old(features) && unchanged(features.Values`config)
      ensures LoadedSetups(store) == old(LoadedSetups(store))
    {
      forall n | n in features
        ensures LoadedSetups(store)[n] == old(LoadedSetups(store))[n]
      {
      }
    }

    /** Hook logs nobody wrote are the same logs. */
    twostate lemma TiesKept()
      requires features == old(features) && unchanged(features.Values`observers, features.Values`styleElements)
      ensures Ties() == old(Ties())
    {
      forall n | n in features
        ensures Ties()[n] == old(Ties())[n]
      {
      }
    }

    twostate lemma LogsKept()
      requires features == old(features) && unchanged(features.Values`hookLog)
      ensures Logs() == old(Logs())
    {
      forall n | n in features
        ensures Logs()[n] == old(Logs())[n]
      {
      }
    }

    /**
     * Each feature's kind and configuration as the load merge of `store` leaves
     * them: the config merged with its unified entry's `config` object.
     */
    ghost function LoadedSetups(store: map<string, Json>): (m: map<string, Setting>)
      reads this`features, features.Values`config
      ensures m.Keys == features.Keys
    {
      map n | n in features :: Setting(features[n].kind, LoadedConfig(store, n, features[n].config))
    }

    /** Each feature's flags, list and tracked set, by name. */
    ghost function Locals(): (m: map<string, Local>)
      reads this`features, features.Values`enabled, features.Values`isActive, features.Values`initialized
      reads features.Values`filterList, features.Values`targetElements
      ensures m.Keys == features.Keys && forall n :: n in features ==> m[n] == features[n].Now()
    {
      map n | n in features :: features[n].Now()
    }

    /** Each feature's kind and configuration, by name. */
    ghost function Setups(): (m: map<string, Setting>)
      reads this`features, features.Values`config
      ensures m.Keys == features.Keys && forall n :: n in features ==> m[n] == features[n].Setup()
    {
      map n | n in features :: features[n].Setup()
    }

    /**
     * Each feature's local part as the load merge of `store` leaves it: `enabled`
     * from the legacy then the unified key, the list from the key it owns.
     */
    ghost function LoadedLocals(store: map<string, Json>): (m: map<string, Local>)
      requires forall n :: n in order ==> n in features
      reads this`features, this`order, features.Values`enabled, features.Values`isActive, features.Values`initialized
      reads features.Values`filterList, features.Values`targetElements
      ensures m.Keys == features.Keys
    {
      map n | n in features ::
        Local(features[n].Status().(enabled := LoadedEnabled(store, n, features[n].enabled)),
              LoadedFilterList(Features(), store, features[n], features[n].filterList), features[n].targetElements)
    }

    /**
     * Every feature after `initialize` ran for the features `names`, from their
     * local parts `locals` and hook logs `logs`; the others are as they were.
     */
    ghost predicate InitReached(names: seq<string>, locals: map<string, Local>, logs: map<string, seq<Hook>>,
                                hooks: string -> InitHooks, env: Lifecycle.Env)
      reads this`features, features.Values`enabled, features.Values`isActive, features.Values`initialized
      reads features.Values`filterList, features.Values`targetElements, features.Values`config, features.Values`hookLog
    {
      InitLocalsReached(names, locals, hooks, env) && InitLogsReached(names, locals, logs, hooks, env)
    }

    /** The local parts of `InitReached`. */
    ghost predicate InitLocalsReached(names: seq<string>, locals: map<string, Local>, hooks: string -> InitHooks, env: Lifecycle.Env)
      reads this`features, features.Values`enabled, features.Values`isActive, features.Values`initialized
      reads features.Values`filterList, features.Values`targetElements, features.Values`config
    {
      && locals.Keys == features.Keys
      && forall n :: n in features ==>
           features[n].Now() == if n in names then Lifecycle.InitLocal(n, features[n].Setup(), locals[n], hooks(n), env) else locals[n]
    }

    /** The hook logs of `InitReached`. */
    ghost predicate InitLogsReached(names: seq<string>, locals: map<string, Local>, logs: map<string, seq<Hook>>,
                                    hooks: string -> InitHooks, env: Lifecycle.Env)
      reads this`features, features.Values`config, features.Values`hookLog
    {
      && locals.Keys == features.Keys && logs.Keys == features.Keys
      && forall n :: n in features ==>
           features[n].hookLog
           == if n in names then logs[n] + InitStep(locals[n].flags, Lifecycle.Bound(hooks(n), n, features[n].Setup(), env)).calls
              else logs[n]
    }

    /** Each feature's hook log, by name. */
    ghost function Logs(): (m: map<string, seq<Hook>>)
      reads this`features, features.Values`hookLog
      ensures m.Keys == features.Keys && forall n :: n in features ==> m[n] == features[n].hookLog
    {
      map n | n in features :: features[n].hookLog
    }

    /** Each feature's observers and injected CSS, by name. */
    ghost function Ties(): (m: map<string, Attachments>)
      reads this`features, features.Values`observers, features.Values`styleElements
      ensures m.Keys == features.Keys && forall n :: n in features ==> m[n] == features[n].Attached()
    {
      map n | n in features :: features[n].Attached()
    }

    /** The features' observers and CSS with the page's bookkeeping of both. */
    ghost function Bookkeeping(page: Page): (p: Plumbing)
      reads this`features, features.Values`observers, features.Values`styleElements
      reads page`liveObservers, page`nextObserver, page`styleSheets, page`hasBody
      ensures p.ties == Ties() && p.wiring == page.Wires()
    {
      Plumbing(Ties(), page.Wires())
    }

    /** When only `f` moved its observers and CSS, the map of them is the old one with `f`'s entry replaced. */
    twostate lemma TiesOne(f: Feature)
      requires old(Valid()) && features == old(features) && f.name in features && features[f.name] == f
      requires forall n :: n in features && features[n] != f ==> features[n].Attached() == old(features[n].Attached())
      ensures Ties() == old(Ties())[f.name := f.Attached()]
    {
    }

    /**
     * The init loop: each feature's `initialize` with its kind's hooks, a throw
     * caught so the loop goes on; `t` is the state the loop starts from.
     */
    method InitializeEach(hooks: string -> InitHooks, page: Page, env: Lifecycle.Env, ghost t: InitRun)
      requires Valid() && page.Valid()
      requires t.locals == Locals() && t.logs == Logs() && t.setups == Setups()
      requires t.lay0 == page.Now() && t.plumb0 == Bookkeeping(page) && t.hooks == hooks && t.env == env && t.page == page
      modifies features.Values`enabled, features.Values`isActive, features.Values`initialized, features.Values`hookLog
      modifies features.Values`filterList, features.Values`targetElements, features.Values`observers
      modifies page`attrs, page`style, page`liveObservers, page`nextObserver
      ensures Valid() && page.Valid() && Setups() == t.setups
      ensures InitReached(order, t.locals, t.logs, hooks, env)
      ensures page.Now() == InitAllLayers(order, t.lay0, t.locals, t.setups, hooks, env)
      ensures Bookkeeping(page) == InitAllPlumbing(order, t.plumb0, t.locals, t.setups, hooks)
    {
      InitStart(t);
      var i := 0;
      while i < |order|
        invariant InitLoop(i, t)
      {
        InitializeAt(i, hooks, page, env, t);
        i := i + 1;
      }
      assert order[..i] == order;
    }

    /** Before the init loop, no feature is initialized by it. */
    lemma InitStart(t: InitRun)
      requires Valid() && t.page.Valid() && t.locals == Locals() && t.logs == Logs() && t.setups == Setups()
      requires t.lay0 == t.page.Now() && t.plumb0 == Bookkeeping(t.page)
      ensures InitLoop(0, t)
    {
      assert order[..0] == [];
    }

    /** The invariant of the init loop: the first `i` features initialized from the run's start. */
    ghost predicate InitLoop(i: int, t: InitRun)
      reads this, features.Values, t.page
    {
      && Valid() && t.page.Valid() && 0 <= i <= |order| && Setups() == t.setups
      && InitReached(order[..i], t.locals, t.logs, t.hooks, t.env)
      && t.page.Now() == InitAllLayers(order[..i], t.lay0, t.locals, t.setups, t.hooks, t.env)
      && Bookkeeping(t.page) == InitAllPlumbing(order[..i], t.plumb0, t.locals, t.setups, t.hooks)
    }

    /** One turn of the init loop: `initialize` of the `i`-th feature extends the run by its name. */
    method InitializeAt(i: int, hooks: string -> InitHooks, page: Page, env: Lifecycle.Env, ghost t: InitRun)
      requires InitLoop(i, t) && i < |order|
      requires t.hooks == hooks && t.page == page && t.env == env
      modifies features.Values`enabled, features.Values`isActive, features.Values`initialized, features.Values`hookLog
      modifies features.Values`filterList, features.Values`targetElements, features.Values`observers
      modifies page`attrs, page`style, page`liveObservers, page`nextObserver
      ensures InitLoop(i + 1, t)
    {
      var f := features[order[i]];
      InitializeOne(f, hooks(f.name), page, env);
      InitAdvance(InitAt(i, t));
    }

    /** The `initialize` of the `i`-th feature, done as `InitializeOne` promises, moves the loop on by one. */
    twostate lemma InitAdvance(at: InitAt)
      requires 0 <= at.i < |order| && order == old(order) && order[at.i] in old(features)
      requires old(InitLoop(at.i, at.run))
      requires && InitRan(old(features[order[at.i]]), at.run.hooks(order[at.i]), at.run.env, at.run.page)
      ensures InitLoop(at.i + 1, at.run)
    {
      assert old(features[order[at.i]].Now()) == at.run.locals[order[at.i]] by {
        assert forall k :: 0 <= k < at.i ==> order[..at.i][k] == order[k];
      }
      InitLocalsStep(at);
      InitLogsStep(at);
      InitPageStep(at);
      InitPlumbingStep(at);
    }

    /** `initialize` of one registered feature: only it and the page change. */
    method InitializeOne(f: Feature, h: InitHooks, page: Page, env: Lifecycle.Env)
      requires Valid() && page.Valid() && f.name in features && features[f.name] == f
      modifies f`enabled, f`isActive, f`initialized, f`hookLog, f`filterList, f`targetElements, f`observers
      modifies page`attrs, page`style, page`liveObservers, page`nextObserver
      ensures InitRan(f, h, env, page)
    {
      var r := Lifecycle.Initialize(f, h, page, env);
      // a throw is logged and the loop goes on
      InitedLocal(Initing(f, h, env, page));
      InitedPlumbing(Initing(f, h, env, page));
    }

    /** An `initialize` of one registered feature that left the others alone: its local part and log as `InitRan` says. */
    twostate lemma InitedLocal(c: Initing)
      requires old(Valid()) && features == old(features) && order == old(order) && c.f.name in features && features[c.f.name] == c.f
      requires unchanged(features.Values - {c.f}) && c.f.config == old(c.f.config) && c.f.Valid()
      requires c.f.Now() == Lifecycle.InitLocal(c.f.name, c.f.Setup(), old(c.f.Now()), c.h, c.env)
      requires c.f.hookLog == old(c.f.hookLog) + InitStep(old(c.f.Status()), Lifecycle.Bound(c.h, c.f.name, c.f.Setup(), c.env)).calls
      ensures Valid() && Setups() == old(Setups()) && InitRanLocal(c.f, c.h, c.env) && InitRanLog(c.f, c.h, c.env)
    {
    }

    /** The observers and CSS after an `initialize` of one registered feature, as `InitRan` says. */
    twostate lemma InitedPlumbing(c: Initing)
      requires old(Valid()) && features == old(features) && c.f.name in features && features[c.f.name] == c.f
      requires unchanged(features.Values - {c.f}) && c.f.config == old(c.f.config)
      requires c.f.Attached() == Lifecycle.InitAttached(c.f.Setup(), old(c.f.Now()), c.h, old(c.f.Attached()), old(c.page.Wires()))
      requires c.page.Wires() == Lifecycle.InitWiring(c.f.Setup(), old(c.f.Now()), c.h, old(c.page.Wires()))
      ensures InitRanPlumbing(c.f, c.h, c.page)
    {
      TiesOne(c.f);
    }

    /** What `initialize` of the registered feature `f` did, in its four parts. */
    twostate predicate InitRan(f: Feature, h: InitHooks, env: Lifecycle.Env, page: Page)
      reads this, features.Values, f, page
    {
      && Valid() && page.Valid() && Setups() == old(Setups())
      && InitRanLocal(f, h, env) && InitRanLog(f, h, env) && InitRanPage(f, h, env, page) && InitRanPlumbing(f, h, page)
    }

    /** What `initialize` of `f` did to the features: `f` moved by its kind's init, no other feature changed. */
    twostate predicate InitRanLocal(f: Feature, h: InitHooks, env: Lifecycle.Env)
      reads this, features.Values, f
    {
      && features == old(features) && order == old(order)
      && f.Now() == Lifecycle.InitLocal(f.name, f.Setup(), old(f.Now()), h, env)
      && forall n :: n in features && features[n] != f ==> features[n].Now() == old(features[n].Now())
    }

    /** What `initialize` of `f` did to the hook logs: only `f`'s grew, by the calls of the init step. */
    twostate predicate InitRanLog(f: Feature, h: InitHooks, env: Lifecycle.Env)
      reads this, features.Values, f
    {
      && features == old(features) && order == old(order)
      && f.hookLog == old(f.hookLog) + InitStep(old(f.Status()), Lifecycle.Bound(h, f.name, f.Setup(), env)).calls
      && forall n :: n in features && features[n] != f ==> features[n].hookLog == old(features[n].hookLog)
    }

    /** What `initialize` of `f` did to the page. */
    twostate predicate InitRanPage(f: Feature, h: InitHooks, env: Lifecycle.Env, page: Page)
      reads f, page
    {
      page.Now() == Lifecycle.InitLayers(f.name, f.Setup(), old(f.Now()), h, old(page.Now()), env)
    }

    /** What `initialize` of `f` did to the observers and CSS. */
    twostate predicate InitRanPlumbing(f: Feature, h: InitHooks, page: Page)
      reads this, features.Values, f, page
    {
      && features == old(features) && f.name in features
      && Bookkeeping(page) == InitPlumbing(f.name, f.Setup(), old(f.Now()), h, old(Bookkeeping(page)))
    }

    /** A feature's `initialize` extends the local parts of `InitReached` by its name. */
    twostate lemma InitLocalsStep(at: InitAt)
      requires old(Valid()) && features == old(features) && order == old(order) && 0 <= at.i < |order|
      requires old(InitLocalsReached(order[..at.i], at.run.locals, at.run.hooks, at.run.env))
      requires Setups() == old(Setups())
      requires order[at.i] !in order[..at.i] && old(features[order[at.i]].Now()) == at.run.locals[order[at.i]]
      requires InitRanLocal(features[order[at.i]], at.run.hooks(order[at.i]), at.run.env)
      ensures InitLocalsReached(order[..at.i + 1], at.run.locals, at.run.hooks, at.run.env)
    {
      var i, t := at.i, at.run;
      var name := order[i];
      PrefixSnoc(order, i);
    }

    /** A feature's `initialize` extends the hook logs of `InitReached` by its name. */
    twostate lemma InitLogsStep(at: InitAt)
      requires old(Valid()) && features == old(features) && order == old(order) && 0 <= at.i < |order|
      requires old(InitLogsReached(order[..at.i], at.run.locals, at.run.logs, at.run.hooks, at.run.env))
      requires Setups() == old(Setups())
      requires order[at.i] !in order[..at.i] && old(features[order[at.i]].Status()) == at.run.locals[order[at.i]].flags
      requires InitRanLog(features[order[at.i]], at.run.hooks(order[at.i]), at.run.env)
      ensures InitLogsReached(order[..at.i + 1], at.run.locals, at.run.logs, at.run.hooks, at.run.env)
    {
      var i, t := at.i, at.run;
      var name := order[i];
      PrefixSnoc(order, i);
    }

    /** A feature's `initialize` extends the page of `InitAllLayers` by its name. */
    twostate lemma InitPageStep(at: InitAt)
      requires old(Valid()) && features == old(features) && order == old(order) && 0 <= at.i < |order|
      requires old(at.run.page.Now()) == InitAllLayers(order[..at.i], at.run.lay0, at.run.locals, at.run.setups, at.run.hooks, at.run.env)
      requires at.run.setups == Setups()
      requires order[at.i] in at.run.locals && old(features[order[at.i]].Now()) == at.run.locals[order[at.i]]
      requires InitRanPage(features[order[at.i]], at.run.hooks(order[at.i]), at.run.env, at.run.page)
      ensures at.run.page.Now() == InitAllLayers(order[..at.i + 1], at.run.lay0, at.run.locals, at.run.setups, at.run.hooks, at.run.env)
    {
      PrefixSnoc(order, at.i);
    }

    /** A feature's `initialize` extends the bookkeeping of `InitAllPlumbing` by its name. */
    twostate lemma InitPlumbingStep(at: InitAt)
      requires features == old(features) && order == old(order) && 0 <= at.i < |order|
      requires old(Bookkeeping(at.run.page)) == InitAllPlumbing(order[..at.i], at.run.plumb0, at.run.locals, at.run.setups, at.run.hooks)
      requires at.run.setups == Setups()
      requires order[at.i] in features && order[at.i] in at.run.locals && features[order[at.i]].name == order[at.i]
      requires old(features[order[at.i]].Now()) == at.run.locals[order[at.i]]
      requires InitRanPlumbing(features[order[at.i]], at.run.hooks(order[at.i]), at.run.page)
      ensures Bookkeeping(at.run.page) == InitAllPlumbing(order[..at.i + 1], at.run.plumb0, at.run.locals, at.run.setups, at.run.hooks)
    {
      PrefixSnoc(order, at.i);
      assert order[at.i] in old(Bookkeeping(at.run.page)).ties && at.run.setups[order[at.i]] == features[order[at.i]].Setup();
    }

    /**
     * The load merge followed by the init loop; `t` is where the loop starts:
     * the features as loaded from `env.store`, everything else as it is now.
     */
    method LoadThenInitialize(hooks: string -> InitHooks, page: Page, env: Lifecycle.Env, ghost t: InitRun)
      requires Valid() && page.Valid()
      requires t == InitRun(LoadedLocals(env.store), Logs(), LoadedSetups(env.store), page.Now(), Bookkeeping(page), hooks, env, page)
      modifies features.Values`enabled, features.Values`isActive, features.Values`initialized, features.Values`hookLog
      modifies features.Values`config, features.Values`filterList, features.Values`targetElements, features.Values`observers
      modifies page`attrs, page`style, page`liveObservers, page`nextObserver
      ensures Valid() && page.Valid() && Setups() == t.setups
      ensures InitReached(order, t.locals, t.logs, hooks, env)
      ensures page.Now() == InitAllLayers(order, t.lay0, t.locals, t.setups, hooks, env)
      ensures Bookkeeping(page) == InitAllPlumbing(order, t.plumb0, t.locals, t.setups, hooks)
    {
      LoadForInit(page, env, t);
      InitializeEach(hooks, page, env, t);
    }

    /** The load merge brings the features to where the init loop `t` starts. */
    method LoadForInit(page: Page, env: Lifecycle.Env, ghost t: InitRun)
      requires Valid() && page.Valid()
      requires t.locals == LoadedLocals(env.store) && t.logs == Logs() && t.setups == LoadedSetups(env.store)
      requires t.lay0 == page.Now() && t.plumb0 == Bookkeeping(page) && t.env == env && t.page == page
      modifies features.Values`enabled, features.Values`config, features.Values`filterList
      ensures Valid() && t.locals == Locals() && t.logs == Logs() && t.setups == Setups()
      ensures t.lay0 == page.Now() && t.plumb0 == Bookkeeping(page)
    {
      LoadStates(env.store);
      LoadedStart(t);
    }

    /** After the load merge, the features' parts are the loaded ones, their logs and attachments as before. */
    twostate lemma LoadedStart(t: InitRun)
      requires old(Valid()) && features == old(features) && order == old(order)
      requires t.locals == old(LoadedLocals(t.env.store)) && t.logs == old(Logs()) && t.setups == old(LoadedSetups(t.env.store))
      requires t.lay0 == old(t.page.Now()) && t.plumb0 == old(Bookkeeping(t.page)) && unchanged(t.page)
      requires var store := t.env.store; forall n :: n in features ==>
        && features[n].enabled == LoadedEnabled(store, n, old(features[n].enabled))
        && features[n].config == LoadedConfig(store, n, old(features[n].config))
        && features[n].filterList == LoadedFilterList(Features(), store, features[n], old(features[n].filterList))
      requires unchanged(features.Values`isActive, features.Values`initialized, features.Values`targetElements)
      requires unchanged(features.Values`hookLog, features.Values`observers, features.Values`styleElements)
      ensures t.locals == Locals() && t.logs == Logs() && t.setups == Setups()
      ensures t.lay0 == t.page.Now() && t.plumb0 == Bookkeeping(t.page)
    {
      LoadedLocalsAre(t.env.store);
      LoadedSetupsAre(t.env.store);
      LogsKept();
      TiesKept();
    }

    /**
     * `initializeAll` / `initializeAllSync`: nothing when already initialized;
     * otherwise the load merge, then every feature's initialization, failures
     * isolated, and the manager is initialized.
     */
    method InitializeAll(hooks: string -> InitHooks, page: Page, env: Lifecycle.Env)
      requires Valid() && page.Valid()
      modifies this`initialized
      modifies features.Values`enabled, features.Values`isActive, features.Values`initialized, features.Values`hookLog
      modifies features.Values`config, features.Values`filterList, features.Values`targetElements, features.Values`observers
      modifies page`attrs, page`style, page`liveObservers, page`nextObserver
      ensures Valid() && page.Valid() && initialized
      ensures old(initialized) ==>
        && Locals() == old(Locals()) && Setups() == old(Setups()) && page.Now() == old(page.Now())
        && Bookkeeping(page) == old(Bookkeeping(page))
      ensures !old(initialized) ==>
        && Setups() == old(LoadedSetups(env.store))
        && InitReached(order, old(LoadedLocals(env.store)), old(Logs()), hooks, env)
        && page.Now() == InitAllLayers(order, old(page.Now()), old(LoadedLocals(env.store)), Setups(), hooks, env)
        && Bookkeeping(page) == InitAllPlumbing(order, old(Bookkeeping(page)), old(LoadedLocals(env.store)), Setups(), hooks)
      ensures !old(initialized) ==> forall n :: n in features && !old(features[n].initialized) ==>
        (features[n].initialized <==> !hooks(n).beforeInit.Threw? && !hooks(n).init.Threw? && !hooks(n).afterInit.Threw?)
    {
      if initialized {
        return;
      }
      // the source sets the flag after the loop; neither the load nor the loop reads it
      initialized := true;
      LoadedLocalsKept(env.store);
      LoadedSetupsKept(env.store);
      LogsKept();
      assert page.Now() == old(page.Now()) && Bookkeeping(page) == old(Bookkeeping(page));
      ghost var t := InitRun(LoadedLocals(env.store), Logs(), LoadedSetups(env.store), page.Now(), Bookkeeping(page), hooks, env, page);
      LoadThenInitialize(hooks, page, env, t);
      InitFlags(t.locals, t.logs, hooks, env);
    }

    /** After the init loop, a feature that was not initialized is exactly when its init hooks completed. */
    lemma InitFlags(locals: map<string, Local>, logs: map<string, seq<Hook>>, hooks: string -> InitHooks, env: Lifecycle.Env)
      requires Valid() && InitReached(order, locals, logs, hooks, env)
      ensures forall n :: n in features && !locals[n].flags.initialized ==>
        (features[n].initialized <==> !hooks(n).beforeInit.Threw? && !hooks(n).init.Threw? && !hooks(n).afterInit.Threw?)
    {
      forall n | n in features && !locals[n].flags.initialized
        ensures features[n].initialized <==> !hooks(n).beforeInit.Threw? && !hooks(n).init.Threw? && !hooks(n).afterInit.Threw?
      {
        Lifecycle.InitInitializes(n, features[n].Setup(), locals[n], hooks(n), env);
      }
    }

    /** `getAllStates`: every registered feature's `getState()`, by name. */
    function GetAllStates(): (states: map<string, FeatureState>)
      reads this, features.Values
      ensures states.Keys == features.Keys
      ensures forall n :: n in states ==> states[n] == features[n].GetState()
    {
      map n | n in features :: features[n].GetState()
    }

    /** `saveStates`: writes the unified map; `write` is how the storage write ends. */
    method SaveStates(store: map<string, Json>, write: Outcome) returns (r: Outcome, store': map<string, Json>)
      ensures r == write
      ensures write.Completed? ==> store' == SavedStore(store, GetAllStates())
      ensures write.Threw? ==> store' == store
    {
      r := write;
      store' := if write.Completed? then SavedStore(store, GetAllStates()) else store;
    }

    /**
     * `toggleFeature`: an unknown name changes nothing, saves nothing and
     * returns normally; otherwise the toggle with the kind's hooks, then the save
     * unless it threw. The store the toggle reads is `env.store`.
     */
    method ToggleFeature(name: Option<string>, state: bool, page: Page, env: Lifecycle.Env, write: Outcome)
      returns (r: Outcome, store': map<string, Json>)
      requires Valid() && page.Valid()
      modifies features.Values`enabled, features.Values`isActive, features.Values`hookLog, features.Values`filterList
      modifies features.Values`targetElements, features.Values`observers, features.Values`styleElements
      modifies page`attrs, page`style, page`liveObservers, page`nextObserver, page`styleSheets
      ensures Valid() && page.Valid()
      ensures name.None? || name.value !in features ==> r == Completed && store' == env.store && Performed(Ignore, env, page)
      ensures name.Some? && name.value in features ==>
        var f := features[name.value];
        var s := Lifecycle.ToggleOutcome(f.name, f.Setup(), old(f.Status()), state, env);
        && Performed(ToggleTo(name.value, state), env, page)
        && (s.result.Threw? ==> r == s.result && store' == env.store)
        && (s.result.Completed? ==>
              r == write && store' == if write.Completed? then SavedStore(env.store, GetAllStates()) else env.store)
    {
      if name.None? || name.value !in features {
        return Completed, env.store;
      }
      r := ToggleNamed(features[name.value], state, page, env);
      if r.Threw? {
        return r, env.store;
      }
      r, store' := SaveStates(env.store, write);
    }

    /** `toggle` of the registered feature `f` with its kind's hooks: the action `ToggleTo(f.name, state)` performed. */
    method ToggleNamed(f: Feature, state: bool, page: Page, env: Lifecycle.Env) returns (r: Outcome)
      requires Valid() && page.Valid() && f.name in features && features[f.name] == f
      modifies f`enabled, f`isActive, f`hookLog, f`filterList, f`targetElements, f`observers, f`styleElements
      modifies page`attrs, page`style, page`liveObservers, page`nextObserver, page`styleSheets
      ensures Valid() && page.Valid() && InitializedNames() == old(InitializedNames())
      ensures Performed(ToggleTo(f.name, state), env, page)
      ensures r == Lifecycle.ToggleOutcome(f.name, f.Setup(), old(f.Status()), state, env).result
    {
      r := Lifecycle.Toggle(f, state, page, env);
      ToggledLocals(Toggling(f, state, env, page));
      ToggledPage(Toggling(f, state, env, page));
      ToggledPlumbing(Toggling(f, state, env, page));
    }

    /** A toggle of one registered feature that left the others alone: the features as `ToggleTo` leaves them. */
    twostate lemma ToggledLocals(c: Toggling)
      requires old(Valid()) && features == old(features) && c.f.name in features && features[c.f.name] == c.f
      requires unchanged(features.Values - {c.f}) && c.f.config == old(c.f.config)
      requires c.f.Now() == Lifecycle.ToggleLocal(c.f.name, c.f.Setup(), old(c.f.Now()), c.state, c.env)
      ensures PerformedLocals(ToggleTo(c.f.name, c.state), c.env)
    {
    }

    /** The page as `ToggleTo` leaves it. */
    twostate lemma ToggledPage(c: Toggling)
      requires features == old(features) && c.f.name in features && features[c.f.name] == c.f && c.f.config == old(c.f.config)
      requires c.page.Now() == Lifecycle.ToggleLayers(c.f.name, c.f.Setup(), old(c.f.Now()), old(c.page.Now()), c.state, c.env)
      ensures PerformedPage(ToggleTo(c.f.name, c.state), c.env, c.page)
    {
    }

    /** The observers and CSS as `ToggleTo` leaves them. */
    twostate lemma ToggledPlumbing(c: Toggling)
      requires old(Valid()) && features == old(features) && c.f.name in features && features[c.f.name] == c.f
      requires unchanged(features.Values - {c.f}) && c.f.config == old(c.f.config)
      requires c.f.Attached() == Lifecycle.ToggleAttached(c.f.Setup(), old(c.f.Now()), old(c.f.Attached()), old(c.page.Wires()), c.state)
      requires c.page.Wires()
            == Lifecycle.ToggleWiring(c.f.name, c.f.Setup(), old(c.f.Now()), old(c.f.Attached()), old(c.page.Wires()), c.state)
      ensures PerformedPlumbing(ToggleTo(c.f.name, c.state), c.page)
    {
      TiesOne(c.f);
    }

    /**
     * `updateFeatureConfig`: merges the config (new keys winning), re-applies
     * an active feature with its kind's hooks, then saves; an unknown name
     * changes nothing.
     */
    method UpdateFeatureConfig(name: Option<string>, config: map<string, Json>, page: Page, env: Lifecycle.Env,
                               write: Outcome)
      returns (r: Outcome, store': map<string, Json>)
      requires Valid() && page.Valid()
      modifies features.Values`enabled, features.Values`isActive, features.Values`hookLog, features.Values`filterList
      modifies features.Values`targetElements, features.Values`observers, features.Values`styleElements
      modifies features.Values`config
      modifies page`attrs, page`style, page`liveObservers, page`nextObserver, page`styleSheets
      ensures Valid() && page.Valid()
      ensures name.None? || name.value !in features ==> r == Completed && store' == env.store && Performed(Ignore, env, page)
      ensures name.Some? && name.value in features ==>
        var f := features[name.value];
        var s := ReapplyStep(old(f.Status()), Completed, Lifecycle.ActivationResult(f.name, f.Setup(), env));
        && Reconfigured(name.value, config, env, page)
        && (s.result.Threw? ==> r == s.result && store' == env.store)
        && (s.result.Completed? ==>
              r == write && store' == if write.Completed? then SavedStore(env.store, GetAllStates()) else env.store)
    {
      if name.None? || name.value !in features {
        return Completed, env.store;
      }
      r := ReconfigureNamed(features[name.value], config, page, env);
      if r.Threw? {
        return r, env.store;
      }
      r, store' := SaveStates(env.store, write);
    }

    /** The config merge and re-application on the registered feature `f`. */
    method ReconfigureNamed(f: Feature, config: map<string, Json>, page: Page, env: Lifecycle.Env) returns (r: Outcome)
      requires Valid() && page.Valid() && f.name in features && features[f.name] == f
      modifies f`enabled, f`isActive, f`hookLog, f`filterList, f`targetElements, f`observers, f`styleElements, f`config
      modifies page`attrs, page`style, page`liveObservers, page`nextObserver, page`styleSheets
      ensures Valid() && page.Valid()
      ensures Reconfigured(f.name, config, env, page)
      ensures r == ReapplyStep(old(f.Status()), Completed, Lifecycle.ActivationResult(f.name, f.Setup(), env)).result
    {
      f.config := f.config + config;
      r := Reapply(f, page, env);
      ReappliedReconfigures(Reconfiguring(f, config, env, page));
    }

    /** A merge and re-application of one registered feature that left the others alone is `Reconfigured`. */
    twostate lemma ReappliedReconfigures(c: Reconfiguring)
      requires old(Valid()) && features == old(features) && c.f.name in features && features[c.f.name] == c.f
      requires unchanged(features.Values - {c.f}) && c.f.config == old(c.f.config) + c.config
      requires c.f.Now() == ReapplyLocal(c.f.name, c.f.Setup(), old(c.f.Now()), c.env)
      requires c.page.Now() == ReapplyLayers(c.f.name, c.f.Setup(), old(c.f.Now()), old(c.page.Now()), c.env)
      requires c.f.Attached() == ReapplyAttached(c.f.name, c.f.Setup(), old(c.f.Now()), old(c.f.Attached()), old(c.page.Wires()))
      requires c.page.Wires() == ReapplyWiring(c.f.name, c.f.Setup(), old(c.f.Now()), old(c.f.Attached()), old(c.page.Wires()))
      ensures Reconfigured(c.f.name, c.config, c.env, c.page)
    {
      TiesOne(c.f);
    }

    /**
     * What merging `config` into the feature called `name` and re-applying it
     * did: its config merged, it and the page moved by the re-application with
     * the merged config, and no other feature changed.
     */
    twostate predicate Reconfigured(name: string, config: map<string, Json>, env: Lifecycle.Env, page: Page)
      reads this, features.Values, page
    {
      && features == old(features) && name in features
      && (forall n :: n in features && n != name ==>
            features[n].Now() == old(features[n].Now()) && features[n].config == old(features[n].config))
      && var f := features[name];
         && f.config == old(f.config) + config
         && f.Now() == ReapplyLocal(name, f.Setup(), old(f.Now()), env)
         && page.Now() == ReapplyLayers(name, f.Setup(), old(f.Now()), old(page.Now()), env)
         && Bookkeeping(page) == ReapplyPlumbing(name, f.Setup(), old(f.Now()), old(Bookkeeping(page)))
    }

    /**
     * `handleMessage`: the response the caller eventually gets, whether the
     * channel is kept open for it, and the store afterwards; `write` is how the
     * storage write ends.
     */
    method HandleMessage(msg: Message, page: Page, env: Lifecycle.Env, write: Outcome)
      returns (resp: Response, keepOpen: bool, store': map<string, Json>)
      requires Valid() && page.Valid()
      modifies features.Values`enabled, features.Values`isActive, features.Values`hookLog, features.Values`filterList
      modifies features.Values`targetElements, features.Values`observers, features.Values`styleElements
      modifies features.Values`config
      modifies page`attrs, page`style, page`liveObservers, page`nextObserver, page`styleSheets
      ensures Valid() && page.Valid()
      ensures keepOpen <==> msg.msgType in {"toggleFeature", "updateConfig", "switchChange"}
      ensures msg.msgType == "getStates" ==> resp == OkStates(GetAllStates()) && store' == env.store
      ensures msg.msgType !in {"toggleFeature", "updateConfig", "switchChange", "getStates"} ==>
        resp == Failed("Unknown message type") && store' == env.store
      ensures !keepOpen ==> Performed(Ignore, env, page)
      ensures msg.msgType in {"toggleFeature", "switchChange"} ==>
        var target := if msg.msgType == "toggleFeature" then msg.featureName else msg.switchType;
        && (target.None? || target.value !in features ==> resp == Ok && store' == env.store && Performed(Ignore, env, page))
        && (target.Some? && target.value in features ==>
              var f := features[target.value];
              var s := Lifecycle.ToggleOutcome(f.name, f.Setup(), old(f.Status()), msg.state, env);
              && Performed(ToggleTo(target.value, msg.state), env, page)
              && resp == Answer(if s.result.Threw? then s.result else write)
              && store' == if s.result.Completed? && write.Completed? then SavedStore(env.store, GetAllStates()) else env.store)
      ensures msg.msgType == "updateConfig" ==>
        var config := if msg.config.Some? then msg.config.value else map[];
        && (msg.featureName.None? || msg.featureName.value !in features ==>
              resp == Ok && store' == env.store && Performed(Ignore, env, page))
        && (msg.featureName.Some? && msg.featureName.value in features ==>
              var f := features[msg.featureName.value];
              var s := ReapplyStep(old(f.Status()), Completed, Lifecycle.ActivationResult(f.name, f.Setup(), env));
              && Reconfigured(msg.featureName.value, config, env, page)
              && resp == Answer(if s.result.Threw? then s.result else write)
              && store' == if s.result.Completed? && write.Completed? then SavedStore(env.store, GetAllStates()) else env.store)
    {
      match msg.msgType
      case "toggleFeature" =>
        var r;
        r, store' := ToggleFeature(msg.featureName, msg.state, page, env, write);
        return Answer(r), true, store';
      case "updateConfig" =>
        var r;
        var config := if msg.config.Some? then msg.config.value else map[];
        r, store' := UpdateFeatureConfig(msg.featureName, config, page, env, write);
        return Answer(r), true, store';
      case "getStates" =>
        return OkStates(GetAllStates()), false, env.store;
      case "switchChange" =>
        var r;
        r, store' := ToggleFeature(msg.switchType, msg.state, page, env, write);
        return Answer(r), true, store';
      case _ =>
        return Failed("Unknown message type"), false, env.store;
    }

    function InitializedNames(): set<string>
      reads this`features, features.Values`initialized
    {
      set n | n in features && features[n].initialized
    }

    /** One routed action: a toggle with the kind's hooks, or a list reload with the filter re-applied when enabled. */
    method Perform(a: Action, page: Page, env: Lifecycle.Env)
      requires Valid() && page.Valid()
      requires !a.Ignore? ==> a.name in features
      requires a.LoadList? ==> features[a.name].kind.Filter? && a.key == ListStorageKey(a.name, features[a.name].kind.filter)
      modifies features.Values`enabled, features.Values`isActive, features.Values`hookLog, features.Values`filterList
      modifies features.Values`targetElements, features.Values`observers, features.Values`styleElements
      modifies page`attrs, page`style, page`liveObservers, page`nextObserver, page`styleSheets
      ensures Valid() && page.Valid() && InitializedNames() == old(InitializedNames())
      ensures Performed(a, env, page)
    {
      match a {
        case Ignore =>
        case ToggleTo(name, state) =>
          var r := ToggleNamed(features[name], state, page, env);
          // a rejected toggle is logged
        case LoadList(name, key, value) =>
          ReloadList(features[name], a, page, env);
      }
    }

    /** The reload itself, on the feature object that owns the list. */
    method ReloadList(f: Feature, a: Action, page: Page, env: Lifecycle.Env)
      requires Valid() && a.LoadList? && a.name in features && features[a.name] == f && f.kind.Filter?
      requires a.key == ListStorageKey(a.name, f.kind.filter)
      modifies f`filterList, f`targetElements, page`attrs, page`style
      ensures Valid() && InitializedNames() == old(InitializedNames())
      ensures Performed(a, env, page)
    {
      var r := FilterFeatures.LoadAdditionalData(f, page, a.key, a.value, env.items);
      // a rejected reload is logged
    }

    /**
     * What performing the action `a` did, from the state before to now: the
     * named feature and the page moved as `a` says with that feature's kind,
     * and no other feature and no configuration changed.
     */
    twostate predicate Performed(a: Action, env: Lifecycle.Env, page: Page)
      reads this, features.Values, page
    {
      PerformedLocals(a, env) && PerformedPage(a, env, page) && PerformedPlumbing(a, page)
    }

    /** The features part of `Performed`: the named feature moved as `a` says, no other feature and no configuration changed. */
    twostate predicate PerformedLocals(a: Action, env: Lifecycle.Env)
      reads this, features.Values
    {
      && features == old(features)
      && (!a.Ignore? ==> a.name in features)
      && (forall n :: n in features ==> features[n].config == old(features[n].config))
      && (forall n :: n in features ==>
            features[n].Now()
              == if Names(a, n) then ActionLocal(a, features[n].Setup(), old(features[n].Now()), env) else old(features[n].Now()))
    }

    /** The page part of `Performed`. */
    twostate predicate PerformedPage(a: Action, env: Lifecycle.Env, page: Page)
      reads this, features.Values, page
    {
      && features == old(features)
      && (!a.Ignore? ==> a.name in features)
      && page.Now()
         == if a.Ignore? then old(page.Now())
            else ActionLayers(a, features[a.name].Setup(), old(features[a.name].Now()), old(page.Now()), env)
    }

    /** The observers-and-CSS part of `Performed`: only a toggle moves them. */
    twostate predicate PerformedPlumbing(a: Action, page: Page)
      reads this, features.Values, page
    {
      && features == old(features)
      && (!a.Ignore? ==> a.name in features)
      && Bookkeeping(page)
         == if a.ToggleTo? then TogglePlumbing(a.name, features[a.name].Setup(), old(features[a.name].Now()), old(Bookkeeping(page)), a.state)
            else old(Bookkeeping(page))
    }

    /** One change: routed through the owner map, then performed. */
    method PerformChange(owners: map<string, Feature>, c: Change, page: Page, env: Lifecycle.Env) returns (a: Action)
      requires Valid() && page.Valid() && owners == KeyOwners(Features())
      modifies features.Values`enabled, features.Values`isActive, features.Values`hookLog, features.Values`filterList
      modifies features.Values`targetElements, features.Values`observers, features.Values`styleElements
      modifies page`attrs, page`style, page`liveObservers, page`nextObserver, page`styleSheets
      ensures Valid() && page.Valid()
      ensures a == Route(owners, old(InitializedNames()), c)
      ensures InitializedNames() == old(InitializedNames())
      ensures Performed(a, env, page)
    {
      a := Route(owners, InitializedNames(), c);
      if c.key in owners {
        OwnerRegistered(features, order, c.key);
      }
      Perform(a, page, env);
    }

    /**
     * The storage-change listener: for the `sync` area, each change is routed
     * through the key-to-owner map built from the registered features and
     * performed in turn.
     */
    method OnStorageChanged(area: string, changes: seq<Change>, page: Page, env: Lifecycle.Env)
      returns (acts: seq<Action>)
      requires Valid() && page.Valid()
      modifies features.Values`enabled, features.Values`isActive, features.Values`hookLog, features.Values`filterList
      modifies features.Values`targetElements, features.Values`observers, features.Values`styleElements
      modifies page`attrs, page`style, page`liveObservers, page`nextObserver, page`styleSheets
      ensures Valid() && page.Valid()
      ensures area != "sync" ==> acts == []
      ensures area == "sync" ==> acts == RouteAll(KeyOwners(Features()), old(InitializedNames()), changes)
      ensures Reached(acts, old(Snapshot(page)), env, page)
    {
      acts := [];
      ghost var o := Snapshot(page);
      StartReached(env, page);
      if area != "sync" {
        return;
      }
      var owners := KeyOwners(Features());
      ghost var t := ChangeRun(owners, InitializedNames(), changes, o, env, page);
      var i := 0;
      while i < |changes|
        invariant ChangeLoop(i, acts, t)
      {
        acts := ChangeAt(owners, changes, i, acts, page, env, t);
        i := i + 1;
      }
      assert changes[..i] == changes;
    }

    /** The state a run of storage changes starts from. */
    ghost function Snapshot(page: Page): (o: Origin)
      reads this`features, features.Values`enabled, features.Values`isActive, features.Values`initialized
      reads features.Values`filterList, features.Values`targetElements, features.Values`config
      reads features.Values`observers, features.Values`styleElements, page
      ensures o.locals == Locals() && o.setups == Setups() && o.layers == page.Now() && o.plumbing == Bookkeeping(page)
    {
      Origin(Locals(), Setups(), page.Now(), Bookkeeping(page))
    }

    /** The state after the actions `acts` from the origin `o`. */
    ghost predicate Reached(acts: seq<Action>, o: Origin, env: Lifecycle.Env, page: Page)
      reads this, features.Values, page
    {
      && o.locals.Keys == features.Keys && o.setups.Keys == features.Keys
      && (forall n :: n in features ==> o.setups[n] == features[n].Setup())
      && (forall n :: n in features ==> features[n].Now() == LocalAfter(acts, n, o.setups[n], o.locals[n], env))
      && page.Now() == LayersAfter(acts, o.layers, o.locals, o.setups, env)
      && Bookkeeping(page) == PlumbingAfter(acts, o.plumbing, o.locals, o.setups, env)
    }

    /** One turn of the listener's loop: the change is performed and the run extended by its action. */
    /** Before any change is routed, every feature and the page are where they started. */
    lemma StartReached(env: Lifecycle.Env, page: Page)
      ensures Reached([], Snapshot(page), env, page)
    {
    }

    /** The invariant of the change loop: the first `i` changes routed and performed from the run's start. */
    ghost predicate ChangeLoop(i: int, acts: seq<Action>, t: ChangeRun)
      reads this, features.Values, t.page
    {
      && Valid() && t.page.Valid() && 0 <= i <= |t.changes|
      && t.owners == KeyOwners(Features()) && InitializedNames() == t.inits
      && acts == RouteAll(t.owners, t.inits, t.changes[..i])
      && Reached(acts, t.origin, t.env, t.page)
    }

    /** One turn of the change loop: the `i`-th change is routed and performed. */
    method ChangeAt(owners: map<string, Feature>, changes: seq<Change>, i: int, acts: seq<Action>, page: Page,
                    env: Lifecycle.Env, ghost t: ChangeRun) returns (acts': seq<Action>)
      requires ChangeLoop(i, acts, t) && i < |changes| && t.owners == owners && t.changes == changes
      requires t.page == page && t.env == env
      modifies features.Values`enabled, features.Values`isActive, features.Values`hookLog, features.Values`filterList
      modifies features.Values`targetElements, features.Values`observers, features.Values`styleElements
      modifies page`attrs, page`style, page`liveObservers, page`nextObserver, page`styleSheets
      ensures ChangeLoop(i + 1, acts', t)
    {
      RouteAllSnoc(t.owners, t.inits, t.changes, i);
      var a := ChangeStep(owners, t.inits, changes[i], page, env, acts, t.origin);
      acts' := acts + [a];
    }

    method ChangeStep(owners: map<string, Feature>, ghost inits: set<string>, c: Change, page: Page, env: Lifecycle.Env,
                      ghost before: seq<Action>, ghost o: Origin)
      returns (a: Action)
      requires Valid() && page.Valid() && owners == KeyOwners(Features()) && InitializedNames() == inits
      requires Reached(before, o, env, page)
      modifies features.Values`enabled, features.Values`isActive, features.Values`hookLog, features.Values`filterList
      modifies features.Values`targetElements, features.Values`observers, features.Values`styleElements
      modifies page`attrs, page`style, page`liveObservers, page`nextObserver, page`styleSheets
      ensures Valid() && page.Valid() && InitializedNames() == inits
      ensures a == Route(owners, inits, c)
      ensures Reached(before + [a], o, env, page)
    {
      a := PerformChange(owners, c, page, env);
      StepReached(Turn(before, a, o, env, page));
    }

    /** A performed action extends the run `Reached` describes by that action. */
    twostate lemma StepReached(t: Turn)
      requires old(Reached(t.before, t.origin, t.env, t.page))
      requires Performed(t.a, t.env, t.page)
      ensures Reached(t.before + [t.a], t.origin, t.env, t.page)
    {
      var before, a, o, env := t.before, t.a, t.origin, t.env;
      assert (before + [a])[..|before|] == before;
    }

    /** `getStats`: counts over the registered features. */
    function GetStats(): (s: Stats)
      requires Valid()
      reads this, features.Values
      ensures s.total == |features|
      ensures s.enabled + s.disabled == s.total && s.initialized + s.uninitialized == s.total
      ensures s.disabled >= 0 && s.uninitialized >= 0
      ensures s.enabled == |set n | n in features && features[n].enabled|
    {
      DistinctKeysCount(features, order);
      CountEnabledIsCardinality(features, order);
      CountEnabledAtMost(features, order);
      CountInitializedAtMost(features, order);
      assert (set n | n in order && features[n].enabled) == (set n | n in features && features[n].enabled);
      var total := |features|;
      var enabled := CountEnabled(features, order);
      var initialized := CountInitialized(features, order);
      Stats(total, enabled, total - enabled, initialized, total - initialized)
    }

    /**
     * `cleanup`: every enabled feature is deactivated, a throw caught so the
     * others still are. Every element an enabled, active feature tracked is
     * shown, its observers are disconnected and its <style> nodes removed, and
     * no feature that was in the converged state stays active.
     */
    method Cleanup(page: Page)
      requires Valid() && page.Valid()
      modifies features.Values`enabled, features.Values`isActive, features.Values`hookLog, features.Values`observers
      modifies features.Values`targetElements, features.Values`styleElements
      modifies page`liveObservers, page`attrs, page`style, page`styleSheets
      ensures Valid() && page.Valid()
      ensures forall n :: n in features ==>
        features[n].Now() == if old(features[n].enabled) then Lifecycle.DeactivateLocal(old(features[n].Now())) else old(features[n].Now())
      ensures page.Now() == CleanupLayers(order, old(page.Now()), old(Locals()))
      ensures Bookkeeping(page) == CleanupPlumbing(order, old(Bookkeeping(page)), old(Locals()))
      ensures forall n, e :: n in features && old(features[n].enabled && features[n].isActive) && e in old(features[n].targetElements) ==>
        !DisplayNone(page.style, e)
      ensures forall n :: n in features && old(features[n].enabled && features[n].isActive) ==>
        && features[n].observers == [] && features[n].styleElements == map[]
        && (forall o :: o in old(features[n].observers) ==> o !in page.liveObservers)
        && (forall id :: id in old(features[n].styleElements) ==> StyleKey(n, id) !in page.styleSheets)
      ensures forall n :: n in features && !old(features[n].enabled && features[n].isActive) ==>
        features[n].Attached() == old(features[n].Attached())
      ensures forall n :: n in features && Converged(old(features[n].Status())) ==> !features[n].isActive
    {
      ghost var t := CleanupRun(Locals(), page.Now(), Bookkeeping(page), page);
      CleanupEach(page, t);
      CleanupShowsAllTracked(order, t.lay0, t.locals);
      CleanupDetachesAll(t);
    }

    /** The cleanup loop over the features in order, from the start `t`. */
    method CleanupEach(page: Page, ghost t: CleanupRun)
      requires Valid() && page.Valid()
      requires t.locals == Locals() && t.lay0 == page.Now() && t.plumb0 == Bookkeeping(page) && t.page == page
      modifies features.Values`enabled, features.Values`isActive, features.Values`hookLog, features.Values`observers
      modifies features.Values`targetElements, features.Values`styleElements
      modifies page`liveObservers, page`attrs, page`style, page`styleSheets
      ensures Valid() && page.Valid() && CleanupReached(order, t.locals)
      ensures page.Now() == CleanupLayers(order, t.lay0, t.locals) && Bookkeeping(page) == CleanupPlumbing(order, t.plumb0, t.locals)
    {
      CleanupStart(t);
      var i := 0;
      while i < |order|
        invariant CleanupLoop(i, t)
      {
        CleanupStep(features[order[i]], i, page, t);
        i := i + 1;
      }
      assert order[..i] == order;
    }

    /** What `CleanupDetaches` says of each feature, read back into the features and the page. */
    twostate lemma CleanupDetachesAll(t: CleanupRun)
      requires old(Valid()) && Valid() && features == old(features) && order == old(order)
      requires t.locals == old(Locals()) && t.plumb0 == old(Bookkeeping(t.page))
      requires Bookkeeping(t.page) == CleanupPlumbing(order, t.plumb0, t.locals)
      ensures forall n :: n in features && old(features[n].enabled && features[n].isActive) ==>
        && features[n].observers == [] && features[n].styleElements == map[]
        && (forall o :: o in old(features[n].observers) ==> o !in t.page.liveObservers)
        && (forall id :: id in old(features[n].styleElements) ==> StyleKey(n, id) !in t.page.styleSheets)
      ensures forall n :: n in features && !old(features[n].enabled && features[n].isActive) ==>
        features[n].Attached() == old(features[n].Attached())
    {
      forall n | n in features
        ensures old(features[n].enabled && features[n].isActive) ==>
          && features[n].observers == [] && features[n].styleElements == map[]
          && (forall o :: o in old(features[n].observers) ==> o !in t.page.liveObservers)
          && (forall id :: id in old(features[n].styleElements) ==> StyleKey(n, id) !in t.page.styleSheets)
        ensures !old(features[n].enabled && features[n].isActive) ==> features[n].Attached() == old(features[n].Attached())
      {
        CleanupDetaches(order, t.plumb0, t.locals, n);
        assert t.plumb0.ties[n] == old(features[n].Attached());
        assert Bookkeeping(t.page).ties[n] == features[n].Attached();
      }
    }

    /** Before the cleanup loop, no feature is cleaned up by it. */
    lemma CleanupStart(t: CleanupRun)
      requires Valid() && t.page.Valid() && t.locals == Locals() && t.lay0 == t.page.Now() && t.plumb0 == Bookkeeping(t.page)
      ensures CleanupLoop(0, t)
    {
      assert order[..0] == [];
    }

    /** Every feature in `names` that was enabled is deactivated from `locals`; the others are as they were. */
    ghost predicate CleanupReached(names: seq<string>, locals: map<string, Local>)
      reads this`features, features.Values`enabled, features.Values`isActive, features.Values`initialized
      reads features.Values`filterList, features.Values`targetElements
    {
      && locals.Keys == features.Keys
      && forall n :: n in features ==>
           features[n].Now() == if n in names && locals[n].flags.enabled then Lifecycle.DeactivateLocal(locals[n]) else locals[n]
    }

    /** The invariant of the cleanup loop: the first `i` features cleaned up from the run's start. */
    ghost predicate CleanupLoop(i: int, t: CleanupRun)
      reads this, features.Values, t.page
    {
      && Valid() && t.page.Valid() && 0 <= i <= |order|
      && CleanupReached(order[..i], t.locals)
      && t.page.Now() == CleanupLayers(order[..i], t.lay0, t.locals)
      && Bookkeeping(t.page) == CleanupPlumbing(order[..i], t.plumb0, t.locals)
    }

    /** One turn of the cleanup loop: the `i`-th feature is deactivated when enabled. */
    method CleanupStep(f: Feature, i: int, page: Page, ghost t: CleanupRun)
      requires CleanupLoop(i, t) && i < |order| && f == features[order[i]] && t.page == page
      modifies f`enabled, f`isActive, f`hookLog, f`observers, f`targetElements, f`styleElements
      modifies page`liveObservers, page`attrs, page`style, page`styleSheets
      ensures CleanupLoop(i + 1, t)
    {
      CleanupOne(f, page);
      CleanupFeaturesStep(CleanupAt(i, t));
      CleanupPageStep(CleanupAt(i, t));
      CleanupPlumbingStep(CleanupAt(i, t));
    }

    /** `cleanup` of one registered feature: `deactivate` when enabled, a throw logged. */
    method CleanupOne(f: Feature, page: Page)
      requires Valid() && page.Valid() && f.name in features && features[f.name] == f
      modifies f`enabled, f`isActive, f`hookLog, f`observers, f`targetElements, f`styleElements
      modifies page`liveObservers, page`attrs, page`style, page`styleSheets
      ensures Valid() && page.Valid()
      ensures CleanupRan(f, page) && CleanupRanPlumbing(f, page)
    {
      if f.enabled {
        var r := Lifecycle.Deactivate(f, page);
        // a throw is logged and the loop goes on
        DeactivatedPlumbing(Cleaning(f, page));
      }
    }

    /** The bookkeeping after `deactivate` of one registered feature that left the others alone. */
    twostate lemma DeactivatedPlumbing(c: Cleaning)
      requires old(Valid()) && features == old(features) && c.f.name in features && features[c.f.name] == c.f
      requires unchanged(features.Values - {c.f})
      requires c.f.Attached() == Lifecycle.DeactivateAttached(old(c.f.Now()), old(c.f.Attached()))
      requires c.page.Wires() == Lifecycle.DeactivateWiring(c.f.name, old(c.f.Now()), old(c.f.Attached()), old(c.page.Wires()))
      ensures Bookkeeping(c.page) == DeactivatePlumbing(c.f.name, old(c.f.Now()), old(Bookkeeping(c.page)))
    {
      TiesOne(c.f);
    }

    /** What cleaning up `f` did to the observers and CSS: `deactivate`'s when it was enabled, nothing otherwise. */
    twostate predicate CleanupRanPlumbing(f: Feature, page: Page)
      reads this, features.Values, f, page
    {
      && features == old(features) && f.name in features
      && Bookkeeping(page) == if old(f.enabled) then DeactivatePlumbing(f.name, old(f.Now()), old(Bookkeeping(page))) else old(Bookkeeping(page))
    }

    /** What cleaning up `f` did: an enabled `f` and the page as `deactivate` leaves them; no other feature changed. */
    twostate predicate CleanupRan(f: Feature, page: Page)
      reads this, features.Values, f, page
    {
      && features == old(features) && order == old(order)
      && f.Now() == (if old(f.enabled) then Lifecycle.DeactivateLocal(old(f.Now())) else old(f.Now()))
      && page.Now() == (if old(f.enabled) then Lifecycle.DeactivateLayers(f.name, old(f.Now()), old(page.Now())) else old(page.Now()))
      && forall n :: n in features && features[n] != f ==> features[n].Now() == old(features[n].Now())
    }

    /** A feature's cleanup extends the run of `CleanupReached` by its name. */
    twostate lemma CleanupFeaturesStep(at: CleanupAt)
      requires old(Valid()) && features == old(features) && order == old(order) && 0 <= at.i < |order|
      requires old(CleanupReached(order[..at.i], at.run.locals))
      requires CleanupRan(features[order[at.i]], at.run.page)
      ensures CleanupReached(order[..at.i + 1], at.run.locals)
    {
      var i, t := at.i, at.run;
      var name := order[i];
      assert name !in order[..i];
      PrefixSnoc(order, i);
      assert old(features[name].Now()) == t.locals[name];
    }

    /** A feature's cleanup extends the bookkeeping of `CleanupPlumbing` by its name. */
    twostate lemma CleanupPlumbingStep(at: CleanupAt)
      requires old(Valid()) && features == old(features) && order == old(order) && 0 <= at.i < |order|
      requires old(CleanupReached(order[..at.i], at.run.locals))
      requires old(Bookkeeping(at.run.page)) == CleanupPlumbing(order[..at.i], at.run.plumb0, at.run.locals)
      requires CleanupRanPlumbing(features[order[at.i]], at.run.page)
      ensures Bookkeeping(at.run.page) == CleanupPlumbing(order[..at.i + 1], at.run.plumb0, at.run.locals)
    {
      var i, t := at.i, at.run;
      var name := order[i];
      assert name !in order[..i];
      PrefixSnoc(order, i);
      assert old(features[name].Now()) == t.locals[name];
    }

    /** A feature's cleanup extends the page of `CleanupLayers` by its name. */
    twostate lemma CleanupPageStep(at: CleanupAt)
      requires old(Valid()) && features == old(features) && order == old(order) && 0 <= at.i < |order|
      requires old(CleanupReached(order[..at.i], at.run.locals))
      requires old(at.run.page.Now()) == CleanupLayers(order[..at.i], at.run.lay0, at.run.locals)
      requires CleanupRan(features[order[at.i]], at.run.page)
      ensures at.run.page.Now() == CleanupLayers(order[..at.i + 1], at.run.lay0, at.run.locals)
    {
      var i, t := at.i, at.run;
      var name := order[i];
      assert name !in order[..i];
      assert order[..i + 1][..i] == order[..i];
      assert old(features[name].Now()) == t.locals[name];
    }
  }
}
