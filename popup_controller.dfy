/**
 * The popup's controller: its local copy of the feature flags and the two
 * block lists, the merge of the unified and legacy stored formats it starts
 * from, the add / remove handlers of the two list editors, the checkbox
 * handler, and the show/hide switch of the collapsible sections.
 *
 * The browser store is a map argument; what the popup would send to the page's
 * content script is returned as a `Manager.Message`, and whether a store write or
 * a send fails is an `Outcome` parameter.
 */
module Popup {
  import opened Common
  import Manager

  /** The eight feature switches the popup shows, in the order it visits them. */
  const FeatureNames: seq<string> := [
    "hideShorts", "hideSuggestions", "hideComments", "hideBlacklistedChannels",
    "hideBlacklistedWords", "hideHomePageContent", "hideAutoplayOverlay", "hideSidebar"]

  /** The switch values used when neither stored format mentions a feature. */
  const Defaults: map<string, bool> := map[
    "hideShorts" := true, "hideSuggestions" := true, "hideComments" := false,
    "hideBlacklistedChannels" := true, "hideBlacklistedWords" := true,
    "hideHomePageContent" := false, "hideAutoplayOverlay" := false, "hideSidebar" := false]

  function DefaultFlag(name: string): (b: bool)
    requires name in FeatureNames
    ensures b <==> name in ["hideShorts", "hideSuggestions", "hideBlacklistedChannels", "hideBlacklistedWords"]
  {
    Defaults[name]
  }

  /** The two editable lists. */
  datatype ListId = Channels | Words

  /** The store key each list is written under. */
  function ListKey(id: ListId): string {
    match id
    case Channels => "blacklist"
    case Words => "blacklistWords"
  }

  /** The feature the content script re-filters with an updated list. */
  function ListFeature(id: ListId): string {
    match id
    case Channels => "hideBlacklistedChannels"
    case Words => "hideBlacklistedWords"
  }

  /** The `updateConfig` message that hands a list to its feature. */
  function ListMessage(id: ListId, list: seq<string>): Manager.Message {
    Manager.Message("updateConfig", Some(ListFeature(id)), false,
                    Some(map["filterList" := ToJsonList(list)]), None)
  }

  /** The `toggleFeature` message sent for a checkbox change. */
  function ToggleMessage(name: string, enabled: bool): Manager.Message {
    Manager.Message("toggleFeature", Some(name), enabled, None, None)
  }

  // ----------------------------------------------------------- state merge

  /** `result.focustube_features || {}`. */
  function SavedStates(store: map<string, Json>): Json {
    if Manager.UnifiedKey in store && Truthy(store[Manager.UnifiedKey]) then store[Manager.UnifiedKey]
    else JObj(map[])
  }

  /** The properties `newStates[name]` can read: only an object has any. */
  function Fields(v: Json): map<string, Json> {
    if v.JObj? then v.fields else map[]
  }

  /** `newStates[name].enabled` for a truthy entry: only an object entry has one. */
  function EntryEnabled(e: Json): (r: Option<Json>)
    ensures r.Some? <==> e.JObj? && "enabled" in e.fields
  {
    if e.JObj? then Lookup(e.fields, "enabled") else None
  }

  /**
   * The value the popup keeps for one switch (`None` is `undefined`): a truthy
   * unified entry decides, else a defined legacy value, else the default.
   */
  function MergedFlag(unified: map<string, Json>, legacy: map<string, Json>, name: string): (r: Option<Json>)
    requires name in FeatureNames
    ensures name in unified && Truthy(unified[name]) ==> r == EntryEnabled(unified[name])
    ensures !(name in unified && Truthy(unified[name])) && name in legacy ==> r == Some(legacy[name])
    ensures !(name in unified && Truthy(unified[name])) && name !in legacy ==> r == Some(JBool(DefaultFlag(name)))
  {
    if name in unified && Truthy(unified[name]) then EntryEnabled(unified[name])
    else if name in legacy then Some(legacy[name])
    else Some(JBool(DefaultFlag(name)))
  }

  /** A list read from the legacy keys: `legacyStates[key] || []`. */
  function MergedList(legacy: map<string, Json>, key: string): (r: seq<string>)
    ensures key !in legacy ==> r == []
    ensures key in legacy ==> r == ListValue(legacy[key])
  {
    if key in legacy then ListValue(legacy[key]) else []
  }

  /** How a checkbox shows a kept value: `featureStates[name] ?? false`, read as a boolean. */
  predicate Checked(v: Option<Json>) {
    v.Some? && Truthy(v.value)
  }

  /**
   * `mergeStates`: visits the eight switches in order and builds a fresh record
   * holding exactly those switches, plus the two lists taken from the legacy keys.
   */
  method MergeStates(newStates: Json, legacy: map<string, Json>)
    returns (flags: map<string, Option<Json>>, channels: seq<string>, words: seq<string>)
    ensures forall n :: n in flags <==> n in FeatureNames
    ensures forall n :: n in flags ==> flags[n] == MergedFlag(Fields(newStates), legacy, n)
    ensures channels == MergedList(legacy, "blacklist")
    ensures words == MergedList(legacy, "blacklistWords")
  {
    var unified := Fields(newStates);
    flags := map[];
    var i := 0;
    while i < |FeatureNames|
      invariant 0 <= i <= |FeatureNames|
      invariant flags.Keys == set j | 0 <= j < i :: FeatureNames[j]
      invariant forall n :: n in flags ==> n in FeatureNames && flags[n] == MergedFlag(unified, legacy, n)
    {
      var name := FeatureNames[i];
      flags := flags[name := MergedFlag(unified, legacy, name)];
      i := i + 1;
    }
    assert forall n :: n in FeatureNames ==> exists j :: 0 <= j < |FeatureNames| && FeatureNames[j] == n;
    channels := MergedList(legacy, "blacklist");
    words := MergedList(legacy, "blacklistWords");
  }

  /**
   * What the popup shows agrees with what the content script's manager loads
   * whenever each truthy unified entry is an object holding `enabled` (the shape
   * the manager itself saves): both take the unified `enabled`, else the legacy
   * value, else the same default.
   */
  lemma {:induction false} PopupAgreesWithManager(store: map<string, Json>, name: string)
    requires name in FeatureNames
    requires var u := Fields(SavedStates(store));
      name in u && Truthy(u[name]) ==> u[name].JObj? && "enabled" in u[name].fields
    ensures Checked(MergedFlag(Fields(SavedStates(store)), store, name))
        == Manager.LoadedEnabled(store, name, DefaultFlag(name))
  {
    var u := Fields(SavedStates(store));
    var k := Manager.UnifiedKey;
    assert name != k;
    if name in u && Truthy(u[name]) {
      assert k in store && store[k].JObj? && u == store[k].fields;
      assert Manager.UnifiedEntry(store, name) == Some(u[name].fields);
    } else {
      assert Manager.UnifiedEntry(store, name).None? by {
        if k in store && store[k].JObj? && name in store[k].fields {
          assert Truthy(store[k]) && u == store[k].fields;
          assert !Truthy(u[name]);
        }
      }
    }
  }

  /**
   * A truthy entry without `enabled` (or one that is not an object) leaves the
   * switch `undefined`, so the popup shows it off even when a legacy value says on.
   */
  lemma EntryWithoutEnabledShowsOff(store: map<string, Json>, name: string, e: map<string, Json>)
    requires name in FeatureNames && "enabled" !in e
    requires Manager.UnifiedKey in store && store[Manager.UnifiedKey].JObj?
    requires store[Manager.UnifiedKey].fields == map[name := JObj(e)]
    ensures !Checked(MergedFlag(Fields(SavedStates(store)), store, name))
  {
    assert Truthy(store[Manager.UnifiedKey]);
    assert Fields(SavedStates(store))[name] == JObj(e);
  }

  // ------------------------------------------------------------ list editing

  /** Adding an item and then removing it leaves what removing it alone would leave. */
  lemma {:induction false} AddThenRemove(s: seq<string>, x: string)
    ensures RemoveAll(AddIfAbsent(s, x), x) == RemoveAll(s, x)
  {
    if x !in s {
      RemoveAllAppend(s, [x], x);
      assert RemoveAll([x], x) == [] + RemoveAll([x][1..], x);
    }
  }

  /** The `display` value after a click: `none` becomes `block`, anything else `none`. */
  function NextDisplay(d: string): (r: string)
    ensures r == "none" <==> d != "none"
    ensures r == "block" <==> d == "none"
  {
    if d == "none" then "block" else "none"
  }

  /** Two clicks restore a section that was shown (`block`) or hidden (`none`). */
  lemma ToggleTwice(d: string)
    requires d == "none" || d == "block"
    ensures NextDisplay(NextDisplay(d)) == d
  {
  }

  // ------------------------------------------------------------ controller

  class PopupController {
    /** The switch values, `None` standing for `undefined`. */
    var featureStates: map<string, Option<Json>>
    var blacklist: seq<string>
    var blacklistWords: seq<string>
    /** The text in each list editor's input box; a missing key is a missing input element. */
    var inputs: map<ListId, string>
    /** The inline `display` of each element of the popup, by id; a missing id is a missing element. */
    var display: map<string, string>

    constructor(inputs: map<ListId, string>, display: map<string, string>)
      ensures featureStates == map[] && blacklist == [] && blacklistWords == []
      ensures this.inputs == inputs && this.display == display
    {
      featureStates := map[];
      blacklist := [];
      blacklistWords := [];
      this.inputs := inputs;
      this.display := display;
    }

    function List(id: ListId): seq<string>
      reads this
    {
      match id
      case Channels => blacklist
      case Words => blacklistWords
    }

    method SetList(id: ListId, list: seq<string>)
      modifies this
      ensures List(id) == list
      ensures id.Channels? ==> blacklistWords == old(blacklistWords)
      ensures id.Words? ==> blacklist == old(blacklist)
      ensures featureStates == old(featureStates) && inputs == old(inputs) && display == old(display)
    {
      match id {
        case Channels => blacklist := list;
        case Words => blacklistWords := list;
      }
    }

    /**
     * `loadStates`: the merged record replaces the local state; a failed read is
     * caught and leaves the state as it was.
     */
    method LoadStates(store: map<string, Json>, read: Outcome)
      modifies this
      ensures inputs == old(inputs) && display == old(display)
      ensures read.Threw? ==>
        featureStates == old(featureStates) && blacklist == old(blacklist) && blacklistWords == old(blacklistWords)
      ensures read.Completed? ==>
        && (forall n :: n in featureStates <==> n in FeatureNames)
        && (forall n :: n in featureStates ==>
              featureStates[n] == MergedFlag(Fields(SavedStates(store)), store, n))
        && blacklist == MergedList(store, "blacklist")
        && blacklistWords == MergedList(store, "blacklistWords")
    {
      if read.Threw? {
        return;
      }
      featureStates, blacklist, blacklistWords := MergeStates(SavedStates(store), store);
    }

    /** `toggleVisibility`: flips the `display` of an element that exists. */
    method ToggleVisibility(id: string)
      modifies this
      ensures id in old(display) ==> display == old(display)[id := NextDisplay(old(display)[id])]
      ensures id !in old(display) ==> display == old(display)
      ensures featureStates == old(featureStates) && blacklist == old(blacklist)
      ensures blacklistWords == old(blacklistWords) && inputs == old(inputs)
    {
      if id in display {
        display := display[id := NextDisplay(display[id])];
      }
    }

    /**
     * `handleFeatureToggle`: the local switch is set before anything is written;
     * the legacy key is written, then the page is told; a failure of either is
     * caught, so the message is sent even when the write failed.
     */
    method HandleFeatureToggle(name: string, enabled: bool, write: Outcome, store: map<string, Json>)
      returns (store': map<string, Json>, sent: Manager.Message)
      modifies this
      ensures featureStates == old(featureStates)[name := Some(JBool(enabled))]
      ensures blacklist == old(blacklist) && blacklistWords == old(blacklistWords)
      ensures inputs == old(inputs) && display == old(display)
      ensures store' == if write.Completed? then store[name := JBool(enabled)] else store
      ensures sent == ToggleMessage(name, enabled)
    {
      featureStates := featureStates[name := Some(JBool(enabled))];
      store' := if write.Completed? then store[name := JBool(enabled)] else store;
      sent := ToggleMessage(name, enabled);
    }

    /**
     * `handleAddToBlacklist` / `handleAddToBlacklistWords`: the trimmed input is
     * appended when it is not already listed, then written and sent; the input
     * is cleared unless it was blank or a write or send threw (neither is caught).
     */
    method AddToList(id: ListId, write: Outcome, send: Outcome, store: map<string, Json>)
      returns (r: Outcome, store': map<string, Json>, sent: Option<Manager.Message>)
      modifies this
      ensures featureStates == old(featureStates) && display == old(display)
      ensures id.Channels? ==> blacklistWords == old(blacklistWords)
      ensures id.Words? ==> blacklist == old(blacklist)
      ensures id !in old(inputs) || Trim(old(inputs)[id]) == "" ==>
        && r == Completed && store' == store && sent == None
        && List(id) == old(List(id)) && inputs == old(inputs)
      ensures id in old(inputs) && Trim(old(inputs)[id]) != "" ==>
        var item := Trim(old(inputs)[id]);
        && List(id) == AddIfAbsent(old(List(id)), item)
        && (item in old(List(id)) ==> r == Completed && store' == store && sent == None)
        && (item !in old(List(id)) ==>
              && store' == (if write.Completed? then store[ListKey(id) := ToJsonList(List(id))] else store)
              && sent == (if write.Completed? then Some(ListMessage(id, List(id))) else None)
              && r == (if write.Threw? then write else send))
        && inputs == (if r.Completed? then old(inputs)[id := ""] else old(inputs))
    {
      r, store', sent := Completed, store, None;
      if id !in inputs {
        return;
      }
      var item := Trim(inputs[id]);
      if item == "" {
        return;
      }
      var list := List(id);
      if item !in list {
        list := list + [item];
        SetList(id, list);
        if write.Threw? {
          return write, store, None;
        }
        store' := store[ListKey(id) := ToJsonList(list)];
        sent := Some(ListMessage(id, list));
        if send.Threw? {
          return send, store', sent;
        }
      }
      inputs := inputs[id := ""];
    }

    /**
     * `removeFromBlacklist` / `removeFromBlacklistWords`: every occurrence is
     * dropped locally first; then the list is written and sent, a throwing write
     * or send ending the handler.
     */
    method RemoveFromList(id: ListId, item: string, write: Outcome, send: Outcome, store: map<string, Json>)
      returns (r: Outcome, store': map<string, Json>, sent: Option<Manager.Message>)
      modifies this
      ensures featureStates == old(featureStates) && inputs == old(inputs) && display == old(display)
      ensures id.Channels? ==> blacklistWords == old(blacklistWords)
      ensures id.Words? ==> blacklist == old(blacklist)
      ensures List(id) == RemoveAll(old(List(id)), item)
      ensures store' == if write.Completed? then store[ListKey(id) := ToJsonList(List(id))] else store
      ensures sent == if write.Completed? then Some(ListMessage(id, List(id))) else None
      ensures r == if write.Threw? then write else send
    {
      var updated := RemoveAll(List(id), item);
      SetList(id, updated);
      if write.Threw? {
        return write, store, None;
      }
      store' := store[ListKey(id) := ToJsonList(updated)];
      sent := Some(ListMessage(id, updated));
      r := send;
    }
  }
}
