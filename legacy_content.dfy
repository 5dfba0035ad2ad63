/**
 * The original content script: six switch variables and two block lists kept at
 * module scope, set from the store when the page observer starts, reassigned by
 * `switchChange` messages and by store changes, and a pass that, for each switch,
 * either hides or shows what that switch governs.
 *
 * Of what a pass does to the page, the two block-list passes are modelled on the
 * page's inline styles; the other four switches' effects are selector glue and
 * appear only as which branch ran.
 */
module Legacy {
  import opened Common
  import opened Document
  import Manager
  import Popup
  import BlacklistedChannels
  import BlacklistedWords

  /** The six switch variables. */
  datatype Switch = Shorts | Suggestions | Channels | Words | HomePage | Autoplay

  const AllSwitches: set<Switch> := {Shorts, Suggestions, Channels, Words, HomePage, Autoplay}

  /** The store key (and `switchType`) that names each switch. */
  function Key(s: Switch): string {
    match s
    case Shorts => "hideShorts"
    case Suggestions => "hideSuggestions"
    case Channels => "hideBlacklistedChannels"
    case Words => "hideBlacklistedWords"
    case HomePage => "hideHomePageContent"
    case Autoplay => "hideAutoplayOverlay"
  }

  /** The value a switch starts with, and takes when the store has none. */
  function DefaultOn(s: Switch): bool {
    s in {Shorts, Suggestions, Channels, Words}
  }

  /** The variable a key assigns: a switch, or one of the two lists. */
  datatype Target = FlagOf(s: Switch) | ChannelList | WordList

  /** Which variable a store key or a `switchType` names, if any. */
  function TargetOf(key: string): Option<Target> {
    if key == "hideShorts" then Some(FlagOf(Shorts))
    else if key == "hideSuggestions" then Some(FlagOf(Suggestions))
    else if key == "hideBlacklistedChannels" then Some(FlagOf(Channels))
    else if key == "blacklist" then Some(ChannelList)
    else if key == "blacklistWords" then Some(WordList)
    else if key == "hideBlacklistedWords" then Some(FlagOf(Words))
    else if key == "hideHomePageContent" then Some(FlagOf(HomePage))
    else if key == "hideAutoplayOverlay" then Some(FlagOf(Autoplay))
    else None
  }

  function KeyOf(t: Target): string {
    match t
    case FlagOf(s) => Key(s)
    case ChannelList => "blacklist"
    case WordList => "blacklistWords"
  }

  /** Keys and variables are in one-to-one correspondence. */
  lemma {:induction false} TargetRoundTrip(key: string, t: Target)
    ensures TargetOf(key) == Some(t) <==> KeyOf(t) == key
  {
    match t {
      case FlagOf(s) => match s {
        case Shorts =>
        case Suggestions =>
        case Channels =>
        case Words =>
        case HomePage =>
        case Autoplay =>
      }
      case ChannelList =>
      case WordList =>
    }
  }

  /** The values of the script's variables. */
  datatype Vars = Vars(flags: map<Switch, bool>, blacklist: seq<string>, blacklistWords: seq<string>)

  /** A switch variable as `if (flag)` reads it: an undefined one is off. */
  predicate Enabled(x: Option<Json>) {
    x.Some? && Truthy(x.value)
  }

  /**
   * A list variable as the matching predicates read it. The initial read turns
   * an absent key into `[]`; a later assignment stores the raw value, and a
   * removed key or a non-array value is read here as the empty list too.
   */
  function ListOf(x: Option<Json>): (r: seq<string>)
    ensures x.None? ==> r == []
    ensures x.Some? ==> r == ListValue(x.value)
  {
    if x.Some? then ListValue(x.value) else []
  }

  /** Assigning `x` to the variable a key names; any other key assigns nothing. */
  function Assign(v: Vars, key: string, x: Option<Json>): (r: Vars)
    ensures TargetOf(key).None? ==> r == v
  {
    match TargetOf(key)
    case None => v
    case Some(FlagOf(s)) => v.(flags := v.flags[s := Enabled(x)])
    case Some(ChannelList) => v.(blacklist := ListOf(x))
    case Some(WordList) => v.(blacklistWords := ListOf(x))
  }

  /** The changes of one store event, applied in order. */
  function AssignAll(v: Vars, changes: seq<Manager.Change>): Vars {
    if changes == [] then v
    else
      var last := changes[|changes| - 1];
      Assign(AssignAll(v, changes[..|changes| - 1]), last.key, last.newValue)
  }

  /** A store event that names none of the script's keys changes none of its variables. */
  lemma {:induction false} UnknownKeysIgnored(v: Vars, changes: seq<Manager.Change>)
    requires forall i :: 0 <= i < |changes| ==> TargetOf(changes[i].key).None?
    ensures AssignAll(v, changes) == v
  {
    if changes != [] {
      UnknownKeysIgnored(v, changes[..|changes| - 1]);
    }
  }

  /** Each variable, read through its key. */
  predicate Holds(v: Vars, t: Target, x: Option<Json>)
    requires t.FlagOf? ==> t.s in v.flags
  {
    match t
    case FlagOf(s) => v.flags[s] == Enabled(x)
    case ChannelList => v.blacklist == ListOf(x)
    case WordList => v.blacklistWords == ListOf(x)
  }

  /** The variable `t` has the same value in `a` and `b`. */
  predicate SameAt(a: Vars, b: Vars, t: Target) {
    match t
    case FlagOf(s) => (s in a.flags <==> s in b.flags) && (s in a.flags ==> a.flags[s] == b.flags[s])
    case ChannelList => a.blacklist == b.blacklist
    case WordList => a.blacklistWords == b.blacklistWords
  }

  /** Assigning through one key leaves the variable of every other target alone. */
  lemma AssignKeepsOthers(v: Vars, key: string, x: Option<Json>, t: Target)
    requires TargetOf(key) != Some(t)
    ensures SameAt(Assign(v, key, x), v, t)
    ensures Assign(v, key, x).flags.Keys >= v.flags.Keys
  {
  }

  /**
   * In a store event (whose keys are distinct) each recognised key's variable ends
   * holding that key's new value.
   */
  lemma {:induction false} ChangedKeyTakesNewValue(v: Vars, changes: seq<Manager.Change>, i: int, t: Target)
    requires AllSwitches <= v.flags.Keys
    requires forall a, b :: 0 <= a < b < |changes| ==> changes[a].key != changes[b].key
    requires 0 <= i < |changes| && TargetOf(changes[i].key) == Some(t)
    ensures AllSwitches <= AssignAll(v, changes).flags.Keys
    ensures Holds(AssignAll(v, changes), t, changes[i].newValue)
  {
    var n := |changes| - 1;
    var prefix := changes[..n];
    FlagKeysKept(v, prefix);
    if i == n {
    } else {
      ChangedKeyTakesNewValue(v, prefix, i, t);
      var w := AssignAll(v, prefix);
      assert changes[n].key != changes[i].key;
      TargetRoundTrip(changes[n].key, t);
      TargetRoundTrip(changes[i].key, t);
      AssignKeepsOthers(w, changes[n].key, changes[n].newValue, t);
    }
  }

  /** Applying changes never removes a switch. */
  lemma {:induction false} FlagKeysKept(v: Vars, changes: seq<Manager.Change>)
    requires AllSwitches <= v.flags.Keys
    ensures AllSwitches <= AssignAll(v, changes).flags.Keys
  {
    if changes != [] {
      FlagKeysKept(v, changes[..|changes| - 1]);
    }
  }

  // ------------------------------------------------------------- the pass

  /** Which half of a switch's `if` ran. */
  datatype Branch = Hide(s: Switch) | Show(s: Switch)

  function BranchFor(flags: map<Switch, bool>, s: Switch): Branch
    requires s in flags
  {
    if flags[s] then Hide(s) else Show(s)
  }

  /** The order in which `handleDOMChangesBasedOnSwitches` tests the switches. */
  const SwitchOrder: seq<Switch> := [Shorts, Suggestions, Channels, Words, HomePage, Autoplay]

  /** One branch per switch of `ss`, in order. */
  function Branches(flags: map<Switch, bool>, ss: seq<Switch>): (r: seq<Branch>)
    requires forall i :: 0 <= i < |ss| ==> ss[i] in flags
    ensures |r| == |ss| && forall i :: 0 <= i < |ss| ==> r[i] == BranchFor(flags, ss[i])
  {
    if ss == [] then [] else [BranchFor(flags, ss[0])] + Branches(flags, ss[1..])
  }

  /** The branches `handleDOMChangesBasedOnSwitches` takes, switch by switch. */
  function Dispatch(flags: map<Switch, bool>): (r: seq<Branch>)
    requires AllSwitches <= flags.Keys
    ensures |r| == 6
  {
    Branches(flags, SwitchOrder)
  }

  /**
   * Over switches listed once each, a listed switch gets exactly one branch, the
   * hiding one exactly when it is on; an unlisted one gets none.
   */
  lemma {:induction false} BranchesOnce(flags: map<Switch, bool>, ss: seq<Switch>, s: Switch)
    requires forall i :: 0 <= i < |ss| ==> ss[i] in flags
    requires Distinct(ss)
    ensures s in ss ==> (Hide(s) in Branches(flags, ss) <==> flags[s])
    ensures s in ss ==> (Show(s) in Branches(flags, ss) <==> !flags[s])
    ensures multiset(Branches(flags, ss))[Hide(s)] + multiset(Branches(flags, ss))[Show(s)]
         == if s in ss then 1 else 0
  {
    if ss != [] {
      var r := Branches(flags, ss);
      assert r == [BranchFor(flags, ss[0])] + Branches(flags, ss[1..]);
      assert multiset(r) == multiset{BranchFor(flags, ss[0])} + multiset(Branches(flags, ss[1..]));
      DistinctTail(ss);
      BranchesOnce(flags, ss[1..], s);
      assert s in ss <==> s == ss[0] || s in ss[1..];
    }
  }

  /** Dropping the head of a sequence without repeats leaves one without repeats and without the head. */
  lemma DistinctTail<T>(ss: seq<T>)
    requires ss != [] && Distinct(ss)
    ensures Distinct(ss[1..]) && ss[0] !in ss[1..]
  {
    forall i, j | 0 <= i < j < |ss[1..]| ensures ss[1..][i] != ss[1..][j] {
      assert ss[1..][i] == ss[i + 1] && ss[1..][j] == ss[j + 1];
    }
    forall j | 0 <= j < |ss[1..]| ensures ss[1..][j] != ss[0] {
      assert ss[1..][j] == ss[j + 1];
    }
  }

  /** Every switch gets exactly one branch per pass: the hiding one exactly when it is on. */
  lemma ExactlyOneBranch(flags: map<Switch, bool>, s: Switch)
    requires AllSwitches <= flags.Keys
    ensures Hide(s) in Dispatch(flags) <==> flags[s]
    ensures Show(s) in Dispatch(flags) <==> !flags[s]
    ensures multiset(Dispatch(flags))[Hide(s)] + multiset(Dispatch(flags))[Show(s)] == 1
  {
    assert s in SwitchOrder;
    BranchesOnce(flags, SwitchOrder, s);
  }

  /** What the two block-list passes read from one `ytd-rich-item-renderer`. */
  datatype Tile = Tile(elem: ElemId, channelName: Option<string>, videoTitle: Option<string>)

  /** The two block-list passes. */
  datatype ListPass = ChannelPass | WordPass

  /** `isChannelInBlacklist`: exact membership. */
  predicate InChannelList(list: seq<string>, name: string) {
    name in list
  }

  /** `isWordInBlacklistWords`: the lowercased text contains some lowercased listed word. */
  function InWordList(list: seq<string>, word: string): (r: bool)
    ensures r <==> exists w :: w in list && Includes(Lower(word), Lower(w))
  {
    if list == [] then false
    else Includes(Lower(word), Lower(list[0])) || InWordList(list[1..], word)
  }

  /** The channel test is the one the channel feature applies. */
  lemma ChannelTestAgrees(list: seq<string>, name: string)
    ensures InChannelList(list, name) == BlacklistedChannels.MatchesFilter(list, name)
  {
  }

  /**
   * The word test agrees with the word feature's case-insensitive one on every
   * non-empty title; an empty title matches here only through an empty listed word,
   * and never in the feature.
   */
  lemma {:induction false} WordTestAgrees(list: seq<string>, word: string)
    ensures word != "" ==> InWordList(list, word) == BlacklistedWords.MatchesFilter(list, word, false)
    ensures word == "" ==> (InWordList(list, word) <==> "" in list)
    ensures !BlacklistedWords.MatchesFilter(list, "", false)
  {
    if word == "" {
      if "" in list {
        EmptyNeedleOccurs(Lower(""));
      }
      if InWordList(list, word) {
        var w :| w in list && Includes(Lower(word), Lower(w));
        var i :| OccursAt(Lower(word), Lower(w), i);
        assert |Lower(w)| == 0;
        assert w == "";
      }
    }
  }

  /** A tile the pass acts on: it has the pass's element, whose trimmed text is listed. */
  predicate Selected(p: ListPass, v: Vars, t: Tile) {
    match p
    case ChannelPass => t.channelName.Some? && InChannelList(v.blacklist, Trim(t.channelName.value))
    case WordPass => t.videoTitle.Some? && InWordList(v.blacklistWords, Trim(t.videoTitle.value))
  }

  /** The pass's test as a function of the tile. */
  function Selector(p: ListPass, v: Vars): Tile -> bool {
    t => Selected(p, v, t)
  }

  /** `element.style.display = d`; the empty string removes the inline `display`. */
  function SetDisplay(style: map<ElemId, map<string, string>>, e: ElemId, d: string): map<ElemId, map<string, string>> {
    var props: map<string, string> := if e in style then style[e] else map[];
    style[e := if d == "" then props - {"display"} else props["display" := d]]
  }

  /** The inline styles after one block-list pass over the tiles, in order. */
  function PassStyle(style: map<ElemId, map<string, string>>, sel: Tile -> bool, tiles: seq<Tile>, d: string)
    : map<ElemId, map<string, string>>
  {
    if tiles == [] then style
    else
      var last := tiles[|tiles| - 1];
      var before := PassStyle(style, sel, tiles[..|tiles| - 1], d);
      if sel(last) then SetDisplay(before, last.elem, d) else before
  }

  /** A pass over one more tile: that tile is written after the others, when it is selected. */
  lemma PassSnoc(style: map<ElemId, map<string, string>>, sel: Tile -> bool, tiles: seq<Tile>, i: nat, d: string)
    requires i < |tiles|
    ensures PassStyle(style, sel, tiles[..i + 1], d)
      == if sel(tiles[i]) then SetDisplay(PassStyle(style, sel, tiles[..i], d), tiles[i].elem, d)
         else PassStyle(style, sel, tiles[..i], d)
  {
    assert tiles[..i + 1][..i] == tiles[..i];
  }

  /** Some tile for element `e` is selected by the pass. */
  predicate Hits(sel: Tile -> bool, tiles: seq<Tile>, e: ElemId) {
    exists i :: 0 <= i < |tiles| && tiles[i].elem == e && sel(tiles[i])
  }

  /** A pass sets `display` to `d` on every selected tile's element, or removes it when `d` is empty. */
  lemma {:induction false} PassHidesOrShowsSelected(style: map<ElemId, map<string, string>>, sel: Tile -> bool,
                                                    tiles: seq<Tile>, d: string, e: ElemId)
    requires Hits(sel, tiles, e)
    ensures e in PassStyle(style, sel, tiles, d)
    ensures d == "" ==> "display" !in PassStyle(style, sel, tiles, d)[e]
    ensures d != "" ==> "display" in PassStyle(style, sel, tiles, d)[e] && PassStyle(style, sel, tiles, d)[e]["display"] == d
  {
    var n := |tiles| - 1;
    var last := tiles[n];
    var before := PassStyle(style, sel, tiles[..n], d);
    var chosen := sel(last);
    assert PassStyle(style, sel, tiles, d) == if chosen then SetDisplay(before, last.elem, d) else before;
    if !(last.elem == e && chosen) {
      var i :| 0 <= i < |tiles| && tiles[i].elem == e && sel(tiles[i]);
      assert i != n by {
        assert tiles[n] == last;
      }
      assert tiles[..n][i] == tiles[i];
      PassHidesOrShowsSelected(style, sel, tiles[..n], d, e);
    }
  }

  /** A pass leaves the styles of every element no selected tile names as they were. */
  lemma {:induction false} PassKeepsOthers(style: map<ElemId, map<string, string>>, sel: Tile -> bool,
                                           tiles: seq<Tile>, d: string, e: ElemId)
    requires !Hits(sel, tiles, e)
    ensures e in PassStyle(style, sel, tiles, d) <==> e in style
    ensures e in style ==> PassStyle(style, sel, tiles, d)[e] == style[e]
  {
    if tiles != [] {
      var n := |tiles| - 1;
      assert forall i :: 0 <= i < n ==> tiles[..n][i] == tiles[i];
      PassKeepsOthers(style, sel, tiles[..n], d, e);
      assert !(tiles[n].elem == e && sel(tiles[n]));
    }
  }

  /** The `display` a branch writes: `none` to hide, `""` to show. */
  function DisplayFor(hiding: bool): string {
    if hiding then "none" else ""
  }

  /** Stored flags win over the defaults: `result.key !== undefined ? result.key : default`. */
  function Resolved(store: map<string, Json>, s: Switch): bool {
    if Key(s) in store then Truthy(store[Key(s)]) else DefaultOn(s)
  }

  /** The variables once the initial store read has been applied. */
  function InitialVars(store: map<string, Json>): (r: Vars)
    ensures r.flags.Keys == AllSwitches
  {
    Vars(map s | s in AllSwitches :: Resolved(store, s),
         ListOf(Lookup(store, "blacklist")), ListOf(Lookup(store, "blacklistWords")))
  }

  /** The script's defaults are the popup's for the six switches both know. */
  lemma {:induction false} DefaultsAgreeWithPopup(s: Switch)
    ensures Key(s) in Popup.FeatureNames && Popup.DefaultFlag(Key(s)) == DefaultOn(s)
  {
    match s {
      case Shorts =>
      case Suggestions =>
      case Channels =>
      case Words =>
      case HomePage =>
      case Autoplay =>
    }
  }

  /**
   * Without a unified record, the script's initial switch is what the popup shows
   * for the same stored value.
   */
  lemma {:induction false} InitialAgreesWithPopup(store: map<string, Json>, s: Switch)
    requires Manager.UnifiedKey !in store
    ensures Key(s) in Popup.FeatureNames
    ensures InitialVars(store).flags[s] == Popup.Checked(Popup.MergedFlag(Popup.Fields(Popup.SavedStates(store)), store, Key(s)))
  {
    DefaultsAgreeWithPopup(s);
    assert Popup.Fields(Popup.SavedStates(store)) == map[];
  }

  /** The page after one pass over `tiles` under the variables `v`: the channel pass, then the word pass. */
  function AfterPass(style: map<ElemId, map<string, string>>, v: Vars, tiles: seq<Tile>): map<ElemId, map<string, string>>
    requires Channels in v.flags && Words in v.flags
  {
    PassStyle(PassStyle(style, Selector(ChannelPass, v), tiles, DisplayFor(v.flags[Channels])),
              Selector(WordPass, v), tiles, DisplayFor(v.flags[Words]))
  }

  class ContentScript {
    var flags: map<Switch, bool>
    var blacklist: seq<string>
    var blacklistWords: seq<string>
    /** `observer !== null`. */
    var observing: bool
    /** The branches taken by each pass so far, in order. */
    var passes: seq<seq<Branch>>

    ghost predicate Valid()
      reads this
    {
      AllSwitches <= flags.Keys
    }

    function State(): Vars
      reads this
    {
      Vars(flags, blacklist, blacklistWords)
    }

    /** The module-scope initial values. */
    constructor()
      ensures Valid() && !observing && passes == []
      ensures State() == InitialVars(map[])
    {
      flags := map s | s in AllSwitches :: DefaultOn(s);
      blacklist := [];
      blacklistWords := [];
      observing := false;
      passes := [];
    }

    method SetState(v: Vars)
      modifies this
      ensures State() == v && observing == old(observing) && passes == old(passes)
    {
      flags, blacklist, blacklistWords := v.flags, v.blacklist, v.blacklistWords;
    }

    /** One block-list pass: writes `display` on every selected tile, in order. */
    method RunListPass(page: Page, p: ListPass, tiles: seq<Tile>, hiding: bool)
      modifies page`style
      ensures page.style == PassStyle(old(page.style), Selector(p, State()), tiles, DisplayFor(hiding))
    {
      ghost var sel := Selector(p, State());
      var i := 0;
      while i < |tiles|
        invariant 0 <= i <= |tiles|
        invariant page.style == PassStyle(old(page.style), sel, tiles[..i], DisplayFor(hiding))
      {
        PassSnoc(old(page.style), sel, tiles, i, DisplayFor(hiding));
        assert sel(tiles[i]) == Selected(p, State(), tiles[i]);
        if Selected(p, State(), tiles[i]) {
          page.style := SetDisplay(page.style, tiles[i].elem, DisplayFor(hiding));
        }
        i := i + 1;
      }
      assert tiles[..i] == tiles;
    }

    /**
     * `handleDOMChangesBasedOnSwitches`: one branch per switch; the two block-list
     * switches hide or show the tiles their list selects.
     */
    method HandleDomChanges(page: Page, tiles: seq<Tile>)
      requires Valid()
      modifies this`passes, page`style
      ensures passes == old(passes) + [Dispatch(flags)]
      ensures page.style == AfterPass(old(page.style), State(), tiles)
    {
      passes := passes + [Dispatch(flags)];
      RunListPass(page, ChannelPass, tiles, flags[Channels]);
      RunListPass(page, WordPass, tiles, flags[Words]);
    }

    /**
     * `observeDOMChanges`: once an observer exists nothing happens; otherwise the
     * variables are read from the store, a pass runs, and the observer is created.
     */
    method ObserveDomChanges(store: map<string, Json>, page: Page, tiles: seq<Tile>)
      requires Valid()
      modifies this, page`style
      ensures Valid() && observing
      ensures old(observing) ==> State() == old(State()) && passes == old(passes) && page.style == old(page.style)
      ensures !old(observing) ==>
        && State() == InitialVars(store) && passes == old(passes) + [Dispatch(flags)]
        && page.style == AfterPass(old(page.style), State(), tiles)
    {
      if observing {
        return;
      }
      SetState(InitialVars(store));
      HandleDomChanges(page, tiles);
      observing := true;
    }

    /**
     * The `switchChange` message: assigns `state` to the variable `switchType`
     * names (nothing for an unknown one), then runs a pass; other messages are ignored.
     */
    method SwitchChange(msgType: string, switchType: string, state: Option<Json>, page: Page, tiles: seq<Tile>)
      requires Valid()
      modifies this, page`style
      ensures Valid() && observing == old(observing)
      ensures msgType != "switchChange" ==>
        State() == old(State()) && passes == old(passes) && page.style == old(page.style)
      ensures msgType == "switchChange" ==>
        && State() == Assign(old(State()), switchType, state) && passes == old(passes) + [Dispatch(flags)]
        && page.style == AfterPass(old(page.style), State(), tiles)
    {
      if msgType != "switchChange" {
        return;
      }
      SetState(Assign(State(), switchType, state));
      HandleDomChanges(page, tiles);
    }

    /**
     * The store listener: for the `sync` area, every recognised key assigns its
     * new value to its variable, then one pass runs; other areas are ignored.
     */
    method StorageChanged(area: string, changes: seq<Manager.Change>, page: Page, tiles: seq<Tile>)
      requires Valid()
      modifies this, page`style
      ensures Valid() && observing == old(observing)
      ensures area != "sync" ==>
        State() == old(State()) && passes == old(passes) && page.style == old(page.style)
      ensures area == "sync" ==>
        && State() == AssignAll(old(State()), changes) && passes == old(passes) + [Dispatch(flags)]
        && page.style == AfterPass(old(page.style), State(), tiles)
    {
      if area != "sync" {
        return;
      }
      var i := 0;
      while i < |changes|
        invariant 0 <= i <= |changes|
        invariant Valid() && observing == old(observing) && passes == old(passes) && page.style == old(page.style)
        invariant State() == AssignAll(old(State()), changes[..i])
      {
        assert changes[..i + 1][..i] == changes[..i];
        SetState(Assign(State(), changes[i].key, changes[i].newValue));
        i := i + 1;
      }
      assert changes[..i] == changes;
      HandleDomChanges(page, tiles);
    }
  }
}
