/**
 * The channel filter (src/features/HideBlacklistedChannelsFeature.js): hides the
 * video items whose channel link text is, exactly, a listed channel name.
 */
module BlacklistedChannels {
  import opened Common
  import opened Document
  import opened Features
  import opened DomFeatures

  const Name: string := "hideBlacklistedChannels"

  /** The feature's own list key, read when the shared key holds nothing. */
  const NewListKey: string := "hideBlacklistedChannels_list"

  function DefaultConfig(): map<string, Json> {
    map["defaultEnabled" := JBool(true)]
  }

  /** The constructor: a channel filter, enabled by default. */
  method New() returns (f: Feature)
    ensures fresh(f) && f.Valid()
    ensures f.name == Name && f.kind == Filter(ChannelFilter) && f.config == DefaultConfig()
    ensures f.enabled && !f.isActive && !f.initialized && f.filterList == [] && f.targetElements == {}
  {
    f := new Feature(Name, Filter(ChannelFilter), DefaultConfig());
  }

  /** `matchesFilter(channelName)`: exact, case-sensitive membership. */
  function MatchesFilter(list: seq<string>, channelName: string): (r: bool)
    ensures r <==> IndexOf(list, channelName) >= 0
  {
    channelName in list
  }

  /** A link `applyFilters` looks at: its href names a channel handle. */
  predicate IsChannelLink(l: Link) {
    Includes(l.href, "/@")
  }

  /** An item the filter tests and finds matching: it has a channel link whose trimmed text is listed. */
  predicate Selects(list: seq<string>, it: VideoItem) {
    it.channelLink.Some? && IsChannelLink(it.channelLink.value) && MatchesFilter(list, Trim(it.channelLink.value.text))
  }

  /** The elements of the items `applyFilters` hides, item by item. */
  function Matching(list: seq<string>, items: seq<VideoItem>): set<ElemId> {
    if items == [] then {}
    else
      var last := items[|items| - 1];
      Matching(list, items[..|items| - 1]) + (if Selects(list, last) then {last.elem} else {})
  }

  /** The hidden set is exactly the elements of the matching items. */
  lemma {:induction false} MatchingIsSelected(list: seq<string>, items: seq<VideoItem>, e: ElemId)
    ensures e in Matching(list, items) <==> exists it :: it in items && Selects(list, it) && it.elem == e
  {
    if items != [] {
      var init := items[..|items| - 1];
      assert items == init + [items[|items| - 1]];
      MatchingIsSelected(list, init, e);
    }
  }

  /** An item without a channel link, or whose link is not a handle link, is never hidden because of itself. */
  lemma SkipsNonChannelItems(list: seq<string>, it: VideoItem)
    requires it.channelLink.None? || !Includes(it.channelLink.value.href, "/@")
    ensures !Selects(list, it)
  {
  }

  lemma MatchingSnoc(list: seq<string>, items: seq<VideoItem>, i: int)
    requires 0 <= i < |items|
    ensures Matching(list, items[..i + 1])
         == Matching(list, items[..i]) + (if Selects(list, items[i]) then {items[i].elem} else {})
  {
    assert items[..i + 1][..i] == items[..i];
  }

  /**
   * `applyFilters`: hides every item from a listed channel and nothing else; it
   * never shows an element.
   */
  method ApplyFilters(f: Feature, page: Page, items: seq<VideoItem>)
    modifies f`targetElements, page`attrs, page`style
    ensures f.targetElements == old(f.targetElements) + Matching(f.filterList, items)
    ensures page.attrs == Over(Hide, AttrLayer, f.name, old(page.attrs), Matching(f.filterList, items))
    ensures page.style == Over(Hide, StyleLayer, f.name, old(page.style), Matching(f.filterList, items))
  {
    var list := f.filterList;
    var i := 0;
    ghost var done: set<ElemId> := {};
    OverEmpty(Hide, AttrLayer, f.name, page.attrs);
    OverEmpty(Hide, StyleLayer, f.name, page.style);
    while i < |items|
      invariant 0 <= i <= |items|
      invariant done == Matching(list, items[..i])
      invariant f.targetElements == old(f.targetElements) + done
      invariant page.attrs == Over(Hide, AttrLayer, f.name, old(page.attrs), done)
      invariant page.style == Over(Hide, StyleLayer, f.name, old(page.style), done)
    {
      MatchingSnoc(list, items, i);
      var it := items[i];
      // the link is present, points at a handle, and its trimmed text is listed
      if Selects(list, it) {
        HideOneMore(f, page, it.elem, old(page.attrs), old(page.style), done);
        done := done + {it.elem};
      }
      i := i + 1;
    }
    assert items[..i] == items;
  }

  /** `loadFilterList`: the shared key if truthy, else the feature's own key if truthy, else empty. */
  function LoadedList(store: map<string, Json>): (r: seq<string>)
    ensures ChannelsListKey in store && store[ChannelsListKey].JArr? ==> r == ListValue(store[ChannelsListKey])
    ensures (ChannelsListKey !in store || !Truthy(store[ChannelsListKey])) && NewListKey in store ==>
      r == ListValue(store[NewListKey])
    ensures (ChannelsListKey !in store || !Truthy(store[ChannelsListKey])) && NewListKey !in store ==> r == []
  {
    if ChannelsListKey in store && Truthy(store[ChannelsListKey]) then ListValue(store[ChannelsListKey])
    else if NewListKey in store && Truthy(store[NewListKey]) then ListValue(store[NewListKey])
    else []
  }

  /** A list saved under the shared key is what the feature loads, whatever its own key holds. */
  lemma SavedListIsLoaded(store: map<string, Json>, l: seq<string>)
    ensures LoadedList(store[ChannelsListKey := ToJsonList(l)]) == l
  {
    ListValueOfToJsonList(l);
  }
}
