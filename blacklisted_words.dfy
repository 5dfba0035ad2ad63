/**
 * The keyword filter (src/features/HideBlacklistedWordsFeature.js): hides the
 * video items whose title contains a listed word, ignoring ASCII case unless the
 * feature's config says `caseSensitive`.
 */
module BlacklistedWords {
  import opened Common
  import opened Document
  import opened Features
  import opened DomFeatures

  const Name: string := "hideBlacklistedWords"

  /** The feature's own list key, read when the shared key holds nothing. */
  const NewListKey: string := "hideBlacklistedWords_list"

  function DefaultConfig(): map<string, Json> {
    map["defaultEnabled" := JBool(true), "caseSensitive" := JBool(false)]
  }

  /** The constructor: a words filter, enabled by default and case-insensitive. */
  method New() returns (f: Feature)
    ensures fresh(f) && f.Valid()
    ensures f.name == Name && f.kind == Filter(WordFilter) && f.config == DefaultConfig()
    ensures f.enabled && !f.isActive && !f.initialized && f.filterList == [] && f.targetElements == {}
    ensures !CaseSensitive(f.config)
  {
    f := new Feature(Name, Filter(WordFilter), DefaultConfig());
  }

  predicate CaseSensitive(config: map<string, Json>) {
    "caseSensitive" in config && Truthy(config["caseSensitive"])
  }

  /** `matchesFilter(text)`: a non-empty text matches when it contains some listed word. */
  function MatchesFilter(list: seq<string>, text: string, caseSensitive: bool): (r: bool)
    ensures r <==> text != "" && exists w :: w in list && Includes(Normalize(text, caseSensitive), Normalize(w, caseSensitive))
  {
    if text == "" then false else SomeWordIn(list, Normalize(text, caseSensitive), caseSensitive)
  }

  /** `list.some(word => text.includes(normalize(word)))`. */
  function SomeWordIn(list: seq<string>, text: string, caseSensitive: bool): (r: bool)
    ensures r <==> exists w :: w in list && Includes(text, Normalize(w, caseSensitive))
  {
    if list == [] then false
    else Includes(text, Normalize(list[0], caseSensitive)) || SomeWordIn(list[1..], text, caseSensitive)
  }

  lemma LowerIdempotent(s: string)
    ensures Lower(Lower(s)) == Lower(s)
  {
    assert forall i :: 0 <= i < |s| ==> LowerChar(LowerChar(s[i])) == LowerChar(s[i]);
  }

  /** Case-insensitive matching does not depend on the case of the title. */
  lemma {:induction false} MatchIgnoresTitleCase(list: seq<string>, text: string)
    ensures MatchesFilter(list, text, false) == MatchesFilter(list, Lower(text), false)
  {
    LowerIdempotent(text);
  }

  /** Adding a word never makes a matching title stop matching. */
  lemma AddingWordKeepsMatches(list: seq<string>, w: string, text: string, caseSensitive: bool)
    requires MatchesFilter(list, text, caseSensitive)
    ensures MatchesFilter(list + [w], text, caseSensitive)
  {
    var v :| v in list && Includes(Normalize(text, caseSensitive), Normalize(v, caseSensitive));
    assert v in list + [w];
  }

  /** An item the filter tests and finds matching: it has a title element whose trimmed text matches. */
  predicate Selects(list: seq<string>, caseSensitive: bool, it: VideoItem) {
    it.titleText.Some? && MatchesFilter(list, Trim(it.titleText.value), caseSensitive)
  }

  /** The elements of the items `applyFilters` hides, item by item. */
  function Matching(list: seq<string>, caseSensitive: bool, items: seq<VideoItem>): set<ElemId> {
    if items == [] then {}
    else
      var last := items[|items| - 1];
      Matching(list, caseSensitive, items[..|items| - 1]) + (if Selects(list, caseSensitive, last) then {last.elem} else {})
  }

  /** The hidden set is exactly the elements of the matching items. */
  lemma {:induction false} MatchingIsSelected(list: seq<string>, caseSensitive: bool, items: seq<VideoItem>, e: ElemId)
    ensures e in Matching(list, caseSensitive, items)
        <==> exists it :: it in items && Selects(list, caseSensitive, it) && it.elem == e
  {
    if items != [] {
      var init := items[..|items| - 1];
      assert items == init + [items[|items| - 1]];
      MatchingIsSelected(list, caseSensitive, init, e);
    }
  }

  lemma MatchingSnoc(list: seq<string>, caseSensitive: bool, items: seq<VideoItem>, i: int)
    requires 0 <= i < |items|
    ensures Matching(list, caseSensitive, items[..i + 1])
         == Matching(list, caseSensitive, items[..i])
            + (if Selects(list, caseSensitive, items[i]) then {items[i].elem} else {})
  {
    assert items[..i + 1][..i] == items[..i];
  }

  /**
   * `applyFilters`: hides every item whose title matches and nothing else; it
   * never shows an element, so earlier hidden items stay hidden.
   */
  method ApplyFilters(f: Feature, page: Page, items: seq<VideoItem>)
    modifies f`targetElements, page`attrs, page`style
    ensures f.targetElements == old(f.targetElements) + Matching(f.filterList, CaseSensitive(f.config), items)
    ensures page.attrs
         == Over(Hide, AttrLayer, f.name, old(page.attrs), Matching(f.filterList, CaseSensitive(f.config), items))
    ensures page.style
         == Over(Hide, StyleLayer, f.name, old(page.style), Matching(f.filterList, CaseSensitive(f.config), items))
  {
    var cs := CaseSensitive(f.config);
    var list := f.filterList;
    var i := 0;
    ghost var done: set<ElemId> := {};
    OverEmpty(Hide, AttrLayer, f.name, page.attrs);
    OverEmpty(Hide, StyleLayer, f.name, page.style);
    while i < |items|
      invariant 0 <= i <= |items|
      invariant done == Matching(list, cs, items[..i])
      invariant f.targetElements == old(f.targetElements) + done
      invariant page.attrs == Over(Hide, AttrLayer, f.name, old(page.attrs), done)
      invariant page.style == Over(Hide, StyleLayer, f.name, old(page.style), done)
    {
      MatchingSnoc(list, cs, items, i);
      var it := items[i];
      // the title element is present and its trimmed text matches
      if Selects(list, cs, it) {
        HideOneMore(f, page, it.elem, old(page.attrs), old(page.style), done);
        done := done + {it.elem};
      }
      i := i + 1;
    }
    assert items[..i] == items;
  }

  /** `loadFilterList`: the shared key if truthy, else the feature's own key if truthy, else empty. */
  function LoadedList(store: map<string, Json>): (r: seq<string>)
    ensures WordsListKey in store && store[WordsListKey].JArr? ==> r == ListValue(store[WordsListKey])
    ensures (WordsListKey !in store || !Truthy(store[WordsListKey])) && NewListKey in store ==>
      r == ListValue(store[NewListKey])
    ensures (WordsListKey !in store || !Truthy(store[WordsListKey])) && NewListKey !in store ==> r == []
  {
    if WordsListKey in store && Truthy(store[WordsListKey]) then ListValue(store[WordsListKey])
    else if NewListKey in store && Truthy(store[NewListKey]) then ListValue(store[NewListKey])
    else []
  }

  /** A list saved under the shared key is what the feature loads, whatever its own key holds. */
  lemma SavedListIsLoaded(store: map<string, Json>, l: seq<string>)
    ensures LoadedList(store[WordsListKey := ToJsonList(l)]) == l
  {
    ListValueOfToJsonList(l);
  }
}
