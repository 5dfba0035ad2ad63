/**
 * DOM bookkeeping shared by every feature (src/core/DOMFeature.js): hiding and
 * showing elements with the per-feature marker, the set of elements a feature has
 * hidden, mutation-observer registration, and the cleanup that runs on
 * deactivation.
 *
 * `hideElements(x)` with a single element `x` is `hideElements([x])`; a null entry
 * is `None`.
 */
module DomFeatures {
  import opened Common
  import opened Document
  import opened Features

  datatype Visibility = Hide | Show

  /** The two per-element maps a hide or show changes. */
  datatype Layer = AttrLayer | StyleLayer

  function Effect(v: Visibility, layer: Layer, feature: string, a: map<string, string>): map<string, string> {
    match (v, layer)
    case (Hide, AttrLayer) => HiddenAttrs(a, feature)
    case (Hide, StyleLayer) => HiddenStyle(a)
    case (Show, AttrLayer) => ShownAttrs(a, feature)
    case (Show, StyleLayer) => ShownStyle(a)
  }

  /** The page map `m` after feature `feature` hid (or showed) each element of `es`. */
  function Over(v: Visibility, layer: Layer, feature: string, m: map<ElemId, map<string, string>>, es: set<ElemId>)
    : map<ElemId, map<string, string>>
  {
    map e | e in m.Keys + es :: if e in es then Effect(v, layer, feature, Attrs(m, e)) else m[e]
  }

  /** The elements named by a list that may hold nulls. */
  function Present(els: seq<Option<ElemId>>): set<ElemId> {
    set x | x in els && x.Some? :: x.value
  }

  lemma PresentSnoc(els: seq<Option<ElemId>>, i: int)
    requires 0 <= i < |els|
    ensures Present(els[..i + 1]) == Present(els[..i]) + (if els[i].Some? then {els[i].value} else {})
  {
    assert els[..i + 1] == els[..i] + [els[i]];
  }

  lemma EffectIdempotent(v: Visibility, layer: Layer, feature: string, a: map<string, string>)
    ensures Effect(v, layer, feature, Effect(v, layer, feature, a)) == Effect(v, layer, feature, a)
  {
  }

  lemma OverEmpty(v: Visibility, layer: Layer, feature: string, m: map<ElemId, map<string, string>>)
    ensures Over(v, layer, feature, m, {}) == m
  {
  }

  /** Two batches in a row are one batch over their union: hiding (or showing) is idempotent. */
  lemma {:induction false} OverCompose(v: Visibility, layer: Layer, feature: string,
                                       m: map<ElemId, map<string, string>>, s: set<ElemId>, t: set<ElemId>)
    ensures Over(v, layer, feature, Over(v, layer, feature, m, s), t) == Over(v, layer, feature, m, s + t)
  {
    var l := Over(v, layer, feature, Over(v, layer, feature, m, s), t);
    var r := Over(v, layer, feature, m, s + t);
    forall e | e in s * t
      ensures l[e] == r[e]
    {
      EffectIdempotent(v, layer, feature, Attrs(m, e));
    }
    assert l.Keys == r.Keys;
  }

  /** Batches over disjoint element sets commute. */
  lemma {:induction false} OverCommute(v1: Visibility, v2: Visibility, layer: Layer, feature: string,
                                       m: map<ElemId, map<string, string>>, s: set<ElemId>, t: set<ElemId>)
    requires s !! t
    ensures Over(v2, layer, feature, Over(v1, layer, feature, m, s), t)
         == Over(v1, layer, feature, Over(v2, layer, feature, m, t), s)
  {
    var l := Over(v2, layer, feature, Over(v1, layer, feature, m, s), t);
    var r := Over(v1, layer, feature, Over(v2, layer, feature, m, t), s);
    assert l.Keys == r.Keys;
  }

  /** A hidden element carries `data-focustube-<name>=hidden`, the shared attributes and `display: none`. */
  lemma HiddenElementsMarked(feature: string, a: map<ElemId, map<string, string>>,
                             st: map<ElemId, map<string, string>>, es: set<ElemId>, e: ElemId)
    requires e in es
    ensures var h := Over(Hide, AttrLayer, feature, a, es)[e];
      Marker(feature) in h && h[Marker(feature)] == "hidden" && SharedHidingAttrs <= h.Keys
    ensures DisplayNone(Over(Hide, StyleLayer, feature, st, es), e)
  {
  }

  /**
   * Showing an element removes only this feature's marker; another feature's
   * marker stays, but the shared attributes and the inline style go for every
   * feature: an element hidden by two features is visible again after either
   * one shows it.
   */
  lemma {:induction false} ShowScopesOnlyTheMarker(feature: string, other: string, a: map<ElemId, map<string, string>>,
                                                   st: map<ElemId, map<string, string>>, es: set<ElemId>, e: ElemId)
    requires e in es && other != feature && Marker(other) in Attrs(a, e)
    ensures var s := Over(Show, AttrLayer, feature, a, es)[e];
      && Marker(other) in s && s[Marker(other)] == Attrs(a, e)[Marker(other)]
      && Marker(feature) !in s
      && s.Keys !! SharedHidingAttrs
    ensures !DisplayNone(Over(Show, StyleLayer, feature, st, es), e)
  {
    ShowKeepsOtherMarkers(Attrs(a, e), feature, other);
  }

  // ------------------------------------------------------------ hide and show

  /** Hiding or showing one element is the update of that element's entry. */
  lemma {:induction false} OverSingle(v: Visibility, layer: Layer, feature: string,
                                      m: map<ElemId, map<string, string>>, e: ElemId)
    ensures m[e := Effect(v, layer, feature, Attrs(m, e))] == Over(v, layer, feature, m, {e})
  {
    assert m[e := Effect(v, layer, feature, Attrs(m, e))].Keys == Over(v, layer, feature, m, {e}).Keys;
  }

  /** The body of the `forEach` in `hideElements` and `showElements`, for one non-null element. */
  method ApplyToOne(f: Feature, page: Page, v: Visibility, e: ElemId)
    modifies f`targetElements, page`attrs, page`style
    ensures f.targetElements == if v == Hide then old(f.targetElements) + {e} else old(f.targetElements) - {e}
    ensures page.attrs == Over(v, AttrLayer, f.name, old(page.attrs), {e})
    ensures page.style == Over(v, StyleLayer, f.name, old(page.style), {e})
  {
    OverSingle(v, StyleLayer, f.name, page.style, e);
    OverSingle(v, AttrLayer, f.name, page.attrs, e);
    page.style := page.style[e := Effect(v, StyleLayer, f.name, Attrs(page.style, e))];
    page.attrs := page.attrs[e := Effect(v, AttrLayer, f.name, Attrs(page.attrs, e))];
    if v == Hide {
      f.targetElements := f.targetElements + {e};
    } else {
      f.targetElements := f.targetElements - {e};
    }
  }

  /** `hideElements`: skips nulls, hides and tracks every element given. */
  method HideElements(f: Feature, page: Page, els: seq<Option<ElemId>>)
    modifies f`targetElements, page`attrs, page`style
    ensures f.targetElements == old(f.targetElements) + Present(els)
    ensures page.attrs == Over(Hide, AttrLayer, f.name, old(page.attrs), Present(els))
    ensures page.style == Over(Hide, StyleLayer, f.name, old(page.style), Present(els))
  {
    var i := 0;
    ghost var done: set<ElemId> := {};
    OverEmpty(Hide, AttrLayer, f.name, page.attrs);
    OverEmpty(Hide, StyleLayer, f.name, page.style);
    while i < |els|
      invariant 0 <= i <= |els|
      invariant done == Present(els[..i])
      invariant f.targetElements == old(f.targetElements) + done
      invariant page.attrs == Over(Hide, AttrLayer, f.name, old(page.attrs), done)
      invariant page.style == Over(Hide, StyleLayer, f.name, old(page.style), done)
    {
      PresentSnoc(els, i);
      if els[i].Some? {
        var e := els[i].value;
        ApplyToOne(f, page, Hide, e);
        OverCompose(Hide, AttrLayer, f.name, old(page.attrs), done, {e});
        OverCompose(Hide, StyleLayer, f.name, old(page.style), done, {e});
        done := done + {e};
      }
      i := i + 1;
    }
    assert els[..i] == els;
  }

  /** `showElements`: skips nulls, un-hides and untracks every element given. */
  method ShowElements(f: Feature, page: Page, els: seq<Option<ElemId>>)
    modifies f`targetElements, page`attrs, page`style
    ensures f.targetElements == old(f.targetElements) - Present(els)
    ensures page.attrs == Over(Show, AttrLayer, f.name, old(page.attrs), Present(els))
    ensures page.style == Over(Show, StyleLayer, f.name, old(page.style), Present(els))
  {
    var i := 0;
    ghost var done: set<ElemId> := {};
    OverEmpty(Show, AttrLayer, f.name, page.attrs);
    OverEmpty(Show, StyleLayer, f.name, page.style);
    while i < |els|
      invariant 0 <= i <= |els|
      invariant done == Present(els[..i])
      invariant f.targetElements == old(f.targetElements) - done
      invariant page.attrs == Over(Show, AttrLayer, f.name, old(page.attrs), done)
      invariant page.style == Over(Show, StyleLayer, f.name, old(page.style), done)
    {
      PresentSnoc(els, i);
      if els[i].Some? {
        var e := els[i].value;
        ApplyToOne(f, page, Show, e);
        OverCompose(Show, AttrLayer, f.name, old(page.attrs), done, {e});
        OverCompose(Show, StyleLayer, f.name, old(page.style), done, {e});
        done := done + {e};
      }
      i := i + 1;
    }
    assert els[..i] == els;
  }

  /**
   * `hideElements([e])` inside a loop that has so far hidden `done` on top of
   * the attribute map `a0` and the style map `s0`: afterwards it has hidden
   * `done + {e}`.
   */
  method HideOneMore(f: Feature, page: Page, e: ElemId,
                     ghost a0: map<ElemId, map<string, string>>, ghost s0: map<ElemId, map<string, string>>,
                     ghost done: set<ElemId>)
    requires page.attrs == Over(Hide, AttrLayer, f.name, a0, done)
    requires page.style == Over(Hide, StyleLayer, f.name, s0, done)
    modifies f`targetElements, page`attrs, page`style
    ensures f.targetElements == old(f.targetElements) + {e}
    ensures page.attrs == Over(Hide, AttrLayer, f.name, a0, done + {e})
    ensures page.style == Over(Hide, StyleLayer, f.name, s0, done + {e})
  {
    assert Present([Some(e)]) == {e};
    HideElements(f, page, [Some(e)]);
    OverCompose(Hide, AttrLayer, f.name, a0, done, {e});
    OverCompose(Hide, StyleLayer, f.name, s0, done, {e});
  }

  /** Hiding the same elements twice leaves the page and the tracked set as hiding them once. */
  lemma HideTwiceIsHideOnce(feature: string, a: map<ElemId, map<string, string>>,
                            st: map<ElemId, map<string, string>>, tracked: set<ElemId>, els: seq<Option<ElemId>>)
    ensures var p := Present(els);
      && Over(Hide, AttrLayer, feature, Over(Hide, AttrLayer, feature, a, p), p) == Over(Hide, AttrLayer, feature, a, p)
      && Over(Hide, StyleLayer, feature, Over(Hide, StyleLayer, feature, st, p), p) == Over(Hide, StyleLayer, feature, st, p)
      && (tracked + p) + p == tracked + p
  {
    var p := Present(els);
    OverCompose(Hide, AttrLayer, feature, a, p, p);
    OverCompose(Hide, StyleLayer, feature, st, p, p);
    assert p + p == p;
  }

  /** `hideById`: hides the element with that id, if there is one. */
  method HideById(f: Feature, page: Page, tree: Tree, id: string)
    modifies f`targetElements, page`attrs, page`style
    ensures f.targetElements == old(f.targetElements) + Present([tree.GetById(id)])
    ensures page.attrs == Over(Hide, AttrLayer, f.name, old(page.attrs), Present([tree.GetById(id)]))
    ensures page.style == Over(Hide, StyleLayer, f.name, old(page.style), Present([tree.GetById(id)]))
  {
    var el := tree.GetById(id);
    if el.Some? {
      HideElements(f, page, [el]);
    } else {
      assert Present([el]) == {};
      OverEmpty(Hide, AttrLayer, f.name, page.attrs);
      OverEmpty(Hide, StyleLayer, f.name, page.style);
    }
  }

  /** `showById`: shows the element with that id, if there is one. */
  method ShowById(f: Feature, page: Page, tree: Tree, id: string)
    modifies f`targetElements, page`attrs, page`style
    ensures f.targetElements == old(f.targetElements) - Present([tree.GetById(id)])
    ensures page.attrs == Over(Show, AttrLayer, f.name, old(page.attrs), Present([tree.GetById(id)]))
    ensures page.style == Over(Show, StyleLayer, f.name, old(page.style), Present([tree.GetById(id)]))
  {
    var el := tree.GetById(id);
    if el.Some? {
      ShowElements(f, page, [el]);
    } else {
      assert Present([el]) == {};
      OverEmpty(Show, AttrLayer, f.name, page.attrs);
      OverEmpty(Show, StyleLayer, f.name, page.style);
    }
  }

  /** `showAllHiddenElements`: shows exactly the tracked elements and leaves none tracked. */
  method ShowAllHiddenElements(f: Feature, page: Page)
    modifies f`targetElements, page`attrs, page`style
    ensures f.targetElements == {}
    ensures page.attrs == Over(Show, AttrLayer, f.name, old(page.attrs), old(f.targetElements))
    ensures page.style == Over(Show, StyleLayer, f.name, old(page.style), old(f.targetElements))
  {
    var todo := f.targetElements;
    ghost var done: set<ElemId> := {};
    OverEmpty(Show, AttrLayer, f.name, page.attrs);
    OverEmpty(Show, StyleLayer, f.name, page.style);
    while todo != {}
      invariant f.targetElements == todo
      invariant todo + done == old(f.targetElements)
      invariant page.attrs == Over(Show, AttrLayer, f.name, old(page.attrs), done)
      invariant page.style == Over(Show, StyleLayer, f.name, old(page.style), done)
      decreases todo
    {
      var e :| e in todo;
      assert Present([Some(e)]) == {e};
      ShowElements(f, page, [Some(e)]);
      OverCompose(Show, AttrLayer, f.name, old(page.attrs), done, {e});
      OverCompose(Show, StyleLayer, f.name, old(page.style), done, {e});
      todo := todo - {e};
      done := done + {e};
    }
  }

  // ------------------------------------------------------------- observers

  /**
   * `observeDOM`: with no body yet it registers nothing and answers null (the
   * deferred retry on DOMContentLoaded is not modelled); otherwise exactly one new
   * observer is connected and recorded.
   */
  method ObserveDOM(f: Feature, page: Page) returns (r: Option<ObserverId>)
    requires page.Valid()
    modifies f`observers, page`liveObservers, page`nextObserver
    ensures page.Valid()
    ensures !page.hasBody ==>
      && r.None? && f.observers == old(f.observers)
      && page.liveObservers == old(page.liveObservers) && page.nextObserver == old(page.nextObserver)
    ensures page.hasBody ==>
      && r == Some(old(page.nextObserver)) && r.value !in old(page.liveObservers)
      && f.observers == old(f.observers) + [r.value]
      && page.liveObservers == old(page.liveObservers) + {r.value} && page.nextObserver == r.value + 1
  {
    if !page.hasBody {
      return None;
    }
    var o := page.nextObserver;
    page.nextObserver := page.nextObserver + 1;
    page.liveObservers := page.liveObservers + {o};
    f.observers := f.observers + [o];
    r := Some(o);
  }

  /** `disconnectObservers`: every recorded observer is disconnected and the list is emptied. */
  method DisconnectObservers(f: Feature, page: Page)
    requires page.Valid()
    modifies f`observers, page`liveObservers
    ensures page.Valid()
    ensures f.observers == []
    ensures page.liveObservers == old(page.liveObservers) - (set o | o in old(f.observers))
  {
    var i := 0;
    while i < |f.observers|
      invariant 0 <= i <= |f.observers|
      invariant f.observers == old(f.observers)
      invariant page.liveObservers == old(page.liveObservers) - (set o | o in f.observers[..i])
      invariant page.Valid()
    {
      assert f.observers[..i + 1] == f.observers[..i] + [f.observers[i]];
      page.liveObservers := page.liveObservers - {f.observers[i]};
      i := i + 1;
    }
    assert f.observers[..i] == f.observers;
    f.observers := [];
  }

  /** DOMFeature's `onDeactivate`: disconnect, show everything tracked, remove the injected CSS. */
  method OnDeactivate(f: Feature, page: Page)
    requires page.Valid()
    modifies f`observers, f`targetElements, f`styleElements
    modifies page`liveObservers, page`attrs, page`style, page`styleSheets
    ensures page.Valid()
    ensures f.observers == [] && f.targetElements == {} && f.styleElements == map[]
    ensures page.liveObservers == old(page.liveObservers) - (set o | o in old(f.observers))
    ensures page.attrs == Over(Show, AttrLayer, f.name, old(page.attrs), old(f.targetElements))
    ensures page.style == Over(Show, StyleLayer, f.name, old(page.style), old(f.targetElements))
    ensures page.styleSheets == old(page.styleSheets) - (set id | id in old(f.styleElements) :: StyleKey(f.name, id))
  {
    DisconnectObservers(f, page);
    ShowAllHiddenElements(f, page);
    f.RemoveAllCSS(page);
  }

  /**
   * `deactivate` of a DOM feature whose `onDeactivate` is DOMFeature's: the
   * flags are cleared, and, if the feature was active, its cleanup runs.
   */
  method Deactivate(f: Feature, page: Page) returns (r: Outcome)
    requires f.Valid() && page.Valid()
    modifies f`enabled, f`isActive, f`hookLog, f`observers, f`targetElements, f`styleElements
    modifies page`liveObservers, page`attrs, page`style, page`styleSheets
    ensures f.Valid() && page.Valid()
    ensures f.Status() == DeactivateStep(old(f.Status()), Completed).after && r == Completed
    ensures f.hookLog == old(f.hookLog) + DeactivateStep(old(f.Status()), Completed).calls
    ensures old(f.isActive) ==>
      && f.observers == [] && f.targetElements == {} && f.styleElements == map[]
      && page.attrs == Over(Show, AttrLayer, f.name, old(page.attrs), old(f.targetElements))
      && page.style == Over(Show, StyleLayer, f.name, old(page.style), old(f.targetElements))
      && page.liveObservers == old(page.liveObservers) - (set o | o in old(f.observers))
      && page.styleSheets == old(page.styleSheets) - (set id | id in old(f.styleElements) :: StyleKey(f.name, id))
    ensures !old(f.isActive) ==>
      && f.observers == old(f.observers) && f.targetElements == old(f.targetElements)
      && f.styleElements == old(f.styleElements) && page.attrs == old(page.attrs) && page.style == old(page.style)
      && page.liveObservers == old(page.liveObservers) && page.styleSheets == old(page.styleSheets)
  {
    var wasActive := f.isActive;
    r := f.Deactivate(Completed);
    if wasActive {
      OnDeactivate(f, page);
    }
  }

  // ------------------------------------------------------------ text search

  /**
   * What `elementContainsText` can see of an element: its `textContent` (absent
   * when null), the text nodes a TreeWalker visits, and the text nodes of its
   * shadow roots. The traversal itself is not modelled.
   */
  datatype TextView = TextView(textContent: Option<string>, lightText: seq<string>, shadowText: seq<string>)

  function Normalize(s: string, caseSensitive: bool): string {
    if caseSensitive then s else Lower(s)
  }

  /** The texts searched, in the order the source searches them. */
  function SearchedTexts(v: TextView, includeShadowDOM: bool): seq<string> {
    (if v.textContent.Some? then [v.textContent.value] else []) + v.lightText
    + (if includeShadowDOM then v.shadowText else [])
  }

  /** `elementContainsText(element, searchText, {caseSensitive, includeShadowDOM})`. */
  function ElementContainsText(el: Option<TextView>, search: string, caseSensitive: bool, includeShadowDOM: bool)
    : (r: bool)
    ensures el.None? ==> !r
    ensures el.Some? ==> (r <==> exists t :: (t in SearchedTexts(el.value, includeShadowDOM)
                                             && Includes(Normalize(t, caseSensitive), Normalize(search, caseSensitive))))
  {
    if el.None? then false
    else AnyIncludes(SearchedTexts(el.value, includeShadowDOM), search, caseSensitive)
  }

  function AnyIncludes(texts: seq<string>, search: string, caseSensitive: bool): (r: bool)
    ensures r <==> exists t :: t in texts && Includes(Normalize(t, caseSensitive), Normalize(search, caseSensitive))
  {
    if texts == [] then false
    else (Includes(Normalize(texts[0], caseSensitive), Normalize(search, caseSensitive))
          || AnyIncludes(texts[1..], search, caseSensitive))
  }

  /** With the default options the search ignores the ASCII case of the searched text. */
  lemma ElementContainsTextIgnoresCase(el: Option<TextView>, search: string)
    ensures ElementContainsText(el, search, false, true) == ElementContainsText(el, Lower(search), false, true)
  {
    assert Lower(Lower(search)) == Lower(search);
  }
}
