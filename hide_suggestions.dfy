/**
 * Hiding video suggestions (src/features/HideSuggestionsFeature.js): the
 * `related` block everywhere, and on watch pages every child of the `secondary`
 * panel except the comments and the live chat.
 */
module HideSuggestions {
  import opened Common
  import opened Document
  import opened Features
  import opened DomFeatures

  const Name: string := "hideSuggestions"

  function DefaultConfig(): map<string, Json> {
    map["defaultEnabled" := JBool(true), "preserveComments" := JBool(true)]
  }

  /** The constructor: enabled by default. */
  method New() returns (f: Feature)
    ensures fresh(f) && f.Valid()
    ensures f.name == Name && f.kind == Suggestions && f.config == DefaultConfig()
    ensures f.enabled && !f.isActive && !f.initialized && f.targetElements == {}
  {
    f := new Feature(Name, Suggestions, DefaultConfig());
  }

  /** `isWatchPage`. */
  predicate IsWatchPage(pathname: string) {
    Includes(pathname, "/watch")
  }

  /** The two kinds of secondary-panel children the loop leaves visible. */
  predicate Preserved(tag: string) {
    tag == "ytd-comments" || tag == "ytd-live-chat-frame"
  }

  /** The children the loop keeps visible, among the first ones given. */
  function KeptChildren(tree: Tree, children: seq<ElemId>): set<ElemId> {
    set c | c in children && Preserved(tree.TagOf(c))
  }

  /** The children the loop hides, among the first ones given. */
  function OtherChildren(tree: Tree, children: seq<ElemId>): set<ElemId> {
    set c | c in children && !Preserved(tree.TagOf(c))
  }

  lemma ChildrenSnoc(tree: Tree, children: seq<ElemId>, i: int)
    requires 0 <= i < |children|
    ensures Preserved(tree.TagOf(children[i])) ==>
      && KeptChildren(tree, children[..i + 1]) == KeptChildren(tree, children[..i]) + {children[i]}
      && OtherChildren(tree, children[..i + 1]) == OtherChildren(tree, children[..i])
    ensures !Preserved(tree.TagOf(children[i])) ==>
      && KeptChildren(tree, children[..i + 1]) == KeptChildren(tree, children[..i])
      && OtherChildren(tree, children[..i + 1]) == OtherChildren(tree, children[..i]) + {children[i]}
  {
    assert children[..i + 1] == children[..i] + [children[i]];
  }

  /** The shown set after one more kept child: it grows exactly when the child is still tracked. */
  lemma KeptStep(kept: set<ElemId>, child: ElemId, targets: set<ElemId>, shown: set<ElemId>,
                 hidden: set<ElemId>, current: set<ElemId>)
    requires shown == kept * targets && current == (targets - shown) + hidden && child !in hidden
    ensures child in current ==> shown + {child} == (kept + {child}) * targets
    ensures child !in current ==> shown == (kept + {child}) * targets
  {
  }

  /**
   * A comments or chat child the feature had not tracked is left exactly as it
   * was: the loop's batches never touch it.
   */
  lemma {:induction false} UntrackedKeptUntouched(tree: Tree, children: seq<ElemId>, feature: string,
                                                  targets: set<ElemId>, m: map<ElemId, map<string, string>>,
                                                  e: ElemId, layer: Layer)
    requires e in children && Preserved(tree.TagOf(e)) && e !in targets
    ensures var r := Over(Hide, layer, feature, Over(Show, layer, feature, m, KeptChildren(tree, children) * targets),
                          OtherChildren(tree, children));
      (e in r <==> e in m) && (e in m ==> r[e] == m[e])
  {
    assert e !in OtherChildren(tree, children);
  }

  /**
   * `showElements([e])` for a kept child inside the loop, whose page so far is
   * the shown set `shown` and then the hidden set `hidden` applied to `a0`/`s0`.
   */
  method ShowOneKept(f: Feature, page: Page, e: ElemId,
                     ghost a0: map<ElemId, map<string, string>>, ghost s0: map<ElemId, map<string, string>>,
                     ghost shown: set<ElemId>, ghost hidden: set<ElemId>)
    requires e !in hidden
    requires page.attrs == Over(Hide, AttrLayer, f.name, Over(Show, AttrLayer, f.name, a0, shown), hidden)
    requires page.style == Over(Hide, StyleLayer, f.name, Over(Show, StyleLayer, f.name, s0, shown), hidden)
    modifies f`targetElements, page`attrs, page`style
    ensures f.targetElements == old(f.targetElements) - {e}
    ensures page.attrs == Over(Hide, AttrLayer, f.name, Over(Show, AttrLayer, f.name, a0, shown + {e}), hidden)
    ensures page.style == Over(Hide, StyleLayer, f.name, Over(Show, StyleLayer, f.name, s0, shown + {e}), hidden)
  {
    assert Present([Some(e)]) == {e};
    ShowElements(f, page, [Some(e)]);
    OverCommute(Show, Hide, AttrLayer, f.name, Over(Show, AttrLayer, f.name, a0, shown), {e}, hidden);
    OverCommute(Show, Hide, StyleLayer, f.name, Over(Show, StyleLayer, f.name, s0, shown), {e}, hidden);
    OverCompose(Show, AttrLayer, f.name, a0, shown, {e});
    OverCompose(Show, StyleLayer, f.name, s0, shown, {e});
  }

  /**
   * The loop of `hideSecondaryContent` over the children of the secondary
   * panel: every child other than comments and live chat is hidden and
   * tracked; a comments or chat child is shown and untracked if this feature
   * had tracked it, and left alone otherwise.
   */
  method HideSecondaryChildren(f: Feature, page: Page, tree: Tree, children: seq<ElemId>)
    modifies f`targetElements, page`attrs, page`style
    ensures var shown := KeptChildren(tree, children) * old(f.targetElements);
      var hidden := OtherChildren(tree, children);
      && f.targetElements == (old(f.targetElements) - shown) + hidden
      && page.attrs == Over(Hide, AttrLayer, f.name, Over(Show, AttrLayer, f.name, old(page.attrs), shown), hidden)
      && page.style == Over(Hide, StyleLayer, f.name, Over(Show, StyleLayer, f.name, old(page.style), shown), hidden)
  {
    ghost var shown: set<ElemId> := {};
    ghost var hidden: set<ElemId> := {};
    OverEmpty(Show, AttrLayer, f.name, page.attrs);
    OverEmpty(Show, StyleLayer, f.name, page.style);
    OverEmpty(Hide, AttrLayer, f.name, page.attrs);
    OverEmpty(Hide, StyleLayer, f.name, page.style);
    var i := 0;
    while i < |children|
      invariant 0 <= i <= |children|
      invariant shown == KeptChildren(tree, children[..i]) * old(f.targetElements)
      invariant hidden == OtherChildren(tree, children[..i])
      invariant f.targetElements == (old(f.targetElements) - shown) + hidden
      invariant page.attrs == Over(Hide, AttrLayer, f.name, Over(Show, AttrLayer, f.name, old(page.attrs), shown), hidden)
      invariant page.style == Over(Hide, StyleLayer, f.name, Over(Show, StyleLayer, f.name, old(page.style), shown), hidden)
    {
      ChildrenSnoc(tree, children, i);
      var child := children[i];
      var tagName := tree.TagOf(child);
      if tagName == "ytd-comments" || tagName == "ytd-live-chat-frame" {
        assert child !in hidden;
        KeptStep(KeptChildren(tree, children[..i]), child, old(f.targetElements), shown, hidden, f.targetElements);
        if child in f.targetElements {
          ShowOneKept(f, page, child, old(page.attrs), old(page.style), shown, hidden);
          shown := shown + {child};
        }
      } else {
        HideOneMore(f, page, child, Over(Show, AttrLayer, f.name, old(page.attrs), shown),
                    Over(Show, StyleLayer, f.name, old(page.style), shown), hidden);
        hidden := hidden + {child};
      }
      i := i + 1;
    }
    assert children[..i] == children;
  }

  /**
   * `hideSecondaryContent`: nothing without a `secondary` element; otherwise the
   * loop over its children, then the watch-next renderer inside it (`watchNext`,
   * the answer of `querySelector`) is hidden if present.
   */
  method HideSecondaryContent(f: Feature, page: Page, tree: Tree, watchNext: Option<ElemId>)
    modifies f`targetElements, page`attrs, page`style
    ensures tree.GetById("secondary").None? ==>
      && f.targetElements == old(f.targetElements) && page.attrs == old(page.attrs) && page.style == old(page.style)
    ensures tree.GetById("secondary").Some? ==>
      var children := tree.ChildrenOf(tree.GetById("secondary").value);
      var shown := KeptChildren(tree, children) * old(f.targetElements);
      var hidden := OtherChildren(tree, children) + Present([watchNext]);
      && f.targetElements == (old(f.targetElements) - shown) + hidden
      && page.attrs == Over(Hide, AttrLayer, f.name, Over(Show, AttrLayer, f.name, old(page.attrs), shown), hidden)
      && page.style == Over(Hide, StyleLayer, f.name, Over(Show, StyleLayer, f.name, old(page.style), shown), hidden)
  {
    var secondary := tree.GetById("secondary");
    if secondary.Some? {
      var children := tree.ChildrenOf(secondary.value);
      ghost var shown := KeptChildren(tree, children) * old(f.targetElements);
      ghost var others := OtherChildren(tree, children);
      ghost var a1 := Over(Show, AttrLayer, f.name, old(page.attrs), shown);
      ghost var s1 := Over(Show, StyleLayer, f.name, old(page.style), shown);
      HideSecondaryChildren(f, page, tree, children);
      assert page.attrs == Over(Hide, AttrLayer, f.name, a1, others);
      assert page.style == Over(Hide, StyleLayer, f.name, s1, others);
      HideElementsAfter(f, page, [watchNext], a1, s1, others);
    }
  }

  /** `hideElements(els)` after a batch `done` was hidden on top of `a0`/`s0`: one batch over both. */
  method HideElementsAfter(f: Feature, page: Page, els: seq<Option<ElemId>>,
                           ghost a0: map<ElemId, map<string, string>>, ghost s0: map<ElemId, map<string, string>>,
                           ghost done: set<ElemId>)
    requires page.attrs == Over(Hide, AttrLayer, f.name, a0, done)
    requires page.style == Over(Hide, StyleLayer, f.name, s0, done)
    modifies f`targetElements, page`attrs, page`style
    ensures f.targetElements == old(f.targetElements) + Present(els)
    ensures page.attrs == Over(Hide, AttrLayer, f.name, a0, done + Present(els))
    ensures page.style == Over(Hide, StyleLayer, f.name, s0, done + Present(els))
  {
    HideElements(f, page, els);
    OverCompose(Hide, AttrLayer, f.name, a0, done, Present(els));
    OverCompose(Hide, StyleLayer, f.name, s0, done, Present(els));
  }

  /** Whether `hideSuggestions` goes on to the secondary panel: a watch page that has one. */
  predicate ProcessesSecondary(tree: Tree) {
    IsWatchPage(tree.pathname) && tree.GetById("secondary").Some?
  }

  /** The elements tracked after `hideSuggestions`, from those tracked before (`t`). */
  function SuggestionsTargets(tree: Tree, watchNext: Option<ElemId>, t: set<ElemId>): set<ElemId> {
    var related := Present([tree.GetById("related")]);
    if !ProcessesSecondary(tree) then t + related
    else
      var children := tree.ChildrenOf(tree.GetById("secondary").value);
      var shown := KeptChildren(tree, children) * (t + related);
      ((t + related) - shown) + (OtherChildren(tree, children) + Present([watchNext]))
  }

  /** One layer of the page after `hideSuggestions`, from the layer `m` and the tracked set `t` before. */
  function SuggestionsLayer(layer: Layer, feature: string, tree: Tree, watchNext: Option<ElemId>,
                            t: set<ElemId>, m: map<ElemId, map<string, string>>): map<ElemId, map<string, string>> {
    var related := Present([tree.GetById("related")]);
    var afterRelated := Over(Hide, layer, feature, m, related);
    if !ProcessesSecondary(tree) then afterRelated
    else
      var children := tree.ChildrenOf(tree.GetById("secondary").value);
      var shown := KeptChildren(tree, children) * (t + related);
      Over(Hide, layer, feature, Over(Show, layer, feature, afterRelated, shown),
           OtherChildren(tree, children) + Present([watchNext]))
  }

  /**
   * What `hideSuggestions` leaves tracked: `related` always; on a watch page with a
   * secondary panel every other child and the watch-next renderer, and no comments
   * or chat child unless it is the watch-next renderer itself.
   */
  lemma {:induction false} SuggestionsTracked(tree: Tree, watchNext: Option<ElemId>, t: set<ElemId>)
    ensures !ProcessesSecondary(tree) ==> SuggestionsTargets(tree, watchNext, t) == t + Present([tree.GetById("related")])
    ensures ProcessesSecondary(tree) ==>
      var children := tree.ChildrenOf(tree.GetById("secondary").value);
      var r := SuggestionsTargets(tree, watchNext, t);
      && OtherChildren(tree, children) + Present([watchNext]) <= r
      && forall c :: c in KeptChildren(tree, children) && c !in Present([watchNext]) ==> c !in r
  {
    if ProcessesSecondary(tree) {
      var children := tree.ChildrenOf(tree.GetById("secondary").value);
      forall c | c in KeptChildren(tree, children) && c !in Present([watchNext])
        ensures c !in SuggestionsTargets(tree, watchNext, t)
      {
        assert c !in OtherChildren(tree, children);
      }
    }
  }

  /**
   * `hideSuggestions`: hides `related`, then, on a watch page only, the
   * secondary panel's content.
   */
  method HideSuggestions(f: Feature, page: Page, tree: Tree, watchNext: Option<ElemId>)
    modifies f`targetElements, page`attrs, page`style
    ensures f.targetElements == SuggestionsTargets(tree, watchNext, old(f.targetElements))
    ensures page.attrs == SuggestionsLayer(AttrLayer, f.name, tree, watchNext, old(f.targetElements), old(page.attrs))
    ensures page.style == SuggestionsLayer(StyleLayer, f.name, tree, watchNext, old(f.targetElements), old(page.style))
  {
    HideById(f, page, tree, "related");
    if IsWatchPage(tree.pathname) {
      HideSecondaryContent(f, page, tree, watchNext);
    }
  }

  /** The feature's `onActivate`: hide suggestions, then observe the page. */
  method OnActivate(f: Feature, page: Page, tree: Tree, watchNext: Option<ElemId>)
    requires page.Valid()
    modifies f`targetElements, f`observers, page`attrs, page`style, page`liveObservers, page`nextObserver
    ensures page.Valid()
    ensures f.targetElements == SuggestionsTargets(tree, watchNext, old(f.targetElements))
    ensures page.attrs == SuggestionsLayer(AttrLayer, f.name, tree, watchNext, old(f.targetElements), old(page.attrs))
    ensures page.style == SuggestionsLayer(StyleLayer, f.name, tree, watchNext, old(f.targetElements), old(page.style))
    ensures page.hasBody ==>
      && f.observers == old(f.observers) + [old(page.nextObserver)] && old(page.nextObserver) !in old(page.liveObservers)
      && page.liveObservers == old(page.liveObservers) + {old(page.nextObserver)}
      && page.nextObserver == old(page.nextObserver) + 1
    ensures !page.hasBody ==>
      f.observers == old(f.observers) && page.liveObservers == old(page.liveObservers)
      && page.nextObserver == old(page.nextObserver)
  {
    HideSuggestions(f, page, tree, watchNext);
    var _ := ObserveDOM(f, page);
  }
}
