/**
 * The page the features work on. Elements are abstract ids; what the features
 * change on them is a map of attributes and a map of inline style properties per
 * element. The page also holds the <style> nodes injected into its head and the
 * set of mutation observers that are still connected. The static structure the
 * features only read (ids, tag names, children, the location path) is a value.
 */
module Document {
  import opened Common

  type ElemId = nat
  type ObserverId = nat

  /** A <style> node injected by feature `feature` under the id `cssId`. */
  datatype StyleKey = StyleKey(feature: string, cssId: string)

  /** What `document.getElementById`, `tagName`, `children` and `location.pathname` answer. */
  datatype Tree = Tree(
    byId: map<string, ElemId>,
    tag: map<ElemId, string>,
    children: map<ElemId, seq<ElemId>>,
    pathname: string)
  {
    function GetById(id: string): Option<ElemId> {
      if id in byId then Some(byId[id]) else None
    }

    /** `element.tagName.toLowerCase()`; an element with no recorded tag reads as "". */
    function TagOf(e: ElemId): string {
      if e in tag then Lower(tag[e]) else ""
    }

    function ChildrenOf(e: ElemId): seq<ElemId> {
      if e in children then children[e] else []
    }
  }

  /** A channel link inside a video item: its `href` and its text content. */
  datatype Link = Link(href: string, text: string)

  /**
   * What the filters read from one `ytd-rich-item-renderer`: the element, the text
   * content of its title element (`h3 a span`) if it has one, and its channel link
   * if it has one.
   */
  datatype VideoItem = VideoItem(elem: ElemId, titleText: Option<string>, channelLink: Option<Link>)

  /** The two per-element maps hiding and showing change: attributes and inline style. */
  datatype Layers = Layers(attrs: map<ElemId, map<string, string>>, style: map<ElemId, map<string, string>>)

  /**
   * The page's observer and stylesheet bookkeeping as a value: the connected
   * observers, the id the next observer gets, the injected <style> nodes, and
   * whether `document.body` exists.
   */
  datatype Wiring = Wiring(live: set<ObserverId>, next: ObserverId, sheets: map<StyleKey, string>, body: bool)

  class Page {
    var attrs: map<ElemId, map<string, string>>
    var style: map<ElemId, map<string, string>>
    var styleSheets: map<StyleKey, string>
    var liveObservers: set<ObserverId>
    var nextObserver: ObserverId
    /** Whether `document.body` exists yet. */
    var hasBody: bool

    ghost predicate Valid()
      reads this
    {
      forall o :: o in liveObservers ==> o < nextObserver
    }

    function Now(): Layers
      reads this`attrs, this`style
    {
      Layers(attrs, style)
    }

    function Wires(): Wiring
      reads this`liveObservers, this`nextObserver, this`styleSheets, this`hasBody
    {
      Wiring(liveObservers, nextObserver, styleSheets, hasBody)
    }

    constructor (hasBody: bool)
      ensures Valid()
      ensures attrs == map[] && style == map[] && styleSheets == map[]
      ensures liveObservers == {} && this.hasBody == hasBody
    {
      attrs, style, styleSheets := map[], map[], map[];
      liveObservers, nextObserver := {}, 0;
      this.hasBody := hasBody;
    }
  }

  /** The attribute a feature puts on every element it hides. */
  function Marker(feature: string): string {
    "data-focustube-" + feature
  }

  lemma MarkerInjective(a: string, b: string)
    requires Marker(a) == Marker(b)
    ensures a == b
  {
    var p := "data-focustube-";
    assert a == Marker(a)[|p|..] && b == Marker(b)[|p|..];
  }

  /** The three attributes every hiding feature shares. */
  const SharedHidingAttrs: set<string> := {"hidden", "aria-hidden", "inert"}

  /** The six inline style properties a hiding feature sets. */
  const HidingProps: set<string> := {"display", "visibility", "width", "max-width", "min-width", "opacity"}

  function Attrs(m: map<ElemId, map<string, string>>, e: ElemId): map<string, string> {
    if e in m then m[e] else map[]
  }

  /** Attributes of an element after `hideElements` of feature `feature`. */
  function HiddenAttrs(a: map<string, string>, feature: string): map<string, string> {
    a["hidden" := "true"]["aria-hidden" := "true"]["inert" := "true"][Marker(feature) := "hidden"]
  }

  /** Attributes of an element after `showElements` of feature `feature`. */
  function ShownAttrs(a: map<string, string>, feature: string): map<string, string> {
    a - SharedHidingAttrs - {Marker(feature)}
  }

  function HiddenStyle(s: map<string, string>): map<string, string> {
    s["display" := "none"]["visibility" := "hidden"]["width" := "0"]
     ["max-width" := "0"]["min-width" := "0"]["opacity" := "0"]
  }

  function ShownStyle(s: map<string, string>): map<string, string> {
    s - HidingProps
  }

  /** An element is visibly hidden when its inline display is none. */
  predicate DisplayNone(style: map<ElemId, map<string, string>>, e: ElemId) {
    var s := Attrs(style, e);
    "display" in s && s["display"] == "none"
  }

  /** Hiding is idempotent on an element's attributes and style. */
  lemma HideIdempotent(a: map<string, string>, s: map<string, string>, feature: string)
    ensures HiddenAttrs(HiddenAttrs(a, feature), feature) == HiddenAttrs(a, feature)
    ensures HiddenStyle(HiddenStyle(s)) == HiddenStyle(s)
  {
  }

  /** Showing removes this feature's marker and no other feature's marker. */
  lemma {:induction false} ShowKeepsOtherMarkers(a: map<string, string>, feature: string, other: string)
    requires other != feature && Marker(other) in a
    ensures Marker(other) in ShownAttrs(a, feature)
    ensures ShownAttrs(a, feature)[Marker(other)] == a[Marker(other)]
    ensures Marker(feature) !in ShownAttrs(a, feature)
  {
    if Marker(other) == Marker(feature) { MarkerInjective(other, feature); }
    assert Marker(other)[0] == 'd';
    assert Marker(other) !in SharedHidingAttrs;
  }
}
