/**
 * The page as the detector sees it: elements with the properties it reads,
 * linked to their parents by node ids, plus the document-level values it
 * consults (title, body text, meta tags, JSON-LD blocks).  CSS selector
 * matching is a browser feature and is given as an oracle (`Engine`).
 */
module Dom {
  import opened Wrappers
  import opened Text

  type NodeId = nat

  /** One element, reduced to what the detector reads from it. */
  datatype Element = Element(
    tag: string,
    className: string,
    id: string,
    attributes: map<string, string>,
    text: string,            // textContent
    value: string,           // the `value` property of a form control, "" for other elements
    src: string,             // the resolved `src` property of an image, "" for other elements
    parent: Option<NodeId>,  // parentElement
    visible: bool,           // offsetParent !== null
    fontSize: int,           // computed font-size, in whole pixels
    bold: bool)              // computed font-weight is "bold" or parses to at least 600

  /** `e.getAttribute(name) || ""`. */
  function Attribute(e: Element, name: string): string {
    if name in e.attributes then e.attributes[name] else ""
  }

  type Tree = map<NodeId, Element>

  /** Every parent link leads to an element of the tree. */
  predicate WellFormed(t: Tree) {
    forall n :: n in t && t[n].parent.Some? ==> t[n].parent.value in t
  }

  /** The `k`-th ancestor of `n` (`n` itself for `k == 0`), if the chain is that long. */
  function Ancestor(t: Tree, n: NodeId, k: nat): (r: Option<NodeId>)
    requires WellFormed(t) && n in t
    ensures r.Some? ==> r.value in t
    ensures k == 0 ==> r == Some(n)
    decreases k
  {
    if k == 0 then Some(n)
    else match t[n].parent
      case None => None
      case Some(p) => Ancestor(t, p, k - 1)
  }

  /**
   * The selector engine: `matches(e, s)` is `e.matches(s)` and
   * `queryAll(c, s)` is `c.querySelectorAll(s)` in document order.  A
   * selector the engine rejects behaves as one that matches nothing, which is
   * what the detector's `try`/`catch` around each selector amounts to.
   */
  datatype Engine = Engine(
    matches: (Element, string) -> bool,
    queryAll: (NodeId, string) -> seq<Element>)

  /** `c.querySelector(s)`: the first element in document order. */
  function QueryFirst(engine: Engine, c: NodeId, selector: string): (r: Option<Element>)
    ensures r.None? <==> engine.queryAll(c, selector) == []
    ensures r.Some? ==> r.value == engine.queryAll(c, selector)[0]
  {
    var all := engine.queryAll(c, selector);
    if all == [] then None else Some(all[0])
  }

  /**
   * One offer of a JSON-LD product: each field is `String(v)` of its value
   * when that value is truthy (a non-empty string), and "" when it is absent
   * or falsy.
   */
  datatype Offer = Offer(price: string, priceCurrency: string)

  datatype Offers = SingleOffer(offer: Offer) | OfferArray(items: seq<Offer>)

  /** A parsed `application/ld+json` block: whether `@type` is "Product", and its truthy `offers`. */
  datatype StructuredData = StructuredData(isProduct: bool, offers: Option<Offers>)

  /** The document-level values the detector reads. */
  datatype Page = Page(
    tree: Tree,
    url: string,                            // location.href
    hostname: string,                       // location.hostname
    title: string,                          // document.title
    bodyText: string,                       // document.body.textContent
    ogTitle: string,                        // content of meta[property="og:title"], "" if none
    ogImage: string,                        // content of meta[property="og:image"], "" if none
    metaPriceAmount: string,                // content of meta[property="product:price:amount"], "" if none
    metaPriceCurrency: string,              // content of meta[property="product:price:currency"], "" if none
    ldJson: seq<Option<StructuredData>>)    // every ld+json block; None where JSON.parse throws
}
