/**
 * The action classifier (`isAddToCartButton`) and the container locator
 * (`isProductContainer` and the parent walk of `extractProductInfo`).
 */
module Classifier {
  import opened Wrappers
  import opened Text
  import opened Dom
  import opened Catalog

  /** Some catalog selector matches the element. */
  predicate SelectorHit(e: Element, matches: (Element, string) -> bool) {
    exists i :: 0 <= i < |ButtonSelectors| && matches(e, ButtonSelectors[i])
  }

  /** Lower-cased text, aria-label and title, joined by single spaces. */
  function CombinedText(e: Element): string {
    Lower(e.text) + " " + Lower(Attribute(e, "aria-label")) + " " + Lower(Attribute(e, "title"))
  }

  /** Some catalog keyword occurs in the combined text. */
  predicate KeywordHit(e: Element) {
    exists k :: 0 <= k < |CartKeywords| && Contains(CombinedText(e), CartKeywords[k])
  }

  /** What the classifier decides: an element, and a selector match or a keyword in its text. */
  predicate IsActionElement(element: Option<Element>, matches: (Element, string) -> bool) {
    element.Some? && (SelectorHit(element.value, matches) || KeywordHit(element.value))
  }

  /**
   * `isAddToCartButton`: no element is never a button; any selector match
   * decides true at once, whatever the text; otherwise the answer is whether
   * some keyword occurs in the combined text.
   */
  method IsAddToCartButton(element: Option<Element>, matches: (Element, string) -> bool) returns (r: bool)
    ensures element.None? ==> !r
    ensures element.Some? && SelectorHit(element.value, matches) ==> r
    ensures element.Some? && !SelectorHit(element.value, matches) ==> (r <==> KeywordHit(element.value))
    ensures r == IsActionElement(element, matches)
  {
    hide KeywordHit;
    if element.None? {
      return false;
    }
    var e := element.value;
    for i := 0 to |ButtonSelectors|
      invariant forall j :: 0 <= j < i ==> !matches(e, ButtonSelectors[j])
    {
      if matches(e, ButtonSelectors[i]) {
        return true;
      }
    }
    r := KeywordHit(e);
  }

  /** `isProductContainer`: the lower-cased class name or id contains a container keyword. */
  predicate IsProductContainer(e: Element) {
    exists k :: 0 <= k < |ContainerKeywords| &&
      (Contains(Lower(e.className), ContainerKeywords[k]) || Contains(Lower(e.id), ContainerKeywords[k]))
  }

  /** The parent walk: at most `steps` moves up, stopping on the first container reached. */
  function Walk(t: Tree, n: NodeId, steps: nat): (r: NodeId)
    requires WellFormed(t) && n in t
    ensures r in t
    decreases steps
  {
    if steps == 0 then n
    else match t[n].parent
      case None => n
      case Some(p) => if IsProductContainer(t[p]) then p else Walk(t, p, steps - 1)
  }

  const MaxContainerDepth: nat := 10

  /** The container `extractProductInfo` settles on for a clicked element. */
  function ContainerOf(t: Tree, clicked: NodeId): NodeId
    requires WellFormed(t) && clicked in t
  {
    Walk(t, clicked, MaxContainerDepth)
  }

  /**
   * The walk ends on the `k`-th ancestor `r`: every ancestor strictly between
   * the element and `r` exists and is no container, and the walk had to stop
   * there (the step budget is used up, there is no parent, or `r` is a
   * container reached by at least one step).
   */
  ghost predicate StopsAt(t: Tree, n: NodeId, steps: nat, k: nat, r: NodeId)
    requires WellFormed(t) && n in t
  {
    && k <= steps
    && Ancestor(t, n, k) == Some(r)
    && (forall j :: 1 <= j < k ==> Ancestor(t, n, j).Some? && !IsProductContainer(t[Ancestor(t, n, j).value]))
    && (k == steps || t[r].parent.None? || (k >= 1 && IsProductContainer(t[r])))
  }

  /** The walk never tests the clicked element, moves up at most `steps` times and stops on the first container. */
  lemma {:induction false} WalkStops(t: Tree, n: NodeId, steps: nat)
    requires WellFormed(t) && n in t
    ensures exists k: nat :: StopsAt(t, n, steps, k, Walk(t, n, steps))
    decreases steps
  {
    var r := Walk(t, n, steps);
    if steps == 0 || t[n].parent.None? {
      assert StopsAt(t, n, steps, 0, r);
    } else {
      var p := t[n].parent.value;
      assert Ancestor(t, n, 1) == Some(p) by {
        assert Ancestor(t, p, 0) == Some(p);
      }
      if IsProductContainer(t[p]) {
        assert StopsAt(t, n, steps, 1, r);
      } else {
        WalkStops(t, p, steps - 1);
        var k: nat :| StopsAt(t, p, steps - 1, k, r);
        forall j | 1 <= j < k + 1
          ensures Ancestor(t, n, j).Some? && !IsProductContainer(t[Ancestor(t, n, j).value])
        {
          assert Ancestor(t, n, j) == Ancestor(t, p, j - 1);
        }
        assert Ancestor(t, n, k + 1) == Ancestor(t, p, k);
        assert StopsAt(t, n, steps, k + 1, r);
      }
    }
  }

  /** The loop of `extractProductInfo` that walks up from the clicked element. */
  method LocateContainer(t: Tree, clicked: NodeId) returns (container: NodeId)
    requires WellFormed(t) && clicked in t
    ensures container in t
    ensures container == ContainerOf(t, clicked)
  {
    container := clicked;
    for i := 0 to MaxContainerDepth
      invariant container in t
      invariant Walk(t, container, MaxContainerDepth - i) == ContainerOf(t, clicked)
    {
      if t[container].parent.None? {
        break;
      }
      container := t[container].parent.value;
      if IsProductContainer(t[container]) {
        break;
      }
    }
  }
}
