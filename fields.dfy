/**
 * The tiered field extractors `extractTitle`, `extractImage` and
 * `extractQuantity`: an ordered selector list tried against the container,
 * the first accepted value winning, then page-level fallbacks, then a
 * sentinel.
 */
module Fields {
  import opened Wrappers
  import opened Text
  import opened Dom
  import opened Catalog
  import opened Tiers

  const UnknownProduct: string := "Unknown Product"

  // ---------------------------------------------------------------- title

  /**
   * What the selector tier makes of one `querySelector` result: its trimmed
   * text with whitespace runs collapsed, kept only when 6 to 299 UTF-16 code
   * units long.
   */
  function TitleCandidate(found: Option<Element>): (r: Option<string>)
    ensures found.None? ==> r.None?
    ensures r.Some? ==> Normalized(r.value) && 6 <= Length(r.value) <= 299
  {
    match found
    case None => None
    case Some(e) =>
      var text := Trim(e.text);
      if text == "" then None
      else
        var title := Trim(CollapseSpaces(text));
        CollapseSpacesSpacing(text);
        TrimSingleSpacesIsNormalized(CollapseSpaces(text));
        if 5 < Length(title) < 300 then Some(title) else None
  }

  function TitleProbe(engine: Engine, container: NodeId): string -> Option<string> {
    selector => TitleCandidate(QueryFirst(engine, container, selector))
  }

  function TitleCandidates(engine: Engine, container: NodeId): seq<Option<string>> {
    Candidates(TitleSelectors, TitleProbe(engine, container))
  }

  /** `document.title.split("|")[0].split("-")[0].trim()`. */
  function PageTitleSegment(title: string): (r: string)
    ensures '|' !in r && '-' !in r
  {
    var seg := Before(Before(title, '|'), '-');
    TrimFacts(seg);
    TrimEnd(TrimStart(seg))
  }

  /** The fallbacks after the selector tier: og:title (trimmed), the page title's first segment, the sentinel. */
  function TitleFallback(page: Page): string {
    var og := Trim(page.ogTitle);
    if og != "" then og
    else
      var seg := PageTitleSegment(page.title);
      if |seg| > 0 then seg else UnknownProduct
  }

  /** The title `extractTitle` returns. */
  function Title(engine: Engine, page: Page, container: NodeId): string {
    match FirstSome(TitleCandidates(engine, container))
    case Some(t) => t
    case None => TitleFallback(page)
  }

  method ExtractTitle(engine: Engine, page: Page, container: NodeId) returns (title: string)
    ensures title == Title(engine, page, container)
  {
    var found := FirstAccepted(TitleSelectors, TitleProbe(engine, container));
    if found.Some? {
      return found.value;
    }
    var og := Trim(page.ogTitle);
    if og != "" {
      return og;
    }
    var segment := PageTitleSegment(page.title);
    title := if |segment| > 0 then segment else UnknownProduct;
  }

  /** A title found by a selector is normalised, 6 to 299 UTF-16 code units long, and the first one accepted. */
  lemma TitleFromSelectors(engine: Engine, page: Page, container: NodeId, k: nat)
    requires k < |TitleSelectors|
    requires TitleCandidates(engine, container)[k].Some?
    requires forall j :: 0 <= j < k ==> TitleCandidates(engine, container)[j].None?
    ensures Title(engine, page, container) == TitleCandidates(engine, container)[k].value
    ensures Normalized(Title(engine, page, container))
    ensures 6 <= Length(Title(engine, page, container)) <= 299
  {
    FirstSomeAt(TitleCandidates(engine, container), k);
  }

  /**
   * Without a selector hit the title is the trimmed og:title if non-empty,
   * else the first `|`/`-` segment of the page title; the sentinel only when
   * that segment is empty too.  The title is never empty.
   */
  lemma TitleFallbackOrder(engine: Engine, page: Page, container: NodeId)
    ensures Title(engine, page, container) != ""
    ensures FirstSome(TitleCandidates(engine, container)).None? ==>
      if Trim(page.ogTitle) != "" then Title(engine, page, container) == Trim(page.ogTitle)
      else if PageTitleSegment(page.title) != "" then Title(engine, page, container) == PageTitleSegment(page.title)
      else Title(engine, page, container) == UnknownProduct
  {
    var cands := TitleCandidates(engine, container);
    if FirstSome(cands).Some? {
      var k :| 0 <= k < |cands| && cands[k] == FirstSome(cands);
    }
  }

  // ---------------------------------------------------------------- image

  /** What the selector tier makes of one result: its `src`, if it starts with "http" and names no placeholder. */
  function ImageCandidate(found: Option<Element>): (r: Option<string>)
    ensures r.Some? ==> found.Some? && r.value == found.value.src && StartsWith(r.value, "http")
    ensures r.Some? ==> !Contains(Lower(r.value), "placeholder") && !Contains(Lower(r.value), "loading")
                        && !Contains(Lower(r.value), "spinner")
  {
    match found
    case None => None
    case Some(img) =>
      if img.src != "" && StartsWith(img.src, "http") then
        var src := Lower(img.src);
        if !Contains(src, "placeholder") && !Contains(src, "loading") && !Contains(src, "spinner")
        then Some(img.src) else None
      else None
  }

  function ImageProbe(engine: Engine, container: NodeId): string -> Option<string> {
    selector => ImageCandidate(QueryFirst(engine, container, selector))
  }

  function ImageCandidates(engine: Engine, container: NodeId): seq<Option<string>> {
    Candidates(ImageSelectors, ImageProbe(engine, container))
  }

  /** The image `extractImage` returns. */
  function Image(engine: Engine, page: Page, container: NodeId): string {
    match FirstSome(ImageCandidates(engine, container))
    case Some(src) => src
    case None => if Trim(page.ogImage) != "" then page.ogImage else ""
  }

  method ExtractImage(engine: Engine, page: Page, container: NodeId) returns (image: string)
    ensures image == Image(engine, page, container)
  {
    var found := FirstAccepted(ImageSelectors, ImageProbe(engine, container));
    if found.Some? {
      return found.value;
    }
    image := if Trim(page.ogImage) != "" then page.ogImage else "";
  }

  /**
   * The image is an accepted http(s) source from the container, else the
   * og:image content as written (when not blank), else the empty string.
   */
  lemma ImageShape(engine: Engine, page: Page, container: NodeId)
    ensures var r := Image(engine, page, container);
      || (StartsWith(r, "http") && !Contains(Lower(r), "placeholder") && !Contains(Lower(r), "loading")
          && !Contains(Lower(r), "spinner"))
      || (r == page.ogImage && Trim(r) != "")
      || r == ""
  {
    var cands := ImageCandidates(engine, container);
    if FirstSome(cands).Some? {
      var k :| 0 <= k < |cands| && cands[k] == FirstSome(cands);
    }
  }

  // ---------------------------------------------------------------- quantity

  const MaxQuantity: int := 999

  /** `parseInt(element.value || element.textContent, 10)`, kept only when strictly between 0 and 1000. */
  function QuantityCandidate(found: Option<Element>): (r: Option<int>)
    ensures r.Some? ==> 0 < r.value < 1000
  {
    match found
    case None => None
    case Some(e) =>
      var raw := if e.value != "" then e.value else e.text;
      match ParseInt(raw)
      case None => None
      case Some(q) => if q > 0 && q < 1000 then Some(q) else None
  }

  function QuantityProbe(engine: Engine, container: NodeId): string -> Option<int> {
    selector => QuantityCandidate(QueryFirst(engine, container, selector))
  }

  function QuantityCandidates(engine: Engine, container: NodeId): seq<Option<int>> {
    Candidates(QuantitySelectors, QuantityProbe(engine, container))
  }

  /** The quantity `extractQuantity` returns. */
  function Quantity(engine: Engine, container: NodeId): int {
    match FirstSome(QuantityCandidates(engine, container))
    case Some(q) => q
    case None => 1
  }

  /** The quantity is always in [1, 999], and 1 exactly when no control yields one in range. */
  lemma QuantityInRange(engine: Engine, container: NodeId)
    ensures 1 <= Quantity(engine, container) <= MaxQuantity
    ensures FirstSome(QuantityCandidates(engine, container)).None? ==> Quantity(engine, container) == 1
  {
    var cands := QuantityCandidates(engine, container);
    if FirstSome(cands).Some? {
      var k :| 0 <= k < |cands| && cands[k] == FirstSome(cands);
    }
  }

  method ExtractQuantity(engine: Engine, container: NodeId) returns (quantity: int)
    ensures quantity == Quantity(engine, container)
  {
    var found := FirstAccepted(QuantitySelectors, QuantityProbe(engine, container));
    quantity := if found.Some? then found.value else 1;
  }

  /**
   * A control whose value is a plain digit string worth 0 or at least 1000
   * is passed over: the value is out of range and is not clamped.
   */
  lemma OutOfRangeQuantityRejected(e: Element)
    requires e.value != [] && forall i :: 0 <= i < |e.value| ==> IsDigit(e.value[i])
    requires DigitsValue(e.value) == 0 || DigitsValue(e.value) >= 1000
    ensures QuantityCandidate(Some(e)).None?
  {
    ParseDigits(e.value);
  }
}
