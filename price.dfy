/**
 * `extractPrice` and its helpers: JSON-LD offers first, then a scan of the
 * container's price elements (a `data-price`/`content` attribute wins at
 * once, otherwise every currency pattern is scored and the strictly best
 * match is kept), then the container text, the body text and the meta tags,
 * and finally the sentinel.  The regular-expression engine is an oracle
 * (`Patterns`); `cleanPriceText` is written out in full.
 */
module Pricing {
  import opened Wrappers
  import opened Text
  import opened Dom
  import opened Catalog
  import opened Tiers

  const PriceNotFound: string := "Price not found"

  /** The six currency patterns, tried in this order. */
  const PatternCount: nat := 6

  /**
   * The regular-expression engine over the six currency patterns:
   * `first(text, i)` is `text.match(currencyPatterns[i])?.[0]` and
   * `all(text, i)` is `text.match(new RegExp(currencyPatterns[i].source, "g"))`
   * (every match, in order; the global copy drops the pattern's `i` flag).
   */
  datatype Patterns = Patterns(
    first: (string, nat) -> Option<string>,
    all: (string, nat) -> seq<string>)

  // ------------------------------------------------------------ cleanPriceText

  /** A character of the class `[\d.,]`. */
  predicate IsNumeric(c: char) {
    IsDigit(c) || c == '.' || c == ','
  }

  predicate UpperTriple(s: string, i: nat)
    requires i + 3 <= |s|
  {
    IsUpper(s[i]) && IsUpper(s[i + 1]) && IsUpper(s[i + 2])
  }

  /**
   * `s.replace(/([\d.,]+)([A-Z]{3})/g, "$1 $2")`: a space goes in at every
   * boundary with a `[\d.,]` character before it and three capitals after it
   * (the greedy run can only end where the capitals start, and successive
   * matches never overlap).
   */
  function SpaceBeforeCode(s: string): (r: string)
    ensures |r| >= |s| && (|s| < 4 ==> r == s)
    ensures s != [] ==> r != [] && r[0] == s[0]
    decreases |s|
  {
    if s == [] then []
    else if |s| >= 4 && IsNumeric(s[0]) && UpperTriple(s, 1) then [s[0], ' ', s[1], s[2], s[3]] + SpaceBeforeCode(s[4..])
    else [s[0]] + SpaceBeforeCode(s[1..])
  }

  /**
   * `s.replace(/([A-Z]{3})([\d.,]+)/g, "$1 $2")`: a space goes in at every
   * boundary with three capitals before it and a `[\d.,]` character after it.
   */
  function SpaceAfterCode(s: string): (r: string)
    ensures |r| >= |s| && (|s| < 4 ==> r == s)
    ensures s != [] ==> r != [] && r[0] == s[0]
    decreases |s|
  {
    if s == [] then []
    else if |s| >= 4 && UpperTriple(s, 0) && IsNumeric(s[3]) then [s[0], s[1], s[2], ' '] + SpaceAfterCode(s[3..])
    else [s[0]] + SpaceAfterCode(s[1..])
  }

  /** `r` is `s` with plain spaces put in between some of its characters, and nothing else changed. */
  predicate SpacesInserted(s: string, r: string)
    decreases |r|
  {
    if r == [] then s == []
    else if s != [] && r[0] == s[0] then SpacesInserted(s[1..], r[1..])
    else r[0] == ' ' && SpacesInserted(s, r[1..])
  }

  lemma {:induction false} SpacesInsertedRefl(s: string)
    ensures SpacesInserted(s, s)
    decreases |s|
  {
    if s != [] {
      SpacesInsertedRefl(s[1..]);
    }
  }

  /** A character of `s` is still there once spaces are inserted. */
  lemma {:induction false} SpacesInsertedKeeps(s: string, r: string, i: nat)
    requires SpacesInserted(s, r) && i < |s|
    ensures s[i] in r
    decreases |r|
  {
    if s != [] && r[0] == s[0] {
      if i > 0 {
        SpacesInsertedKeeps(s[1..], r[1..], i - 1);
      }
    } else {
      SpacesInsertedKeeps(s, r[1..], i);
    }
  }

  /** The same characters put in front of both sides keep the relation. */
  lemma {:induction false} ConsInserted(head: string, s: string, r: string)
    requires SpacesInserted(s, r)
    ensures SpacesInserted(head + s, head + r)
    decreases |head|
  {
    if head == [] {
      assert head + s == s && head + r == r;
    } else {
      assert (head + r)[0] == (head + s)[0];
      assert (head + s)[1..] == head[1..] + s;
      assert (head + r)[1..] == head[1..] + r;
      ConsInserted(head[1..], s, r);
    }
  }

  /** The first pass only inserts spaces. */
  lemma {:induction false} SpaceBeforeCodeInserts(s: string)
    ensures SpacesInserted(s, SpaceBeforeCode(s))
    decreases |s|
  {
    if s == [] {
    } else if |s| >= 4 && IsNumeric(s[0]) && UpperTriple(s, 1) {
      var rest := SpaceBeforeCode(s[4..]);
      SpaceBeforeCodeInserts(s[4..]);
      ConsInserted(s[1..4], s[4..], rest);
      assert s[1..4] + s[4..] == s[1..];
      assert SpacesInserted(s[1..], [' '] + (s[1..4] + rest));
      ConsInserted([s[0]], s[1..], [' '] + (s[1..4] + rest));
      assert [s[0]] + s[1..] == s;
      assert [s[0]] + ([' '] + (s[1..4] + rest)) == SpaceBeforeCode(s);
    } else {
      SpaceBeforeCodeInserts(s[1..]);
      ConsInserted([s[0]], s[1..], SpaceBeforeCode(s[1..]));
      assert [s[0]] + s[1..] == s;
    }
  }

  /** The second pass only inserts spaces. */
  lemma {:induction false} SpaceAfterCodeInserts(s: string)
    ensures SpacesInserted(s, SpaceAfterCode(s))
    decreases |s|
  {
    if s == [] {
    } else if |s| >= 4 && UpperTriple(s, 0) && IsNumeric(s[3]) {
      var rest := SpaceAfterCode(s[3..]);
      SpaceAfterCodeInserts(s[3..]);
      assert SpacesInserted(s[3..], [' '] + rest);
      ConsInserted(s[..3], s[3..], [' '] + rest);
      assert s[..3] + s[3..] == s;
      assert s[..3] + ([' '] + rest) == SpaceAfterCode(s);
    } else {
      SpaceAfterCodeInserts(s[1..]);
      ConsInserted([s[0]], s[1..], SpaceAfterCode(s[1..]));
      assert [s[0]] + s[1..] == s;
    }
  }

  /** A `[\d.,]` character directly followed by three capitals, at `i`. */
  predicate NumberBeforeCode(s: string, i: nat)
    requires i + 4 <= |s|
  {
    IsNumeric(s[i]) && UpperTriple(s, i + 1)
  }

  /** Three capitals directly followed by a `[\d.,]` character, at `i`. */
  predicate CodeBeforeNumber(s: string, i: nat)
    requires i + 4 <= |s|
  {
    UpperTriple(s, i) && IsNumeric(s[i + 3])
  }

  predicate NoNumberBeforeCode(s: string) {
    forall i: nat :: i + 4 <= |s| ==> !NumberBeforeCode(s, i)
  }

  predicate NoCodeBeforeNumber(s: string) {
    forall i: nat :: i + 4 <= |s| ==> !CodeBeforeNumber(s, i)
  }

  /** A window of `head + rest` that lies inside `rest` is that window of `rest`. */
  lemma ShiftWindows(head: string, rest: string)
    ensures forall i: nat :: |head| <= i && i + 4 <= |head + rest| ==>
      && (NumberBeforeCode(head + rest, i) <==> NumberBeforeCode(rest, i - |head|))
      && (CodeBeforeNumber(head + rest, i) <==> CodeBeforeNumber(rest, i - |head|))
  {
    var r := head + rest;
    forall i: nat | |head| <= i && i + 4 <= |r|
      ensures NumberBeforeCode(r, i) <==> NumberBeforeCode(rest, i - |head|)
      ensures CodeBeforeNumber(r, i) <==> CodeBeforeNumber(rest, i - |head|)
    {
      var j := i - |head|;
      assert r[i] == rest[j] && r[i + 1] == rest[j + 1] && r[i + 2] == rest[j + 2] && r[i + 3] == rest[j + 3];
    }
  }

  /** Dropping a prefix keeps a string free of a number directly before a code. */
  lemma NoNumberBeforeCodeSuffix(s: string, k: nat)
    requires NoNumberBeforeCode(s) && k <= |s|
    ensures NoNumberBeforeCode(s[k..])
  {
    assert s == s[..k] + s[k..];
    ShiftWindows(s[..k], s[k..]);
    forall i: nat | i + 4 <= |s[k..]|
      ensures !NumberBeforeCode(s[k..], i)
    {
      assert !NumberBeforeCode(s, i + k);
    }
  }

  /** Three capitals at the start of the first pass's output were already at the start of its input. */
  lemma SpaceBeforeCodeUpperStart(t: string)
    requires |SpaceBeforeCode(t)| >= 3 && UpperTriple(SpaceBeforeCode(t), 0)
    ensures |t| >= 3 && UpperTriple(t, 0)
  {
    var r := SpaceBeforeCode(t);
    assert t != [] && r[0] == t[0];
    assert r == [t[0]] + SpaceBeforeCode(t[1..]);
    var t1 := t[1..];
    assert t1 != [] && r[1] == t1[0];
    assert SpaceBeforeCode(t1) == [t1[0]] + SpaceBeforeCode(t1[1..]);
    var t2 := t1[1..];
    assert t2 != [] && r[2] == t2[0];
  }

  /** The first pass leaves no `[\d.,]` character directly before three capitals. */
  lemma {:induction false} SpaceBeforeCodeSeparates(s: string)
    ensures NoNumberBeforeCode(SpaceBeforeCode(s))
    decreases |s|
  {
    var r := SpaceBeforeCode(s);
    if |s| < 4 {
    } else if IsNumeric(s[0]) && UpperTriple(s, 1) {
      var head := [s[0], ' ', s[1], s[2], s[3]];
      var rest := SpaceBeforeCode(s[4..]);
      SpaceBeforeCodeSeparates(s[4..]);
      assert r == head + rest;
      ShiftWindows(head, rest);
    } else {
      var rest := SpaceBeforeCode(s[1..]);
      SpaceBeforeCodeSeparates(s[1..]);
      assert r == [s[0]] + rest;
      ShiftWindows([s[0]], rest);
      if UpperTriple(rest, 0) {
        SpaceBeforeCodeUpperStart(s[1..]);
        assert UpperTriple(s, 1);
      }
      assert !NumberBeforeCode(r, 0);
    }
  }

  /** The second pass keeps the first three characters in place. */
  lemma SpaceAfterCodeStart(t: string)
    requires |t| >= 3
    ensures |SpaceAfterCode(t)| >= 3 && SpaceAfterCode(t)[..3] == t[..3]
  {
    var r := SpaceAfterCode(t);
    if !(|t| >= 4 && UpperTriple(t, 0) && IsNumeric(t[3])) {
      var t1 := t[1..];
      assert r == [t[0]] + SpaceAfterCode(t1);
      if !(|t1| >= 4 && UpperTriple(t1, 0) && IsNumeric(t1[3])) {
        var t2 := t1[1..];
        assert SpaceAfterCode(t1) == [t1[0]] + SpaceAfterCode(t2);
        assert SpaceAfterCode(t2)[0] == t2[0];
      }
    }
  }

  /** The second pass leaves no three capitals directly before a `[\d.,]` character. */
  lemma {:induction false} SpaceAfterCodeSeparates(s: string)
    ensures NoCodeBeforeNumber(SpaceAfterCode(s))
    decreases |s|
  {
    var r := SpaceAfterCode(s);
    if |s| < 4 {
    } else if UpperTriple(s, 0) && IsNumeric(s[3]) {
      var head := [s[0], s[1], s[2], ' '];
      var rest := SpaceAfterCode(s[3..]);
      SpaceAfterCodeSeparates(s[3..]);
      assert r == head + rest;
      ShiftWindows(head, rest);
    } else {
      var rest := SpaceAfterCode(s[1..]);
      SpaceAfterCodeSeparates(s[1..]);
      assert r == [s[0]] + rest;
      ShiftWindows([s[0]], rest);
      SpaceAfterCodeStart(s[1..]);
      assert r[..4] == s[..4];
      assert !CodeBeforeNumber(r, 0);
    }
  }

  /** The second pass does not undo the first: it puts no `[\d.,]` character back before three capitals. */
  lemma {:induction false} SpaceAfterCodeKeepsSeparation(s: string)
    requires NoNumberBeforeCode(s)
    ensures NoNumberBeforeCode(SpaceAfterCode(s))
    decreases |s|
  {
    var r := SpaceAfterCode(s);
    if |s| < 4 {
    } else if UpperTriple(s, 0) && IsNumeric(s[3]) {
      var head := [s[0], s[1], s[2], ' '];
      var rest := SpaceAfterCode(s[3..]);
      NoNumberBeforeCodeSuffix(s, 3);
      SpaceAfterCodeKeepsSeparation(s[3..]);
      assert r == head + rest;
      ShiftWindows(head, rest);
    } else {
      var rest := SpaceAfterCode(s[1..]);
      NoNumberBeforeCodeSuffix(s, 1);
      SpaceAfterCodeKeepsSeparation(s[1..]);
      assert r == [s[0]] + rest;
      ShiftWindows([s[0]], rest);
      SpaceAfterCodeStart(s[1..]);
      assert r[..4] == s[..4];
      assert !NumberBeforeCode(s, 0);
    }
  }

  /**
   * What the two passes are for: in the cleaned text no `[\d.,]` character
   * touches a three-capital code on either side, and the passes only put
   * spaces in.
   */
  lemma CleanPriceTextSeparatesCodes(s: string)
    requires s != []
    ensures NoNumberBeforeCode(CleanPriceText(s)) && NoCodeBeforeNumber(CleanPriceText(s))
    ensures SpacesInserted(Normalize(s), SpaceBeforeCode(Normalize(s)))
    ensures SpacesInserted(SpaceBeforeCode(Normalize(s)), CleanPriceText(s))
  {
    var n := Normalize(s);
    SpaceBeforeCodeSeparates(n);
    SpaceAfterCodeKeepsSeparation(SpaceBeforeCode(n));
    SpaceAfterCodeSeparates(SpaceBeforeCode(n));
    SpaceBeforeCodeInserts(n);
    SpaceAfterCodeInserts(SpaceBeforeCode(n));
  }

  /** The code-spacing passes never put a space next to another space or at either end. */
  lemma {:induction false} SpaceBeforeCodeSingleSpaced(s: string)
    requires SingleSpaced(s)
    ensures SingleSpaced(SpaceBeforeCode(s))
    decreases |s|
  {
    if s == [] {
    } else if |s| >= 4 && IsNumeric(s[0]) && UpperTriple(s, 1) {
      SuffixSingleSpaced(s, 4);
      SpaceBeforeCodeSingleSpaced(s[4..]);
      ConsSingleSpaced([s[0], ' ', s[1], s[2], s[3]], SpaceBeforeCode(s[4..]));
    } else {
      SuffixSingleSpaced(s, 1);
      SpaceBeforeCodeSingleSpaced(s[1..]);
      ConsSingleSpaced([s[0]], SpaceBeforeCode(s[1..]));
    }
  }

  lemma {:induction false} SpaceAfterCodeSingleSpaced(s: string)
    requires SingleSpaced(s)
    ensures SingleSpaced(SpaceAfterCode(s))
    decreases |s|
  {
    if s == [] {
    } else if |s| >= 4 && UpperTriple(s, 0) && IsNumeric(s[3]) {
      SuffixSingleSpaced(s, 3);
      SpaceAfterCodeSingleSpaced(s[3..]);
      ConsSingleSpaced([s[0], s[1], s[2], ' '], SpaceAfterCode(s[3..]));
    } else {
      SuffixSingleSpaced(s, 1);
      SpaceAfterCodeSingleSpaced(s[1..]);
      ConsSingleSpaced([s[0]], SpaceAfterCode(s[1..]));
    }
  }

  /** A suffix of a single-spaced string is single-spaced. */
  lemma SuffixSingleSpaced(s: string, k: nat)
    requires SingleSpaced(s) && k <= |s|
    ensures SingleSpaced(s[k..])
  {
    forall i | 0 <= i < |s[k..]| && IsSpace(s[k..][i])
      ensures s[k..][i] == ' ' && i + 1 < |s[k..]| && !IsSpace(s[k..][i + 1])
    {
      assert s[k..][i] == s[k + i];
      assert s[k + i + 1] == s[k..][i + 1];
    }
  }

  /**
   * Putting `head` in front of a single-spaced `rest` keeps it single-spaced
   * when each space of `head` is plain and followed by a non-space (the last
   * one by the first character of `rest`).
   */
  lemma ConsSingleSpaced(head: string, rest: string)
    requires SingleSpaced(rest)
    requires forall i :: 0 <= i < |head| && IsSpace(head[i]) ==>
      head[i] == ' ' && i + 1 < |head + rest| && !IsSpace((head + rest)[i + 1])
    ensures SingleSpaced(head + rest)
  {
    var r := head + rest;
    forall i | 0 <= i < |r| && IsSpace(r[i])
      ensures r[i] == ' ' && i + 1 < |r| && !IsSpace(r[i + 1])
    {
      if i < |head| {
        assert r[i] == head[i];
      } else {
        assert r[i] == rest[i - |head|];
        assert r[i + 1] == rest[i + 1 - |head|];
      }
    }
  }

  /**
   * `cleanPriceText`: the sentinel for an empty text, otherwise the text
   * trimmed, its whitespace runs collapsed to one space, and a space put
   * between a number and an adjacent three-letter code on either side.
   */
  function CleanPriceText(s: string): (r: string)
    ensures s == [] ==> r == PriceNotFound
    ensures s != [] ==> Normalized(r) && (r == [] <==> AllSpace(s))
  {
    if s == [] then PriceNotFound
    else
      var n := Normalize(s);
      NormalizeIsNormalized(s);
      SpaceBeforeCodeSingleSpaced(n);
      SpaceAfterCodeSingleSpaced(SpaceBeforeCode(n));
      SpaceAfterCode(SpaceBeforeCode(n))
  }

  // ------------------------------------------------------------ scorePriceCandidate

  /**
   * `scorePriceCandidate`: 10 less the pattern index, +5 for a class naming
   * "current" or "sale", +5 for "final", -2 for "regular", -10 for "old" or
   * "was", +3 above 20px and +5 more above 30px, +2 when bold, -2 when the
   * matched text splits into more than three words.
   */
  function ScorePriceCandidate(e: Element, priceText: string, patternIndex: nat): (score: int)
    requires patternIndex < PatternCount
    ensures -9 <= score <= 30
  {
    var cls := Lower(e.className);
    var base := 10 - patternIndex;
    var named := base
      + (if Contains(cls, "current") || Contains(cls, "sale") then 5 else 0)
      + (if Contains(cls, "final") then 5 else 0)
      - (if Contains(cls, "regular") then 2 else 0)
      - (if Contains(cls, "old") || Contains(cls, "was") then 10 else 0);
    var styled := named
      + (if e.fontSize > 20 then 3 else 0)
      + (if e.fontSize > 30 then 5 else 0)
      + (if e.bold then 2 else 0);
    styled - (if SplitCount(priceText) > 3 then 2 else 0)
  }

  /**
   * With the same pattern, text and style, a price in an "old"/"was" element
   * scores 15 below one in a "current"/"sale" element.
   */
  lemma OldPriceScoresBelowCurrent(stale: Element, current: Element, priceText: string, patternIndex: nat)
    requires patternIndex < PatternCount
    requires stale.fontSize == current.fontSize && stale.bold == current.bold
    requires var o := Lower(stale.className);
      (Contains(o, "old") || Contains(o, "was")) && !Contains(o, "current") && !Contains(o, "sale")
      && !Contains(o, "final") && !Contains(o, "regular")
    requires var c := Lower(current.className);
      (Contains(c, "current") || Contains(c, "sale")) && !Contains(c, "old") && !Contains(c, "was")
      && !Contains(c, "final") && !Contains(c, "regular")
    ensures ScorePriceCandidate(stale, priceText, patternIndex) == ScorePriceCandidate(current, priceText, patternIndex) - 15
  {
  }

  // ------------------------------------------------------------ structured data

  /** `offers.priceCurrency + " " + offers.price`, or `String(offers.price)`, or nothing. */
  function OfferPrice(o: Offer): (r: Option<string>)
    ensures r.Some? <==> o.price != ""
    ensures r.Some? ==> r.value == (if o.priceCurrency != "" then o.priceCurrency + " " + o.price else o.price)
  {
    if o.price != "" && o.priceCurrency != "" then Some(o.priceCurrency + " " + o.price)
    else if o.price != "" then Some(o.price)
    else None
  }

  /**
   * What one ld+json block yields: nothing when it failed to parse, is not a
   * Product, or has no offers; an empty offers array makes `offers.price`
   * throw, which the loop's `catch` turns into "next block".
   */
  function ScriptPrice(data: Option<StructuredData>): (r: Option<string>)
    ensures r.Some? ==> r.value != ""
  {
    match data
    case None => None
    case Some(d) =>
      if !d.isProduct || d.offers.None? then None
      else match d.offers.value
        case SingleOffer(o) => OfferPrice(o)
        case OfferArray(items) => if items == [] then None else OfferPrice(items[0])
  }

  /**
   * Which offer a block prices: a single offer object itself, an offers
   * array its first element only (a later offer never stands in for a
   * first one without a price), and an empty array nothing.
   */
  lemma ScriptPriceUsesFirstOffer(d: StructuredData, o: Offer, items: seq<Offer>)
    ensures ScriptPrice(None) == None
    ensures !d.isProduct || d.offers.None? ==> ScriptPrice(Some(d)) == None
    ensures d.isProduct && d.offers == Some(SingleOffer(o)) ==> ScriptPrice(Some(d)) == OfferPrice(o)
    ensures d.isProduct && d.offers == Some(OfferArray(items)) && items != [] ==> ScriptPrice(Some(d)) == OfferPrice(items[0])
    ensures d.isProduct && d.offers == Some(OfferArray(items)) && items != [] && items[0].price == "" ==> ScriptPrice(Some(d)) == None
    ensures d.isProduct && d.offers == Some(OfferArray([])) ==> ScriptPrice(Some(d)) == None
  {
  }

  /** `extractPriceFromStructuredData`: the first block that yields a price. */
  function StructuredPrice(scripts: seq<Option<StructuredData>>): Option<string> {
    FirstSome(Candidates(scripts, ScriptPrice))
  }

  method ExtractPriceFromStructuredData(page: Page) returns (price: Option<string>)
    ensures price == StructuredPrice(page.ldJson)
  {
    price := FirstAccepted(page.ldJson, ScriptPrice);
  }

  /** A structured price is never empty, so the `if (structuredPrice)` test is the same as "found one". */
  lemma StructuredPriceNonEmpty(scripts: seq<Option<StructuredData>>)
    ensures StructuredPrice(scripts).Some? ==> StructuredPrice(scripts).value != ""
  {
    var cands := Candidates(scripts, ScriptPrice);
    if FirstSome(cands).Some? {
      var k :| 0 <= k < |cands| && cands[k] == FirstSome(cands);
    }
  }

  // ------------------------------------------------------------ the scored scan

  /** `element.getAttribute("data-price") || element.getAttribute("content")`. */
  function DataPriceAttribute(e: Element): string {
    var d := Attribute(e, "data-price");
    if d != "" then d else Attribute(e, "content")
  }

  /** The price a visible element hands over at once: its cleaned data attribute, when non-empty. */
  function DataPrice(e: Element): (r: Option<string>)
    ensures r.Some? ==> e.visible && r.value != "" && Normalized(r.value)
  {
    if !e.visible then None
    else
      var d := DataPriceAttribute(e);
      if d == "" then None
      else
        var cleaned := CleanPriceText(d);
        if cleaned == "" then None else Some(cleaned)
  }

  /** The best match so far: `bestPrice` and `bestScore`. */
  datatype Best = Best(price: Option<string>, score: int)

  /** One scored pattern match. */
  datatype Candidate = Candidate(text: string, score: int)

  /** `if (score > bestScore) { bestScore = score; bestPrice = priceText; }` */
  function Consider(best: Best, c: Candidate): Best {
    if c.score > best.score then Best(Some(c.text), c.score) else best
  }

  /** The patterns from `k` on, tried against one element's trimmed text. */
  function ScanPatterns(e: Element, text: string, pats: Patterns, k: nat, best: Best): Best
    decreases PatternCount - k
  {
    if k >= PatternCount then best
    else match pats.first(text, k)
      case None => ScanPatterns(e, text, pats, k + 1, best)
      case Some(m) => ScanPatterns(e, text, pats, k + 1, Consider(best, Candidate(m, ScorePriceCandidate(e, m, k))))
  }

  /** Where the scan stands: a price handed over by a data attribute, or the best match so far. */
  datatype Scan = Hit(price: string) | Pending(best: Best)

  /** The scan over the elements one selector returned. */
  function ScanElements(els: seq<Element>, pats: Patterns, best: Best): Scan
    decreases |els|
  {
    if els == [] then Pending(best)
    else if !els[0].visible then ScanElements(els[1..], pats, best)
    else match DataPrice(els[0])
      case Some(p) => Hit(p)
      case None => ScanElements(els[1..], pats, ScanPatterns(els[0], Trim(els[0].text), pats, 0, best))
  }

  /** The scan over the selectors `sels`, in order. */
  function ScanSelectors(engine: Engine, pats: Patterns, container: NodeId, sels: seq<string>, best: Best): Scan
    decreases |sels|, 0
  {
    if sels == [] then Pending(best)
    else Continue(engine, pats, container, sels[1..], ScanElements(engine.queryAll(container, sels[0]), pats, best))
  }

  function Continue(engine: Engine, pats: Patterns, container: NodeId, sels: seq<string>, s: Scan): Scan
    decreases |sels|, 1
  {
    match s
    case Hit(_) => s
    case Pending(best) => ScanSelectors(engine, pats, container, sels, best)
  }

  /** The selector × element × pattern loops of `extractPrice`, from no price and score 0. */
  method ScanPrices(engine: Engine, pats: Patterns, container: NodeId) returns (r: Scan)
    ensures r == ScanSelectors(engine, pats, container, PriceSelectors, Best(None, 0))
  {
    r := ScanSelectorList(engine, pats, container, PriceSelectors, Best(None, 0));
  }

  /** The loop over the selectors: each one's elements are scanned in turn until a data price turns up. */
  method ScanSelectorList(engine: Engine, pats: Patterns, container: NodeId, sels: seq<string>, start: Best) returns (r: Scan)
    ensures r == ScanSelectors(engine, pats, container, sels, start)
  {
    var best := start;
    for i := 0 to |sels|
      invariant ScanSelectors(engine, pats, container, sels, start) == ScanSelectors(engine, pats, container, sels[i..], best)
    {
      assert sels[i..][1..] == sels[i + 1..];
      var scanned := ScanElementList(engine.queryAll(container, sels[i]), pats, best);
      if scanned.Hit? {
        return scanned;
      }
      best := scanned.best;
    }
    return Pending(best);
  }

  /** The loop over one selector's elements: hidden ones are skipped, a data price returns at once. */
  method ScanElementList(elements: seq<Element>, pats: Patterns, start: Best) returns (r: Scan)
    ensures r == ScanElements(elements, pats, start)
  {
    var best := start;
    for j := 0 to |elements|
      invariant ScanElements(elements, pats, start) == ScanElements(elements[j..], pats, best)
    {
      assert elements[j..][1..] == elements[j + 1..];
      var element := elements[j];
      if !element.visible {
        continue;
      }
      var dataPrice := DataPriceAttribute(element);
      if dataPrice != "" {
        var cleaned := CleanPriceText(dataPrice);
        if cleaned != "" {
          return Hit(cleaned);
        }
      }
      best := ScorePatterns(element, Trim(element.text), pats, best);
    }
    return Pending(best);
  }

  /** The loop over the six patterns: each match is scored and kept when it beats the best score. */
  method ScorePatterns(element: Element, text: string, pats: Patterns, start: Best) returns (best: Best)
    ensures best == ScanPatterns(element, text, pats, 0, start)
  {
    var bestPrice := start.price;
    var bestScore := start.score;
    for k := 0 to PatternCount
      invariant ScanPatterns(element, text, pats, 0, start) == ScanPatterns(element, text, pats, k, Best(bestPrice, bestScore))
    {
      var found := pats.first(text, k);
      if found.Some? {
        var score := ScorePriceCandidate(element, found.value, k);
        if score > bestScore {
          bestScore := score;
          bestPrice := found;
        }
      }
    }
    best := Best(bestPrice, bestScore);
  }

  // ------------------------------------------------------------ what the scan computes

  /** The best-so-far fold over candidates in the order they are met. */
  function FoldBest(best: Best, cs: seq<Candidate>): Best
    decreases |cs|
  {
    if cs == [] then best else FoldBest(Consider(best, cs[0]), cs[1..])
  }

  /** The scored matches of one element, pattern `k` onwards. */
  function PatternCandidates(e: Element, text: string, pats: Patterns, k: nat): seq<Candidate>
    decreases PatternCount - k
  {
    if k >= PatternCount then []
    else
      (match pats.first(text, k)
       case None => []
       case Some(m) => [Candidate(m, ScorePriceCandidate(e, m, k))])
      + PatternCandidates(e, text, pats, k + 1)
  }

  /** The scored matches of every visible element, in order. */
  function ElementCandidates(els: seq<Element>, pats: Patterns): seq<Candidate>
    decreases |els|
  {
    if els == [] then []
    else
      var mine := if els[0].visible then PatternCandidates(els[0], Trim(els[0].text), pats, 0) else [];
      mine + ElementCandidates(els[1..], pats)
  }

  /** Every element the selectors return, selector by selector, in document order. */
  function AllElements(engine: Engine, container: NodeId, sels: seq<string>): seq<Element>
    decreases |sels|
  {
    if sels == [] then [] else engine.queryAll(container, sels[0]) + AllElements(engine, container, sels[1..])
  }

  lemma {:induction false} FoldBestAppend(best: Best, a: seq<Candidate>, b: seq<Candidate>)
    ensures FoldBest(best, a + b) == FoldBest(FoldBest(best, a), b)
    decreases |a|
  {
    if a == [] {
      assert a + b == b;
    } else {
      assert (a + b)[0] == a[0];
      assert (a + b)[1..] == a[1..] + b;
      FoldBestAppend(Consider(best, a[0]), a[1..], b);
    }
  }

  /**
   * The fold keeps the first candidate with the strictly greatest score above
   * the starting score, and keeps the starting point when no candidate beats it.
   */
  lemma {:induction false} FoldBestFacts(best: Best, cs: seq<Candidate>)
    ensures FoldBest(best, cs).score >= best.score
    ensures forall k :: 0 <= k < |cs| ==> cs[k].score <= FoldBest(best, cs).score
    ensures || FoldBest(best, cs) == best
            || exists k :: 0 <= k < |cs| && FoldBest(best, cs) == Best(Some(cs[k].text), cs[k].score)
                 && cs[k].score > best.score && forall j :: 0 <= j < k ==> cs[j].score < cs[k].score
    ensures (forall k :: 0 <= k < |cs| ==> cs[k].score <= best.score) ==> FoldBest(best, cs) == best
    decreases |cs|
  {
    if cs != [] {
      var next := Consider(best, cs[0]);
      var r := FoldBest(next, cs[1..]);
      FoldBestFacts(next, cs[1..]);
      assert forall k :: 1 <= k < |cs| ==> cs[k] == cs[1..][k - 1];
      if r != next {
        var k :| 0 <= k < |cs[1..]| && r == Best(Some(cs[1..][k].text), cs[1..][k].score)
          && cs[1..][k].score > next.score && forall j :: 0 <= j < k ==> cs[1..][j].score < cs[1..][k].score;
        assert r == Best(Some(cs[k + 1].text), cs[k + 1].score);
        assert forall j :: 0 <= j < k + 1 ==> cs[j].score < cs[k + 1].score by {
          forall j | 0 <= j < k + 1
            ensures cs[j].score < cs[k + 1].score
          {
            if j > 0 {
              assert cs[j] == cs[1..][j - 1];
            }
          }
        }
      } else if next != best {
        assert r == Best(Some(cs[0].text), cs[0].score);
      }
    }
  }

  /**
   * Starting from no price and score 0, the scan keeps the first candidate of
   * strictly greatest score, and only when that score is positive.
   */
  lemma FoldBestWinner(cs: seq<Candidate>)
    ensures var r := FoldBest(Best(None, 0), cs);
      && r.score >= 0
      && (forall k :: 0 <= k < |cs| ==> cs[k].score <= r.score)
      && (r.price.None? <==> forall k :: 0 <= k < |cs| ==> cs[k].score <= 0)
      && (r.price.Some? ==> exists k :: 0 <= k < |cs| && cs[k].text == r.price.value && cs[k].score == r.score
                                        && forall j :: 0 <= j < k ==> cs[j].score < r.score)
  {
    FoldBestFacts(Best(None, 0), cs);
  }

  lemma {:induction false} ScanPatternsIsFold(e: Element, text: string, pats: Patterns, k: nat, best: Best)
    ensures ScanPatterns(e, text, pats, k, best) == FoldBest(best, PatternCandidates(e, text, pats, k))
    decreases PatternCount - k
  {
    hide ScorePriceCandidate;
    if k < PatternCount {
      var rest := PatternCandidates(e, text, pats, k + 1);
      match pats.first(text, k)
      case None =>
        assert PatternCandidates(e, text, pats, k) == rest;
        ScanPatternsIsFold(e, text, pats, k + 1, best);
      case Some(m) =>
        var c := Candidate(m, ScorePriceCandidate(e, m, k));
        assert PatternCandidates(e, text, pats, k) == [c] + rest;
        assert ([c] + rest)[1..] == rest;
        ScanPatternsIsFold(e, text, pats, k + 1, Consider(best, c));
    }
  }

  lemma {:induction false} ScanElementsAppend(a: seq<Element>, b: seq<Element>, pats: Patterns, best: Best)
    ensures ScanElements(a + b, pats, best) ==
      match ScanElements(a, pats, best)
      case Hit(p) => Hit(p)
      case Pending(next) => ScanElements(b, pats, next)
    decreases |a|
  {
    if a == [] {
      assert a + b == b;
    } else {
      assert (a + b)[0] == a[0];
      assert (a + b)[1..] == a[1..] + b;
      if a[0].visible && DataPrice(a[0]).None? {
        ScanElementsAppend(a[1..], b, pats, ScanPatterns(a[0], Trim(a[0].text), pats, 0, best));
      } else if !a[0].visible {
        ScanElementsAppend(a[1..], b, pats, best);
      }
    }
  }

  /** The selector-by-selector scan is one scan over every returned element in turn. */
  lemma {:induction false} ScanSelectorsFlat(engine: Engine, pats: Patterns, container: NodeId, sels: seq<string>, best: Best)
    ensures ScanSelectors(engine, pats, container, sels, best)
      == ScanElements(AllElements(engine, container, sels), pats, best)
    decreases |sels|
  {
    if sels != [] {
      var first := engine.queryAll(container, sels[0]);
      ScanElementsAppend(first, AllElements(engine, container, sels[1..]), pats, best);
      match ScanElements(first, pats, best)
      case Hit(_) =>
      case Pending(next) => ScanSelectorsFlat(engine, pats, container, sels[1..], next);
    }
  }

  /**
   * The scan hands over a data-attribute price exactly when some visible
   * element has one, and it is the first such element's.
   */
  lemma {:induction false} ScanElementsHit(els: seq<Element>, pats: Patterns, best: Best)
    ensures ScanElements(els, pats, best).Hit? <==> FirstSome(Candidates(els, DataPrice)).Some?
    ensures ScanElements(els, pats, best).Hit? ==> ScanElements(els, pats, best).price == FirstSome(Candidates(els, DataPrice)).value
    decreases |els|
  {
    if els != [] {
      var hits := Candidates(els, DataPrice);
      assert hits[1..] == Candidates(els[1..], DataPrice);
      if DataPrice(els[0]).None? {
        if els[0].visible {
          ScanElementsHit(els[1..], pats, ScanPatterns(els[0], Trim(els[0].text), pats, 0, best));
        } else {
          ScanElementsHit(els[1..], pats, best);
        }
      }
    }
  }

  /** Without a data-attribute price the scan is the best-score fold over every scored match. */
  lemma {:induction false} ScanElementsPending(els: seq<Element>, pats: Patterns, best: Best)
    requires FirstSome(Candidates(els, DataPrice)).None?
    ensures ScanElements(els, pats, best) == Pending(FoldBest(best, ElementCandidates(els, pats)))
    decreases |els|
  {
    if els != [] {
      var hits := Candidates(els, DataPrice);
      assert hits[1..] == Candidates(els[1..], DataPrice);
      assert DataPrice(els[0]).None? by {
        assert hits[0] == DataPrice(els[0]);
      }
      var rest := ElementCandidates(els[1..], pats);
      if els[0].visible {
        var text := Trim(els[0].text);
        var mine := PatternCandidates(els[0], text, pats, 0);
        var next := ScanPatterns(els[0], text, pats, 0, best);
        assert ScanElements(els, pats, best) == ScanElements(els[1..], pats, next);
        assert ElementCandidates(els, pats) == mine + rest;
        ScanPatternsIsFold(els[0], text, pats, 0, best);
        ScanElementsPending(els[1..], pats, next);
        FoldBestAppend(best, mine, rest);
      } else {
        assert ElementCandidates(els, pats) == [] + rest;
        assert [] + rest == rest;
        assert ScanElements(els, pats, best) == ScanElements(els[1..], pats, best);
        ScanElementsPending(els[1..], pats, best);
      }
    }
  }

  /**
   * The scored tier of `extractPrice`: the first visible element (selector by
   * selector, in document order) with a data-attribute price decides before
   * anything is scored; otherwise the outcome is the best-score fold over
   * every pattern match of every visible element.
   */
  lemma ScanOutcome(engine: Engine, pats: Patterns, container: NodeId)
    ensures var els := AllElements(engine, container, PriceSelectors);
      var s := ScanSelectors(engine, pats, container, PriceSelectors, Best(None, 0));
      && (s.Hit? <==> FirstSome(Candidates(els, DataPrice)).Some?)
      && (s.Hit? ==> s.price == FirstSome(Candidates(els, DataPrice)).value)
      && (s.Pending? ==> s.best == FoldBest(Best(None, 0), ElementCandidates(els, pats)))
  {
    var els := AllElements(engine, container, PriceSelectors);
    ScanSelectorsFlat(engine, pats, container, PriceSelectors, Best(None, 0));
    ScanElementsHit(els, pats, Best(None, 0));
    if FirstSome(Candidates(els, DataPrice)).None? {
      ScanElementsPending(els, pats, Best(None, 0));
    }
  }

  // ------------------------------------------------------------ the fallbacks

  /** `container.textContent || ""`. */
  function ContainerText(page: Page, container: NodeId): string {
    if container in page.tree then page.tree[container].text else ""
  }

  /** Fallback 1, one pattern: its first match in the container text, cleaned. */
  function ContainerProbe(pats: Patterns, text: string): nat -> Option<string> {
    (i: nat) => match pats.first(text, i)
      case Some(m) => Some(CleanPriceText(m))
      case None => None
  }

  const StrongPatterns: seq<nat> := [0, 1, 2, 3]
  const StrongestPatterns: seq<nat> := [0, 1, 2]

  /** A character of `[\d.,]` somewhere in `s`. */
  predicate HasPriceChar(s: string) {
    exists i :: 0 <= i < |s| && IsNumeric(s[i])
  }

  /** One of `$ € £ ₪ ₹` somewhere in `s`. */
  predicate HasCurrencySymbol(s: string) {
    exists i :: 0 <= i < |s| && s[i] in {'$', '€', '£', '₪', '₹'}
  }

  /** Fallback 2, one body match: kept when its cleaned form is non-empty with a digit-like character and a currency symbol. */
  function BodyMatch(m: string): (r: Option<string>)
    ensures r.Some? ==> r.value != "" && HasPriceChar(r.value) && HasCurrencySymbol(r.value)
  {
    var cleaned := CleanPriceText(m);
    if cleaned != "" && HasPriceChar(cleaned) && HasCurrencySymbol(cleaned) then Some(cleaned) else None
  }

  /** Fallback 2, one pattern: its first acceptable match in the body text. */
  function BodyProbe(pats: Patterns, body: string): nat -> Option<string> {
    (i: nat) => FirstSome(Candidates(pats.all(body, i), BodyMatch))
  }

  /** Fallback 3: `${currency} ${amount}`.trim() when the amount meta tag has content. */
  function MetaPrice(page: Page): Option<string> {
    if page.metaPriceAmount != "" then Some(Trim(page.metaPriceCurrency + " " + page.metaPriceAmount)) else None
  }

  /**
   * The meta tier tests only that the amount is non-empty, so a blank amount
   * with no currency yields the empty string rather than the sentinel.
   */
  lemma BlankMetaAmountGivesEmptyPrice(page: Page)
    requires page.metaPriceAmount != "" && AllSpace(page.metaPriceAmount)
    requires page.metaPriceCurrency == ""
    ensures MetaPrice(page) == Some("")
  {
    var joined := page.metaPriceCurrency + " " + page.metaPriceAmount;
    assert forall i :: 0 <= i < |joined| ==> IsSpace(joined[i]) by {
      forall i | 0 <= i < |joined| ensures IsSpace(joined[i]) {
        if i > 0 { assert joined[i] == page.metaPriceAmount[i - 1]; }
      }
    }
  }

  /** The scored tier: the data-attribute price, else the best match cleaned, if any. */
  function ScanTier(s: Scan): Option<string> {
    match s
    case Hit(p) => Some(p)
    case Pending(best) => if best.price.Some? && best.price.value != "" then Some(CleanPriceText(best.price.value)) else None
  }

  /** Fallback 1 over the container text. */
  function ContainerPrice(pats: Patterns, text: string): Option<string> {
    FirstSome(Candidates(StrongPatterns, ContainerProbe(pats, text)))
  }

  /** Fallback 2 over the body text. */
  function BodyPrice(pats: Patterns, body: string): Option<string> {
    FirstSome(Candidates(StrongestPatterns, BodyProbe(pats, body)))
  }

  /**
   * The price `extractPrice` returns: the first tier that yields one, in the
   * order structured data, scored scan, container text, body text, meta
   * tags; the sentinel when none does.
   */
  function Price(engine: Engine, pats: Patterns, page: Page, container: NodeId): string {
    match StructuredPrice(page.ldJson)
    case Some(p) => p
    case None =>
      match ScanTier(ScanSelectors(engine, pats, container, PriceSelectors, Best(None, 0)))
      case Some(p) => p
      case None =>
        match ContainerPrice(pats, ContainerText(page, container))
        case Some(p) => p
        case None =>
          match BodyPrice(pats, page.bodyText)
          case Some(p) => p
          case None =>
            match MetaPrice(page)
            case Some(p) => p
            case None => PriceNotFound
  }

  /**
   * The ends of `extractPrice`'s tier order: a JSON-LD offer wins over every
   * other tier, and the sentinel comes back when every tier is empty.
   */
  lemma PriceTierOrder(engine: Engine, pats: Patterns, page: Page, container: NodeId)
    ensures StructuredPrice(page.ldJson).Some? ==> Price(engine, pats, page, container) == StructuredPrice(page.ldJson).value
    ensures && StructuredPrice(page.ldJson).None?
            && ScanTier(ScanSelectors(engine, pats, container, PriceSelectors, Best(None, 0))).None?
            && ContainerPrice(pats, ContainerText(page, container)).None?
            && BodyPrice(pats, page.bodyText).None?
            && MetaPrice(page).None?
            ==> Price(engine, pats, page, container) == PriceNotFound
  {
  }

  /**
   * Each of the six currency patterns needs a `[\d,]` run or a digit to
   * match, so every match the engine reports holds a `[\d.,]` character.
   */
  ghost predicate MatchesHavePriceChar(pats: Patterns) {
    forall text: string, i: nat :: pats.first(text, i).Some? ==> HasPriceChar(pats.first(text, i).value)
  }

  /** The sentinel holds no `[\d.,]` character and no currency symbol. */
  lemma SentinelHasNoPriceChar()
    ensures !HasPriceChar(PriceNotFound) && !HasCurrencySymbol(PriceNotFound)
  {
    forall i | 0 <= i < |PriceNotFound|
      ensures !IsNumeric(PriceNotFound[i]) && PriceNotFound[i] !in {'$', '€', '£', '₪', '₹'}
    {
      assert PriceNotFound == ['P', 'r', 'i', 'c', 'e', ' ', 'n', 'o', 't', ' ', 'f', 'o', 'u', 'n', 'd'];
    }
  }

  /** Cleaning keeps every character other than whitespace, so a `[\d.,]` character survives it. */
  lemma CleanKeepsPriceChar(s: string)
    requires HasPriceChar(s)
    ensures HasPriceChar(CleanPriceText(s))
  {
    var i :| 0 <= i < |s| && IsNumeric(s[i]);
    NormalizeKeeps(s, i);
    var n := Normalize(s);
    var j :| 0 <= j < |n| && n[j] == s[i];
    var m := SpaceBeforeCode(n);
    SpaceBeforeCodeInserts(n);
    SpacesInsertedKeeps(n, m, j);
    var k :| 0 <= k < |m| && m[k] == s[i];
    SpaceAfterCodeInserts(m);
    SpacesInsertedKeeps(m, SpaceAfterCode(m), k);
  }

  lemma {:induction false} PatternCandidatesPriceChar(e: Element, text: string, pats: Patterns, k: nat)
    requires MatchesHavePriceChar(pats)
    ensures forall j :: 0 <= j < |PatternCandidates(e, text, pats, k)| ==> HasPriceChar(PatternCandidates(e, text, pats, k)[j].text)
    decreases PatternCount - k
  {
    hide ScorePriceCandidate;
    if k < PatternCount {
      PatternCandidatesPriceChar(e, text, pats, k + 1);
    }
  }

  /** Every scored match of the scan holds a `[\d.,]` character. */
  lemma {:induction false} ElementCandidatesPriceChar(els: seq<Element>, pats: Patterns)
    requires MatchesHavePriceChar(pats)
    ensures forall j :: 0 <= j < |ElementCandidates(els, pats)| ==> HasPriceChar(ElementCandidates(els, pats)[j].text)
    decreases |els|
  {
    if els != [] {
      ElementCandidatesPriceChar(els[1..], pats);
      if els[0].visible {
        PatternCandidatesPriceChar(els[0], Trim(els[0].text), pats, 0);
      }
    }
  }

  /** The container tier cleans a match, so what it yields holds a `[\d.,]` character. */
  lemma ContainerPriceHasPriceChar(pats: Patterns, text: string)
    requires MatchesHavePriceChar(pats)
    ensures ContainerPrice(pats, text).Some? ==> HasPriceChar(ContainerPrice(pats, text).value)
  {
    var cands := Candidates(StrongPatterns, ContainerProbe(pats, text));
    if FirstSome(cands).Some? {
      var k :| 0 <= k < |cands| && cands[k] == FirstSome(cands);
      CleanKeepsPriceChar(pats.first(text, StrongPatterns[k]).value);
    }
  }

  /** The body tier keeps only matches with a currency symbol. */
  lemma BodyPriceHasSymbol(pats: Patterns, body: string)
    ensures BodyPrice(pats, body).Some? ==> HasCurrencySymbol(BodyPrice(pats, body).value)
  {
    var cands := Candidates(StrongestPatterns, BodyProbe(pats, body));
    if FirstSome(cands).Some? {
      var k :| 0 <= k < |cands| && cands[k] == FirstSome(cands);
      var inner := Candidates(pats.all(body, StrongestPatterns[k]), BodyMatch);
      var j :| 0 <= j < |inner| && inner[j] == FirstSome(inner);
    }
  }

  /**
   * "Price not found" comes back only when every tier failed, or when the
   * page spells that text out itself in a JSON-LD offer, a data attribute or
   * the meta tags: the scored matches, the container text and the body text
   * never produce it.
   */
  lemma SentinelOnlyWhenTiersFail(engine: Engine, pats: Patterns, page: Page, container: NodeId)
    requires MatchesHavePriceChar(pats)
    ensures var els := AllElements(engine, container, PriceSelectors);
      Price(engine, pats, page, container) == PriceNotFound ==>
        || (&& StructuredPrice(page.ldJson).None?
            && ScanTier(ScanSelectors(engine, pats, container, PriceSelectors, Best(None, 0))).None?
            && ContainerPrice(pats, ContainerText(page, container)).None?
            && BodyPrice(pats, page.bodyText).None?
            && MetaPrice(page).None?)
        || StructuredPrice(page.ldJson) == Some(PriceNotFound)
        || FirstSome(Candidates(els, DataPrice)) == Some(PriceNotFound)
        || MetaPrice(page) == Some(PriceNotFound)
  {
    hide ScorePriceCandidate, CleanPriceText;
    var els := AllElements(engine, container, PriceSelectors);
    var scan := ScanSelectors(engine, pats, container, PriceSelectors, Best(None, 0));
    SentinelHasNoPriceChar();
    ScanOutcome(engine, pats, container);
    if scan.Pending? && scan.best.price.Some? && scan.best.price.value != "" {
      ElementCandidatesPriceChar(els, pats);
      FoldBestWinner(ElementCandidates(els, pats));
      CleanKeepsPriceChar(scan.best.price.value);
    }
    ContainerPriceHasPriceChar(pats, ContainerText(page, container));
    BodyPriceHasSymbol(pats, page.bodyText);
  }

  /**
   * Below structured data: the first visible element with a data-attribute
   * price wins before any scoring, and otherwise the best-scoring pattern
   * match, cleaned.
   */
  lemma ScannedPriceOrder(engine: Engine, pats: Patterns, page: Page, container: NodeId, els: seq<Element>)
    requires els == AllElements(engine, container, PriceSelectors)
    requires StructuredPrice(page.ldJson).None?
    ensures FirstSome(Candidates(els, DataPrice)).Some? ==>
      Price(engine, pats, page, container) == FirstSome(Candidates(els, DataPrice)).value
    ensures var winner := FoldBest(Best(None, 0), ElementCandidates(els, pats));
      FirstSome(Candidates(els, DataPrice)).None? && winner.price.Some? && winner.price.value != "" ==>
        Price(engine, pats, page, container) == CleanPriceText(winner.price.value)
  {
    ScanOutcome(engine, pats, container);
  }

  /** Fallback 2: the strongest three patterns in turn, each over all its matches in the body. */
  method SearchBody(pats: Patterns, body: string) returns (price: Option<string>)
    ensures price == BodyPrice(pats, body)
  {
    ghost var candidates := Candidates(StrongestPatterns, BodyProbe(pats, body));
    for i := 0 to |StrongestPatterns|
      invariant forall j :: 0 <= j < i ==> candidates[j].None?
    {
      var matches := pats.all(body, StrongestPatterns[i]);
      var found := FirstAccepted(matches, BodyMatch);
      if found.Some? {
        FirstSomeAt(candidates, i);
        return found;
      }
    }
    return None;
  }

  method ExtractPrice(engine: Engine, pats: Patterns, page: Page, container: NodeId) returns (price: string)
    ensures price == Price(engine, pats, page, container)
  {
    var structured := ExtractPriceFromStructuredData(page);
    if structured.Some? {
      return structured.value;
    }
    var scan := ScanPrices(engine, pats, container);
    if scan.Hit? {
      return scan.price;
    }
    if scan.best.price.Some? && scan.best.price.value != "" {
      return CleanPriceText(scan.best.price.value);
    }
    var inContainer := FirstAccepted(StrongPatterns, ContainerProbe(pats, ContainerText(page, container)));
    if inContainer.Some? {
      return inContainer.value;
    }
    var inBody := SearchBody(pats, page.bodyText);
    if inBody.Some? {
      return inBody.value;
    }
    if page.metaPriceAmount != "" {
      return Trim(page.metaPriceCurrency + " " + page.metaPriceAmount);
    }
    return PriceNotFound;
  }
}
