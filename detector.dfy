/**
 * The `CartDetector` class: the product record `extractProductInfo`
 * assembles from the extractors, the `sanitizeProduct` clean-up, and the
 * three-second `recentDetections` cooldown of `isDuplicate`.
 */
module Detector {
  import opened Wrappers
  import opened Text
  import opened Dom
  import opened Classifier
  import opened Fields
  import opened Pricing
  import opened Records

  /** How long `isDuplicate` remembers an id, in milliseconds. */
  const DetectionTimeout: int := 3000

  /**
   * The detections still remembered at time `now`: each id maps to the time
   * it was added, and its delete timer fires `DetectionTimeout` ms later.
   */
  function Live(recent: map<string, int>, now: int): map<string, int> {
    map id | id in recent && now < recent[id] + DetectionTimeout :: recent[id]
  }

  /** What one `isDuplicate` call answers, and what it leaves remembered. */
  datatype Detection = Detection(duplicate: bool, recent: map<string, int>)

  function DetectStep(recent: map<string, int>, id: string, now: int): Detection {
    var live := Live(recent, now);
    if id in live then Detection(true, live) else Detection(false, live[id := now])
  }

  /**
   * An id not remembered at `t0` is new at `t0`; asked again at `t1`, it is a
   * duplicate exactly while the cooldown started at `t0` lasts, and a repeat
   * does not restart that cooldown.
   */
  lemma DetectionCooldown(recent: map<string, int>, id: string, t0: int, t1: int)
    requires id !in Live(recent, t0)
    requires t0 <= t1
    ensures !DetectStep(recent, id, t0).duplicate
    ensures var again := DetectStep(DetectStep(recent, id, t0).recent, id, t1);
      && (again.duplicate <==> t1 < t0 + DetectionTimeout)
      && (again.duplicate ==> again.recent[id] == t0)
      && (!again.duplicate ==> again.recent[id] == t1)
  {
    var first := DetectStep(recent, id, t0);
    assert first.recent[id] == t0;
    if t1 < t0 + DetectionTimeout {
      assert id in Live(first.recent, t1);
    } else {
      assert id !in Live(first.recent, t1);
    }
  }

  /** Only the id asked about can join the remembered set, and nothing outlives its cooldown. */
  lemma DetectStepFrame(recent: map<string, int>, id: string, now: int, other: string)
    requires other != id
    ensures other in DetectStep(recent, id, now).recent <==> other in recent && now < recent[other] + DetectionTimeout
  {
  }

  /** `product.quantity || 1`, then clamped into [1, 999]. */
  function ClampQuantity(q: int): (r: int)
    ensures 1 <= r <= 999
    ensures 1 <= q <= 999 ==> r == q
    ensures q == 0 ==> r == 1
    ensures q > 999 ==> r == 999
    ensures q < 0 ==> r == 1
  {
    var given := if q == 0 then 1 else q;
    if given > 999 then 999 else if given < 1 then 1 else given
  }

  /**
   * `r` is what `s.substring(0, n)` leaves: a prefix of at most `n` UTF-16
   * code units, all of `s` when it fits, and otherwise cut only where the
   * next character would not fit.
   */
  predicate CutTo(r: string, s: string, n: nat) {
    && r <= s
    && Length(r) <= n
    && (Length(s) <= n ==> r == s)
    && (|r| < |s| ==> n < Length(r) + Units(s[|r|]))
  }

  /**
   * `sanitizeProduct`: title, price, image, url and store cut to 200, 50,
   * 500, 500 and 100 UTF-16 code units, the quantity clamped, the rest untouched.
   */
  function SanitizeProduct(p: Product): (r: Product)
    ensures CutTo(r.title, p.title, 200) && CutTo(r.price, p.price, 50)
    ensures CutTo(r.image, p.image, 500) && CutTo(r.url, p.url, 500)
    ensures CutTo(r.store, p.store, 100)
    ensures 1 <= r.quantity <= 999 && (1 <= p.quantity <= 999 ==> r.quantity == p.quantity)
    ensures r.id == p.id && r.timestamp == p.timestamp
  {
    p.(title := Prefix(p.title, 200),
       price := Prefix(p.price, 50),
       image := Prefix(p.image, 500),
       url := Prefix(p.url, 500),
       store := Prefix(p.store, 100),
       quantity := ClampQuantity(p.quantity))
  }

  /** A sanitized product is left as it is by a second clean-up. */
  lemma SanitizeIdempotent(p: Product)
    ensures SanitizeProduct(SanitizeProduct(p)) == SanitizeProduct(p)
  {
    var r := SanitizeProduct(p);
    PrefixIdempotent(p.title, 200);
    PrefixIdempotent(p.price, 50);
    PrefixIdempotent(p.image, 500);
    PrefixIdempotent(p.url, 500);
    PrefixIdempotent(p.store, 100);
  }

  /**
   * The record `extractProductInfo` returns for a click: page url and host,
   * the detection time, the first 16 code units of the encoded id, and the
   * four fields extracted from the located container.
   */
  function ProductInfo(engine: Engine, pats: Patterns, page: Page, clicked: NodeId, now: int, encodedId: string): (p: Product)
    requires WellFormed(page.tree) && clicked in page.tree
    ensures CutTo(p.id, encodedId, 16)
    ensures p.title != ""
    ensures 1 <= p.quantity <= 999
    ensures p.url == page.url && p.store == page.hostname && p.timestamp == Some(now)
  {
    var container := ContainerOf(page.tree, clicked);
    TitleFallbackOrder(engine, page, container);
    QuantityInRange(engine, container);
    Product(
      id := Prefix(encodedId, 16),
      title := Title(engine, page, container),
      price := Price(engine, pats, page, container),
      image := Image(engine, page, container),
      url := page.url,
      store := page.hostname,
      timestamp := Some(now),
      quantity := Quantity(engine, container))
  }

  class CartDetector {
    /** The ids seen by `isDuplicate`, each with the time it was added. */
    var recentDetections: map<string, int>

    constructor()
      ensures recentDetections == map[]
    {
      recentDetections := map[];
    }

    /**
     * `isDuplicate` at time `now`: the delete timers due by `now` have fired;
     * a remembered id is a duplicate, a new one is remembered from `now`.
     */
    method IsDuplicate(productId: string, now: int) returns (duplicate: bool)
      modifies this
      ensures Detection(duplicate, recentDetections) == DetectStep(old(recentDetections), productId, now)
    {
      recentDetections := Live(recentDetections, now);
      if productId in recentDetections {
        return true;
      }
      recentDetections := recentDetections[productId := now];
      return false;
    }

    /**
     * `extractProductInfo`: walk up to the container, then run the four
     * extractors on it.  `encodedId` is `btoa(hostname + "-" + now)`.
     */
    method ExtractProductInfo(engine: Engine, pats: Patterns, page: Page, clicked: NodeId, now: int, encodedId: string)
      returns (product: Product)
      requires WellFormed(page.tree) && clicked in page.tree
      ensures product == ProductInfo(engine, pats, page, clicked, now, encodedId)
    {
      var container := LocateContainer(page.tree, clicked);
      var title := ExtractTitle(engine, page, container);
      var price := ExtractPrice(engine, pats, page, container);
      var image := ExtractImage(engine, page, container);
      var quantity := ExtractQuantity(engine, container);
      product := Product(
        id := Prefix(encodedId, 16),
        title := title,
        price := price,
        image := image,
        url := page.url,
        store := page.hostname,
        timestamp := Some(now),
        quantity := quantity);
    }
  }
}
