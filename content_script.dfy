/**
 * The content script's dispatcher: the click listener that walks up from
 * the clicked element to an add-to-cart button, the `isProcessing` guard
 * around `handleCartAddition` with its one-second reset timer, the
 * validation and confirmation flow, and the five-minute `checkIfDuplicate`
 * recency test over the stored cart.  Time is an explicit clock: each event
 * carries its `now`, and a pending `setTimeout` is its due time.
 */
module ContentScript {
  import opened Wrappers
  import opened Dom
  import opened Classifier
  import opened Fields
  import opened Pricing
  import opened Records
  import opened Detector
  import opened Storage

  /** `5 * 60 * 1000`: how long a cart entry counts as recently added. */
  const DuplicateWindow: int := 300000
  /** The delay of the `finally` timer that clears `isProcessing`. */
  const ReleaseDelay: int := 1000
  /** The click listener tests the target and at most four ancestors. */
  const ClickDepth: nat := 5

  // ---------------------------------------------------------------- checkIfDuplicate

  /** `item.addedAt || item.timestamp`: a zero or missing `addedAt` falls back to the timestamp. */
  function AddedTime(item: Item): Option<int> {
    if item.addedAt.Some? && item.addedAt.value != 0 then item.addedAt else item.product.timestamp
  }

  /**
   * The test `checkIfDuplicate` applies to one entry: same url or same
   * title, and added less than five minutes ago.  Without any time the
   * difference is `NaN`, and the comparison is false.
   */
  predicate RecentEntry(item: Item, product: Product, now: int) {
    && (item.product.url == product.url || item.product.title == product.title)
    && AddedTime(item).Some?
    && now - AddedTime(item).value < DuplicateWindow
  }

  /** `cart.some(...)`: some entry is a recent addition of the same product. */
  function CheckIfDuplicate(cart: seq<Item>, product: Product, now: int): (r: bool)
    ensures r <==> exists i :: 0 <= i < |cart| && RecentEntry(cart[i], product, now)
    decreases |cart|
  {
    if cart == [] then false
    else RecentEntry(cart[0], product, now) || CheckIfDuplicate(cart[1..], product, now)
  }

  /** An entry with neither `addedAt` nor `timestamp` never makes a product a duplicate. */
  lemma UndatedEntryNeverDuplicate(item: Item, product: Product, now: int)
    requires AddedTime(item).None?
    ensures CheckIfDuplicate([item], product, now) == false
  {
  }

  /** Once every entry is five minutes old, nothing is a duplicate any more. */
  lemma DuplicateWindowExpires(cart: seq<Item>, product: Product, now: int)
    requires forall i :: 0 <= i < |cart| && AddedTime(cart[i]).Some? ==> now - AddedTime(cart[i]).value >= DuplicateWindow
    ensures !CheckIfDuplicate(cart, product, now)
  {
  }

  // ---------------------------------------------------------------- the click walk

  /**
   * The element the click listener hands to `handleCartAddition`: the first
   * of `n` and its ancestors, `budget` of them at most, that
   * `isAddToCartButton` accepts; the walk also stops at an element without
   * a parent.
   */
  function ClickMatch(t: Tree, matches: (Element, string) -> bool, n: NodeId, budget: nat): (r: Option<NodeId>)
    requires WellFormed(t) && n in t
    ensures r.Some? ==> r.value in t
    decreases budget
  {
    if budget == 0 then None
    else if IsActionElement(Some(t[n]), matches) then Some(n)
    else match t[n].parent
      case None => None
      case Some(p) => ClickMatch(t, matches, p, budget - 1)
  }

  /** The `k`-th ancestor is `m`, a button, and every nearer one exists and is not a button. */
  predicate FirstButtonAt(t: Tree, matches: (Element, string) -> bool, n: NodeId, budget: nat, k: nat, m: NodeId)
    requires WellFormed(t) && n in t
  {
    && k < budget
    && Ancestor(t, n, k) == Some(m)
    && IsActionElement(Some(t[m]), matches)
    && forall j :: 0 <= j < k ==> Ancestor(t, n, j).Some? && !IsActionElement(Some(t[Ancestor(t, n, j).value]), matches)
  }

  /**
   * The walk answers the `k`-th ancestor for the smallest `k < budget` whose
   * element is a button, and nothing when none of those ancestors is one.
   */
  lemma {:induction false} ClickMatchIsFirstButton(t: Tree, matches: (Element, string) -> bool, n: NodeId, budget: nat)
    requires WellFormed(t) && n in t
    ensures var r := ClickMatch(t, matches, n, budget);
      && (r.Some? ==> exists k: nat :: FirstButtonAt(t, matches, n, budget, k, r.value))
      && (r.None? ==> forall k :: 0 <= k < budget && Ancestor(t, n, k).Some? ==> !IsActionElement(Some(t[Ancestor(t, n, k).value]), matches))
    decreases budget
  {
    var r := ClickMatch(t, matches, n, budget);
    if budget == 0 {
    } else if IsActionElement(Some(t[n]), matches) {
      assert FirstButtonAt(t, matches, n, budget, 0, n);
    } else if t[n].parent.None? {
      forall k | 0 <= k < budget && Ancestor(t, n, k).Some?
        ensures !IsActionElement(Some(t[Ancestor(t, n, k).value]), matches)
      {
        assert k == 0;
      }
    } else {
      var p := t[n].parent.value;
      ClickMatchIsFirstButton(t, matches, p, budget - 1);
      if r.Some? {
        var k: nat :| FirstButtonAt(t, matches, p, budget - 1, k, r.value);
        assert Ancestor(t, n, k + 1) == Ancestor(t, p, k);
        forall j | 0 <= j < k + 1
          ensures Ancestor(t, n, j).Some? && !IsActionElement(Some(t[Ancestor(t, n, j).value]), matches)
        {
          if j > 0 {
            assert Ancestor(t, n, j) == Ancestor(t, p, j - 1);
          }
        }
        assert FirstButtonAt(t, matches, n, budget, k + 1, r.value);
      } else {
        forall k | 0 <= k < budget && Ancestor(t, n, k).Some?
          ensures !IsActionElement(Some(t[Ancestor(t, n, k).value]), matches)
        {
          if k > 0 {
            assert Ancestor(t, n, k) == Ancestor(t, p, k - 1);
          }
        }
      }
    }
  }

  /** The loop of the click listener: test the element, stop at a button or at the root, else move to the parent. */
  method FindClickedButton(t: Tree, matches: (Element, string) -> bool, target: NodeId) returns (hit: Option<NodeId>)
    requires WellFormed(t) && target in t
    ensures hit == ClickMatch(t, matches, target, ClickDepth)
  {
    var element := target;
    for i := 0 to ClickDepth
      invariant element in t
      invariant ClickMatch(t, matches, element, ClickDepth - i) == ClickMatch(t, matches, target, ClickDepth)
    {
      var isButton := IsAddToCartButton(Some(t[element]), matches);
      if isButton {
        return Some(element);
      }
      if t[element].parent.None? {
        return None;
      }
      element := t[element].parent.value;
    }
    return None;
  }

  // ---------------------------------------------------------------- handleCartAddition

  /** How one `handleCartAddition` call ends. */
  datatype Outcome =
    | Skipped                             // `isProcessing` was set
    | Invalid                             // no usable title
    | Duplicate                           // `checkIfDuplicate` said so
    | Cancelled                           // the confirmation was declined
    | Added(stored: Product, synced: bool) // written to the cart; `synced`: a sync message was sent
    | Failed                              // `addToCart` rejected

  /** `product.title` is truthy and is not the placeholder. */
  predicate UsableTitle(p: Product) {
    p.title != "" && p.title != UnknownProduct
  }

  /**
   * What the handler does with an extracted product once past the guard,
   * given the stored cart and settings, the user's answer to the
   * confirmation, and whether the cart write rejects.
   */
  function Decide(product: Product, cart: seq<Item>, settings: map<string, SettingValue>, now: int, confirmed: bool, writeFails: bool): (r: Outcome)
    ensures r != Skipped
    ensures !UsableTitle(product) ==> r == Invalid
    ensures UsableTitle(product) && CheckIfDuplicate(cart, product, now) ==> r == Duplicate
    ensures r.Added? || r.Failed? ==>
      && UsableTitle(product)
      && !CheckIfDuplicate(cart, product, now)
      && (Truthy(settings, "showConfirmation") ==> confirmed)
    ensures r.Added? <==>
      && UsableTitle(product)
      && !CheckIfDuplicate(cart, product, now)
      && (Truthy(settings, "showConfirmation") ==> confirmed)
      && !writeFails
    ensures r.Added? ==>
      && r.stored == SanitizeProduct(product)
      && (r.synced <==> Truthy(settings, "syncEnabled") && Truthy(settings, "apiEndpoint"))
  {
    if !UsableTitle(product) then Invalid
    else if CheckIfDuplicate(cart, product, now) then Duplicate
    else if Truthy(settings, "showConfirmation") && !confirmed then Cancelled
    else if writeFails then Failed
    else Added(SanitizeProduct(product), Truthy(settings, "syncEnabled") && Truthy(settings, "apiEndpoint"))
  }

  // ---------------------------------------------------------------- the guard and its timers

  /** The `isProcessing` flag and the due times of the reset timers not yet fired. */
  datatype Guard = Guard(processing: bool, timers: seq<int>)

  /** The timers still pending at `now`. */
  function Unfired(timers: seq<int>, now: int): (r: seq<int>)
    ensures forall x :: x in r <==> x in timers && now < x
    decreases |timers|
  {
    if timers == [] then []
    else if now < timers[0] then [timers[0]] + Unfired(timers[1..], now)
    else Unfired(timers[1..], now)
  }

  /** The clock reaches `now`: every timer due by then fires and clears the flag. */
  function Release(g: Guard, now: int): Guard {
    Guard(g.processing && forall i :: 0 <= i < |g.timers| ==> now < g.timers[i], Unfired(g.timers, now))
  }

  /**
   * The guard after one handler call at `now`: a skipped call leaves it
   * alone; any other call leaves a reset timer behind (the `finally`), and
   * only the paths that reach `addToCart` or the `catch` keep the flag set
   * until then.
   */
  function AfterHandler(g: Guard, outcome: Outcome, now: int): Guard {
    if outcome == Skipped then g
    else Guard(outcome.Added? || outcome.Failed?, g.timers + [now + ReleaseDelay])
  }

  /**
   * After any call that got past the guard, the flag is clear once the
   * clock reaches the call's time plus the delay; the early returns clear it
   * at once.
   */
  lemma GuardReleased(g: Guard, outcome: Outcome, now: int, later: int)
    requires outcome != Skipped
    requires now + ReleaseDelay <= later
    ensures !Release(AfterHandler(g, outcome, now), later).processing
    ensures !(outcome.Added? || outcome.Failed?) ==> !AfterHandler(g, outcome, now).processing
  {
    var h := AfterHandler(g, outcome, now);
    assert h.timers[|h.timers| - 1] == now + ReleaseDelay;
  }

  /**
   * A call that reached `addToCart` keeps later clicks out until its own
   * timer, provided no older timer falls due first.
   */
  lemma GuardHolds(g: Guard, outcome: Outcome, now: int, later: int)
    requires outcome.Added? || outcome.Failed?
    requires later < now + ReleaseDelay
    requires forall i :: 0 <= i < |g.timers| ==> later < g.timers[i]
    ensures Release(AfterHandler(g, outcome, now), later).processing
  {
  }

  /**
   * The reset timers are not tied to the call that scheduled them: a timer
   * left by an earlier early return clears the flag of a later call that
   * reached `addToCart`, before that call's own second has passed.
   */
  lemma StaleTimerReleasesLaterCall(g: Guard, product: Product, synced: bool, now: int, due: int)
    requires due in g.timers
    requires now <= due < now + ReleaseDelay
    ensures AfterHandler(g, Added(product, synced), now).processing
    ensures !Release(AfterHandler(g, Added(product, synced), now), due).processing
  {
    var h := AfterHandler(g, Added(product, synced), now);
    var i :| 0 <= i < |g.timers| && g.timers[i] == due;
    assert h.timers[i] == due;
  }

  /** What one handler call returns and leaves behind: its outcome, the guard, and the stored cart. */
  datatype Step = Step(outcome: Outcome, guard: Guard, cart: Option<seq<Item>>)

  /**
   * One `handleCartAddition` call at `now` on the extracted `product`, from
   * the guard `g` and the stored cart and settings.
   */
  function Handle(g: Guard, cart: Option<seq<Item>>, settings: Option<map<string, SettingValue>>, product: Product,
                  now: int, confirmed: bool, writeFails: bool): Step
  {
    if g.processing then Step(Skipped, g, cart)
    else
      var outcome := Decide(product, CartOf(cart), SettingsOf(settings), now, confirmed, writeFails);
      Step(outcome, AfterHandler(g, outcome, now),
           if outcome.Added? then Some(Upsert(CartOf(cart), outcome.stored, now)) else cart)
  }

  /**
   * While the flag is set a call changes nothing.  Otherwise the flag is clear
   * again one delay later on every path, only an `Added` call writes the cart,
   * and the cart it writes holds the sanitized product and keeps entries unique.
   */
  lemma HandleEffects(g: Guard, cart: Option<seq<Item>>, settings: Option<map<string, SettingValue>>, product: Product,
                      now: int, confirmed: bool, writeFails: bool)
    ensures var s := Handle(g, cart, settings, product, now, confirmed, writeFails);
      && (g.processing ==> s == Step(Skipped, g, cart))
      && (!g.processing ==> s.outcome != Skipped && !Release(s.guard, now + ReleaseDelay).processing)
      && (!s.outcome.Added? ==> s.cart == cart)
      && (s.outcome.Added? ==> s.cart.Some? && exists k :: 0 <= k < |s.cart.value| && s.cart.value[k].product == SanitizeProduct(product))
      && (s.outcome.Added? && UniqueEntries(CartOf(cart)) ==> UniqueEntries(s.cart.value))
  {
    if !g.processing {
      var outcome := Decide(product, CartOf(cart), SettingsOf(settings), now, confirmed, writeFails);
      GuardReleased(g, outcome, now, now + ReleaseDelay);
      if outcome.Added? {
        var written := Upsert(CartOf(cart), outcome.stored, now);
        UpsertShape(CartOf(cart), outcome.stored, now);
        match FindEntry(CartOf(cart), outcome.stored)
        case Some(i) => assert written[i].product == SanitizeProduct(product);
        case None => assert written[0].product == SanitizeProduct(product);
        if UniqueEntries(CartOf(cart)) {
          UpsertKeepsEntriesUnique(CartOf(cart), outcome.stored, now);
        }
      }
    }
  }

  /** The module-level state of the content script. */
  class ScriptState {
    /** `isProcessing`. */
    var isProcessing: bool
    /** The due times of the `setTimeout(() => isProcessing = false, 1000)` calls not yet run. */
    var releaseTimers: seq<int>
    /** The page's `CartDetector`. */
    const detector: CartDetector
    /** The extension's storage area. */
    const storage: StorageHelper

    function GuardState(): Guard
      reads this
    {
      Guard(isProcessing, releaseTimers)
    }

    constructor(detector: CartDetector, storage: StorageHelper)
      ensures GuardState() == Guard(false, [])
      ensures this.detector == detector && this.storage == storage
    {
      isProcessing := false;
      releaseTimers := [];
      this.detector := detector;
      this.storage := storage;
    }

    /** The event loop reaches `now`: the reset timers due by then run. */
    method AdvanceClock(now: int)
      modifies this
      ensures GuardState() == Release(old(GuardState()), now)
    {
      isProcessing := isProcessing && forall i :: 0 <= i < |releaseTimers| ==> now < releaseTimers[i];
      releaseTimers := Unfired(releaseTimers, now);
    }

    /** The `finally` block: schedule the reset one second from now. */
    method ScheduleRelease(now: int)
      modifies this
      ensures isProcessing == old(isProcessing)
      ensures releaseTimers == old(releaseTimers) + [now + ReleaseDelay]
    {
      releaseTimers := releaseTimers + [now + ReleaseDelay];
    }

    /**
     * `handleCartAddition` for a click on `clicked` at time `now`.
     * `encodedId` is the detector's `btoa` of host and time, `confirmed` the
     * user's answer to the modal (false when it times out or fails), and
     * `writeFails` whether `chrome.storage.local.set` rejects the cart.
     */
    method HandleCartAddition(engine: Engine, pats: Patterns, page: Page, clicked: NodeId, now: int,
                              encodedId: string, confirmed: bool, writeFails: bool)
      returns (outcome: Outcome)
      requires WellFormed(page.tree) && clicked in page.tree
      modifies this, storage
      ensures Step(outcome, GuardState(), storage.globalCart)
        == Handle(old(GuardState()), old(storage.globalCart), old(storage.settings),
                  ProductInfo(engine, pats, page, clicked, now, encodedId), now, confirmed, writeFails)
      ensures storage.settings == old(storage.settings)
    {
      hide ProductInfo;
      if isProcessing {
        return Skipped;
      }
      isProcessing := true;
      var product := detector.ExtractProductInfo(engine, pats, page, clicked, now, encodedId);
      outcome := Process(product, now, confirmed, writeFails);
    }

    /** The body of the `try` block once the product is extracted, and its `finally`. */
    method Process(product: Product, now: int, confirmed: bool, writeFails: bool) returns (outcome: Outcome)
      modifies this, storage
      ensures Step(outcome, GuardState(), storage.globalCart)
        == Handle(Guard(false, old(releaseTimers)), old(storage.globalCart), old(storage.settings), product, now, confirmed, writeFails)
      ensures storage.settings == old(storage.settings)
    {
      hide SanitizeProduct;
      if product.title == "" || product.title == UnknownProduct {
        isProcessing := false;
        ScheduleRelease(now);
        return Invalid;
      }
      var cart := storage.GetCart();
      var isDupe := CheckIfDuplicate(cart, product, now);
      if isDupe {
        isProcessing := false;
        ScheduleRelease(now);
        return Duplicate;
      }
      var settings := storage.GetSettings();
      if Truthy(settings, "showConfirmation") && !confirmed {
        isProcessing := false;
        ScheduleRelease(now);
        return Cancelled;
      }
      var sanitized := SanitizeProduct(product);
      if writeFails {
        isProcessing := true;
        ScheduleRelease(now);
        return Failed;
      }
      var _ := storage.AddToCart(sanitized, now);
      isProcessing := true;
      var synced := Truthy(settings, "syncEnabled") && Truthy(settings, "apiEndpoint");
      ScheduleRelease(now);
      return Added(sanitized, synced);
    }

    /**
     * One click at time `now`: the due reset timers run, the listener walks
     * up from `target`, and a button found there goes to the handler.
     */
    method OnClick(engine: Engine, pats: Patterns, page: Page, target: NodeId, now: int,
                   encodedId: string, confirmed: bool, writeFails: bool)
      returns (outcome: Option<Outcome>)
      requires WellFormed(page.tree) && target in page.tree
      modifies this, storage
      ensures outcome.None? <==> ClickMatch(page.tree, engine.matches, target, ClickDepth).None?
      ensures outcome.None? ==> GuardState() == Release(old(GuardState()), now) && storage.globalCart == old(storage.globalCart)
      ensures outcome.Some? ==>
        var button := ClickMatch(page.tree, engine.matches, target, ClickDepth).value;
        Step(outcome.value, GuardState(), storage.globalCart)
          == Handle(Release(old(GuardState()), now), old(storage.globalCart), old(storage.settings),
                    ProductInfo(engine, pats, page, button, now, encodedId), now, confirmed, writeFails)
      ensures storage.settings == old(storage.settings)
    {
      hide ProductInfo;
      AdvanceClock(now);
      var hit := FindClickedButton(page.tree, engine.matches, target);
      if hit.None? {
        return None;
      }
      var result := HandleCartAddition(engine, pats, page, hit.value, now, encodedId, confirmed, writeFails);
      return Some(result);
    }
  }
}
