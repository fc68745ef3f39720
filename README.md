# Universal Cart Tracker: a verified model of the detection core

The extension watches clicks on shopping pages. When the clicked element (or
one of its first four ancestors) looks like an add-to-cart control, the
content script asks the `CartDetector` to locate the product container and
extract a product record. The record has a title, price, image, url, store,
timestamp, id and quantity. The script then checks the stored cart for a
recent addition of the same product, asks for confirmation when the settings
say so, and stores the sanitized record through `StorageHelper`.

This project models that core in Dafny and proves what each step promises.

- `text.dfy` (module `Text`): the JavaScript string built-ins the detector
  relies on, written out: `trim`, `replace(/\s+/g, " ")`, `toLowerCase`
  on ASCII, Latin-1 and Cyrillic capitals, `includes`, `length` and
  `substring` in UTF-16 code units, `split(sep)[0]`,
  `split(/\s+/).length` and `parseInt(_, 10)`.
- `dom.dfy` (module `Dom`): the page. Elements carry the properties the
  detector reads and are linked to their parents through node ids. The
  document-level values (title, body text, meta tags, parsed JSON-LD blocks)
  sit in a `Page`. CSS selector matching is an oracle (`Engine`).
- `catalog.dfy` (module `Catalog`): the selector and keyword lists, in the
  detector's order.
- `tiers.dfy` (module `Tiers`): "the first tier that yields a value wins",
  as a specification function (`FirstSome`) and as a loop (`FirstAccepted`).
- `classifier.dfy` (module `Classifier`): `isAddToCartButton`,
  `isProductContainer` and the container walk of `extractProductInfo`.
- `fields.dfy` (module `Fields`): `extractTitle`, `extractImage` and
  `extractQuantity`.
- `price.dfy` (module `Pricing`): `extractPriceFromStructuredData`,
  `extractPrice` with its scored scan, `scorePriceCandidate` and
  `cleanPriceText`. Regular-expression matching is an oracle (`Patterns`).
- `records.dfy` (module `Records`): the product record, the cart entry and
  settings values.
- `detector.dfy` (module `Detector`): the `CartDetector` class with its
  `recentDetections` field, `isDuplicate`, `extractProductInfo` and
  `sanitizeProduct`.
- `storage.dfy` (module `Storage`): the `StorageHelper` class. The storage
  area is its two fields, `globalCart` and `settings`.
- `content_script.dfy` (module `ContentScript`): `checkIfDuplicate`, the
  click listener's ancestor walk, and `handleCartAddition`.
  - `handleCartAddition` covers the `isProcessing` flag and its one-second
    reset timers, and the validation, duplicate, confirmation and add
    branches.
  - Time is explicit: every event carries its `now`, and a pending
    `setTimeout` is its due time.

Each loop of the source is a method whose `ensures` equates its result with
a specification function. The properties are proved about those functions.

`extractPrice` can return "". Its meta-tag tier tests only that the amount
is non-empty, and then trims `currency + " " + amount`. A blank amount with
no currency therefore trims to "" (`Pricing.BlankMetaAmountGivesEmptyPrice`).

## Model

| member | source | states |
|---|---|---|
| Text.Lower | utils/detector.js:183-185 | `toLowerCase` keeps the length, leaves no ASCII, Latin-1 or Cyrillic capital, and keeps every other character |
| Text.LowerIdempotent | utils/detector.js:183-185 | lower-casing twice is lower-casing once |
| Text.Length | utils/detector.js:275 | `length` counts UTF-16 code units: between one and two per character |
| Text.Prefix | utils/detector.js:667-671 | `substring(0, n)` is a prefix of at most n UTF-16 code units, the whole string when it fits, and cut only where the next character would not fit |
| Text.PrefixIdempotent | utils/detector.js:667-671 | cutting to n units twice is cutting once |
| Text.TrimStart | utils/detector.js:511 | drops exactly the leading whitespace: a suffix whose first character is not whitespace |
| Text.TrimEnd | utils/detector.js:511 | drops exactly the trailing whitespace: a prefix whose last character is not whitespace |
| Text.Trim | utils/detector.js:511 | `trim()` neither starts nor ends with whitespace, and is empty exactly when the input is all whitespace |
| Text.CollapseSpaces | utils/detector.js:274 | `replace(/\s+/g, " ")` never lengthens the text, starts with whitespace iff the input does, and ends with non-whitespace when the input does |
| Text.CollapseSpacesSpacing | utils/detector.js:274 | after the collapse every whitespace character is a plain space, and none is followed by another |
| Text.NormalizeIsNormalized | utils/detector.js:511 | trim-then-collapse yields single plain spaces, none at either end, and is empty exactly when the input is all whitespace |
| Text.CollapseKeeps | utils/detector.js:511 | a non-whitespace character survives the whitespace collapse |
| Text.NormalizeKeeps | utils/detector.js:511 | a non-whitespace character survives trimming and the collapse |
| Text.CollapseFixes | utils/detector.js:274 | a single-spaced string is left unchanged by the collapse |
| Text.NormalizeIdempotent | utils/detector.js:511 | whitespace normalisation applied twice equals applied once |
| Text.TrimSingleSpacesIsNormalized | utils/detector.js:274 | trimming a string with only single plain spaces gives a normalised string |
| Text.SplitCount | utils/detector.js:498 | `split(/\s+/).length` is at least 1, and 2 for a non-empty all-whitespace string |
| Text.SplitCountRuns | utils/detector.js:498 | `split(/\s+/).length` is exactly one more than the number of maximal whitespace runs (positions holding whitespace not preceded by whitespace) |
| Text.Before | utils/detector.js:292 | `split(sep)[0]` is the prefix up to the first separator and contains none |
| Text.DigitPrefix | utils/detector.js:583 | the longest run of digits at the start of the text |
| Text.ParseInt | utils/detector.js:583 | `parseInt(s, 10)` is a number exactly when digits follow the leading whitespace and optional sign |
| Text.ParseDigits | utils/detector.js:583 | a plain digit string parses to its decimal value |
| Dom.Ancestor | content-script.js:326-327 | the k-th `parentElement`, in the tree when present, the element itself for k = 0 |
| Tiers.FirstSome | utils/detector.js:268-283 | the selector tier yields nothing iff every candidate is rejected, and otherwise yields the earliest accepted candidate |
| Tiers.FirstSomeAt | utils/detector.js:268-283 | candidate k decides when every earlier candidate was rejected |
| Tiers.FirstAccepted | utils/detector.js:268-283 | the first-match loop with early return yields the first accepted candidate |
| Classifier.IsAddToCartButton | utils/detector.js:166-190 | false for no element; true on any selector match whatever the text; otherwise true iff a keyword occurs in lower-cased text + " " + aria-label + " " + title |
| Classifier.WalkStops | utils/detector.js:207-244 | the walk never tests the clicked element, moves up at most 10 parents, stops at the first container-keyword ancestor, and otherwise at the last ancestor reached |
| Classifier.LocateContainer | utils/detector.js:207-215 | the walk loop returns a node of the tree equal to the specified container |
| Fields.TitleCandidate | utils/detector.js:270-277 | no element gives no title; an accepted selector result is normalised and 6 to 299 UTF-16 code units long |
| Fields.PageTitleSegment | utils/detector.js:292 | the page-title fallback contains no `\|` and no `-` |
| Fields.ExtractTitle | utils/detector.js:249-294 | the title loop and its fallbacks compute the specified title |
| Fields.TitleFromSelectors | utils/detector.js:268-283 | the first accepted selector result is the title: normalised, 6 to 299 UTF-16 code units |
| Fields.TitleFallbackOrder | utils/detector.js:285-293 | the title is never empty; without a selector hit it is the trimmed og:title, else the first `\|`/`-` segment of the page title, and "Unknown Product" only when that segment is empty |
| Fields.ImageCandidate | utils/detector.js:540-546 | an accepted image is the element's `src`, starts with "http", and names no placeholder, loading or spinner |
| Fields.ExtractImage | utils/detector.js:523-561 | the image loop and its fallbacks compute the specified image |
| Fields.ImageShape | utils/detector.js:538-560 | the image is an accepted http source, or the non-blank og:image content, or "" |
| Fields.QuantityCandidate | utils/detector.js:580-586 | an accepted quantity lies strictly between 0 and 1000 |
| Fields.QuantityInRange | utils/detector.js:578-595 | the quantity is always in [1, 999], and 1 when no control yields one |
| Fields.ExtractQuantity | utils/detector.js:566-596 | the quantity loop computes the specified quantity |
| Fields.OutOfRangeQuantityRejected | utils/detector.js:583-584 | a control worth 0 or at least 1000 is passed over, not clamped |
| Pricing.SpaceBeforeCode | utils/detector.js:514 | the first code-spacing pass never shortens the text, keeps its first character, and changes nothing shorter than four characters |
| Pricing.SpaceAfterCode | utils/detector.js:515 | the second code-spacing pass never shortens the text, keeps its first character, and changes nothing shorter than four characters |
| Pricing.SpaceBeforeCodeInserts | utils/detector.js:514 | the first pass only puts plain spaces in: deleting them gives back the input |
| Pricing.SpaceAfterCodeInserts | utils/detector.js:515 | the second pass only puts plain spaces in: deleting them gives back the input |
| Pricing.SpacesInsertedRefl | utils/detector.js:514-515 | a text with no spaces put in is related to itself |
| Pricing.SpacesInsertedKeeps | utils/detector.js:514-515 | every character of the input is still in the output |
| Pricing.ConsInserted | utils/detector.js:514-515 | the same text put in front of both sides keeps them related |
| Pricing.ShiftWindows | utils/detector.js:514-515 | a four-character window of `head + rest` inside `rest` is that window of `rest` |
| Pricing.NoNumberBeforeCodeSuffix | utils/detector.js:514-515 | dropping a prefix keeps a text free of a `[\d.,]` character directly before a code |
| Pricing.SpaceBeforeCodeUpperStart | utils/detector.js:514 | three capitals opening the first pass's output already open its input |
| Pricing.SpaceBeforeCodeSeparates | utils/detector.js:514 | after the first pass no `[\d.,]` character directly precedes three capitals |
| Pricing.SpaceAfterCodeStart | utils/detector.js:515 | the second pass keeps the first three characters in place |
| Pricing.SpaceAfterCodeSeparates | utils/detector.js:515 | after the second pass no three capitals directly precede a `[\d.,]` character |
| Pricing.SpaceAfterCodeKeepsSeparation | utils/detector.js:514-515 | the second pass puts no `[\d.,]` character back directly before three capitals |
| Pricing.CleanPriceTextSeparatesCodes | utils/detector.js:507-518 | in cleaned text no `[\d.,]` character touches a three-capital code on either side, and both passes only put spaces in |
| Pricing.SpaceBeforeCodeSingleSpaced | utils/detector.js:514 | the first pass keeps a single-spaced string single-spaced |
| Pricing.SpaceAfterCodeSingleSpaced | utils/detector.js:515 | the second pass keeps a single-spaced string single-spaced |
| Pricing.SuffixSingleSpaced | utils/detector.js:514-515 | a suffix of a single-spaced string is single-spaced |
| Pricing.ConsSingleSpaced | utils/detector.js:514-515 | prefixing text whose spaces are plain and single keeps a string single-spaced |
| Pricing.CleanPriceText | utils/detector.js:507-518 | "Price not found" for empty input; otherwise single plain spaces only, none at either end, and empty exactly when the input is all whitespace |
| Pricing.ScorePriceCandidate | utils/detector.js:478-502 | the score always lies in [-9, 30] |
| Pricing.OldPriceScoresBelowCurrent | utils/detector.js:483-486 | with equal pattern, text and style, an "old"/"was" class scores 15 below a "current"/"sale" class |
| Pricing.OfferPrice | utils/detector.js:306-312 | an offer yields a price iff its price is truthy: "currency price" when the currency is truthy too, else the price alone |
| Pricing.ScriptPrice | utils/detector.js:302-316 | a JSON-LD block yields only non-empty prices |
| Pricing.ScriptPriceUsesFirstOffer | utils/detector.js:304-312 | nothing from an unparsed, non-Product or offer-less block; a single offer prices itself; an offers array prices its first element only, so a first offer without a price gives nothing; an empty array gives nothing |
| Pricing.ExtractPriceFromStructuredData | utils/detector.js:299-322 | the loop over JSON-LD blocks returns the first block's price |
| Pricing.StructuredPriceNonEmpty | utils/detector.js:329-331 | a structured price is never empty, so the truthiness test means "found" |
| Pricing.DataPrice | utils/detector.js:405-415 | an element hands over a data-attribute price only when visible, and the price is non-empty and normalised |
| Pricing.ScanPrices | utils/detector.js:397-431 | the selector × element × pattern loops compute the specified scan |
| Pricing.ScanSelectorList | utils/detector.js:400-431 | the loop over the selectors computes the specified scan from any starting best |
| Pricing.ScanElementList | utils/detector.js:403-430 | the loop over one selector's elements skips hidden ones, returns a data price at once, and otherwise scores |
| Pricing.ScorePatterns | utils/detector.js:418-429 | the loop over the six patterns keeps the match of strictly greatest score |
| Pricing.FoldBestAppend | utils/detector.js:424-427 | the best-so-far update over a concatenation is the update over the parts in turn |
| Pricing.FoldBestFacts | utils/detector.js:424-427 | the best score never drops; it bounds every candidate; it is the first candidate of strictly greatest score, or unchanged |
| Pricing.FoldBestWinner | utils/detector.js:397-431 | from no price and score 0, the winner is the first candidate of strictly greatest score, and there is none iff no candidate scores above 0 |
| Pricing.ScanPatternsIsFold | utils/detector.js:418-429 | all six patterns are tried and scored per element, as one fold |
| Pricing.ScanElementsAppend | utils/detector.js:403-430 | scanning a concatenation scans the first part, then the second unless a data price was handed over |
| Pricing.ScanSelectorsFlat | utils/detector.js:400-431 | the selector-by-selector scan is one scan over all returned elements in order |
| Pricing.ScanElementsHit | utils/detector.js:405-415 | a data-attribute price is handed over iff some visible element has one, and it is the first such |
| Pricing.ScanElementsPending | utils/detector.js:403-430 | without a data price, the scan is the best-score fold over every scored match |
| Pricing.ScanOutcome | utils/detector.js:397-431 | the scored tier: the first data price decides before any scoring; otherwise the best-score fold |
| Pricing.BodyMatch | utils/detector.js:455-458 | a body match is kept only when cleaned non-empty, with a digit-like character and a currency symbol |
| Pricing.BlankMetaAmountGivesEmptyPrice | utils/detector.js:465-470 | a blank meta amount without a currency gives "" |
| Pricing.PriceTierOrder | utils/detector.js:327-472 | a JSON-LD price wins over every other tier; "Price not found" comes back when every tier is empty |
| Pricing.SentinelHasNoPriceChar | utils/detector.js:472 | "Price not found" holds no `[\d.,]` character and no currency symbol |
| Pricing.CleanKeepsPriceChar | utils/detector.js:507-518 | a `[\d.,]` character survives `cleanPriceText` |
| Pricing.PatternCandidatesPriceChar | utils/detector.js:418-429 | every scored match of one element holds a `[\d.,]` character |
| Pricing.ElementCandidatesPriceChar | utils/detector.js:400-431 | every scored match of the scan holds a `[\d.,]` character |
| Pricing.ContainerPriceHasPriceChar | utils/detector.js:437-444 | what the container-text tier yields holds a `[\d.,]` character |
| Pricing.BodyPriceHasSymbol | utils/detector.js:447-462 | what the body-text tier yields holds a currency symbol |
| Pricing.SentinelOnlyWhenTiersFail | utils/detector.js:327-472 | "Price not found" comes back only when every tier failed, or when a JSON-LD offer, a data attribute or the meta tags hold that very text; the scored matches, the container text and the body text never produce it |
| Pricing.ScannedPriceOrder | utils/detector.js:405-435 | below JSON-LD, the first data price wins, and otherwise the cleaned best-scoring match |
| Pricing.SearchBody | utils/detector.js:447-462 | the body loop returns the first acceptable match of the strongest three patterns |
| Pricing.ExtractPrice | utils/detector.js:327-473 | the tier cascade computes the specified price |
| Detector.DetectionCooldown | utils/detector.js:609-623 | a new id is not a duplicate; asked again it is a duplicate exactly within 3000 ms, and a repeat does not restart the cooldown |
| Detector.DetectStepFrame | utils/detector.js:609-623 | only the id asked about joins the remembered set, and other ids leave it once their cooldown is over |
| Detector.ClampQuantity | utils/detector.js:672 | the quantity lies in [1, 999], in-range values are kept, a falsy one becomes 1 |
| Detector.SanitizeProduct | utils/detector.js:664-674 | title, price, image, url and store are cut to 200/50/500/500/100 UTF-16 code units, kept whole when they fit; the quantity is in [1, 999] and kept when already there; id and timestamp unchanged |
| Detector.SanitizeIdempotent | utils/detector.js:664-674 | sanitizing twice equals sanitizing once |
| Detector.ProductInfo | utils/detector.js:195-230 | the id is the encoded id cut to 16 UTF-16 code units; the title is non-empty; the quantity is in [1, 999]; url, store and timestamp come from the page and clock |
| Detector.CartDetector.constructor | utils/detector.js:158-160 | a new detector remembers no detections |
| Detector.CartDetector.IsDuplicate | utils/detector.js:609-623 | the answer and the remembered ids are those of the cooldown step |
| Detector.CartDetector.ExtractProductInfo | utils/detector.js:195-230 | the walk and the four extractors produce the specified record |
| Storage.FindEntry | utils/storage.js:28-31 | `findIndex` gives the first entry with equal url and title, or none when there is none |
| Storage.UpsertShape | utils/storage.js:27-46 | an existing product: same length, the first matching entry rewritten with the product's fields and `updatedAt`, all others unchanged; a new one goes in front with `addedAt`, followed by the old entries in order |
| Storage.UpsertKeepsEntriesUnique | utils/storage.js:28-46 | if no two entries share url and title before `addToCart`, none do after, and the product is in the cart |
| Storage.RemoveById | utils/storage.js:66 | the result keeps exactly the entries whose id differs |
| Storage.RemoveByIdAppend | utils/storage.js:66 | removal distributes over concatenation, so kept entries keep their order |
| Storage.RemoveByIdIdempotent | utils/storage.js:63-69 | removing the same id twice equals removing it once |
| Storage.StatsStep | utils/storage.js:97-102 | one more entry: its store joins the key order if new, and the entry joins its store's group |
| Storage.AbsentStoreHasNoGroup | utils/storage.js:98-101 | a store that is not a key has no entries |
| Storage.StoreOrderDistinct | utils/storage.js:106-107 | no store is listed twice |
| Storage.StoreOrderCoversCart | utils/storage.js:97-102 | every entry's store is listed |
| Storage.StoreOrderFromCart | utils/storage.js:97-102 | every listed store comes from an entry and has at least one entry |
| Storage.GroupTotalGrows | utils/storage.js:101 | appending an entry adds one to the group total when its store is listed |
| Storage.GroupTotalIsCartLength | utils/storage.js:104-110 | the group sizes add up to the cart length |
| Storage.CartStatsCounts | utils/storage.js:92-112 | `totalItems` is the cart length; `stores` is the number of distinct stores; each count is at least 1; counts sum to `totalItems` |
| Storage.CartStatsStores | utils/storage.js:104-110 | the breakdown rows are exactly the stores of the cart's entries |
| Storage.MergeSettingsFacts | utils/storage.js:138 | every incoming key takes its incoming value; other current keys keep theirs; no other key appears; merging again changes nothing |
| Storage.GroupingStep | utils/storage.js:97-101 | one pass of the `forEach` body on a non-inherited store keeps the keys equal to the first-occurrence order and each group equal to its store's entries |
| Storage.GroupByStore | utils/storage.js:96-102 | the `forEach` throws exactly when some entry's store names a truthy `Object.prototype` member (`constructor`, `__proto__`, `toString`, …); otherwise it leaves one key per distinct store, in first-occurrence order, holding exactly that store's entries in cart order |
| Storage.StorageHelper.constructor | utils/storage.js:12-13 | a fresh storage area holds neither key |
| Storage.StorageHelper.GetCart | utils/storage.js:10-18 | the stored cart, or [] when none is stored |
| Storage.StorageHelper.AddToCart | utils/storage.js:23-58 | the in-place update or the front insertion stores and returns the upserted cart; settings untouched |
| Storage.StorageHelper.RemoveFromCart | utils/storage.js:63-74 | stores and returns the cart without that id; settings untouched |
| Storage.StorageHelper.ClearCart | utils/storage.js:79-87 | the stored cart is empty; settings untouched |
| Storage.StorageHelper.GetCartStats | utils/storage.js:92-112 | the promise rejects exactly when some stored entry's store is an inherited `Object.prototype` name; otherwise the grouping loop computes the specified statistics |
| Storage.StorageHelper.GetSettings | utils/storage.js:117-130 | the stored settings, or {autoDetect: true, showConfirmation: true, syncEnabled: false, apiEndpoint: ""} when none are stored |
| Storage.StorageHelper.UpdateSettings | utils/storage.js:135-145 | stores and returns the current settings merged with the incoming ones; the cart untouched |
| ContentScript.CheckIfDuplicate | content-script.js:292-310 | true iff some entry has the same url or title and was added (`addedAt \|\| timestamp`) less than 300000 ms ago |
| ContentScript.UndatedEntryNeverDuplicate | content-script.js:302 | an entry with neither `addedAt` nor `timestamp` never counts |
| ContentScript.DuplicateWindowExpires | content-script.js:299-305 | once every entry is five minutes old nothing is a duplicate |
| ContentScript.ClickMatchIsFirstButton | content-script.js:320-328 | the walk answers the nearest of the target and its ancestors, at most five, that is a button, and nothing when none is |
| ContentScript.FindClickedButton | content-script.js:320-328 | the listener loop finds the element the walk specifies |
| ContentScript.Decide | content-script.js:223-276 | an unusable title is dropped; a duplicate is skipped; a product is added iff usable, not a duplicate, confirmed when confirmation is on, and the write succeeds; the sanitized record is stored; sync iff syncEnabled and apiEndpoint are truthy |
| ContentScript.Unfired | content-script.js:283-285 | the pending reset timers are exactly those not yet due |
| ContentScript.GuardReleased | content-script.js:281-286 | after any call past the guard the flag is clear 1000 ms later; the early returns clear it at once |
| ContentScript.GuardHolds | content-script.js:256-286 | a call that reached `addToCart` keeps the flag set until its timer, unless an older timer falls due first |
| ContentScript.StaleTimerReleasesLaterCall | content-script.js:281-286 | a timer left by an earlier call clears the flag of a later call before that call's own second is up |
| ContentScript.HandleEffects | content-script.js:208-287 | while the flag is set nothing changes; otherwise the flag clears 1000 ms later; only an added product writes the cart, which then holds the sanitized product and keeps entries unique |
| ContentScript.ScriptState.constructor | content-script.js:9-11 | the flag starts clear with no timers pending |
| ContentScript.ScriptState.AdvanceClock | content-script.js:283-285 | the reset timers due by `now` run |
| ContentScript.ScriptState.ScheduleRelease | content-script.js:281-286 | the `finally` adds one timer due 1000 ms later, the flag unchanged |
| ContentScript.ScriptState.HandleCartAddition | content-script.js:208-287 | the outcome, the guard and the stored cart are those of the specified handler call on the extracted record; settings untouched |
| ContentScript.ScriptState.Process | content-script.js:217-286 | the branch flow after extraction matches the specified handler call |
| ContentScript.ScriptState.OnClick | content-script.js:316-329 | the handler runs iff the walk finds a button; without one only due timers run; with one, the outcome, guard and stored cart are those of the handler call on the button the walk found, after the due timers; settings untouched |

## Left out

- Selector matching (`matches`, `querySelector(All)`, with the `i` flag and `:not(...)`) is an oracle over the element tree. A selector that throws behaves as one that matches nothing.
- The `:has-text` removal in `isAddToCartButton` is not modelled. No selector in the catalog contains it, so the replacement never changes a selector.
- Regular-expression matching for the six currency patterns is an oracle (`Patterns`). The global copy used on the body text drops the `i` flag, which is the oracle's business too. The two code-spacing replacements and the whitespace replacements in `cleanPriceText` are written out.
- Text.Lower: maps the ASCII, Latin-1 and Cyrillic capitals only. Capitals of other scripts (Greek, Latin Extended and others) are kept as they are. So are the final-sigma rule and `İ`, which lower-cases to two characters. Every letter of the keyword catalog is covered, but a button text capitalised in those other scripts is not matched.
- Text.Prefix: where `substring` would cut a surrogate pair in half, the source keeps the lone high surrogate. A Dafny `char` cannot hold one, so the model leaves the whole character out and the result is one code unit short.
- Detector.SanitizeProduct: inherits the `Text.Prefix` gap at a surrogate pair cut in half.
- Pricing.SentinelOnlyWhenTiersFail: assumes of the regular-expression oracle what the six currency patterns guarantee, that every match holds a `[\d.,]` character.
- Pricing.ScorePriceCandidate: the computed font size is a whole number of pixels and boldness a flag. `parseFloat` and `getComputedStyle` are browser layout, so a fractional size between 20 and 21 or 30 and 31 is not distinguished.
- `JSON.parse` of JSON-LD blocks is abstracted to an optional parsed record. An offer field is `String(v)` of its value `v` when `v` is truthy, and "" when it is absent or falsy.
- Pricing.OfferPrice: a truthy value whose `String` is "" (such as `[]`) reads as absent. The source would return "" (or the currency and a space) from that block, and `extractPrice` would then move on to the scan. The model moves on to the next JSON-LD block instead.
- Detector.ProductInfo: `generateProductId` is `btoa` of host and `Date.now()`, which the model takes as a parameter. Only the 16-character cut is modelled.
- Time in `isDuplicate` and the handler is an explicit parameter. The `setTimeout` deletions of `recentDetections` run before the next call at a later time.
- `handleCartAddition` is modelled as one atomic call at time `now`. Interleavings of its awaits with other events are not modelled.
- `getCart` and `getSettings` turn a read error into [] and {}. Read errors are not modelled, so the `catch` of `checkIfDuplicate` is not reachable in the model. The one storage failure modelled is a rejected cart write, given as a parameter.
- The confirmation modal is a parameter: the user's answer, false when it times out or fails.
- Notifications, the badge message and the sync message are effects. Only whether the sync message is sent is modelled.
- `observeCartCount`, style injection, the popup and the background script are not part of this model.
- Object key order in `getCartStats` follows insertion order. JavaScript puts integer-like keys (a store named "123") first, and the model does not.
- `notifyCartUpdate` after a cart write is a message to the background script, and is not modelled.
