/**
 * The tool layer of the current tree: product search with its two fallback
 * passes, the size-advice cascade, the zip-gated shipping estimate, order
 * lookup and the 60-minute cancellation rule. The product and order files are
 * passed in as sequences; an order file that cannot be read is `None`.
 * Timestamps are whole seconds, and the wall clock is the `clock` parameter.
 */
module Tools {
  import opened Wrappers
  import opened Text
  import opened Json
  import opened Validation
  import opened Catalog

  // ================================================================ product_search

  /** The `tags` argument: comma-separated text, or a list that is already split. */
  datatype TagsArg = TagText(text: string) | TagList(items: seq<string>)

  function StripAll(parts: seq<string>): (r: seq<string>)
    ensures |r| == |parts|
    ensures forall k :: 0 <= k < |parts| ==> r[k] == Strip(parts[k])
  {
    seq(|parts|, k requires 0 <= k < |parts| => Strip(parts[k]))
  }

  /** `tags_list`: empty for a missing or empty argument, else the stripped comma-separated pieces or the list. */
  function TagsList(tags: Option<TagsArg>): (wanted: seq<string>)
    ensures tags.Some? && tags.value.TagText? && tags.value.text != "" ==> |wanted| == |Split(tags.value.text, ',')|
    ensures tags.Some? && tags.value.TagList? ==> wanted == tags.value.items
  {
    match tags
    case None => []
    case Some(TagText(s)) => if s == "" then [] else StripAll(Split(s, ','))
    case Some(TagList(l)) => l
  }

  predicate WithinBudget(p: Product, priceMax: Option<int>) {
    priceMax.None? || p.price <= priceMax.value
  }

  predicate HasAllTags(p: Product, wanted: seq<string>) {
    forall t :: t in wanted ==> t in p.tags
  }

  predicate HasSomeTag(p: Product, wanted: seq<string>) {
    exists t :: t in wanted && t in p.tags
  }

  /**
   * The strict pass: within budget, and then all requested tags when tags were
   * given, otherwise a non-empty query occurring in the title, ignoring case.
   */
  predicate StrictMatch(p: Product, query: string, priceMax: Option<int>, wanted: seq<string>) {
    && WithinBudget(p, priceMax)
    && if |wanted| > 0 then HasAllTags(p, wanted)
       else query != "" && Contains(Lower(p.title), Lower(query))
  }

  /** The products of the strict pass, in catalog order. */
  function StrictMatches(products: seq<Product>, query: string, priceMax: Option<int>, wanted: seq<string>): (r: seq<Product>)
    ensures forall x :: x in r <==> x in products && StrictMatch(x, query, priceMax, wanted)
    decreases |products|
  {
    if |products| == 0 then []
    else
      var last := products[|products| - 1];
      var front := products[..|products| - 1];
      assert products == front + [last];
      var r := StrictMatches(front, query, priceMax, wanted);
      if StrictMatch(last, query, priceMax, wanted) then r + [last] else r
  }

  /**
   * The partial-tag pass over the products still to scan (`rest`), starting
   * from the results so far: appends in-budget products not yet present that
   * carry some requested tag, and stops once there are two.
   */
  function PartialFill(rest: seq<Product>, priceMax: Option<int>, wanted: seq<string>, acc: seq<Product>): (r: seq<Product>)
    requires |acc| < 2
    ensures |r| <= 2
    ensures acc <= r
    ensures forall x :: x in r ==> x in acc || (x in rest && WithinBudget(x, priceMax) && HasSomeTag(x, wanted))
    ensures |r| < 2 ==> forall x :: x in rest && WithinBudget(x, priceMax) && HasSomeTag(x, wanted) ==> x in r
    decreases |rest|
  {
    if |rest| == 0 then acc
    else
      var p := rest[0];
      assert rest == [p] + rest[1..];
      if !WithinBudget(p, priceMax) || p in acc then PartialFill(rest[1..], priceMax, wanted, acc)
      else
        var acc' := if HasSomeTag(p, wanted) then acc + [p] else acc;
        if |acc'| >= 2 then acc'
        else
          var r := PartialFill(rest[1..], priceMax, wanted, acc');
          assert HasSomeTag(p, wanted) ==> r[|acc|] == p;
          r
  }

  /** The broader pass: in budget, not already a result, and a dress by title or tagged "midi". */
  predicate BroaderMatch(p: Product, priceMax: int, results: seq<Product>) {
    && p.price <= priceMax
    && p !in results
    && (Contains(Lower(p.title), "dress") || "midi" in p.tags)
  }

  function BroaderMatches(products: seq<Product>, priceMax: int, results: seq<Product>): (r: seq<Product>)
    ensures forall x :: x in r <==> x in products && BroaderMatch(x, priceMax, results)
    decreases |products|
  {
    if |products| == 0 then []
    else
      var last := products[|products| - 1];
      var front := products[..|products| - 1];
      assert products == front + [last];
      var r := BroaderMatches(front, priceMax, results);
      if BroaderMatch(last, priceMax, results) then r + [last] else r
  }

  /** The results after the three passes, before the final ranking. */
  function Candidates(products: seq<Product>, query: string, priceMax: Option<int>, tags: Option<TagsArg>): (r: seq<Product>)
    ensures forall x :: x in r ==> x in products && WithinBudget(x, priceMax)
    ensures var partial := FirstPasses(products, query, priceMax, TagsList(tags));
      && partial <= r
      && (priceMax.Some? && |partial| < 2 ==>
            var more := |BroaderMatches(products, priceMax.value, partial)|;
            |r| == if |partial| + more < 2 then |partial| + more else 2)
  {
    var partial := FirstPasses(products, query, priceMax, TagsList(tags));
    if |partial| < 2 && priceMax.Some? then
      partial + CheapestBroader(products, priceMax.value, partial, 2 - |partial|)
    else partial
  }

  /** The strict pass, topped up by the partial-tag pass when fewer than two matched and several tags were asked for. */
  function FirstPasses(products: seq<Product>, query: string, priceMax: Option<int>, wanted: seq<string>): (r: seq<Product>)
    ensures forall x :: x in r ==> x in products && WithinBudget(x, priceMax)
    ensures StrictMatches(products, query, priceMax, wanted) <= r
  {
    var strict := StrictMatches(products, query, priceMax, wanted);
    if |strict| < 2 && |wanted| > 1 then PartialFill(products, priceMax, wanted, strict) else strict
  }

  /**
   * The broader pass, cheapest first, cut to the places still open: as many
   * broader matches as fit, none dearer than one left out, and of equally
   * priced ones those that come first in the catalog.
   */
  function CheapestBroader(products: seq<Product>, priceMax: int, results: seq<Product>, n: nat): (r: seq<Product>)
    ensures var broader := BroaderMatches(products, priceMax, results);
      && |r| == (if |broader| < n then |broader| else n)
      && (forall x :: x in r ==> x in products && BroaderMatch(x, priceMax, results))
      && (forall i, j :: 0 <= i < j < |r| ==> r[i].price <= r[j].price)
      && (forall x, y :: x in r && y in multiset(broader) - multiset(r) ==> x.price <= y.price)
      && forall k :: WithKey(r, ByPrice, k) <= WithKey(broader, ByPrice, k)
  {
    CheapestByPrice(BroaderMatches(products, priceMax, results), n);
    Take(Sort(BroaderMatches(products, priceMax, results), ByPrice), n)
  }

  /** What product_search returns: the candidates ranked by relevance, then the first two. */
  function SearchResults(products: seq<Product>, query: string, priceMax: Option<int>, tags: Option<TagsArg>): (r: seq<Product>)
    ensures |r| <= 2
  {
    Take(Sort(Candidates(products, query, priceMax, tags), ByRelevance(TagsList(tags))), 2)
  }

  /** The strict pass of product_search (src/agent/tools/tools.py, lines 60-73). */
  method StrictPass(products: seq<Product>, query: string, priceMax: Option<int>, wanted: seq<string>)
    returns (results: seq<Product>)
    ensures results == StrictMatches(products, query, priceMax, wanted)
  {
    results := [];
    var i := 0;
    while i < |products|
      invariant 0 <= i <= |products|
      invariant results == StrictMatches(products[..i], query, priceMax, wanted)
    {
      var p := products[i];
      assert products[..i + 1] == products[..i] + [p];
      if priceMax.Some? && p.price > priceMax.value {
        // over budget: skipped
      } else if |wanted| > 0 {
        if forall t | t in wanted :: t in p.tags {
          results := results + [p];
        }
      } else if query != "" {
        if Contains(Lower(p.title), Lower(query)) {
          results := results + [p];
        }
      }
      i := i + 1;
    }
    assert products[..|products|] == products;
  }

  /** The partial-tag pass: appends to `results` until it holds two products. */
  method PartialPass(products: seq<Product>, priceMax: Option<int>, wanted: seq<string>, strict: seq<Product>)
    returns (results: seq<Product>)
    requires |strict| < 2
    ensures results == PartialFill(products, priceMax, wanted, strict)
  {
    results := strict;
    var j := 0;
    while j < |products|
      invariant 0 <= j <= |products|
      invariant |results| < 2
      invariant PartialFill(products, priceMax, wanted, strict) == PartialFill(products[j..], priceMax, wanted, results)
    {
      var p := products[j];
      assert products[j..][1..] == products[j + 1..];
      if priceMax.Some? && p.price > priceMax.value {
        // over budget: skipped
      } else if p !in results {
        if exists t | t in wanted :: t in p.tags {
          results := results + [p];
        }
        if |results| >= 2 {
          break;
        }
      }
      j := j + 1;
    }
  }

  /** The broader pass: collects dresses and midi items within budget that are not yet results. */
  method BroaderPass(products: seq<Product>, priceMax: int, results: seq<Product>)
    returns (broader: seq<Product>)
    ensures broader == BroaderMatches(products, priceMax, results)
  {
    broader := [];
    var k := 0;
    while k < |products|
      invariant 0 <= k <= |products|
      invariant broader == BroaderMatches(products[..k], priceMax, results)
    {
      var p := products[k];
      assert products[..k + 1] == products[..k] + [p];
      if p.price <= priceMax && p !in results {
        if Contains(Lower(p.title), "dress") || "midi" in p.tags {
          broader := broader + [p];
        }
      }
      k := k + 1;
    }
    assert products[..|products|] == products;
  }

  /** The strict pass, then the partial-tag pass when it is due. */
  method EarlyPasses(products: seq<Product>, query: string, priceMax: Option<int>, wanted: seq<string>)
    returns (results: seq<Product>)
    ensures results == FirstPasses(products, query, priceMax, wanted)
  {
    results := StrictPass(products, query, priceMax, wanted);
    if |results| < 2 && |wanted| > 1 {
      results := PartialPass(products, priceMax, wanted, results);
    }
  }

  /** The three passes of product_search: the candidates before the final ranking. */
  method SearchCandidates(products: seq<Product>, query: string, priceMax: Option<int>, tags: Option<TagsArg>)
    returns (results: seq<Product>)
    ensures results == Candidates(products, query, priceMax, tags)
  {
    results := EarlyPasses(products, query, priceMax, TagsList(tags));
    if |results| < 2 && priceMax.Some? {
      var broader := BroaderPass(products, priceMax.value, results);
      broader := Sort(broader, ByPrice);
      results := results + Take(broader, 2 - |results|);
    }
  }

  /** product_search: the three passes, then the relevance ranking and the first two. */
  method ProductSearch(products: seq<Product>, query: string, priceMax: Option<int>, tags: Option<TagsArg>)
    returns (r: seq<Product>)
    ensures r == SearchResults(products, query, priceMax, tags)
  {
    var results := SearchCandidates(products, query, priceMax, tags);
    r := Take(Sort(results, ByRelevance(TagsList(tags))), 2);
  }

  /** product_search returns at most two catalog products, none above the price ceiling. */
  lemma SearchResultsInBudget(products: seq<Product>, query: string, priceMax: Option<int>, tags: Option<TagsArg>)
    ensures var r, cands := SearchResults(products, query, priceMax, tags), Candidates(products, query, priceMax, tags);
      && |r| == (if |cands| < 2 then |cands| else 2)
      && (forall x :: x in r ==> x in products)
      && (priceMax.Some? ==> forall x :: x in r ==> x.price <= priceMax.value)
  {
    var cands := Candidates(products, query, priceMax, tags);
    SortThenTake(cands, ByRelevance(TagsList(tags)), 2);
  }

  /**
   * product_search orders its results by descending tag matches and then
   * ascending price, and no candidate left out ranks ahead of one returned.
   */
  lemma SearchResultsRanked(products: seq<Product>, query: string, priceMax: Option<int>, tags: Option<TagsArg>)
    ensures var r, ranking := SearchResults(products, query, priceMax, tags), ByRelevance(TagsList(tags));
      && Ranked(r, ranking)
      && var cands := Candidates(products, query, priceMax, tags);
         && (forall x, y :: x in r && y in multiset(cands) - multiset(r) ==> KeyLe(KeyOf(x, ranking), KeyOf(y, ranking)))
         && forall k :: WithKey(r, ranking, k) <= WithKey(cands, ranking, k)
  {
    SortThenTake(Candidates(products, query, priceMax, tags), ByRelevance(TagsList(tags)), 2);
    TakeSortedKeepsEarliestTies(Candidates(products, query, priceMax, tags), ByRelevance(TagsList(tags)), 2);
  }

  // ================================================================ size_recommender

  /** The ten answers of size_recommender, in the order the cascade tries them. */
  datatype SizeAdvice =
    | MediumOrLarge | LooseFit | FittedLook | FormalOccasion | Unsure
    | ExtraSmall | Small | Medium | Large | General

  /** The first rule of the cascade whose keywords occur in the lower-cased input. */
  function RecommendSize(userInput: string): SizeAdvice {
    var s := Lower(userInput);
    if Contains(s, "between m/l") || Contains(s, "between l/m") || Contains(s, "m/l") then MediumOrLarge
    else if Contains(s, "prefer loose") || Contains(s, "loose fit") then LooseFit
    else if Contains(s, "prefer tight") || Contains(s, "fitted") || Contains(s, "form fitting") then FittedLook
    else if Contains(s, "wedding") || Contains(s, "formal") || Contains(s, "dressy") then FormalOccasion
    else if Contains(s, "not sure") || Contains(s, "don't know") || Contains(s, "uncertain") then Unsure
    else if ContainsAny(s, ["xs", "extra small"]) then ExtraSmall
    else if ContainsAny(s, ["small", " s "]) then Small
    else if Contains(s, "medium") || Contains(s, " m ") then Medium
    else if Contains(s, "large") || Contains(s, " l ") then Large
    else General
  }

  /** The reply text; size_recommender returns `SizeAdviceText(RecommendSize(userInput))`. */
  function SizeAdviceText(a: SizeAdvice): string {
    match a
    case MediumOrLarge => "Based on your preference between M/L: Medium (M) is typically the safer choice for a comfortable, not-too-tight fit. Large (L) would give you more room if you prefer a looser fit or are concerned about shrinkage."
    case LooseFit => "For a loose, comfortable fit, I'd recommend going up one size from your usual size."
    case FittedLook => "For a fitted, form-hugging look, your true size or even one size down would work best."
    case FormalOccasion => "For formal events like weddings, I recommend your true size for the most flattering fit. You want to look polished without worrying about fit issues."
    case Unsure => "If you're unsure about sizing, Medium (M) is often the most versatile choice. Most of our dresses in M fit sizes 8-10, with some flexibility for comfort."
    case ExtraSmall => "XS (Extra Small) is perfect for petite frames, typically fitting sizes 0-2."
    case Small => "Small (S) works well for sizes 4-6 and offers a tailored fit."
    case Medium => "Medium (M) is our most popular size, fitting sizes 8-10 comfortably."
    case Large => "Large (L) provides a comfortable fit for sizes 12-14."
    case General => "For the best fit, consider: your usual dress size, the occasion (formal events typically need true-to-size), and your comfort preference (fitted vs. relaxed). If between sizes, Medium (M) is usually the safer choice."
  }

  /** The cascade ignores case: upper-casing or lower-casing the input changes no answer. */
  lemma RecommendSizeIgnoresCase(userInput: string)
    ensures RecommendSize(Upper(userInput)) == RecommendSize(userInput)
    ensures RecommendSize(Lower(userInput)) == RecommendSize(userInput)
  {
    LowerOfUpper(userInput);
    LowerIdempotent(userInput);
  }

  /**
   * The M/L rule fires exactly when the input mentions "m/l" or "between l/m":
   * its first keyword "between m/l" is subsumed by "m/l".
   */
  lemma MediumOrLargeRule(userInput: string)
    ensures var s := Lower(userInput);
      RecommendSize(userInput) == MediumOrLarge <==> Contains(s, "m/l") || Contains(s, "between l/m")
  {
    var s := Lower(userInput);
    if Contains(s, "between m/l") {
      var b := "between m/l";
      assert b[8..11] == "m/l";
      assert OccursAt(b, "m/l", 8);
      ContainsTransitive(s, b, "m/l");
    }
  }

  // ================================================================ eta

  /** The two answers of eta; both echo the argument as given. */
  datatype EtaReply = InvalidZip(zip: string) | ShippingEstimate(zip: string)

  function Eta(zip: string): (r: EtaReply)
    ensures r.zip == zip
    ensures r.ShippingEstimate? <==> ValidZipCode(zip)
  {
    if !ValidZipCode(zip) then InvalidZip(zip) else ShippingEstimate(zip)
  }

  function EtaText(r: EtaReply): string {
    match r
    case InvalidZip(z) => "Invalid zip code format: " + z + ". Please provide a valid 5-6 digit zip code."
    case ShippingEstimate(z) => "Shipping to zip code " + z + " typically takes 2-5 business days."
  }

  /** eta quotes the "2-5 business days" estimate exactly for five or six digits padded only by whitespace. */
  lemma EtaQuotesPaddedZips(zip: string)
    ensures Eta(zip).ShippingEstimate? <==> exists i, j :: PaddedZip(zip, i, j)
    ensures Eta(zip).ShippingEstimate? ==> Contains(EtaText(Eta(zip)), "2-5 business days")
  {
    ValidZipCodeIsPadded(zip);
    var text := EtaText(Eta(zip));
    if Eta(zip).ShippingEstimate? {
      var n := |"Shipping to zip code " + zip + " typically takes "|;
      assert text[n..n + 17] == "2-5 business days";
      assert OccursAt(text, "2-5 business days", n);
    }
  }

  // ================================================================ order_lookup

  datatype LookupError =
    | LookupBadOrderId(orderId: string)
    | LookupBadEmail(email: string)
    | LookupStoreUnavailable
    | NoMatchingOrder

  /** An order_lookup reply: the order record itself, or `{"error": ...}`. */
  datatype LookupReply = Found(order: Order) | LookupFailed(error: LookupError)

  function LookupErrorText(e: LookupError): string {
    match e
    case LookupBadOrderId(id) => "Invalid order ID format: " + id + ". Order IDs should be in format A1234."
    case LookupBadEmail(email) => "Invalid email format: " + email + ". Please provide a valid email address."
    case LookupStoreUnavailable => "Unable to access order database. Please try again later."
    case NoMatchingOrder => "Order not found. Please check your order ID and email address."
  }

  predicate MatchesOrder(o: Order, orderId: string, email: string) {
    o.orderId == orderId && o.email == email
  }

  /** `orders[i]` is the first order matching both id and email. */
  predicate FirstMatchAt(orders: seq<Order>, i: int, orderId: string, email: string) {
    && 0 <= i < |orders|
    && MatchesOrder(orders[i], orderId, email)
    && forall k :: 0 <= k < i ==> !MatchesOrder(orders[k], orderId, email)
  }

  /**
   * order_lookup: the id format is checked before the email format, then the
   * store is read, and the first order matching both id and email is returned.
   */
  method OrderLookup(orderId: string, email: string, store: Option<seq<Order>>) returns (r: LookupReply)
    ensures !ValidOrderId(orderId) ==> r == LookupFailed(LookupBadOrderId(orderId))
    ensures ValidOrderId(orderId) && !ValidateEmail(email) ==> r == LookupFailed(LookupBadEmail(email))
    ensures ValidOrderId(orderId) && ValidateEmail(email) && store.None? ==> r == LookupFailed(LookupStoreUnavailable)
    ensures ValidOrderId(orderId) && ValidateEmail(email) && store.Some? ==>
      (r == LookupFailed(NoMatchingOrder) <==> forall o :: o in store.value ==> !MatchesOrder(o, orderId, email))
    ensures r.Found? ==> store.Some? && MatchesOrder(r.order, orderId, email)
    ensures r.Found? ==> exists i :: FirstMatchAt(store.value, i, orderId, email) && store.value[i] == r.order
    ensures (&& ValidOrderId(orderId) && ValidateEmail(email) && store.Some?
             && exists o :: o in store.value && MatchesOrder(o, orderId, email)) ==> r.Found?
  {
    if !ValidOrderId(orderId) {
      return LookupFailed(LookupBadOrderId(orderId));
    }
    if !ValidateEmail(email) {
      return LookupFailed(LookupBadEmail(email));
    }
    if store.None? {
      return LookupFailed(LookupStoreUnavailable);
    }
    var orders := store.value;
    var i := 0;
    while i < |orders|
      invariant 0 <= i <= |orders|
      invariant forall k :: 0 <= k < i ==> !MatchesOrder(orders[k], orderId, email)
    {
      if orders[i].orderId == orderId && orders[i].email == email {
        assert FirstMatchAt(orders, i, orderId, email);
        return Found(orders[i]);
      }
      i := i + 1;
    }
    return LookupFailed(NoMatchingOrder);
  }

  // ================================================================ order_cancel

  /** The `simulated_now` argument: its text, and the instant it denotes when it parses as ISO-8601. */
  datatype TimestampArg = TimestampArg(text: string, parsed: Option<int>)

  datatype CancelError =
    | CancelBadOrderId(orderId: string)
    | CancelStoreUnavailable
    | UnknownOrder(orderId: string)
    | BadTimestamp(text: string)
    | UnreadableCreationTime

  /** An order_cancel reply. */
  datatype CancelReply =
    | CancelFailed(error: CancelError)          // success false, with "error"
    | Canceled(orderId: string, canceledAt: int) // success true
    | Blocked(minutes: int)                     // success false, with "reason" and "policy"
    | CancelRaised                              // an AttributeError escapes: `created_at` is not a string

  function CancelErrorText(e: CancelError): string {
    match e
    case CancelBadOrderId(id) => "Invalid order ID format: " + id + ". Order IDs should be in format A1234."
    case CancelStoreUnavailable => "Unable to access order database. Please try again later."
    case UnknownOrder(id) => "Order " + id + " not found in the system."
    case BadTimestamp(text) => "Invalid timestamp format: " + text
    // the exception text that follows in the source is not modelled
    case UnreadableCreationTime => "Error processing order timestamps: "
  }

  /** The refusal texts, built around the phrase that names the limit. */
  const LimitText := "60 minutes"
  const BlockedReason := "Cancellation failed: Order was placed more than " + LimitText + " ago."
  const CancelPolicy := "Orders can only be canceled within " + LimitText + " of placement."

  /** The limit of the rule: 60 minutes, in seconds. */
  const CancelWindow := 3600

  /** The instant the decision uses: a non-empty `simulated_now` when given (None if it does not parse), else the clock. */
  function DecisionTime(simulatedNow: Option<TimestampArg>, clock: int): Option<int> {
    if simulatedNow.Some? && simulatedNow.value.text != "" then simulatedNow.value.parsed else Some(clock)
  }

  /** The verdict on a found order: timestamp checks, then the inclusive 60-minute rule. */
  function CancelVerdict(orderId: string, order: Order, simulatedNow: Option<TimestampArg>, clock: int): (r: CancelReply)
    ensures r.Canceled? ==> r.orderId == orderId
    ensures r == CancelRaised <==> order.createdAt.CreatedNotText?
    ensures !order.createdAt.CreatedNotText? && CreationInstant(order.createdAt).None? ==>
      r == CancelFailed(UnreadableCreationTime)
    ensures CreationInstant(order.createdAt).Some? && DecisionTime(simulatedNow, clock).None? ==>
      r == CancelFailed(BadTimestamp(simulatedNow.value.text))
    ensures r.Canceled? <==> (CreationInstant(order.createdAt).Some? && DecisionTime(simulatedNow, clock).Some?
      && DecisionTime(simulatedNow, clock).value - CreationInstant(order.createdAt).value <= CancelWindow)
    ensures r.Canceled? ==> r.canceledAt == DecisionTime(simulatedNow, clock).value
    ensures r.Blocked? ==> (CreationInstant(order.createdAt).Some? && DecisionTime(simulatedNow, clock).Some?
      && var elapsed := DecisionTime(simulatedNow, clock).value - CreationInstant(order.createdAt).value;
         60 <= r.minutes && r.minutes * 60 <= elapsed < r.minutes * 60 + 60)
    ensures (&& CreationInstant(order.createdAt).Some? && DecisionTime(simulatedNow, clock).Some?
             && DecisionTime(simulatedNow, clock).value - CreationInstant(order.createdAt).value > CancelWindow)
      ==> r == Blocked((DecisionTime(simulatedNow, clock).value - CreationInstant(order.createdAt).value) / 60)
  {
    match order.createdAt
    case CreatedNotText => CancelRaised
    case CreatedAbsent => CancelFailed(UnreadableCreationTime)
    case CreatedText(None) => CancelFailed(UnreadableCreationTime)
    case CreatedText(Some(created)) =>
      if simulatedNow.Some? && simulatedNow.value.text != "" && simulatedNow.value.parsed.None? then
        CancelFailed(BadTimestamp(simulatedNow.value.text))
      else
        var now := if simulatedNow.Some? && simulatedNow.value.text != "" then simulatedNow.value.parsed.value else clock;
        var elapsed := now - created;
        if elapsed <= CancelWindow then Canceled(orderId, now) else Blocked(elapsed / 60)
  }

  /** Index of the first order with the given id (`next(...)` over the store). */
  function FirstWithId(orders: seq<Order>, orderId: string): (r: Option<nat>)
    ensures r.Some? ==> r.value < |orders| && orders[r.value].orderId == orderId
    ensures r.Some? ==> forall k :: 0 <= k < r.value ==> orders[k].orderId != orderId
    ensures r.None? ==> forall o :: o in orders ==> o.orderId != orderId
    decreases |orders|
  {
    if |orders| == 0 then None
    else if orders[0].orderId == orderId then Some(0)
    else match FirstWithId(orders[1..], orderId)
      case None => None
      case Some(i) => Some(i + 1)
  }

  /**
   * order_cancel: the id format, then the store, then existence, then the
   * timestamps and the 60-minute rule. The store is only read, so a repeated
   * call with the same arguments gives the same reply.
   */
  method OrderCancel(orderId: string, simulatedNow: Option<TimestampArg>, store: Option<seq<Order>>, clock: int)
    returns (r: CancelReply)
    ensures !ValidOrderId(orderId) ==> r == CancelFailed(CancelBadOrderId(orderId))
    ensures ValidOrderId(orderId) && store.None? ==> r == CancelFailed(CancelStoreUnavailable)
    ensures ValidOrderId(orderId) && store.Some? ==>
      (r == CancelFailed(UnknownOrder(orderId)) <==> forall o :: o in store.value ==> o.orderId != orderId)
    ensures ValidOrderId(orderId) && store.Some? && FirstWithId(store.value, orderId).Some? ==>
      r == CancelVerdict(orderId, store.value[FirstWithId(store.value, orderId).value], simulatedNow, clock)
  {
    if !ValidOrderId(orderId) {
      return CancelFailed(CancelBadOrderId(orderId));
    }
    if store.None? {
      return CancelFailed(CancelStoreUnavailable);
    }
    var orders := store.value;
    var i := 0;
    while i < |orders|
      invariant 0 <= i <= |orders|
      invariant forall k :: 0 <= k < i ==> orders[k].orderId != orderId
    {
      if orders[i].orderId == orderId {
        return CancelVerdict(orderId, orders[i], simulatedNow, clock);
      }
      i := i + 1;
    }
    return CancelFailed(UnknownOrder(orderId));
  }

  /** The JSON object order_cancel returns, none when it raises; the keys the policy guard reads are exact. */
  function CancelReplyObject(r: CancelReply): (m: Option<map<string, Json>>)
    ensures m.None? <==> r == CancelRaised
    ensures m.Some? ==> "success" in m.value && m.value["success"] == JBool(r.Canceled?)
    ensures m.Some? ==> ("reason" in m.value <==> r.Blocked?)
    ensures m.Some? ==> ("error" in m.value <==> r.CancelFailed?)
    ensures r.Blocked? ==> m.value["reason"] == JStr(BlockedReason) && "policy" in m.value
  {
    match r
    case CancelFailed(e) => Some(map["success" := JBool(false), "error" := JStr(CancelErrorText(e))])
    case Canceled(id, at) =>
      Some(map["success" := JBool(true),
               "message" := JStr("Order " + id + " has been successfully canceled."),
               "canceled_at" := JNum(at),
               "minutes_since_order" := JNull])
    case Blocked(minutes) =>
      Some(map["success" := JBool(false),
               "reason" := JStr(BlockedReason),
               "minutes_since_order" := JNum(minutes),
               "policy" := JStr(CancelPolicy)])
    case CancelRaised => None
  }

  /** A piece placed between a prefix and a suffix occurs right after the prefix. */
  lemma OccursBetween(prefix: string, sub: string, suffix: string)
    ensures OccursAt(prefix + sub + suffix, sub, |prefix|)
  {
    assert (prefix + sub + suffix)[|prefix|..|prefix| + |sub|] == sub;
  }

  /** The refusal names the 60-minute limit in its reason and in its policy sentence. */
  lemma BlockedTextsMentionLimit()
    ensures Contains(BlockedReason, "60 minutes") && Contains(CancelPolicy, "60 minutes")
  {
    OccursBetween("Cancellation failed: Order was placed more than ", LimitText, " ago.");
    OccursBetween("Orders can only be canceled within ", LimitText, " of placement.");
  }

  /**
   * The cases the policy tests pin, in seconds. A1003 was created at 11:55:00;
   * A1002 was created at 13:05:00 the day before, 82200 seconds earlier.
   */
  lemma CancelBoundaryCases(created: int, clock: int)
    ensures var a1003 := Order("A1003", "", CreatedText(Some(created)));
      && CancelVerdict("A1003", a1003, Some(TimestampArg("12:54:59", Some(created + 3599))), clock).Canceled?
      && CancelVerdict("A1003", a1003, Some(TimestampArg("12:55:00", Some(created + 3600))), clock).Canceled?
      && CancelVerdict("A1003", a1003, Some(TimestampArg("12:55:01", Some(created + 3601))), clock) == Blocked(60)
      && CancelVerdict("A1003", a1003, Some(TimestampArg("11:55:30", Some(created + 30))), clock).Canceled?
      && CancelVerdict("A1003", a1003, Some(TimestampArg("invalid-timestamp", None)), clock)
           == CancelFailed(BadTimestamp("invalid-timestamp"))
    ensures var a1002 := Order("A1002", "", CreatedText(Some(created - 82200)));
      var r := CancelVerdict("A1002", a1002, Some(TimestampArg("15:00:00", Some(created + 11100))), clock);
      r.Blocked? && r.minutes > 1000
  {
  }
}
