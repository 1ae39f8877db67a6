/**
 * The tool layer of the older tree: a strict product filter ranked by price,
 * a two-answer size advice, an ETA without validation, lookup, and the same
 * 60-minute cancellation rule with no input checks, where a bad timestamp
 * raises instead of answering.
 */
module LegacyTools {
  import opened Wrappers
  import opened Text
  import opened Json
  import opened Catalog
  import Tools
  import Validation

  // ================================================================ product_search

  /**
   * A product the older search keeps: within `priceMax`, the query in the
   * title ignoring case, and every requested tag (an empty or missing tag list
   * requests none).
   */
  predicate LegacyMatch(p: Product, query: string, priceMax: int, tags: seq<string>) {
    && p.price <= priceMax
    && Contains(Lower(p.title), Lower(query))
    && (|tags| == 0 || Tools.HasAllTags(p, tags))
  }

  function LegacyMatches(products: seq<Product>, query: string, priceMax: int, tags: seq<string>): (r: seq<Product>)
    ensures forall x :: x in r <==> x in products && LegacyMatch(x, query, priceMax, tags)
    ensures |r| <= |products|
    decreases |products|
  {
    if |products| == 0 then []
    else
      var last := products[|products| - 1];
      var front := products[..|products| - 1];
      assert products == front + [last];
      var r := LegacyMatches(front, query, priceMax, tags);
      if LegacyMatch(last, query, priceMax, tags) then r + [last] else r
  }

  /** The matches of a longer catalog: those of the front, and the new product if it matches. */
  lemma LegacyMatchesSnoc(front: seq<Product>, p: Product, query: string, priceMax: int, tags: seq<string>)
    ensures LegacyMatches(front + [p], query, priceMax, tags)
      == LegacyMatches(front, query, priceMax, tags) + (if LegacyMatch(p, query, priceMax, tags) then [p] else [])
  {
    assert (front + [p])[..|front|] == front;
  }

  /** The filtering loop of product_search: the matching products, in catalog order. */
  method LegacyFilter(products: seq<Product>, query: string, priceMax: int, tags: seq<string>)
    returns (results: seq<Product>)
    ensures results == LegacyMatches(products, query, priceMax, tags)
  {
    results := [];
    var i := 0;
    while i < |products|
      invariant 0 <= i <= |products|
      invariant results == LegacyMatches(products[..i], query, priceMax, tags)
    {
      var p := products[i];
      assert products[..i + 1] == products[..i] + [p];
      LegacyMatchesSnoc(products[..i], p, query, priceMax, tags);
      i := i + 1;
      if p.price > priceMax {
        continue;
      }
      if !Contains(Lower(p.title), Lower(query)) {
        continue;
      }
      if |tags| > 0 && !(forall t | t in tags :: t in p.tags) {
        continue;
      }
      results := results + [p];
    }
    assert products[..|products|] == products;
  }

  /** product_search: the filtering loop, then a stable sort by price and the first two. */
  method LegacyProductSearch(products: seq<Product>, query: string, priceMax: int, tags: seq<string>)
    returns (r: seq<Product>)
    ensures r == Take(Sort(LegacyMatches(products, query, priceMax, tags), ByPrice), 2)
  {
    var results := LegacyFilter(products, query, priceMax, tags);
    r := Take(Sort(results, ByPrice), 2);
  }

  /** The older search returns matches only, two of them unless fewer match. */
  lemma LegacySearchReturnsMatches(products: seq<Product>, query: string, priceMax: int, tags: seq<string>)
    ensures var matches := LegacyMatches(products, query, priceMax, tags);
      var r := Take(Sort(matches, ByPrice), 2);
      && (forall x :: x in r ==> x in products && LegacyMatch(x, query, priceMax, tags))
      && |r| == (if |matches| < 2 then |matches| else 2)
  {
    SortThenTake(LegacyMatches(products, query, priceMax, tags), ByPrice, 2);
  }

  /**
   * The older search returns the two cheapest matches: the results ascend by
   * price, no match left out is cheaper than one returned, and among matches
   * of equal price the ones earlier in the catalog are kept.
   */
  lemma LegacySearchCheapestTwo(products: seq<Product>, query: string, priceMax: int, tags: seq<string>)
    ensures var matches := LegacyMatches(products, query, priceMax, tags);
      var r := Take(Sort(matches, ByPrice), 2);
      && (forall i, j :: 0 <= i < j < |r| ==> r[i].price <= r[j].price)
      && (forall x, y :: x in r && y in multiset(matches) - multiset(r) ==> x.price <= y.price)
      && forall k :: WithKey(r, ByPrice, k) <= WithKey(matches, ByPrice, k)
  {
    CheapestByPrice(LegacyMatches(products, query, priceMax, tags), 2);
  }

  // ================================================================ size_recommender

  const LegacyMediumAdvice := "Based on your input, Medium (M) is often a safer middle choice for a comfortable fit."
  const LegacyNoAdvice := "I can't make a specific recommendation without more information, but I can show you the available sizes."

  function LegacySizeRecommender(userInput: string): (r: string)
    ensures r == LegacyMediumAdvice || r == LegacyNoAdvice
  {
    if Contains(Lower(userInput), "between m/l") || Contains(Lower(userInput), "between l/m") then LegacyMediumAdvice
    else LegacyNoAdvice
  }

  /**
   * The Medium advice is given exactly for inputs mentioning "between m/l" or
   * "between l/m" in any case, and the newer cascade gives its M/L answer to
   * every such input as well.
   */
  lemma LegacySizeAdviceRule(userInput: string)
    ensures var s := Lower(userInput);
      LegacySizeRecommender(userInput) == LegacyMediumAdvice <==> Contains(s, "between m/l") || Contains(s, "between l/m")
    ensures LegacySizeRecommender(userInput) == LegacyMediumAdvice ==> Tools.RecommendSize(userInput) == Tools.MediumOrLarge
  {
    var medium, none := LegacyMediumAdvice, LegacyNoAdvice;
    assert |medium| != |none|;
  }

  // ================================================================ eta

  const EtaLead := "Shipping to zip code "

  /** eta: whatever the argument, the reply echoes it after the lead-in and quotes "2-5 business days". */
  function LegacyEta(zip: string): (r: string)
    ensures OccursAt(r, zip, |EtaLead|)
    ensures Contains(r, "2-5 business days")
    ensures Tools.Eta(zip).ShippingEstimate? <==> Tools.EtaText(Tools.Eta(zip)) == r
  {
    var r := EtaLead + zip + " typically takes 2-5 business days.";
    var front := EtaLead + zip + " typically takes ";
    assert r == front + "2-5 business days" + ".";
    var n := |front|;
    assert r[|EtaLead|..|EtaLead| + |zip|] == zip;
    assert r[n..n + 17] == "2-5 business days";
    assert OccursAt(r, "2-5 business days", n);
    var invalid := "Invalid zip code format: " + zip + ". Please provide a valid 5-6 digit zip code.";
    assert invalid[0] != r[0];
    r
  }

  // ================================================================ order_lookup

  /** An older order_lookup reply: the order, or `{"error": "Order not found."}`. */
  datatype LegacyLookupReply = LegacyFound(order: Order) | OrderNotFound

  /** order_lookup: the first order matching both id and email; no format checks. */
  method LegacyOrderLookup(orderId: string, email: string, orders: seq<Order>) returns (r: LegacyLookupReply)
    ensures r == OrderNotFound <==> forall o :: o in orders ==> !Tools.MatchesOrder(o, orderId, email)
    ensures r.LegacyFound? ==> exists i :: Tools.FirstMatchAt(orders, i, orderId, email) && orders[i] == r.order
  {
    var i := 0;
    while i < |orders|
      invariant 0 <= i <= |orders|
      invariant forall k :: 0 <= k < i ==> !Tools.MatchesOrder(orders[k], orderId, email)
    {
      if orders[i].orderId == orderId && orders[i].email == email {
        assert Tools.FirstMatchAt(orders, i, orderId, email);
        return LegacyFound(orders[i]);
      }
      i := i + 1;
    }
    return OrderNotFound;
  }

  // ================================================================ order_cancel

  /**
   * An older order_cancel outcome. `Raised` stands for the ValueError,
   * KeyError or AttributeError that escapes when a timestamp is missing, not
   * a string, or unreadable.
   */
  datatype LegacyCancelReply =
    | LegacyUnknownOrder(orderId: string)     // {"error": ...}, no "success" key
    | LegacyCanceled(orderId: string)         // success true
    | LegacyBlocked(minutes: int)             // success false, with "reason"
    | Raised

  /** The verdict on a found order: parse both timestamps, then the inclusive 60-minute rule. */
  function LegacyVerdict(orderId: string, order: Order, simulatedNow: Option<Tools.TimestampArg>, clock: int): (r: LegacyCancelReply)
    ensures r.LegacyCanceled? ==> r.orderId == orderId
    ensures r == Raised <==> CreationInstant(order.createdAt).None? || Tools.DecisionTime(simulatedNow, clock).None?
    ensures r.LegacyCanceled? <==> Tools.CancelVerdict(orderId, order, simulatedNow, clock).Canceled?
    ensures r.LegacyBlocked? <==> Tools.CancelVerdict(orderId, order, simulatedNow, clock).Blocked?
    ensures r.LegacyBlocked? ==> r.minutes == Tools.CancelVerdict(orderId, order, simulatedNow, clock).minutes
  {
    match CreationInstant(order.createdAt)
    case None => Raised
    case Some(created) =>
      if simulatedNow.Some? && simulatedNow.value.text != "" && simulatedNow.value.parsed.None? then Raised
      else
        var now := if simulatedNow.Some? && simulatedNow.value.text != "" then simulatedNow.value.parsed.value else clock;
        var elapsed := now - created;
        if elapsed <= 3600 then LegacyCanceled(orderId) else LegacyBlocked(elapsed / 60)
  }

  /** order_cancel: the first order with the id, else the not-found error; no format check. */
  method LegacyOrderCancel(orderId: string, simulatedNow: Option<Tools.TimestampArg>, orders: seq<Order>, clock: int)
    returns (r: LegacyCancelReply)
    ensures r == LegacyUnknownOrder(orderId) <==> forall o :: o in orders ==> o.orderId != orderId
    ensures Tools.FirstWithId(orders, orderId).Some? ==>
      r == LegacyVerdict(orderId, orders[Tools.FirstWithId(orders, orderId).value], simulatedNow, clock)
  {
    var i := 0;
    while i < |orders|
      invariant 0 <= i <= |orders|
      invariant forall k :: 0 <= k < i ==> orders[k].orderId != orderId
    {
      if orders[i].orderId == orderId {
        return LegacyVerdict(orderId, orders[i], simulatedNow, clock);
      }
      i := i + 1;
    }
    return LegacyUnknownOrder(orderId);
  }

  /** The JSON object the older order_cancel returns; a raised exception returns none. */
  function LegacyCancelObject(r: LegacyCancelReply): (m: Option<map<string, Json>>)
    ensures m.None? <==> r == Raised
    ensures m.Some? ==> ("success" in m.value <==> !r.LegacyUnknownOrder?)
    ensures m.Some? ==> ("reason" in m.value <==> r.LegacyBlocked?)
    ensures m.Some? && "success" in m.value ==> m.value["success"] == JBool(r.LegacyCanceled?)
  {
    match r
    case LegacyUnknownOrder(id) => Some(map["error" := JStr("Order " + id + " not found.")])
    case LegacyCanceled(id) =>
      Some(map["success" := JBool(true), "message" := JStr("Order " + id + " has been successfully canceled.")])
    case LegacyBlocked(minutes) =>
      Some(map["success" := JBool(false), "reason" := JStr(Tools.BlockedReason), "minutes_since_order" := JNum(minutes)])
    case Raised => None
  }
}
