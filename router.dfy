/**
 * Intent classification: an ordered keyword rule set over the lower-cased
 * question, and, when no rule fires, the routing model's reply forced into
 * the closed set of intents. The model's reply is an input here, already
 * reduced to the JSON object found in it (None when there is none).
 */
module Router {
  import opened Wrappers
  import opened Text
  import opened Json
  import opened AgentState

  const OrderKeywords: seq<string> :=
    ["order", "cancel", "cancellation", "a1001", "a1002", "a1003", "order_id", "email", "refund", "return"]

  const ProductKeywords: seq<string> :=
    ["dress", "product", "wedding", "midi", "price", "size", "eta", "shipping", "available", "recommend", "compare", "zip"]

  const GuardrailKeywords: seq<string> := ["discount", "code", "coupon", "promo", "sale"]

  /**
   * deterministic_keyword_routing: order keywords first, then product
   * keywords, then the discount keywords (which mean "other"), else no answer.
   */
  function DeterministicRoute(question: string): (r: Option<Intent>)
    ensures r == Some(OrderHelp) <==> ContainsAny(Lower(question), OrderKeywords)
    ensures r == Some(ProductAssist) <==>
      !ContainsAny(Lower(question), OrderKeywords) && ContainsAny(Lower(question), ProductKeywords)
    ensures r == Some(Other) <==>
      && !ContainsAny(Lower(question), OrderKeywords)
      && !ContainsAny(Lower(question), ProductKeywords)
      && ContainsAny(Lower(question), GuardrailKeywords)
    ensures r.None? <==>
      && !ContainsAny(Lower(question), OrderKeywords)
      && !ContainsAny(Lower(question), ProductKeywords)
      && !ContainsAny(Lower(question), GuardrailKeywords)
  {
    var q := Lower(question);
    if ContainsAny(q, OrderKeywords) then Some(OrderHelp)
    else if ContainsAny(q, ProductKeywords) then Some(ProductAssist)
    else if ContainsAny(q, GuardrailKeywords) then Some(Other)
    else None
  }

  /** The rules ignore case: upper-casing or lower-casing the question changes no route. */
  lemma RouteIgnoresCase(question: string)
    ensures DeterministicRoute(Upper(question)) == DeterministicRoute(question)
    ensures DeterministicRoute(Lower(question)) == DeterministicRoute(question)
  {
    LowerOfUpper(question);
    LowerIdempotent(question);
  }

  /**
   * Three order keywords are redundant: "cancellation" contains "cancel",
   * "order_id" contains "order", and the rule fires on the same questions
   * without them.
   */
  lemma OrderKeywordsReduce(question: string)
    ensures var reduced := ["order", "cancel", "a1001", "a1002", "a1003", "email", "refund", "return"];
      ContainsAny(Lower(question), OrderKeywords) <==> ContainsAny(Lower(question), reduced)
  {
    var q := Lower(question);
    var reduced := ["order", "cancel", "a1001", "a1002", "a1003", "email", "refund", "return"];
    if ContainsAny(q, OrderKeywords) {
      var k :| k in OrderKeywords && Contains(q, k);
      if k == "cancellation" {
        assert k[0..6] == "cancel";
        assert OccursAt(k, "cancel", 0);
        ContainsTransitive(q, k, "cancel");
        assert "cancel" in reduced;
      } else if k == "order_id" {
        assert k[0..5] == "order";
        assert OccursAt(k, "order", 0);
        ContainsTransitive(q, k, "order");
        assert "order" in reduced;
      } else {
        assert k in reduced;
      }
    }
    if ContainsAny(q, reduced) {
      var k :| k in reduced && Contains(q, k);
      assert k in OrderKeywords;
    }
  }

  /**
   * The fallback's answer forced into the closed set: the "destination" of
   * the reply when it names one of the three intents, otherwise "other".
   */
  function NormalizeDestination(routeJson: Option<map<string, Json>>): (i: Intent)
    ensures i != Other ==> (routeJson.Some? && "destination" in routeJson.value
      && routeJson.value["destination"] == JStr(IntentName(i)))
    ensures routeJson.Some? && "destination" in routeJson.value
      && routeJson.value["destination"].JStr? && IntentOfName(routeJson.value["destination"].s).Some?
      ==> i == IntentOfName(routeJson.value["destination"].s).value
  {
    if routeJson.Some? && |routeJson.value| > 0 && "destination" in routeJson.value then
      match routeJson.value["destination"]
      case JStr(name) => IntentOfName(name).GetOr(Other)
      case _ => Other
    else Other
  }

  /** router_node: the keyword route when there is one, else the normalised fallback; only "intent" is written. */
  function RouterNode(question: string, fallback: Option<map<string, Json>>): (u: Update)
    ensures u == NoChange.(intent := u.intent) && u.intent.Some?
    ensures DeterministicRoute(question).Some? ==> u.intent == DeterministicRoute(question)
    ensures DeterministicRoute(question).None? ==> u.intent == Some(NormalizeDestination(fallback))
  {
    var intent := match DeterministicRoute(question)
      case Some(route) => route
      case None => NormalizeDestination(fallback);
    NoChange.(intent := Some(intent))
  }
}
