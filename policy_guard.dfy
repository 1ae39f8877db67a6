/**
 * The policy guard node: it scans the evidence for the first tool output that
 * carries both "success" and "reason", and turns it into the cancellation
 * decision. The older tree's guard is the one both trees' graphs use here.
 */
module PolicyGuard {
  import opened Wrappers
  import opened Text
  import opened Json
  import opened AgentState
  import Tools
  import LegacyTools

  /**
   * `"success" in data and "reason" in data` for a parsed evidence item: keys
   * of an object, elements of a list, substrings of a string. On a number, a
   * boolean or null `in` raises TypeError, which the scan skips like text that
   * is not JSON.
   */
  predicate Qualifies(parsed: Option<Json>) {
    match parsed
    case None => false
    case Some(JObj(m)) => "success" in m && "reason" in m
    case Some(JList(items)) => JStr("success") in items && JStr("reason") in items
    case Some(JStr(t)) => Contains(t, "success") && Contains(t, "reason")
    case Some(_) => false
  }

  /** `items[i]` is the first evidence item the scan accepts. */
  predicate FirstQualifyingAt(items: seq<Evidence>, i: int) {
    && 0 <= i < |items|
    && Qualifies(items[i].parsed)
    && forall k :: 0 <= k < i ==> !Qualifies(items[k].parsed)
  }

  /** The guard's result: a decision (None included), or the AttributeError `.get` raises on a non-object. */
  datatype GuardOutcome = Decided(decision: Option<PolicyDecision>) | GuardCrashed

  /** The decision drawn from the accepted item: blocked exactly when its "success" is `False`. */
  function DecisionFrom(data: Json): (r: GuardOutcome)
    ensures r.GuardCrashed? <==> !data.JObj?
    ensures r.Decided? ==> r.decision.Some?
    ensures r == Decided(Some(CancelAllowed)) <==>
      data.JObj? && !("success" in data.fields && data.fields["success"] == JBool(false))
    ensures data.JObj? && "success" in data.fields && data.fields["success"] == JBool(false) && "reason" in data.fields
      ==> r == Decided(Some(CancelBlocked(data.fields["reason"])))
  {
    match data
    case JObj(m) =>
      if "success" in m && m["success"] == JBool(false) then
        Decided(Some(CancelBlocked(if "reason" in m then m["reason"] else JNull)))
      else Decided(Some(CancelAllowed))
    case _ => GuardCrashed
  }

  /**
   * policy_guard_node: no decision outside order help or without evidence;
   * otherwise the decision from the first accepted item, or none at all.
   */
  method PolicyGuardNode(intent: Option<Intent>, evidence: Option<seq<Evidence>>) returns (out: GuardOutcome)
    ensures intent != Some(OrderHelp) ==> out == Decided(None)
    ensures evidence.None? ==> out == Decided(None)
    ensures intent == Some(OrderHelp) && evidence.Some? ==>
      (out == Decided(None) <==> forall k :: 0 <= k < |evidence.value| ==> !Qualifies(evidence.value[k].parsed))
    ensures out != Decided(None) ==>
      && intent == Some(OrderHelp) && evidence.Some?
      && exists i :: FirstQualifyingAt(evidence.value, i) && out == DecisionFrom(evidence.value[i].parsed.value)
  {
    if intent != Some(OrderHelp) {
      return Decided(None);
    }
    if evidence.None? || |evidence.value| == 0 {
      return Decided(None);
    }
    var items := evidence.value;
    var found: Option<Json> := None;
    var i := 0;
    while i < |items|
      invariant 0 <= i <= |items|
      invariant forall k :: 0 <= k < i ==> !Qualifies(items[k].parsed)
    {
      var parsed := items[i].parsed;
      if parsed.Some? && Qualifies(parsed) {
        found := parsed;
        break;
      }
      i := i + 1;
    }
    if found.None? {
      return Decided(None);
    }
    assert FirstQualifyingAt(items, i);
    out := DecisionFrom(found.value);
  }

  /**
   * Among order_cancel replies only a refusal carries "reason": the guard
   * turns a refusal into a blocked decision with the refusal's reason, and
   * passes over a successful cancellation or an error reply, so an allowed
   * cancellation yields no decision at all.
   */
  lemma GuardSeesOnlyRefusals(r: Tools.CancelReply)
    requires r != Tools.CancelRaised
    ensures Qualifies(Some(JObj(Tools.CancelReplyObject(r).value))) <==> r.Blocked?
    ensures r.Blocked? ==>
      DecisionFrom(JObj(Tools.CancelReplyObject(r).value)) == Decided(Some(CancelBlocked(JStr(Tools.BlockedReason))))
  {
  }

  /**
   * Evidence made of current order_cancel replies: some item qualifies for the
   * guard exactly when some reply is a refusal. So, by `PolicyGuardNode`'s
   * contract, evidence holding only allowed cancellations and error replies
   * gives no decision.
   */
  lemma CancelEvidenceQualifies(items: seq<Evidence>, replies: seq<Tools.CancelReply>)
    requires |replies| == |items|
    requires forall k :: 0 <= k < |items| ==>
      replies[k] != Tools.CancelRaised && items[k].parsed == Some(JObj(Tools.CancelReplyObject(replies[k]).value))
    ensures (exists k :: 0 <= k < |items| && Qualifies(items[k].parsed)) <==>
      (exists k :: 0 <= k < |replies| && replies[k].Blocked?)
  {
    forall k | 0 <= k < |items|
      ensures Qualifies(items[k].parsed) <==> replies[k].Blocked?
    {
      GuardSeesOnlyRefusals(replies[k]);
    }
  }

  /** The same holds for the older order_cancel, whose error reply has no "success" key at all. */
  lemma GuardSeesOnlyLegacyRefusals(r: LegacyTools.LegacyCancelReply)
    requires r != LegacyTools.Raised
    ensures Qualifies(Some(JObj(LegacyTools.LegacyCancelObject(r).value))) <==> r.LegacyBlocked?
    ensures r.LegacyBlocked? ==>
      DecisionFrom(JObj(LegacyTools.LegacyCancelObject(r).value)) == Decided(Some(CancelBlocked(JStr(Tools.BlockedReason))))
  {
  }
}
