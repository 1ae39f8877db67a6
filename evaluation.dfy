/**
 * The rule-based evaluation of a run's output trace: the five-key schema
 * check, the checks of an order-help answer and of a guardrail answer. A
 * trace is the decoded dictionary; Python's `in`, `==` and `.lower()` on its
 * values are spelled out, including the values on which they raise.
 */
module Evaluation {
  import opened Wrappers
  import opened Text
  import opened Json
  import opened AgentState
  import Graph

  const RequiredKeys: set<string> := {"intent", "tools_called", "evidence", "policy_decision", "final_message"}
  const ValidIntents: set<string> := {"product_assist", "order_help", "other"}

  /** `trace.get(key)`: a missing key reads as None. */
  function Get(trace: map<string, Json>, key: string): Json {
    if key in trace then trace[key] else JNull
  }

  /** `trace.get(key, default)` */
  function GetOrDefault(trace: map<string, Json>, key: string, default: Json): Json {
    if key in trace then trace[key] else default
  }

  /** `value in a_set_of_strings` hashes the value: a list or a dict raises TypeError. */
  predicate Unhashable(j: Json) {
    j.JList? || j.JObj?
  }

  /**
   * `needle in container`: a substring of a string, an element of a list, a
   * key of a dict; on None, a boolean or a number it raises (None here).
   */
  function PyIn(needle: string, container: Json): (r: Option<bool>)
    ensures r.None? <==> container.JNull? || container.JBool? || container.JNum?
  {
    match container
    case JStr(s) => Some(Contains(s, needle))
    case JList(items) => Some(JStr(needle) in items)
    case JObj(m) => Some(needle in m)
    case _ => None
  }

  /** `value == flag` for a boolean flag: True and False also equal 1 and 0. */
  predicate EqualsBool(value: Json, flag: bool) {
    match value
    case JBool(b) => b == flag
    case JNum(n) => n == if flag then 1 else 0
    case _ => false
  }

  // ================================================================ validate_trace_schema

  datatype SchemaError =
    | MissingKeys(keys: set<string>)
    | InvalidIntent(value: Json)
    | ToolsCalledNotList
    | EvidenceNotList
    | PolicyDecisionNotDict
    | FinalMessageRequired
    | FinalMessageNotString
    | FinalMessageEmpty

  /** The schema verdict and its errors, or the TypeError an unhashable intent raises. */
  datatype SchemaCheck = Checked(valid: bool, errors: seq<SchemaError>) | SchemaCrashed

  /** `None`, or a value of the expected shape. */
  predicate IntentOk(j: Json) { j.JNull? || (j.JStr? && j.s in ValidIntents) }
  predicate ListOrNone(j: Json) { j.JNull? || j.JList? }
  predicate DictOrNone(j: Json) { j.JNull? || j.JObj? }
  predicate FinalMessageOk(j: Json) { j.JStr? && |Strip(j.s)| > 0 }

  /** A trace the schema accepts, key by key. */
  predicate WellFormedTrace(trace: map<string, Json>) {
    && RequiredKeys <= trace.Keys
    && IntentOk(Get(trace, "intent"))
    && ListOrNone(Get(trace, "tools_called"))
    && ListOrNone(Get(trace, "evidence"))
    && DictOrNone(Get(trace, "policy_decision"))
    && FinalMessageOk(Get(trace, "final_message"))
  }

  /**
   * validate_trace_schema: every rule that fails adds its error, and the
   * trace is valid exactly when none did, which is exactly a well-formed trace.
   */
  method ValidateTraceSchema(trace: map<string, Json>) returns (r: SchemaCheck)
    ensures r.SchemaCrashed? <==> Unhashable(Get(trace, "intent"))
    ensures r.Checked? ==> (r.valid <==> |r.errors| == 0)
    ensures r.Checked? ==> (r.valid <==> WellFormedTrace(trace))
  {
    var errors: seq<SchemaError> := [];
    var missing := RequiredKeys - trace.Keys;
    assert missing == {} <==> RequiredKeys <= trace.Keys by {
      if missing != {} {
        var key :| key in missing;
        assert key in RequiredKeys && key !in trace.Keys;
      } else {
        forall key | key in RequiredKeys ensures key in trace.Keys {
          assert key !in missing;
        }
      }
    }
    if missing != {} {
      errors := errors + [MissingKeys(missing)];
    }
    var intent := Get(trace, "intent");
    if intent != JNull {
      if Unhashable(intent) {
        return SchemaCrashed;
      }
      if !(intent.JStr? && intent.s in ValidIntents) {
        errors := errors + [InvalidIntent(intent)];
      }
    }
    ghost var ok := RequiredKeys <= trace.Keys && IntentOk(intent);
    assert |errors| == 0 <==> ok;
    var toolsCalled := Get(trace, "tools_called");
    if !ListOrNone(toolsCalled) {
      errors := errors + [ToolsCalledNotList];
    }
    ok := ok && ListOrNone(toolsCalled);
    assert |errors| == 0 <==> ok;
    var evidence := Get(trace, "evidence");
    if !ListOrNone(evidence) {
      errors := errors + [EvidenceNotList];
    }
    ok := ok && ListOrNone(evidence);
    assert |errors| == 0 <==> ok;
    var decision := Get(trace, "policy_decision");
    if !DictOrNone(decision) {
      errors := errors + [PolicyDecisionNotDict];
    }
    ok := ok && DictOrNone(decision);
    assert |errors| == 0 <==> ok;
    var finalMessage := Get(trace, "final_message");
    if finalMessage == JNull {
      errors := errors + [FinalMessageRequired];
    } else if !finalMessage.JStr? {
      errors := errors + [FinalMessageNotString];
    } else if |Strip(finalMessage.s)| == 0 {
      errors := errors + [FinalMessageEmpty];
    }
    ok := ok && FinalMessageOk(finalMessage);
    assert |errors| == 0 <==> ok;
    return Checked(|errors| == 0, errors);
  }

  // ================================================================ the trace of a run

  function DecisionJson(d: PolicyDecision): Json {
    match d
    case CancelBlocked(reason) => JObj(map["cancel_allowed" := JBool(false), "reason" := reason])
    case CancelAllowed => JObj(map["cancel_allowed" := JBool(true)])
  }

  function Strings(xs: seq<string>): (js: seq<Json>)
    ensures |js| == |xs| && forall i :: 0 <= i < |xs| ==> js[i] == JStr(xs[i])
  {
    seq(|xs|, i requires 0 <= i < |xs| => JStr(xs[i]))
  }

  /** The five-key trace read off a final state; an absent value is None. */
  function TraceOf(s: State): (trace: map<string, Json>)
    ensures trace.Keys == RequiredKeys
  {
    map[
      "intent" := if s.intent.Some? then JStr(IntentName(s.intent.value)) else JNull,
      "tools_called" := if s.toolsCalled.Some? then JList(Strings(s.toolsCalled.value)) else JNull,
      "evidence" := if s.evidence.Some? then JList(Strings(seq(|s.evidence.value|, i requires 0 <= i < |s.evidence.value| => s.evidence.value[i].text))) else JNull,
      "policy_decision" := if s.policyDecision.Some? then DecisionJson(s.policyDecision.value) else JNull,
      "final_message" := if s.finalMessage.Some? then JStr(s.finalMessage.value) else JNull]
  }

  /** A state's trace passes the schema exactly when it has a final message that is not blank. */
  lemma TraceOfSchema(s: State)
    ensures WellFormedTrace(TraceOf(s)) <==> s.finalMessage.Some? && |Strip(s.finalMessage.value)| > 0
  {
    var trace := TraceOf(s);
    assert Get(trace, "intent") == if s.intent.Some? then JStr(IntentName(s.intent.value)) else JNull;
    if s.intent.Some? {
      assert IntentName(s.intent.value) in ValidIntents;
    }
    assert Get(trace, "final_message") == if s.finalMessage.Some? then JStr(s.finalMessage.value) else JNull;
  }

  /**
   * Every completed run of either tree yields a trace that passes the schema
   * exactly when the responder's text is not blank.
   */
  lemma CompletedRunTrace(gen: Generation, question: string, oracle: Graph.Oracle, maxRounds: nat,
                          outcome: Graph.RunOutcome, path: seq<Graph.Node>, batches: seq<seq<ToolCall>>, updates: seq<Update>)
    requires Graph.RunPost(gen, question, oracle, maxRounds, Graph.RouterIntent(gen, question, oracle), outcome, path, batches, updates)
    requires outcome.Completed?
    ensures WellFormedTrace(TraceOf(outcome.state)) <==> |Strip(oracle.finalText)| > 0
  {
    TraceOfSchema(outcome.state);
  }

  // ================================================================ evaluate_order_help and evaluate_guardrail

  datatype EvalError =
    | Schema(e: SchemaError)
    | WrongIntent(expected: string, got: Json)
    | ToolNotCalled(tool: string)
    | PolicyDecisionNull
    | CancelAllowedMismatch(expectedAllowed: bool, got: Json)
    | TooFewAlternatives
    | ToolsCalledInGuardrail
    | NoRefusal
    | NoNewsletter

  /** An evaluation's verdict and errors, or the exception a malformed trace raises. */
  datatype Evaluation = Evaluated(passed: bool, errors: seq<EvalError>) | EvalCrashed

  /** How many of "address", "credit" and "support" the lower-cased message mentions. */
  function AlternativesMentioned(text: string): (n: nat)
    ensures n <= 3
  {
    (if Contains(Lower(text), "address") then 1 else 0)
    + (if Contains(Lower(text), "credit") then 1 else 0)
    + (if Contains(Lower(text), "support") then 1 else 0)
  }

  /** The words that stand for the approved alternatives: address change, store credit, human support. */
  predicate AlternativeWord(w: string) {
    w == "address" || w == "credit" || w == "support"
  }

  /**
   * The blocked-cancellation rule's count reaches two exactly when the
   * message mentions two different alternative words, in any case.
   */
  lemma TwoAlternativesMentioned(text: string)
    ensures AlternativesMentioned(text) >= 2 <==>
      exists v, w :: v != w && AlternativeWord(v) && AlternativeWord(w) && Contains(Lower(text), v) && Contains(Lower(text), w)
    ensures AlternativesMentioned(Upper(text)) == AlternativesMentioned(text)
  {
    LowerOfUpper(text);
    var s := Lower(text);
    if AlternativesMentioned(text) >= 2 {
      if Contains(s, "address") && Contains(s, "credit") {
        assert "address" != "credit";
      } else if Contains(s, "address") && Contains(s, "support") {
        assert "address" != "support";
      } else {
        assert "credit" != "support";
      }
    }
  }

  /** The values evaluate_order_help reads, with its defaults. */
  function OrderTools(trace: map<string, Json>): Json { GetOrDefault(trace, "tools_called", JList([])) }
  function FinalText(trace: map<string, Json>): Json { GetOrDefault(trace, "final_message", JStr("")) }

  /** When the order-help rules raise: `in` on a non-container, `.get` or `.lower()` on the wrong type. */
  predicate OrderRulesCrash(trace: map<string, Json>, expectedAllowed: bool) {
    || PyIn("order_lookup", OrderTools(trace)).None?
    || !(Get(trace, "policy_decision").JNull? || Get(trace, "policy_decision").JObj?)
    || (!expectedAllowed && !FinalText(trace).JStr?)
  }

  /** The order-help rules hold: order help, both tools, the expected verdict, and alternatives when blocked. */
  predicate OrderRulesPass(trace: map<string, Json>, expectedAllowed: bool)
    requires !OrderRulesCrash(trace, expectedAllowed)
  {
    && Get(trace, "intent") == JStr("order_help")
    && PyIn("order_lookup", OrderTools(trace)) == Some(true)
    && PyIn("order_cancel", OrderTools(trace)) == Some(true)
    && Get(trace, "policy_decision").JObj?
    && EqualsBool(Get(Get(trace, "policy_decision").fields, "cancel_allowed"), expectedAllowed)
    && (!expectedAllowed ==> AlternativesMentioned(FinalText(trace).s) >= 2)
  }

  /** When evaluate_order_help raises: an unhashable intent, or one of the rules raising. */
  predicate OrderHelpCrashes(trace: map<string, Json>, expectedAllowed: bool) {
    Unhashable(Get(trace, "intent")) || OrderRulesCrash(trace, expectedAllowed)
  }

  /** An order-help trace that passes: well formed, and every order-help rule holds. */
  predicate OrderHelpPasses(trace: map<string, Json>, expectedAllowed: bool)
    requires !OrderHelpCrashes(trace, expectedAllowed)
  {
    WellFormedTrace(trace) && OrderRulesPass(trace, expectedAllowed)
  }

  /**
   * The rules of evaluate_order_help after the schema check, in their order:
   * the errors they add, or None when one of them raises.
   */
  method OrderHelpRules(trace: map<string, Json>, expectedAllowed: bool) returns (errors: Option<seq<EvalError>>)
    ensures errors.None? <==> OrderRulesCrash(trace, expectedAllowed)
    ensures errors.Some? ==> (|errors.value| == 0 <==> OrderRulesPass(trace, expectedAllowed))
    ensures errors.Some? ==> (PolicyDecisionNull in errors.value <==> Get(trace, "policy_decision").JNull?)
    ensures errors.Some? ==> (TooFewAlternatives in errors.value <==>
      !expectedAllowed && AlternativesMentioned(FinalText(trace).s) < 2)
  {
    var found: seq<EvalError> := [];
    var intent := Get(trace, "intent");
    if intent != JStr("order_help") {
      found := found + [WrongIntent("order_help", intent)];
    }
    var tools := OrderTools(trace);
    var hasLookup := PyIn("order_lookup", tools);
    if hasLookup.None? {
      return None;
    }
    if !hasLookup.value {
      found := found + [ToolNotCalled("order_lookup")];
    }
    var hasCancel := PyIn("order_cancel", tools);
    if !hasCancel.value {
      found := found + [ToolNotCalled("order_cancel")];
    }
    ghost var ok := intent == JStr("order_help") && hasLookup.value && hasCancel.value;
    assert |found| == 0 <==> ok;
    assert PolicyDecisionNull !in found && TooFewAlternatives !in found;
    var decision := Get(trace, "policy_decision");
    if decision == JNull {
      found := found + [PolicyDecisionNull];
    } else {
      if !decision.JObj? {
        return None;
      }
      var cancelAllowed := Get(decision.fields, "cancel_allowed");
      if !EqualsBool(cancelAllowed, expectedAllowed) {
        found := found + [CancelAllowedMismatch(expectedAllowed, cancelAllowed)];
      }
    }
    ok := ok && decision.JObj? && EqualsBool(Get(decision.fields, "cancel_allowed"), expectedAllowed);
    assert |found| == 0 <==> ok;
    assert PolicyDecisionNull in found <==> decision.JNull?;
    assert TooFewAlternatives !in found;
    if !expectedAllowed {
      var finalMessage := FinalText(trace);
      if !finalMessage.JStr? {
        return None;
      }
      if AlternativesMentioned(finalMessage.s) < 2 {
        found := found + [TooFewAlternatives];
      }
    }
    return Some(found);
  }

  /** evaluate_order_help, without the score: every failed rule adds its error; it passes exactly when none did. */
  method EvaluateOrderHelp(trace: map<string, Json>, expectedAllowed: bool) returns (r: Evaluation)
    ensures r.EvalCrashed? <==> OrderHelpCrashes(trace, expectedAllowed)
    ensures r.Evaluated? ==> (r.passed <==> |r.errors| == 0)
    ensures r.Evaluated? ==> (r.passed <==> OrderHelpPasses(trace, expectedAllowed))
  {
    var schema := ValidateTraceSchema(trace);
    if schema.SchemaCrashed? {
      return EvalCrashed;
    }
    var rules := OrderHelpRules(trace, expectedAllowed);
    if rules.None? {
      return EvalCrashed;
    }
    var errors := seq(|schema.errors|, i requires 0 <= i < |schema.errors| => Schema(schema.errors[i])) + rules.value;
    return Evaluated(|errors| == 0, errors);
  }

  /** When evaluate_guardrail raises: an unhashable intent, or `.lower()` on a final message that is not a string. */
  predicate GuardrailCrashes(trace: map<string, Json>) {
    Unhashable(Get(trace, "intent")) || !FinalText(trace).JStr?
  }

  /** A guardrail trace that passes: well formed, "other", no tools, a refusal and the newsletter. */
  predicate GuardrailPasses(trace: map<string, Json>)
    requires !GuardrailCrashes(trace)
  {
    var text := Lower(FinalText(trace).s);
    && WellFormedTrace(trace)
    && Get(trace, "intent") == JStr("other")
    && !Truthy(Get(trace, "tools_called"))
    && (Contains(text, "can't") || Contains(text, "cannot"))
    && Contains(text, "newsletter")
  }

  /** evaluate_guardrail, without the score: it fails whenever any tool was recorded. */
  method EvaluateGuardrail(trace: map<string, Json>) returns (r: Evaluation)
    ensures r.EvalCrashed? <==> GuardrailCrashes(trace)
    ensures r.Evaluated? ==> (r.passed <==> |r.errors| == 0)
    ensures r.Evaluated? ==> (r.passed <==> GuardrailPasses(trace))
    ensures r.Evaluated? ==> (ToolsCalledInGuardrail in r.errors <==> Truthy(Get(trace, "tools_called")))
  {
    var schema := ValidateTraceSchema(trace);
    if schema.SchemaCrashed? {
      return EvalCrashed;
    }
    var errors := seq(|schema.errors|, i requires 0 <= i < |schema.errors| => Schema(schema.errors[i]));
    var intent := Get(trace, "intent");
    if intent != JStr("other") {
      errors := errors + [WrongIntent("other", intent)];
    }
    if Truthy(Get(trace, "tools_called")) {
      errors := errors + [ToolsCalledInGuardrail];
    }
    var finalMessage := FinalText(trace);
    if !finalMessage.JStr? {
      return EvalCrashed;
    }
    var text := Lower(finalMessage.s);
    if !Contains(text, "can't") && !Contains(text, "cannot") {
      errors := errors + [NoRefusal];
    }
    if !Contains(text, "newsletter") {
      errors := errors + [NoNewsletter];
    }
    return Evaluated(|errors| == 0, errors);
  }

  /**
   * A completed run routed to "other" records no tools and the intent
   * "other", so its trace never fails evaluate_guardrail's intent or tool
   * checks; whether it passes depends on the responder's text alone.
   */
  lemma GuardrailRunsCallNoTools(gen: Generation, question: string, oracle: Graph.Oracle, maxRounds: nat,
                                 outcome: Graph.RunOutcome, path: seq<Graph.Node>, batches: seq<seq<ToolCall>>, updates: seq<Update>)
    requires Graph.RunPost(gen, question, oracle, maxRounds, Graph.RouterIntent(gen, question, oracle), outcome, path, batches, updates)
    requires Graph.RouterIntent(gen, question, oracle) == Other
    ensures outcome.Completed?
    ensures var trace := TraceOf(outcome.state);
      && Get(trace, "intent") == JStr("other")
      && !Truthy(Get(trace, "tools_called"))
      && (!GuardrailCrashes(trace) ==>
        (GuardrailPasses(trace) <==>
          var text := Lower(oracle.finalText);
          && |Strip(oracle.finalText)| > 0
          && (Contains(text, "can't") || Contains(text, "cannot"))
          && Contains(text, "newsletter")))
  {
    TraceOfSchema(outcome.state);
  }

  /**
   * Without a policy decision (the guard's answer to an allowed
   * cancellation, among others) an order-help trace never passes.
   */
  lemma NoDecisionFailsOrderHelp(s: State, expectedAllowed: bool)
    requires s.policyDecision.None?
    requires !OrderHelpCrashes(TraceOf(s), expectedAllowed)
    ensures !OrderHelpPasses(TraceOf(s), expectedAllowed)
  {
    assert Get(TraceOf(s), "policy_decision") == JNull;
  }
}
