/**
 * The workflow state shared by the graph nodes, the partial updates the nodes
 * return, and how the graph runtime merges an update into the state. The two
 * code generations differ in the merge: the current tree concatenates
 * `tools_called` and `evidence` like `messages`, the older tree replaces them.
 * A list key that no node has written yet is absent (`None`).
 */
module AgentState {
  import opened Wrappers
  import opened Json

  /** Which tree the behaviour is taken from. */
  datatype Generation = Current | Legacy

  /** The closed set of intents. */
  datatype Intent = ProductAssist | OrderHelp | Other

  function IntentName(i: Intent): string {
    match i
    case ProductAssist => "product_assist"
    case OrderHelp => "order_help"
    case Other => "other"
  }

  /** The intent a destination name denotes, if it is one of the three. */
  function IntentOfName(name: string): (r: Option<Intent>)
    ensures r.Some? ==> IntentName(r.value) == name
    ensures r.None? ==> forall i :: IntentName(i) != name
  {
    if name == "product_assist" then Some(ProductAssist)
    else if name == "order_help" then Some(OrderHelp)
    else if name == "other" then Some(Other)
    else None
  }

  /** A tool invocation requested by the agent: tool name, arguments and call id. */
  datatype ToolCall = ToolCall(name: string, args: map<string, Json>, id: string)

  /**
   * A tool output as it is kept in the state: the text of the tool message
   * and the value `json.loads` makes of it (None when the text is not JSON).
   */
  datatype Evidence = Evidence(text: string, parsed: Option<Json>)

  datatype Message =
    | HumanMessage(content: string)
    | AiMessage(content: string, toolCalls: seq<ToolCall>)
    | ToolMessage(output: Evidence, toolCallId: string)

  /** `{"cancel_allowed": false, "reason": ...}` or `{"cancel_allowed": true}`. */
  datatype PolicyDecision = CancelBlocked(reason: Json) | CancelAllowed

  datatype State = State(
    messages: seq<Message>,
    intent: Option<Intent>,
    toolsCalled: Option<seq<string>>,
    evidence: Option<seq<Evidence>>,
    policyDecision: Option<PolicyDecision>,
    finalMessage: Option<string>)

  /** The state a run starts from: `{"messages": [HumanMessage(question)]}`. */
  function InitialState(question: string): State {
    State([HumanMessage(question)], None, None, None, None, None)
  }

  /**
   * The dictionary a node returns; `None` marks a key it does not return. A
   * policy decision may be returned as `None` itself, hence the double option.
   */
  datatype Update = Update(
    messages: seq<Message>,
    intent: Option<Intent>,
    toolsCalled: Option<seq<string>>,
    evidence: Option<seq<Evidence>>,
    policyDecision: Option<Option<PolicyDecision>>,
    finalMessage: Option<string>)

  const NoChange := Update([], None, None, None, None, None)

  /**
   * A list key's reducer. With `operator.add` (current tree) the first write
   * sets the list and later writes are appended; without a reducer (older
   * tree) each write replaces the list.
   */
  function MergeList<T>(gen: Generation, prior: Option<seq<T>>, written: Option<seq<T>>): (r: Option<seq<T>>)
    ensures written.None? ==> r == prior
    ensures written.Some? && gen == Legacy ==> r == written
    ensures written.Some? && gen == Current ==> r == Some(prior.GetOr([]) + written.value)
  {
    match written
    case None => prior
    case Some(w) => if gen == Current then Some(prior.GetOr([]) + w) else Some(w)
  }

  /** Applies a node's update: messages are appended, intent, policy decision and final message overwritten. */
  function Merge(gen: Generation, s: State, u: Update): (r: State)
    ensures r.messages == s.messages + u.messages
    ensures r.intent == if u.intent.Some? then u.intent else s.intent
    ensures r.policyDecision == if u.policyDecision.Some? then u.policyDecision.value else s.policyDecision
    ensures r.finalMessage == if u.finalMessage.Some? then u.finalMessage else s.finalMessage
  {
    State(
      s.messages + u.messages,
      if u.intent.Some? then u.intent else s.intent,
      MergeList(gen, s.toolsCalled, u.toolsCalled),
      MergeList(gen, s.evidence, u.evidence),
      if u.policyDecision.Some? then u.policyDecision.value else s.policyDecision,
      if u.finalMessage.Some? then u.finalMessage else s.finalMessage)
  }

  /** The state after applying `us` in order. */
  function MergeAll(gen: Generation, s: State, us: seq<Update>): State
    decreases |us|
  {
    if |us| == 0 then s else MergeAll(gen, Merge(gen, s, us[0]), us[1..])
  }

  /** Merging one more update is applying it to the state so far, so a run may merge as it goes. */
  lemma {:induction false} MergeAllSnoc(gen: Generation, s: State, us: seq<Update>, u: Update)
    ensures MergeAll(gen, s, us + [u]) == Merge(gen, MergeAll(gen, s, us), u)
    decreases |us|
  {
    if |us| == 0 {
      assert us + [u] == [u];
      assert [u][1..] == [];
    } else {
      assert (us + [u])[1..] == us[1..] + [u];
      MergeAllSnoc(gen, Merge(gen, s, us[0]), us[1..], u);
    }
  }

  function AllMessages(us: seq<Update>): seq<Message>
    decreases |us|
  {
    if |us| == 0 then [] else us[0].messages + AllMessages(us[1..])
  }

  /** The concatenation of every `tools_called` list the updates write. */
  function AllToolsCalled(us: seq<Update>): seq<string>
    decreases |us|
  {
    if |us| == 0 then [] else us[0].toolsCalled.GetOr([]) + AllToolsCalled(us[1..])
  }

  function AllEvidence(us: seq<Update>): seq<Evidence>
    decreases |us|
  {
    if |us| == 0 then [] else us[0].evidence.GetOr([]) + AllEvidence(us[1..])
  }

  /** The history only grows: after any updates it is the old history followed by every update's messages. */
  lemma {:induction false} MessagesAccumulate(gen: Generation, s: State, us: seq<Update>)
    ensures MergeAll(gen, s, us).messages == s.messages + AllMessages(us)
    decreases |us|
  {
    if |us| > 0 {
      MessagesAccumulate(gen, Merge(gen, s, us[0]), us[1..]);
    }
  }

  /** In the current tree nothing written to `tools_called` or `evidence` is ever lost. */
  lemma {:induction false} CurrentListsAccumulate(s: State, us: seq<Update>)
    ensures MergeAll(Current, s, us).toolsCalled.GetOr([]) == s.toolsCalled.GetOr([]) + AllToolsCalled(us)
    ensures MergeAll(Current, s, us).evidence.GetOr([]) == s.evidence.GetOr([]) + AllEvidence(us)
    decreases |us|
  {
    if |us| > 0 {
      var s' := Merge(Current, s, us[0]);
      CurrentListsAccumulate(s', us[1..]);
      assert s'.toolsCalled.GetOr([]) == s.toolsCalled.GetOr([]) + us[0].toolsCalled.GetOr([]);
      assert s'.evidence.GetOr([]) == s.evidence.GetOr([]) + us[0].evidence.GetOr([]);
    }
  }

  /** An update that records as many evidence entries as tool names, or writes neither key. */
  predicate BalancedUpdate(u: Update) {
    && (u.toolsCalled.Some? <==> u.evidence.Some?)
    && |u.toolsCalled.GetOr([])| == |u.evidence.GetOr([])|
  }

  predicate Balanced(s: State) {
    |s.toolsCalled.GetOr([])| == |s.evidence.GetOr([])|
  }

  /**
   * The accumulation law: if every update records one evidence entry per
   * tool name, then in the current tree both lists have the length of all
   * invocations together, and in either tree they keep equal lengths.
   */
  lemma {:induction false} ToolsMatchEvidence(gen: Generation, s: State, us: seq<Update>)
    requires Balanced(s)
    requires forall k :: 0 <= k < |us| ==> BalancedUpdate(us[k])
    ensures Balanced(MergeAll(gen, s, us))
    ensures gen == Current ==>
      |MergeAll(gen, s, us).toolsCalled.GetOr([])| == |s.toolsCalled.GetOr([])| + |AllToolsCalled(us)|
    decreases |us|
  {
    if |us| > 0 {
      var s' := Merge(gen, s, us[0]);
      assert Balanced(s');
      ToolsMatchEvidence(gen, s', us[1..]);
      if gen == Current {
        CurrentListsAccumulate(s, us);
      }
    }
  }

  /**
   * In the older tree `tools_called` holds only the last list written: after
   * a final update that writes it, earlier writes are gone.
   */
  lemma {:induction false} LegacyKeepsLastWrite(s: State, us: seq<Update>)
    requires |us| > 0 && us[|us| - 1].toolsCalled.Some?
    ensures MergeAll(Legacy, s, us).toolsCalled == us[|us| - 1].toolsCalled
    decreases |us|
  {
    if |us| > 1 {
      LegacyKeepsLastWrite(Merge(Legacy, s, us[0]), us[1..]);
    }
  }

  /** The value a single-value key holds after `writes`: the last value written, else `init`. */
  function LastWrite<T>(init: T, writes: seq<Option<T>>): T
    decreases |writes|
  {
    if |writes| == 0 then init
    else if writes[|writes| - 1].Some? then writes[|writes| - 1].value
    else LastWrite(init, writes[..|writes| - 1])
  }

  /** What each update writes to `intent`, `policy_decision` and `final_message`. */
  function IntentWrites(us: seq<Update>): (w: seq<Option<Option<Intent>>>)
    ensures |w| == |us|
  {
    seq(|us|, k requires 0 <= k < |us| => if us[k].intent.Some? then Some(us[k].intent) else None)
  }

  function DecisionWrites(us: seq<Update>): (w: seq<Option<Option<PolicyDecision>>>)
    ensures |w| == |us|
  {
    seq(|us|, k requires 0 <= k < |us| => us[k].policyDecision)
  }

  function FinalWrites(us: seq<Update>): (w: seq<Option<Option<string>>>)
    ensures |w| == |us|
  {
    seq(|us|, k requires 0 <= k < |us| => if us[k].finalMessage.Some? then Some(us[k].finalMessage) else None)
  }

  /**
   * The keys without a reducer keep the last value written, in both trees:
   * after any updates, `intent`, `policy_decision` and `final_message` hold
   * what the last update writing each of them wrote, or their old value.
   */
  lemma {:induction false} LastWriteWins(gen: Generation, s: State, us: seq<Update>)
    ensures MergeAll(gen, s, us).intent == LastWrite(s.intent, IntentWrites(us))
    ensures MergeAll(gen, s, us).policyDecision == LastWrite(s.policyDecision, DecisionWrites(us))
    ensures MergeAll(gen, s, us).finalMessage == LastWrite(s.finalMessage, FinalWrites(us))
    decreases |us|
  {
    if |us| > 0 {
      var front, u := us[..|us| - 1], us[|us| - 1];
      assert us == front + [u];
      MergeAllSnoc(gen, s, front, u);
      LastWriteWins(gen, s, front);
      assert IntentWrites(us)[..|front|] == IntentWrites(front);
      assert DecisionWrites(us)[..|front|] == DecisionWrites(front);
      assert FinalWrites(us)[..|front|] == FinalWrites(front);
    }
  }
}
