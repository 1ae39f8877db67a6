/**
 * The workflow graph of both trees: the edge table the builder assembles,
 * the three routing decisions, the older tree's parse of tool calls out of
 * the model's text, the tool executor, and a run of the whole graph in which
 * every language-model answer and every tool output is an oracle input.
 */
module Graph {
  import opened Wrappers
  import opened Text
  import opened Json
  import opened AgentState
  import Router
  import PolicyGuard

  datatype Node = AtRouter | AtAgent | AtToolExecutor | AtPolicyGuard | AtResponder | AtEnd

  /**
   * The edge table both trees build: the targets of the three conditional
   * edges, then policy guard to responder and responder to the end.
   */
  predicate IsEdge(from: Node, to: Node) {
    match from
    case AtRouter => to == AtAgent || to == AtResponder
    case AtAgent => to == AtToolExecutor || to == AtResponder
    case AtToolExecutor => to == AtPolicyGuard || to == AtAgent
    case AtPolicyGuard => to == AtResponder
    case AtResponder => to == AtEnd
    case AtEnd => false
  }

  /** Each step of `path` is an edge of the table. */
  predicate FollowsEdges(path: seq<Node>) {
    forall k :: 0 <= k < |path| - 1 ==> IsEdge(path[k], path[k + 1])
  }

  /** A path that follows the edges still does after one more edge. */
  lemma FollowsEdgesSnoc(path: seq<Node>, next: Node)
    requires FollowsEdges(path) && (|path| > 0 ==> IsEdge(path[|path| - 1], next))
    ensures FollowsEdges(path + [next])
  {
    var p := path + [next];
    forall k | 0 <= k < |p| - 1 ensures IsEdge(p[k], p[k + 1]) {
      if k + 1 < |path| {
        assert p[k] == path[k] && p[k + 1] == path[k + 1];
      }
    }
  }

  // ================================================================ building the graph

  /** One edge from `source` to each of `targets`. */
  function EdgesTo(source: Node, targets: set<Node>): (r: set<(Node, Node)>)
    ensures forall a, b :: (a, b) in r <==> a == source && b in targets
  {
    set t | t in targets :: (source, t)
  }

  /** The edge table as a set of pairs. */
  const EdgeTable: set<(Node, Node)> := {
    (AtRouter, AtAgent), (AtRouter, AtResponder), (AtAgent, AtToolExecutor), (AtAgent, AtResponder),
    (AtToolExecutor, AtPolicyGuard), (AtToolExecutor, AtAgent), (AtPolicyGuard, AtResponder), (AtResponder, AtEnd)}

  /** The set of pairs holds exactly the edges of the table. */
  lemma EdgeTableIsEdges()
    ensures forall a, b :: (a, b) in EdgeTable <==> IsEdge(a, b)
  {
  }

  /** The graph builder: the nodes added, the entry point and the edges. */
  class GraphBuilder {
    var nodes: set<Node>
    var entry: Option<Node>
    var edges: set<(Node, Node)>

    constructor()
      ensures nodes == {} && entry == None && edges == {}
    {
      nodes := {};
      entry := None;
      edges := {};
    }

    method AddNode(n: Node)
      modifies this
      ensures nodes == old(nodes) + {n} && entry == old(entry) && edges == old(edges)
    {
      nodes := nodes + {n};
    }

    method SetEntryPoint(n: Node)
      modifies this
      ensures entry == Some(n) && nodes == old(nodes) && edges == old(edges)
    {
      entry := Some(n);
    }

    method AddEdge(from: Node, to: Node)
      modifies this
      ensures edges == old(edges) + {(from, to)}
      ensures nodes == old(nodes) && entry == old(entry)
    {
      edges := edges + {(from, to)};
    }

    /** A conditional edge: one edge from `source` to every node its path map can choose. */
    method AddConditionalEdges(source: Node, pathMap: map<string, Node>)
      modifies this
      ensures edges == old(edges) + EdgesTo(source, pathMap.Values)
      ensures nodes == old(nodes) && entry == old(entry)
    {
      edges := edges + EdgesTo(source, pathMap.Values);
    }
  }

  /** build_graph_structure (and the same assembly in the older create_graph). */
  method BuildGraphStructure() returns (g: GraphBuilder)
    ensures fresh(g)
    ensures g.nodes == {AtRouter, AtAgent, AtToolExecutor, AtPolicyGuard, AtResponder}
    ensures g.entry == Some(AtRouter)
    ensures g.edges == EdgeTable && forall a, b :: (a, b) in g.edges <==> IsEdge(a, b)
  {
    g := new GraphBuilder();
    g.AddNode(AtRouter);
    g.AddNode(AtAgent);
    g.AddNode(AtToolExecutor);
    g.AddNode(AtPolicyGuard);
    g.AddNode(AtResponder);
    g.SetEntryPoint(AtRouter);
    var afterRouter := map["product_assist" := AtAgent, "order_help" := AtAgent, "other" := AtResponder];
    assert afterRouter.Values == {AtAgent, AtResponder} by {
      assert afterRouter["product_assist"] == AtAgent && afterRouter["other"] == AtResponder;
    }
    g.AddConditionalEdges(AtRouter, afterRouter);
    var afterAgent := map["execute_tools" := AtToolExecutor, "__end__" := AtResponder];
    assert afterAgent.Values == {AtToolExecutor, AtResponder} by {
      assert afterAgent["execute_tools"] == AtToolExecutor && afterAgent["__end__"] == AtResponder;
    }
    g.AddConditionalEdges(AtAgent, afterAgent);
    var afterTools := map["policy_guard" := AtPolicyGuard, "agent" := AtAgent];
    assert afterTools.Values == {AtPolicyGuard, AtAgent} by {
      assert afterTools["policy_guard"] == AtPolicyGuard && afterTools["agent"] == AtAgent;
    }
    g.AddConditionalEdges(AtToolExecutor, afterTools);
    g.AddEdge(AtPolicyGuard, AtResponder);
    g.AddEdge(AtResponder, AtEnd);
    TableEdges(g.edges, afterRouter.Values, afterAgent.Values, afterTools.Values);
    EdgeTableIsEdges();
    FiveNodes(g.nodes);
  }

  /** The nodes the builder adds, one at a time, are the five of the graph. */
  lemma FiveNodes(nodes: set<Node>)
    requires nodes == {} + {AtRouter} + {AtAgent} + {AtToolExecutor} + {AtPolicyGuard} + {AtResponder}
    ensures nodes == {AtRouter, AtAgent, AtToolExecutor, AtPolicyGuard, AtResponder}
  {
  }

  /** The edges the builder adds, in the order it adds them, make up the table. */
  lemma TableEdges(edges: set<(Node, Node)>, fromRouter: set<Node>, fromAgent: set<Node>, fromTools: set<Node>)
    requires fromRouter == {AtAgent, AtResponder} && fromAgent == {AtToolExecutor, AtResponder}
    requires fromTools == {AtPolicyGuard, AtAgent}
    requires edges == {} + EdgesTo(AtRouter, fromRouter) + EdgesTo(AtAgent, fromAgent) + EdgesTo(AtToolExecutor, fromTools)
      + {(AtPolicyGuard, AtResponder)} + {(AtResponder, AtEnd)}
    ensures edges == EdgeTable
  {
  }

  // ================================================================ routing

  /** The router's conditional edge: "other" goes to the responder, the two other intents to the agent. */
  function RouteAfterRouter(intent: Intent): (next: Node)
    ensures IsEdge(AtRouter, next)
    ensures next == AtResponder <==> intent == Other
  {
    match intent
    case Other => AtResponder
    case _ => AtAgent
  }

  predicate LastIsAi(s: State) {
    |s.messages| > 0 && s.messages[|s.messages| - 1].AiMessage?
  }

  function LastCalls(s: State): seq<ToolCall>
    requires LastIsAi(s)
  {
    s.messages[|s.messages| - 1].toolCalls
  }

  /**
   * should_continue: the last message's tool calls decide; a last message
   * that is not the model's has no tool calls to read (AttributeError).
   */
  function ShouldContinue(s: State): (next: Option<Node>)
    ensures next.Some? <==> LastIsAi(s)
    ensures next.Some? ==> IsEdge(AtAgent, next.value)
    ensures next == Some(AtToolExecutor) <==> LastIsAi(s) && |LastCalls(s)| > 0
  {
    if !LastIsAi(s) then None
    else if |LastCalls(s)| > 0 then Some(AtToolExecutor)
    else Some(AtResponder)
  }

  /**
   * route_after_tools: the current tree asks whether "order_cancel" is among
   * the accumulated tool names; the older tree asks only for the intent.
   */
  function RouteAfterTools(gen: Generation, s: State): (next: Node)
    ensures IsEdge(AtToolExecutor, next)
    ensures gen == Current ==> (next == AtPolicyGuard <==> "order_cancel" in s.toolsCalled.GetOr([]))
    ensures gen == Legacy ==> (next == AtPolicyGuard <==> s.intent == Some(OrderHelp))
  {
    if gen == Current then
      if "order_cancel" in s.toolsCalled.GetOr([]) then AtPolicyGuard else AtAgent
    else
      if s.intent == Some(OrderHelp) then AtPolicyGuard else AtAgent
  }

  /**
   * In the current tree the test reads the accumulated list: once any round
   * has called order_cancel, every later tool round routes to the guard,
   * whatever that round called.
   */
  lemma CurrentGuardRouteIsSticky(s: State, u: Update)
    requires "order_cancel" in s.toolsCalled.GetOr([])
    ensures RouteAfterTools(Current, Merge(Current, s, u)) == AtPolicyGuard
  {
    var merged := Merge(Current, s, u).toolsCalled.GetOr([]);
    assert merged[..|s.toolsCalled.GetOr([])|] == s.toolsCalled.GetOr([]);
  }

  // ================================================================ nodes

  /** The router node of each tree: keyword rules then the fallback (current), or the fallback alone (older). */
  function RouterUpdate(gen: Generation, question: string, fallback: Option<map<string, Json>>): (u: Update)
    ensures u == NoChange.(intent := u.intent) && u.intent.Some?
    ensures gen == Legacy ==> u.intent == Some(Router.NormalizeDestination(fallback))
  {
    if gen == Current then Router.RouterNode(question, fallback)
    else NoChange.(intent := Some(Router.NormalizeDestination(fallback)))
  }

  /**
   * One answer of the agent's model. `toolCalls` are the structured calls a
   * tool-bound model returns (current tree); `fenced` is what the older
   * tree's pattern finds in the text: no block, a block that is not JSON, or
   * the parsed block.
   */
  datatype LlmReply = LlmReply(content: string, toolCalls: seq<ToolCall>, fenced: Option<Option<Json>>)

  /** A tool call as the older agent assembles it, before the message checks its fields. */
  datatype RawCall = RawCall(name: Json, args: Json, id: string)

  /** An item both `["tool_name"]` and `["arguments"]` can be read from. */
  predicate Keyed(j: Json) {
    j.JObj? && "tool_name" in j.fields && "arguments" in j.fields
  }

  function RawOf(j: Json, id: string): (c: RawCall)
    requires Keyed(j)
    ensures c.id == id
  {
    RawCall(j.fields["tool_name"], j.fields["arguments"], id)
  }

  /** The message accepts a call with a string name and object arguments. */
  predicate Accepted(c: RawCall) {
    c.name.JStr? && c.args.JObj?
  }

  function ToToolCall(c: RawCall): (t: ToolCall)
    requires Accepted(c)
    ensures t.id == c.id
  {
    ToolCall(c.name.s, c.args.fields, c.id)
  }

  /** `f"tool_call_{i}"` */
  function CallId(i: nat): string {
    "tool_call_" + NatToString(i)
  }

  /** Distinct positions get distinct ids. */
  lemma CallIdInjective(a: nat, b: nat)
    ensures CallId(a) == CallId(b) <==> a == b
  {
    if CallId(a) == CallId(b) {
      assert NatToString(a) == CallId(a)[10..];
      assert NatToString(b) == CallId(b)[10..];
      NatToStringInjective(a, b);
    }
  }

  /** `items[k]` is the first item a key can not be read from. */
  predicate FirstUnkeyed(items: seq<Json>, k: int) {
    && 0 <= k < |items|
    && !Keyed(items[k])
    && forall j :: 0 <= j < k ==> Keyed(items[j])
  }

  /** The agent's turn: a message, or an exception that escapes the node. */
  datatype AgentTurn = Turn(message: Message) | AgentCrashed

  /**
   * The older agent_node's parse: no block, bad JSON or a missing key gives
   * the plain text with no calls; a list gives a call per item with id
   * "tool_call_i", an object a single call "tool_call_0". Indexing a value
   * that is not an object, or a call whose name is not a string or whose
   * arguments are not an object, raises.
   */
  method LegacyAgentParse(content: string, fenced: Option<Option<Json>>) returns (r: AgentTurn)
    ensures fenced.None? || fenced.value.None? ==> r == Turn(AiMessage(content, []))
    ensures r.Turn? ==> r.message.AiMessage?
    ensures r.Turn? ==> forall i, j :: 0 <= i < j < |r.message.toolCalls| ==>
      r.message.toolCalls[i].id != r.message.toolCalls[j].id
    ensures fenced.Some? && fenced.value.Some? && fenced.value.value.JList? ==>
      var items := fenced.value.value.items;
      && ((exists k :: FirstUnkeyed(items, k) && items[k].JObj?) ==> r == Turn(AiMessage(content, [])))
      && ((exists k :: FirstUnkeyed(items, k) && !items[k].JObj?) ==> r == AgentCrashed)
      && ((forall k :: 0 <= k < |items| ==> Keyed(items[k])) ==>
        && (r.AgentCrashed? <==> exists k :: 0 <= k < |items| && !Accepted(RawOf(items[k], CallId(k))))
        && (r.Turn? ==>
          && r.message.content == "" && |r.message.toolCalls| == |items|
          && forall k :: 0 <= k < |items| ==> r.message.toolCalls[k] == ToToolCall(RawOf(items[k], CallId(k)))))
    ensures fenced.Some? && fenced.value.Some? && fenced.value.value.JObj? ==>
      var data := fenced.value.value;
      && (!Keyed(data) ==> r == Turn(AiMessage(content, [])))
      && (Keyed(data) && Accepted(RawOf(data, "tool_call_0")) ==>
        r == Turn(AiMessage("", [ToToolCall(RawOf(data, "tool_call_0"))])))
      && (Keyed(data) && !Accepted(RawOf(data, "tool_call_0")) ==> r == AgentCrashed)
    ensures fenced.Some? && fenced.value.Some? && !fenced.value.value.JList? && !fenced.value.value.JObj? ==>
      r == AgentCrashed
  {
    if fenced.None? || fenced.value.None? {
      return Turn(AiMessage(content, []));
    }
    var data := fenced.value.value;
    var raw: seq<RawCall>;
    match data {
      case JList(items) =>
        raw := [];
        var i := 0;
        while i < |items|
          invariant 0 <= i <= |items|
          invariant forall k :: 0 <= k < i ==> Keyed(items[k])
          invariant |raw| == i && forall k :: 0 <= k < i ==> raw[k] == RawOf(items[k], CallId(k))
        {
          var tool := items[i];
          if !tool.JObj? {
            assert FirstUnkeyed(items, i);
            return AgentCrashed;
          }
          if !("tool_name" in tool.fields && "arguments" in tool.fields) {
            assert FirstUnkeyed(items, i);
            return Turn(AiMessage(content, []));
          }
          raw := raw + [RawCall(tool.fields["tool_name"], tool.fields["arguments"], "tool_call_" + NatToString(i))];
          i := i + 1;
        }
        assert forall k :: !FirstUnkeyed(items, k);
      case JObj(m) =>
        if !("tool_name" in m && "arguments" in m) {
          return Turn(AiMessage(content, []));
        }
        raw := [RawCall(m["tool_name"], m["arguments"], "tool_call_0")];
        assert raw[0] == RawOf(data, "tool_call_0");
      case _ =>
        return AgentCrashed;
    }
    if exists k :: 0 <= k < |raw| && !Accepted(raw[k]) {
      return AgentCrashed;
    }
    var calls := seq(|raw|, k requires 0 <= k < |raw| => ToToolCall(raw[k]));
    forall i, j | 0 <= i < j < |calls|
      ensures calls[i].id != calls[j].id
    {
      if data.JList? {
        CallIdInjective(i, j);
      }
    }
    r := Turn(AiMessage("", calls));
  }

  /** The names of a batch of calls, in call order. */
  function CallNames(calls: seq<ToolCall>): (names: seq<string>)
    ensures |names| == |calls|
  {
    seq(|calls|, i requires 0 <= i < |calls| => calls[i].name)
  }

  /**
   * tool_executor_node: one tool message per call, tagged with that call's
   * id; the evidence lists the outputs and `tools_called` the names, both
   * in call order. `run` stands for executing a call.
   */
  method ToolExecutorNode(calls: seq<ToolCall>, run: ToolCall -> Evidence) returns (u: Update)
    ensures u == NoChange.(messages := u.messages, toolsCalled := u.toolsCalled, evidence := u.evidence)
    ensures u.toolsCalled == Some(CallNames(calls))
    ensures u.evidence.Some? && |u.evidence.value| == |calls| && |u.messages| == |calls|
    ensures forall i :: 0 <= i < |calls| ==>
      u.messages[i] == ToolMessage(run(calls[i]), calls[i].id) && u.evidence.value[i] == run(calls[i])
    ensures BalancedUpdate(u)
  {
    var messages: seq<Message> := [];
    var evidence: seq<Evidence> := [];
    var i := 0;
    while i < |calls|
      invariant 0 <= i <= |calls|
      invariant |messages| == i && |evidence| == i
      invariant forall k :: 0 <= k < i ==>
        messages[k] == ToolMessage(run(calls[k]), calls[k].id) && evidence[k] == run(calls[k])
    {
      var output := run(calls[i]);
      messages := messages + [ToolMessage(output, calls[i].id)];
      evidence := evidence + [output];
      i := i + 1;
    }
    u := NoChange.(messages := messages, toolsCalled := Some(CallNames(calls)), evidence := Some(evidence));
  }

  // ================================================================ a run of the graph

  /**
   * Everything the run does not compute itself: the router model's reply
   * (reduced to the JSON object found in it), the agent model's n-th answer,
   * the output of executing a call, and the responder's text.
   */
  datatype Oracle = Oracle(
    routerReply: Option<map<string, Json>>,
    agentReply: nat -> LlmReply,
    toolOutput: ToolCall -> Evidence,
    finalText: string)

  /** How a run ends: at END, with an exception in a node, or out of agent rounds. */
  datatype RunOutcome = Completed(state: State) | Crashed(at: Node) | OutOfRounds(state: State)

  function Rank(n: Node): nat {
    match n
    case AtRouter => 5
    case AtAgent => 4
    case AtToolExecutor => 3
    case AtPolicyGuard => 2
    case AtResponder => 1
    case AtEnd => 0
  }

  /** The intent the router node writes. */
  function RouterIntent(gen: Generation, question: string, oracle: Oracle): Intent {
    RouterUpdate(gen, question, oracle.routerReply).intent.value
  }

  /** The names of every executed batch, in order. */
  function AllNames(batches: seq<seq<ToolCall>>): seq<string>
    decreases |batches|
  {
    if |batches| == 0 then [] else AllNames(batches[..|batches| - 1]) + CallNames(batches[|batches| - 1])
  }

  /** A name was called in the run exactly when some batch called it. */
  lemma {:induction false} InAllNames(batches: seq<seq<ToolCall>>, x: string)
    ensures x in AllNames(batches) <==> exists k :: 0 <= k < |batches| && x in CallNames(batches[k])
    decreases |batches|
  {
    if |batches| > 0 {
      var front := batches[..|batches| - 1];
      InAllNames(front, x);
      if x in AllNames(batches) && x in AllNames(front) {
        var k :| 0 <= k < |front| && x in CallNames(front[k]);
        assert batches[k] == front[k];
      }
      if exists k :: 0 <= k < |batches| && x in CallNames(batches[k]) {
        var k :| 0 <= k < |batches| && x in CallNames(batches[k]);
        if k < |front| {
          assert front[k] == batches[k];
        }
      }
    }
  }

  /**
   * What every run guarantees, however it ends:
   * - the path starts at the router and follows the edge table, and a
   *   completed run ends at END;
   * - unless a node raised, the state is the merge of the node updates, the
   *   intent is the router's and there is an evidence entry per tool name;
   *   a completed run carries the responder's text, and a decision only if
   *   it passed the guard;
   * - at most `maxRounds` batches ran, none empty, and in the current tree
   *   `tools_called` lists all of their names;
   * - intent "other" goes router, responder, END and runs no tool;
   * - in the current tree only the last batch can call order_cancel, and it
   *   does when the guard was reached, so the accumulated test agrees with
   *   "just called"; in the older tree the guard is reached only for order
   *   help, after at most one batch.
   */
  predicate RunPost(gen: Generation, question: string, oracle: Oracle, maxRounds: nat, intent: Intent,
                    outcome: RunOutcome, path: seq<Node>, batches: seq<seq<ToolCall>>, updates: seq<Update>)
  {
    && PostHistory(maxRounds, intent, outcome, path, batches)
    && PostState(gen, question, oracle, intent, outcome, path, batches, updates)
    && PostCancel(gen, intent, path, batches)
  }

  /** The path and the batches of a finished run. */
  predicate PostHistory(maxRounds: nat, intent: Intent, outcome: RunOutcome, path: seq<Node>, batches: seq<seq<ToolCall>>) {
    && |path| > 0 && path[0] == AtRouter
    && FollowsEdges(path)
    && (outcome.Completed? ==> path[|path| - 1] == AtEnd)
    && |batches| <= maxRounds
    && (forall k :: 0 <= k < |batches| ==> |batches[k]| > 0)
    && (intent == Other ==> path == [AtRouter, AtResponder, AtEnd] && batches == [] && outcome.Completed?)
  }

  /** The state a finished run leaves, unless a node raised. */
  predicate PostState(gen: Generation, question: string, oracle: Oracle, intent: Intent,
                      outcome: RunOutcome, path: seq<Node>, batches: seq<seq<ToolCall>>, updates: seq<Update>)
  {
    && (forall k :: 0 <= k < |updates| ==> BalancedUpdate(updates[k]))
    && (!outcome.Crashed? ==>
      && outcome.state == MergeAll(gen, InitialState(question), updates)
      && outcome.state.intent == Some(intent)
      && Balanced(outcome.state)
      && (gen == Current ==> outcome.state.toolsCalled.GetOr([]) == AllNames(batches)))
    && (outcome.Completed? ==> outcome.state.finalMessage == Some(oracle.finalText))
    && (outcome.Completed? && AtPolicyGuard !in path ==> outcome.state.policyDecision.None?)
    && (outcome.Completed? && intent == Other ==> outcome.state.toolsCalled.None? && outcome.state.evidence.None?)
  }

  /** Where order_cancel can appear among the batches, and when the guard is reached. */
  predicate PostCancel(gen: Generation, intent: Intent, path: seq<Node>, batches: seq<seq<ToolCall>>) {
    && (gen == Current ==> forall k :: 0 <= k < |batches| - 1 ==> "order_cancel" !in CallNames(batches[k]))
    && (gen == Current ==>
      (AtPolicyGuard in path <==> |batches| > 0 && "order_cancel" in CallNames(batches[|batches| - 1])))
    && (gen == Legacy && AtPolicyGuard in path ==> intent == OrderHelp)
    && (gen == Legacy && intent == OrderHelp ==> |batches| <= 1)
  }

  /** Where a run is: the state, the node about to run, the agent turns begun, and the history so far. */
  datatype Cursor = Cursor(
    s: State, node: Node, visits: nat, path: seq<Node>, batches: seq<seq<ToolCall>>, updates: seq<Update>)

  /** The loop invariant of a run, before `c.node` runs. */
  predicate Inv(gen: Generation, question: string, oracle: Oracle, maxRounds: nat, intent: Intent, c: Cursor) {
    && InvHistory(maxRounds, intent, c)
    && InvState(gen, question, oracle, intent, c)
    && InvCancel(gen, intent, c)
  }

  /** The turns, batches and path so far. */
  predicate InvHistory(maxRounds: nat, intent: Intent, c: Cursor) {
    && c.visits <= maxRounds && |c.batches| <= c.visits
    && ((c.node == AtAgent || c.node == AtToolExecutor) ==> c.visits >= 1 && |c.batches| == c.visits - 1)
    && (forall k :: 0 <= k < |c.batches| ==> |c.batches[k]| > 0)
    && (c.path == [] <==> c.node == AtRouter)
    && (c.path != [] ==> c.path[0] == AtRouter && IsEdge(c.path[|c.path| - 1], c.node))
    && FollowsEdges(c.path)
    && (intent == Other ==>
      && c.batches == []
      && (|| (c.path == [] && c.node == AtRouter)
          || (c.path == [AtRouter] && c.node == AtResponder)
          || (c.path == [AtRouter, AtResponder] && c.node == AtEnd)))
  }

  /** The state so far: the merge of the updates, with what each node has and has not written. */
  predicate InvState(gen: Generation, question: string, oracle: Oracle, intent: Intent, c: Cursor) {
    && c.s == MergeAll(gen, InitialState(question), c.updates)
    && (forall k :: 0 <= k < |c.updates| ==> BalancedUpdate(c.updates[k]))
    && Balanced(c.s)
    && (c.path == [] ==> c.s == InitialState(question) && c.visits == 0 && c.batches == [] && c.updates == [])
    && (c.path != [] ==> c.s.intent == Some(intent))
    && c.s.finalMessage == (if c.node == AtEnd then Some(oracle.finalText) else None)
    && (AtPolicyGuard !in c.path ==> c.s.policyDecision.None?)
    && (c.node == AtToolExecutor ==> LastIsAi(c.s) && |LastCalls(c.s)| > 0)
    && (|c.batches| == 0 ==> c.s.toolsCalled.None? && c.s.evidence.None?)
    && (gen == Current ==> c.s.toolsCalled.GetOr([]) == AllNames(c.batches))
  }

  /** Where order_cancel has appeared so far, and what reaching the guard implies. */
  predicate InvCancel(gen: Generation, intent: Intent, c: Cursor) {
    && (gen == Current ==> forall k :: 0 <= k < |c.batches| - 1 ==> "order_cancel" !in CallNames(c.batches[k]))
    && (gen == Current && (c.node == AtAgent || c.node == AtToolExecutor) ==>
      forall k :: 0 <= k < |c.batches| ==> "order_cancel" !in CallNames(c.batches[k]))
    && (gen == Current ==>
      ((AtPolicyGuard in c.path || c.node == AtPolicyGuard)
        <==> |c.batches| > 0 && "order_cancel" in CallNames(c.batches[|c.batches| - 1])))
    && (gen == Legacy && (AtPolicyGuard in c.path || c.node == AtPolicyGuard) ==> intent == OrderHelp)
    && (gen == Legacy && intent == OrderHelp ==>
      |c.batches| <= 1 && ((c.node == AtAgent || c.node == AtToolExecutor) ==> c.batches == []))
  }

  /** A step moves to a later node, or begins another agent turn. */
  predicate Progress(c: Cursor, c': Cursor) {
    c.visits < c'.visits || (c.visits == c'.visits && Rank(c'.node) < Rank(c.node))
  }

  /** The node's update merged into the cursor's state, the node appended to the path. */
  function Apply(gen: Generation, c: Cursor, u: Update, next: Node): (c': Cursor)
    ensures c'.s == Merge(gen, c.s, u) && c'.updates == c.updates + [u] && c'.path == c.path + [c.node]
    ensures c'.node == next && c'.visits == c.visits && c'.batches == c.batches
  {
    Cursor(Merge(gen, c.s, u), next, c.visits, c.path + [c.node], c.batches, c.updates + [u])
  }

  /** The cursor after a tool round: the update merged, the batch recorded, the route after tools taken. */
  function AfterTools(gen: Generation, c: Cursor, calls: seq<ToolCall>, u: Update): (c': Cursor)
    ensures c'.s == Merge(gen, c.s, u) && c'.updates == c.updates + [u] && c'.path == c.path + [c.node]
    ensures c'.batches == c.batches + [calls] && c'.visits == c.visits
    ensures c'.node == RouteAfterTools(gen, Merge(gen, c.s, u))
  {
    Apply(gen, c, u, RouteAfterTools(gen, Merge(gen, c.s, u))).(batches := c.batches + [calls])
  }

  // ---------------------------------------------------------------- the history half

  /** A step along an edge keeps the history half, given the new counts. */
  lemma HistoryStep(maxRounds: nat, intent: Intent, c: Cursor, c': Cursor)
    requires InvHistory(maxRounds, intent, c) && IsEdge(c.node, c'.node) && c'.path == c.path + [c.node]
    requires c'.visits <= maxRounds && |c'.batches| <= c'.visits
    requires (c'.node == AtAgent || c'.node == AtToolExecutor) ==> c'.visits >= 1 && |c'.batches| == c'.visits - 1
    requires forall k :: 0 <= k < |c'.batches| ==> |c'.batches[k]| > 0
    requires intent == Other ==> c'.batches == [] && (c.node == AtRouter ==> c'.node == AtResponder)
    ensures InvHistory(maxRounds, intent, c')
  {
    FollowsEdgesSnoc(c.path, c.node);
    if intent == Other && c.node == AtResponder {
      assert c.path + [AtResponder] == [AtRouter, AtResponder];
    }
  }

  /** A run that stops before `c.node` ends with that node appended to the path. */
  lemma HistoryPost(maxRounds: nat, intent: Intent, c: Cursor, outcome: RunOutcome)
    requires InvHistory(maxRounds, intent, c)
    requires (outcome.Completed? || intent == Other) ==> c.node == AtEnd
    requires intent == Other ==> outcome.Completed?
    ensures PostHistory(maxRounds, intent, outcome, c.path + [c.node], c.batches)
  {
    FollowsEdgesSnoc(c.path, c.node);
    if intent == Other {
      assert c.path + [AtEnd] == [AtRouter, AtResponder, AtEnd];
    }
  }

  // ---------------------------------------------------------------- the order-cancel half

  /** A step that runs no tool keeps the order-cancel half. */
  lemma CancelSameBatches(gen: Generation, intent: Intent, c: Cursor, c': Cursor)
    requires InvCancel(gen, intent, c) && c'.batches == c.batches && c'.path == c.path + [c.node]
    requires c'.node != AtPolicyGuard
    requires (c'.node == AtAgent || c'.node == AtToolExecutor) ==>
      c.node == AtAgent || c.node == AtToolExecutor || c.batches == []
    ensures InvCancel(gen, intent, c')
  {
  }

  /** A stop before `c.node` leaves the order-cancel facts of the run. */
  lemma CancelPost(gen: Generation, intent: Intent, c: Cursor)
    requires InvCancel(gen, intent, c)
    ensures PostCancel(gen, intent, c.path + [c.node], c.batches)
  {
  }

  /** A tool round keeps the order-cancel half, given where the route after tools went. */
  lemma ToolsKeepCancel(gen: Generation, intent: Intent, c: Cursor, calls: seq<ToolCall>, c': Cursor)
    requires InvCancel(gen, intent, c) && c.node == AtToolExecutor
    requires c'.batches == c.batches + [calls] && c'.path == c.path + [c.node]
    requires c'.node == AtPolicyGuard || c'.node == AtAgent
    requires gen == Current ==> (c'.node == AtPolicyGuard <==> "order_cancel" in CallNames(calls))
    requires gen == Legacy ==> (c'.node == AtPolicyGuard <==> intent == OrderHelp)
    ensures InvCancel(gen, intent, c')
    ensures c'.node == AtAgent ==> PostCancel(gen, intent, c'.path, c'.batches)
  {
    var bs' := c'.batches;
    if gen == Current {
      forall k | 0 <= k < |bs'| - 1 ensures "order_cancel" !in CallNames(bs'[k]) {
        assert bs'[k] == c.batches[k];
      }
      if c'.node == AtAgent {
        forall k | 0 <= k < |bs'| ensures "order_cancel" !in CallNames(bs'[k]) {
          if k < |c.batches| {
            assert bs'[k] == c.batches[k];
          }
        }
      }
    }
  }

  // ---------------------------------------------------------------- the state half

  /** The router's update: the intent is set, nothing else. */
  lemma RouterKeepsState(gen: Generation, question: string, oracle: Oracle, intent: Intent, c: Cursor, u: Update,
                         c': Cursor)
    requires InvState(gen, question, oracle, intent, c) && c.path == [] && c.node == AtRouter
    requires u == RouterUpdate(gen, question, oracle.routerReply) && intent == u.intent.value
    requires c'.s == Merge(gen, c.s, u) && c'.updates == c.updates + [u] && c'.path == c.path + [c.node]
    requires c'.batches == c.batches && (c'.node == AtAgent || c'.node == AtResponder)
    ensures InvState(gen, question, oracle, intent, c')
  {
    MergeAllSnoc(gen, InitialState(question), c.updates, u);
  }

  /** The agent's update: one AI message appended. */
  lemma AgentKeepsState(gen: Generation, question: string, oracle: Oracle, intent: Intent, c: Cursor, message: Message,
                        c': Cursor)
    requires InvState(gen, question, oracle, intent, c) && c.node == AtAgent && c.path != [] && message.AiMessage?
    requires var u := NoChange.(messages := [message]);
      && c'.s == Merge(gen, c.s, u) && c'.updates == c.updates + [u] && c'.path == c.path + [c.node]
      && c'.batches == c.batches && Some(c'.node) == ShouldContinue(c'.s)
    ensures InvState(gen, question, oracle, intent, c')
  {
    MergeAllSnoc(gen, InitialState(question), c.updates, NoChange.(messages := [message]));
  }

  /** The agent's message is the last one after its update. */
  lemma AgentReplyIsLast(gen: Generation, s: State, message: Message)
    requires message.AiMessage?
    ensures LastIsAi(Merge(gen, s, NoChange.(messages := [message])))
  {
    var s' := Merge(gen, s, NoChange.(messages := [message]));
    assert s'.messages[|s'.messages| - 1] == message;
  }

  /** What the tool executor's update is, as far as the run needs it. */
  predicate ToolRound(c: Cursor, calls: seq<ToolCall>, u: Update) {
    && c.node == AtToolExecutor && LastIsAi(c.s) && calls == LastCalls(c.s)
    && u == NoChange.(messages := u.messages, toolsCalled := u.toolsCalled, evidence := u.evidence)
    && u.toolsCalled == Some(CallNames(calls)) && BalancedUpdate(u)
  }

  /** The merge of a tool round keeps the state equation, the balance and the name list. */
  lemma ToolsMergeState(gen: Generation, question: string, c: Cursor, calls: seq<ToolCall>, u: Update)
    requires c.s == MergeAll(gen, InitialState(question), c.updates)
    requires forall k :: 0 <= k < |c.updates| ==> BalancedUpdate(c.updates[k])
    requires Balanced(c.s)
    requires gen == Current ==> c.s.toolsCalled.GetOr([]) == AllNames(c.batches)
    requires u == NoChange.(messages := u.messages, toolsCalled := u.toolsCalled, evidence := u.evidence)
    requires u.toolsCalled == Some(CallNames(calls)) && BalancedUpdate(u)
    ensures var s', us', bs' := Merge(gen, c.s, u), c.updates + [u], c.batches + [calls];
      && s' == MergeAll(gen, InitialState(question), us')
      && (forall k :: 0 <= k < |us'| ==> BalancedUpdate(us'[k]))
      && Balanced(s')
      && s'.intent == c.s.intent && s'.finalMessage == c.s.finalMessage && s'.policyDecision == c.s.policyDecision
      && s'.toolsCalled.Some? && s'.evidence.Some?
      && (gen == Current ==> s'.toolsCalled.GetOr([]) == AllNames(bs'))
  {
    MergeAllSnoc(gen, InitialState(question), c.updates, u);
    var bs' := c.batches + [calls];
    assert AllNames(bs') == AllNames(c.batches) + CallNames(calls) by {
      assert bs'[..|c.batches|] == c.batches;
    }
  }

  /** A tool round keeps the state half, wherever the route after tools goes. */
  lemma ToolsKeepState(gen: Generation, question: string, oracle: Oracle, intent: Intent, c: Cursor,
                       calls: seq<ToolCall>, u: Update, c': Cursor)
    requires InvState(gen, question, oracle, intent, c) && ToolRound(c, calls, u) && c.path != []
    requires c'.s == Merge(gen, c.s, u) && c'.updates == c.updates + [u] && c'.path == c.path + [c.node]
    requires c'.batches == c.batches + [calls] && (c'.node == AtAgent || c'.node == AtPolicyGuard)
    ensures InvState(gen, question, oracle, intent, c')
    ensures PostState(gen, question, oracle, intent, OutOfRounds(c'.s), c'.path, c'.batches, c'.updates)
  {
    ToolsMergeState(gen, question, c, calls, u);
  }

  /** In the current tree the guard is reached exactly when this round called order_cancel. */
  lemma ToolsRouteCurrent(c: Cursor, calls: seq<ToolCall>, u: Update)
    requires c.s.toolsCalled.GetOr([]) == AllNames(c.batches)
    requires forall k :: 0 <= k < |c.batches| ==> "order_cancel" !in CallNames(c.batches[k])
    requires u.toolsCalled == Some(CallNames(calls))
    ensures RouteAfterTools(Current, Merge(Current, c.s, u)) == AtPolicyGuard <==> "order_cancel" in CallNames(calls)
  {
    InAllNames(c.batches, "order_cancel");
    assert Merge(Current, c.s, u).toolsCalled.GetOr([]) == AllNames(c.batches) + CallNames(calls);
  }

  /** The guard's update: the decision, nothing else. */
  lemma GuardKeepsState(gen: Generation, question: string, oracle: Oracle, intent: Intent, c: Cursor,
                        d: Option<PolicyDecision>, c': Cursor)
    requires InvState(gen, question, oracle, intent, c) && c.node == AtPolicyGuard && c.path != []
    requires var u := NoChange.(policyDecision := Some(d));
      && c'.s == Merge(gen, c.s, u) && c'.updates == c.updates + [u] && c'.path == c.path + [c.node]
      && c'.batches == c.batches && c'.node == AtResponder
    ensures InvState(gen, question, oracle, intent, c')
  {
    MergeAllSnoc(gen, InitialState(question), c.updates, NoChange.(policyDecision := Some(d)));
  }

  /** The responder's update: the final message, nothing else. */
  lemma ResponderKeepsState(gen: Generation, question: string, oracle: Oracle, intent: Intent, c: Cursor, c': Cursor)
    requires InvState(gen, question, oracle, intent, c) && c.node == AtResponder && c.path != []
    requires var u := NoChange.(finalMessage := Some(oracle.finalText));
      && c'.s == Merge(gen, c.s, u) && c'.updates == c.updates + [u] && c'.path == c.path + [c.node]
      && c'.batches == c.batches && c'.node == AtEnd
    ensures InvState(gen, question, oracle, intent, c')
  {
    MergeAllSnoc(gen, InitialState(question), c.updates, NoChange.(finalMessage := Some(oracle.finalText)));
  }

  /** A state that satisfies the invariant is the state of a run stopped there. */
  lemma StatePost(gen: Generation, question: string, oracle: Oracle, intent: Intent, c: Cursor, outcome: RunOutcome)
    requires InvState(gen, question, oracle, intent, c) && c.path != []
    requires outcome == Crashed(c.node) || outcome == OutOfRounds(c.s) || (outcome == Completed(c.s) && c.node == AtEnd)
    requires outcome.Completed? && intent == Other ==> c.batches == []
    ensures PostState(gen, question, oracle, intent, outcome, c.path + [c.node], c.batches, c.updates)
  {
  }

  // ---------------------------------------------------------------- the steps

  /** After the router the invariant holds before the node it picks. */
  lemma RouterKeeps(gen: Generation, question: string, oracle: Oracle, maxRounds: nat, intent: Intent, c: Cursor,
                    c': Cursor)
    requires Inv(gen, question, oracle, maxRounds, intent, c) && c.node == AtRouter
    requires intent == RouterIntent(gen, question, oracle)
    requires var u := RouterUpdate(gen, question, oracle.routerReply);
      c' == Apply(gen, c, u, RouteAfterRouter(intent)).(visits := if c'.node == AtAgent then 1 else 0)
    requires c'.node == AtAgent ==> maxRounds > 0
    ensures Inv(gen, question, oracle, maxRounds, intent, c')
  {
    var u := RouterUpdate(gen, question, oracle.routerReply);
    HistoryStep(maxRounds, intent, c, c');
    RouterKeepsState(gen, question, oracle, intent, c, u, c');
    CancelSameBatches(gen, intent, c, c');
  }

  /** Intent routed to the agent with no turn allowed: the run stops after the router. */
  lemma RouterOutOfRounds(gen: Generation, question: string, oracle: Oracle, maxRounds: nat, intent: Intent,
                          c: Cursor, c': Cursor)
    requires Inv(gen, question, oracle, maxRounds, intent, c) && c.node == AtRouter
    requires intent == RouterIntent(gen, question, oracle)
    requires c' == Apply(gen, c, RouterUpdate(gen, question, oracle.routerReply), RouteAfterRouter(intent))
    requires c'.node == AtAgent && maxRounds == 0
    ensures RunPost(gen, question, oracle, maxRounds, intent, OutOfRounds(c'.s), c'.path, c'.batches, c'.updates)
  {
    var u := RouterUpdate(gen, question, oracle.routerReply);
    HistoryPost(maxRounds, intent, c, OutOfRounds(c'.s));
    RouterKeepsState(gen, question, oracle, intent, c, u, c');
    assert c'.s == MergeAll(gen, InitialState(question), c'.updates) && c'.s.intent == Some(intent);
    CancelPost(gen, intent, c);
  }

  method RouterStep(gen: Generation, question: string, oracle: Oracle, maxRounds: nat, intent: Intent, c: Cursor)
    returns (c': Cursor, stop: Option<RunOutcome>)
    requires Inv(gen, question, oracle, maxRounds, intent, c) && c.node == AtRouter
    requires intent == RouterIntent(gen, question, oracle)
    ensures stop.None? ==> Inv(gen, question, oracle, maxRounds, intent, c') && Progress(c, c')
    ensures stop.Some? ==> RunPost(gen, question, oracle, maxRounds, intent, stop.value, c'.path, c'.batches, c'.updates)
  {
    var u := RouterUpdate(gen, question, oracle.routerReply);
    c' := Apply(gen, c, u, RouteAfterRouter(u.intent.value));
    stop := None;
    if c'.node == AtAgent {
      if c.visits == maxRounds {
        RouterOutOfRounds(gen, question, oracle, maxRounds, intent, c, c');
        stop := Some(OutOfRounds(c'.s));
        return;
      }
      c' := c'.(visits := c.visits + 1);
    }
    RouterKeeps(gen, question, oracle, maxRounds, intent, c, c');
  }

  /** The message the agent node adds: an AI message, or None when the older parser raised. */
  method AgentMessage(gen: Generation, reply: LlmReply) returns (m: Option<Message>)
    ensures m.Some? ==> m.value.AiMessage?
    ensures gen == Current ==> m == Some(AiMessage(reply.content, reply.toolCalls))
  {
    if gen == Current {
      return Some(AiMessage(reply.content, reply.toolCalls));
    }
    var turn := LegacyAgentParse(reply.content, reply.fenced);
    if turn.AgentCrashed? {
      return None;
    }
    return Some(turn.message);
  }

  /** After an agent turn the invariant holds before the node `should_continue` picks. */
  lemma AgentKeeps(gen: Generation, question: string, oracle: Oracle, maxRounds: nat, intent: Intent, c: Cursor,
                   message: Message)
    requires Inv(gen, question, oracle, maxRounds, intent, c) && c.node == AtAgent && message.AiMessage?
    ensures LastIsAi(Merge(gen, c.s, NoChange.(messages := [message])))
    ensures var u := NoChange.(messages := [message]);
      Inv(gen, question, oracle, maxRounds, intent, Apply(gen, c, u, ShouldContinue(Merge(gen, c.s, u)).value))
  {
    AgentReplyIsLast(gen, c.s, message);
    var u := NoChange.(messages := [message]);
    var c' := Apply(gen, c, u, ShouldContinue(Merge(gen, c.s, u)).value);
    HistoryStep(maxRounds, intent, c, c');
    AgentKeepsState(gen, question, oracle, intent, c, message, c');
    CancelSameBatches(gen, intent, c, c');
  }

  method AgentStep(gen: Generation, question: string, oracle: Oracle, maxRounds: nat, intent: Intent, c: Cursor)
    returns (c': Cursor, stop: Option<RunOutcome>)
    requires Inv(gen, question, oracle, maxRounds, intent, c) && c.node == AtAgent
    ensures stop.None? ==> Inv(gen, question, oracle, maxRounds, intent, c') && Progress(c, c')
    ensures stop.Some? ==> RunPost(gen, question, oracle, maxRounds, intent, stop.value, c'.path, c'.batches, c'.updates)
  {
    var message := AgentMessage(gen, oracle.agentReply(c.visits - 1));
    if message.None? {
      CrashKeeps(gen, question, oracle, maxRounds, intent, c);
      c' := c.(path := c.path + [c.node]);
      stop := Some(Crashed(AtAgent));
      return;
    }
    var u := NoChange.(messages := [message.value]);
    AgentKeeps(gen, question, oracle, maxRounds, intent, c, message.value);
    c' := Apply(gen, c, u, ShouldContinue(Merge(gen, c.s, u)).value);
    stop := None;
  }

  /** Where the route after tools goes, in terms of the batch just run and the intent. */
  lemma ToolsRoute(gen: Generation, question: string, oracle: Oracle, maxRounds: nat, intent: Intent, c: Cursor,
                   calls: seq<ToolCall>, u: Update)
    requires Inv(gen, question, oracle, maxRounds, intent, c) && ToolRound(c, calls, u)
    ensures gen == Current ==>
      (RouteAfterTools(gen, Merge(gen, c.s, u)) == AtPolicyGuard <==> "order_cancel" in CallNames(calls))
    ensures gen == Legacy ==> (RouteAfterTools(gen, Merge(gen, c.s, u)) == AtPolicyGuard <==> intent == OrderHelp)
  {
    if gen == Current {
      ToolsRouteCurrent(c, calls, u);
    }
  }

  /** After a tool round that routes to the guard or back to the agent, the invariant holds there. */
  lemma ToolsKeeps(gen: Generation, question: string, oracle: Oracle, maxRounds: nat, intent: Intent, c: Cursor,
                   calls: seq<ToolCall>, u: Update, c': Cursor)
    requires Inv(gen, question, oracle, maxRounds, intent, c) && ToolRound(c, calls, u)
    requires c' == AfterTools(gen, c, calls, u).(visits := if c'.node == AtAgent then c.visits + 1 else c.visits)
    requires c'.node == AtAgent ==> c.visits < maxRounds
    ensures Inv(gen, question, oracle, maxRounds, intent, c')
  {
    ToolsRoute(gen, question, oracle, maxRounds, intent, c, calls, u);
    HistoryStep(maxRounds, intent, c, c');
    ToolsKeepState(gen, question, oracle, intent, c, calls, u, c');
    ToolsKeepCancel(gen, intent, c, calls, c');
  }

  /** A tool round that would start one agent turn too many ends the run out of rounds. */
  lemma ToolsOutOfRounds(gen: Generation, question: string, oracle: Oracle, maxRounds: nat, intent: Intent, c: Cursor,
                         calls: seq<ToolCall>, u: Update)
    requires Inv(gen, question, oracle, maxRounds, intent, c) && ToolRound(c, calls, u)
    requires AfterTools(gen, c, calls, u).node == AtAgent && c.visits == maxRounds
    ensures var c' := AfterTools(gen, c, calls, u);
      RunPost(gen, question, oracle, maxRounds, intent, OutOfRounds(c'.s), c'.path, c'.batches, c'.updates)
  {
    var c' := AfterTools(gen, c, calls, u);
    ToolsRoute(gen, question, oracle, maxRounds, intent, c, calls, u);
    ToolsOutOfRoundsHistory(maxRounds, intent, c, c');
    ToolsKeepState(gen, question, oracle, intent, c, calls, u, c');
    ToolsKeepCancel(gen, intent, c, calls, c');
  }

  /** The history of a run that stops after a tool round. */
  lemma ToolsOutOfRoundsHistory(maxRounds: nat, intent: Intent, c: Cursor, c': Cursor)
    requires InvHistory(maxRounds, intent, c) && c.node == AtToolExecutor
    requires c'.path == c.path + [c.node] && |c'.batches| == |c.batches| + 1 && c'.batches[..|c.batches|] == c.batches
    requires |c'.batches[|c.batches|]| > 0 && c'.node == AtAgent
    ensures PostHistory(maxRounds, intent, OutOfRounds(c'.s), c'.path, c'.batches)
  {
    FollowsEdgesSnoc(c.path, c.node);
    forall k | 0 <= k < |c'.batches| ensures |c'.batches[k]| > 0 {
      if k < |c.batches| {
        assert c'.batches[k] == c'.batches[..|c.batches|][k];
      }
    }
  }

  method ToolsStep(gen: Generation, question: string, oracle: Oracle, maxRounds: nat, intent: Intent, c: Cursor)
    returns (c': Cursor, stop: Option<RunOutcome>)
    requires Inv(gen, question, oracle, maxRounds, intent, c) && c.node == AtToolExecutor
    ensures stop.None? ==> Inv(gen, question, oracle, maxRounds, intent, c') && Progress(c, c')
    ensures stop.Some? ==> RunPost(gen, question, oracle, maxRounds, intent, stop.value, c'.path, c'.batches, c'.updates)
  {
    var calls := LastCalls(c.s);
    var u := ToolExecutorNode(calls, oracle.toolOutput);
    c' := AfterTools(gen, c, calls, u);
    stop := None;
    if c'.node == AtAgent {
      if c.visits == maxRounds {
        ToolsOutOfRounds(gen, question, oracle, maxRounds, intent, c, calls, u);
        stop := Some(OutOfRounds(c'.s));
        return;
      }
      c' := c'.(visits := c.visits + 1);
    }
    ToolsKeeps(gen, question, oracle, maxRounds, intent, c, calls, u, c');
  }

  /** A node that raised leaves the run's guarantees for a crash in place. */
  lemma CrashKeeps(gen: Generation, question: string, oracle: Oracle, maxRounds: nat, intent: Intent, c: Cursor)
    requires Inv(gen, question, oracle, maxRounds, intent, c) && (c.node == AtAgent || c.node == AtPolicyGuard)
    ensures RunPost(gen, question, oracle, maxRounds, intent, Crashed(c.node), c.path + [c.node], c.batches, c.updates)
  {
    HistoryPost(maxRounds, intent, c, Crashed(c.node));
    StatePost(gen, question, oracle, intent, c, Crashed(c.node));
    CancelPost(gen, intent, c);
  }

  /** After the guard the invariant holds before the responder. */
  lemma GuardKeeps(gen: Generation, question: string, oracle: Oracle, maxRounds: nat, intent: Intent, c: Cursor,
                   d: Option<PolicyDecision>)
    requires Inv(gen, question, oracle, maxRounds, intent, c) && c.node == AtPolicyGuard
    ensures Inv(gen, question, oracle, maxRounds, intent, Apply(gen, c, NoChange.(policyDecision := Some(d)), AtResponder))
  {
    var c' := Apply(gen, c, NoChange.(policyDecision := Some(d)), AtResponder);
    HistoryStep(maxRounds, intent, c, c');
    GuardKeepsState(gen, question, oracle, intent, c, d, c');
    CancelSameBatches(gen, intent, c, c');
  }

  method GuardStep(gen: Generation, question: string, oracle: Oracle, maxRounds: nat, intent: Intent, c: Cursor)
    returns (c': Cursor, stop: Option<RunOutcome>)
    requires Inv(gen, question, oracle, maxRounds, intent, c) && c.node == AtPolicyGuard
    ensures stop.None? ==> Inv(gen, question, oracle, maxRounds, intent, c') && Progress(c, c')
    ensures stop.Some? ==> RunPost(gen, question, oracle, maxRounds, intent, stop.value, c'.path, c'.batches, c'.updates)
  {
    var decision := PolicyGuard.PolicyGuardNode(c.s.intent, c.s.evidence);
    if decision.GuardCrashed? {
      CrashKeeps(gen, question, oracle, maxRounds, intent, c);
      c' := c.(path := c.path + [c.node]);
      stop := Some(Crashed(AtPolicyGuard));
      return;
    }
    GuardKeeps(gen, question, oracle, maxRounds, intent, c, decision.decision);
    c' := Apply(gen, c, NoChange.(policyDecision := Some(decision.decision)), AtResponder);
    stop := None;
  }

  /** After the responder the invariant holds at END. */
  lemma ResponderKeeps(gen: Generation, question: string, oracle: Oracle, maxRounds: nat, intent: Intent, c: Cursor)
    requires Inv(gen, question, oracle, maxRounds, intent, c) && c.node == AtResponder
    ensures Inv(gen, question, oracle, maxRounds, intent, Apply(gen, c, NoChange.(finalMessage := Some(oracle.finalText)), AtEnd))
  {
    var c' := Apply(gen, c, NoChange.(finalMessage := Some(oracle.finalText)), AtEnd);
    HistoryStep(maxRounds, intent, c, c');
    ResponderKeepsState(gen, question, oracle, intent, c, c');
    CancelSameBatches(gen, intent, c, c');
  }

  method ResponderStep(gen: Generation, question: string, oracle: Oracle, maxRounds: nat, intent: Intent, c: Cursor)
    returns (c': Cursor)
    requires Inv(gen, question, oracle, maxRounds, intent, c) && c.node == AtResponder
    ensures Inv(gen, question, oracle, maxRounds, intent, c') && Progress(c, c') && c'.node == AtEnd
  {
    ResponderKeeps(gen, question, oracle, maxRounds, intent, c);
    c' := Apply(gen, c, NoChange.(finalMessage := Some(oracle.finalText)), AtEnd);
  }

  /** A run that reached END satisfies the run guarantees once END joins the path. */
  lemma Finish(gen: Generation, question: string, oracle: Oracle, maxRounds: nat, intent: Intent, c: Cursor)
    requires Inv(gen, question, oracle, maxRounds, intent, c) && c.node == AtEnd
    ensures RunPost(gen, question, oracle, maxRounds, intent, Completed(c.s), c.path + [AtEnd], c.batches, c.updates)
  {
    HistoryPost(maxRounds, intent, c, Completed(c.s));
    StatePost(gen, question, oracle, intent, c, Completed(c.s));
    CancelPost(gen, intent, c);
  }

  /** Runs the node the cursor is at: the next cursor, or how the run stopped there. */
  method Step(gen: Generation, question: string, oracle: Oracle, maxRounds: nat, intent: Intent, c: Cursor)
    returns (c': Cursor, stop: Option<RunOutcome>)
    requires Inv(gen, question, oracle, maxRounds, intent, c) && c.node != AtEnd
    requires intent == RouterIntent(gen, question, oracle)
    ensures stop.None? ==> Inv(gen, question, oracle, maxRounds, intent, c') && Progress(c, c')
    ensures stop.Some? ==> RunPost(gen, question, oracle, maxRounds, intent, stop.value, c'.path, c'.batches, c'.updates)
  {
    stop := None;
    match c.node
    case AtRouter =>
      c', stop := RouterStep(gen, question, oracle, maxRounds, intent, c);
    case AtAgent =>
      c', stop := AgentStep(gen, question, oracle, maxRounds, intent, c);
    case AtToolExecutor =>
      c', stop := ToolsStep(gen, question, oracle, maxRounds, intent, c);
    case AtPolicyGuard =>
      c', stop := GuardStep(gen, question, oracle, maxRounds, intent, c);
    case AtResponder =>
      c' := ResponderStep(gen, question, oracle, maxRounds, intent, c);
  }

  /**
   * A run of the graph from the question, with at most `maxRounds` agent
   * turns; `batches` are the executed tool-call batches and `updates` the
   * node updates, in order.
   */
  method Run(gen: Generation, question: string, oracle: Oracle, maxRounds: nat)
    returns (outcome: RunOutcome, path: seq<Node>, batches: seq<seq<ToolCall>>, updates: seq<Update>)
    ensures RunPost(gen, question, oracle, maxRounds, RouterIntent(gen, question, oracle), outcome, path, batches, updates)
  {
    var intent := RouterIntent(gen, question, oracle);
    var c := Cursor(InitialState(question), AtRouter, 0, [], [], []);
    while c.node != AtEnd
      invariant Inv(gen, question, oracle, maxRounds, intent, c)
      decreases maxRounds - c.visits, Rank(c.node)
    {
      var next, stop := Step(gen, question, oracle, maxRounds, intent, c);
      if stop.Some? {
        return stop.value, next.path, next.batches, next.updates;
      }
      c := next;
    }
    Finish(gen, question, oracle, maxRounds, intent, c);
    return Completed(c.s), c.path + [AtEnd], c.batches, c.updates;
  }
}
