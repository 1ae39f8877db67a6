# Agentic commerce assistant: a verified model

This project models the deterministic core of a small e-commerce support
assistant. The assistant is a workflow graph with five nodes:

- a **router** that classifies a question as `product_assist`, `order_help` or `other`;
- an **agent** whose language model answers with text or with a batch of tool calls;
- a **tool executor** that runs the batch;
- a **policy guard** that turns the output of the cancellation tool into a decision;
- a **responder** that writes the final message.

The tools are product search, size advice, a shipping estimate, order lookup and order
cancellation under a 60-minute rule. The repository holds two generations of this code:

- the current tree under `src/`;
- an older, simpler tree under `agentic-commerce-system/`.

Both are modelled side by side. A `Generation` value (`Current` or `Legacy`) selects
the behaviour wherever they differ.

Modules, in dependency order:

| module | file | what it holds |
|---|---|---|
| `Wrappers` | `wrappers.dfy` | `Option`, Python's `None` |
| `Json` | `json.dfy` | decoded JSON values and Python truthiness |
| `Text` | `text.dfy` | ASCII case mapping, substring search, `strip` over Python's whitespace set, `split`, decimal rendering |
| `Validation` | `validation.dfy` | the order-id, email and zip-code validators, each proved equal to a description of the strings its regular expression accepts |
| `Catalog` | `catalog.dfy` | product and order records; Python's stable `sorted` with a key, and the `[:n]` slice |
| `Tools` | `tools.dfy` | the current tool layer |
| `LegacyTools` | `legacy_tools.dfy` | the older tool layer, related to the current one where they agree |
| `AgentState` | `state.dfy` | the state, node updates, and the two merge disciplines |
| `Router` | `router.dfy` | keyword routing and the closed-set normalisation of the fallback answer |
| `PolicyGuard` | `policy_guard.dfy` | the policy guard node |
| `Graph` | `graph.dfy` | the graph builder, the three routing decisions, the older agent's tool-call parse, the tool executor, and a full run of the graph as a loop over a cursor |
| `Evaluation` | `evaluation.dfy` | the trace-schema validator and the rule checks of the order-help and guardrail evaluations |

## How the model is built

**Outside inputs.** The language model, tool execution and the clock are inputs, not
computations:

- `Graph.Oracle` supplies the router model's reply, already reduced to the JSON object
  found in it.
- It also supplies the agent model's n-th answer, the output of each tool call, and the
  responder's text.
- The clock is the `clock` parameter of the cancellation functions.

**The store.** The product and order files are sequences passed in. A store that cannot
be read is `None`. A product keeps its title, price and tags, and its remaining keys in
`others`. So the `p not in results` tests compare whole records, as Python's dictionary
equality does, and two catalog entries that differ only in a key the search does not read
stay two products.

**Timestamps.** A timestamp is whole seconds. A timestamp that does not parse is `None`.
For whole seconds, "elapsed minutes ≤ 60" is exactly "elapsed seconds ≤ 3600".

**Pure code** is functions proved against properties:

- the validators, size advice, ETA and routing;
- the state merge;
- the edge tests.

**Imperative code** becomes methods with loops, each proved equal to a specification
function or to an outright property:

- the product-search passes;
- the lookup and cancel scans;
- the guard's scan;
- the older agent's call assembly;
- the tool executor;
- the evaluators, which append errors step by step;
- the graph builder, a class whose methods update its node, entry and edge fields;
- the run loop.

**The run.** `Graph.Run` drives the graph from the question until END, a node raising,
or `maxRounds` agent turns. There is no bound in the source, so `maxRounds` is the fuel.
Its postcondition `RunPost` states what every run guarantees:

- the path follows the edge table;
- the final state is the merge of the node updates;
- `tools_called` and `evidence` stay the same length;
- an `other` question goes router → responder → END with no tools;
- in the current tree the guard is reached exactly when the last batch called
  `order_cancel`;
- in the older tree the guard is reached only for `order_help`.

**Behaviours of the code that the model follows and states:**

- A successful `order_cancel` reply has no `"reason"` key, so the older tree's guard,
  the one modelled here, skips it (`PolicyGuard.GuardSeesOnlyRefusals`). Evidence made
  of cancellation replies gives that guard something to decide on exactly when one of
  them is a refusal (`PolicyGuard.CancelEvidenceQualifies`). So with this guard an
  allowed cancellation yields no decision at all, and an order-help trace with no
  decision never passes `evaluate_order_help` (`Evaluation.NoDecisionFailsOrderHelp`).
  The guard itself has an allowed branch
  (agentic-commerce-system/src/agent/nodes/policy_guard.py:46-47, "If success is not
  explicitly False, we assume it's allowed"). It is reached only for a reply carrying
  both `"success"` and `"reason"`, which no successful cancellation does. The
  `order_help_allowed` evaluation case expects `cancel_allowed=True` for A1003
  (tests/eval_framework.py:258-260), but it runs the current tree, whose own guard
  (src/agent/nodes/policy_guard.py) is not part of this model. Its outcome is not
  settled here, and neither is any link from the oracle's tool outputs to the evidence
  of a run beyond `Graph.ToolExecutorNode`.
- The current `route_after_tools` tests the *accumulated* `tools_called`. Once a round
  has called `order_cancel`, every later tool round would go to the guard
  (`Graph.CurrentGuardRouteIsSticky`). Within a run that cannot happen, because the
  first such round already leaves for the guard. The accumulated test therefore agrees
  with "this round called it" (`Graph.ToolsRouteCurrent`, and `PostCancel` inside
  `Graph.RunPost`).
- Python's `in` raises on `None`, numbers and booleans, and `.get` / `.lower()` raise on
  the wrong type. The evaluators and the guard model these as explicit crash outcomes
  (`EvalCrashed`, `SchemaCrashed`, `GuardCrashed`, `AgentCrashed`) instead of assuming
  well-typed input.

## Model

| member | source | states |
|---|---|---|
| Validation.OrderIdExamples | tests/test_policy.py:177-189 | "A1001" and "A9999" are accepted; "B1001", "A100", "A10001", "A100A", "" and "1001" are rejected |
| Validation.ValidateEmailIsShape | src/agent/tools/tools.py:18-21 | the computed email check holds exactly when the string splits as local part `[a-zA-Z0-9._%+-]+`, '@', domain `[a-zA-Z0-9.-]+`, '.', and two or more letters |
| Validation.EmailFromParts | src/agent/tools/tools.py:20 | any non-empty local part, non-empty domain and label of at least two letters, joined by '@' and '.', is accepted |
| Validation.EmailRejectsBadLocalChar | src/agent/tools/tools.py:20 | a disallowed character before the first '@' rules the address out |
| Validation.EmailRejectsNoDomainDot | src/agent/tools/tools.py:20 | an address with no '.' after the character following its first '@' is rejected |
| Validation.EmailAcceptsExamples | tests/test_policy.py:194-195 | "user@example.com" and "test.email+tag@domain.co.uk" are accepted |
| Validation.EmailRejectsMissingParts | tests/test_policy.py:199-203 | "invalid", "@example.com", "user@" and "" are rejected |
| Validation.EmailRejectsMalformed | tests/test_policy.py:202-204 | "user@.com" and "user space@example.com" are rejected |
| Validation.ValidZipCodeIsPadded | src/agent/tools/tools.py:29-32 | a zip code is valid exactly when it is five or six digits with only whitespace around them, whitespace being what Python's `str.strip()` removes, Unicode spaces included |
| Validation.UnicodePaddedZips | src/agent/tools/tools.py:32 | "\u00a0560001" and "560001\u3000" are valid: `strip()` removes the no-break and ideographic spaces |
| Catalog.Sort | src/agent/tools/tools.py:110 | `sorted` yields a rearrangement of its input (same multiset) ordered by the key, and it is stable: the elements sharing a key keep their input order |
| Catalog.Take | src/agent/tools/tools.py:110 | `[:n]` is a prefix of length `n`, or the whole sequence when it is shorter |
| Catalog.SortThenTake | src/agent/tools/tools.py:110 | `sorted(s, key)[:n]` has `min(n, len(s))` elements of `s`, in key order, and no element left out ranks strictly ahead of one kept |
| Catalog.TakeSortedKeepsEarliestTies | src/agent/tools/tools.py:110 | when `[:n]` cuts through elements sharing a key, the ones kept are those that come first in the input |
| Catalog.CheapestByPrice | agentic-commerce-system/src/agent/tools/tools.py:38 | after `sorted(key=price)[:n]`: `min(n, len(s))` elements of `s`, ascending by price, none dearer than one left out, and of equal prices the earliest in `s` |
| Tools.TagsList | src/agent/tools/tools.py:52-58 | a tag string gives one entry per comma-separated piece; a tag list is used as given |
| Tools.StrictMatches | src/agent/tools/tools.py:60-73 | a product is a strict match exactly when it is in budget and has all requested tags, or, with no tags, a non-empty query occurs in its title ignoring case |
| Tools.PartialFill | src/agent/tools/tools.py:77-86 | the partial-tag pass extends the strict results, stops at two, only adds in-budget products that carry some requested tag, and, when it ends with fewer than two, has added every such product |
| Tools.BroaderMatches | src/agent/tools/tools.py:89-95 | the broader pass keeps exactly the in-budget products not yet returned that are dresses by title or tagged "midi" |
| Tools.FirstPasses | src/agent/tools/tools.py:60-86 | the strict results come first and are all kept; every result is a catalog product within the price ceiling |
| Tools.CheapestBroader | src/agent/tools/tools.py:97-99 | the broader top-up takes `min(open places, broader matches)` of them, ascending by price, none dearer than a broader match left out, and of equal prices the earliest in the catalog |
| Tools.Candidates | src/agent/tools/tools.py:60-99 | every candidate is a catalog product within the price ceiling; the first two passes come first; with a ceiling and fewer than two so far, the broader pass fills up to two when enough broader matches exist |
| Tools.StrictPass | src/agent/tools/tools.py:60-73 | the strict filtering loop computes `StrictMatches`, in catalog order |
| Tools.PartialPass | src/agent/tools/tools.py:77-86 | the partial-tag loop with its `break` computes `PartialFill` |
| Tools.BroaderPass | src/agent/tools/tools.py:89-95 | the broader loop computes `BroaderMatches`, in catalog order |
| Tools.EarlyPasses | src/agent/tools/tools.py:60-86 | the strict pass followed, when due, by the partial pass computes `FirstPasses` |
| Tools.SearchCandidates | src/agent/tools/tools.py:50-99 | the three passes compute `Candidates` |
| Tools.ProductSearch | src/agent/tools/tools.py:36-111 | product_search returns the relevance-sorted first two candidates, `SearchResults` |
| Tools.SearchResultsInBudget | src/agent/tools/tools.py:60-110 | product_search returns `min(2, candidates)` catalog products, none above `price_max` when one is given |
| Tools.SearchResultsRanked | src/agent/tools/tools.py:101-110 | the results ascend by (−matching tags, price), no candidate left out ranks ahead of one returned, and among equally ranked candidates the earlier ones are kept |
| Tools.RecommendSizeIgnoresCase | src/agent/tools/tools.py:121-170 | the size cascade gives the same answer for an input, its upper-cased and its lower-cased form |
| Tools.MediumOrLargeRule | src/agent/tools/tools.py:124-129 | the first rule of the cascade fires exactly when the input mentions "m/l" or "between l/m" in any case |
| Tools.Eta | src/agent/tools/tools.py:176-188 | eta gives the shipping estimate exactly for a valid zip code, else the invalid-format reply; both echo the argument |
| Tools.EtaQuotesPaddedZips | src/agent/tools/tools.py:183-187 | the "2-5 business days" estimate is given exactly for five or six digits padded by whitespace, and its text contains "2-5 business days" |
| Tools.OrderLookup | src/agent/tools/tools.py:192-223 | the id format is checked before the email format, then the store is read; when a readable store holds a match the reply is the first order matching both id and email, and not-found exactly when none matches |
| Tools.CancelVerdict | src/agent/tools/tools.py:260-299 | a `created_at` that is not a string raises (the AttributeError escapes the `except`); a missing or unparsable one, or an unparsable `simulated_now`, is an error reply; the cancellation succeeds exactly when elapsed time ≤ 60 minutes (inclusive), and its `canceled_at` is the decision instant; otherwise it is refused with the elapsed minutes truncated, ≥ 60 |
| Tools.FirstWithId | src/agent/tools/tools.py:251 | `next(...)` finds the first order with the id, or none exists |
| Tools.OrderCancel | src/agent/tools/tools.py:227-301 | format, then store, then existence, then the verdict on the first order with the id; the store is only read, so equal arguments give equal replies |
| Tools.CancelReplyObject | src/agent/tools/tools.py:233-292 | no object when the tool raises; otherwise every reply has "success", true only for a cancellation; "reason" appears exactly on a refusal, with the fixed text and a "policy" key; "error" appears exactly on an error |
| Tools.BlockedTextsMentionLimit | src/agent/tools/tools.py:289-291 | the refusal reason and the policy sentence both contain "60 minutes" |
| Tools.CancelBoundaryCases | tests/test_policy.py:111-161 | 59m59s, 60m0s and 30s after creation cancel; 60m1s is refused with 60 minutes; an invalid timestamp is an error; A1002 hours later is refused with more than 1000 minutes |
| LegacyTools.LegacyMatches | agentic-commerce-system/src/agent/tools/tools.py:24-35 | a product is kept exactly when it is within `price_max`, its title contains the query ignoring case, and it has every requested tag |
| LegacyTools.LegacyFilter | agentic-commerce-system/src/agent/tools/tools.py:24-35 | the filtering loop computes `LegacyMatches`, in catalog order |
| LegacyTools.LegacyProductSearch | agentic-commerce-system/src/agent/tools/tools.py:12-38 | product_search is the matches stably sorted by price, cut to two |
| LegacyTools.LegacySearchReturnsMatches | agentic-commerce-system/src/agent/tools/tools.py:27-38 | every result is within budget, contains the query and carries all tags; there are two unless fewer match |
| LegacyTools.LegacySearchCheapestTwo | agentic-commerce-system/src/agent/tools/tools.py:38 | the results ascend by price, no match left out is cheaper than one returned, and of equally priced matches the earliest are kept |
| LegacyTools.LegacySizeRecommender | agentic-commerce-system/src/agent/tools/tools.py:41-48 | the answer is one of the two fixed texts |
| LegacyTools.LegacySizeAdviceRule | agentic-commerce-system/src/agent/tools/tools.py:46-48 | the Medium advice is given exactly for "between m/l" or "between l/m" in any case, and the current cascade gives its M/L answer to those inputs too |
| LegacyTools.LegacyEta | agentic-commerce-system/src/agent/tools/tools.py:51-56 | for every argument the reply echoes it after "Shipping to zip code " and quotes "2-5 business days"; it is the current eta text exactly for valid zip codes |
| LegacyTools.LegacyOrderLookup | agentic-commerce-system/src/agent/tools/tools.py:70-73 | the first order matching id and email, or not-found exactly when none matches |
| LegacyTools.LegacyVerdict | agentic-commerce-system/src/agent/tools/tools.py:92-111 | it raises exactly when a timestamp is missing, not a string, or does not parse; otherwise it cancels or refuses exactly when the current verdict does, with the same minutes |
| LegacyTools.LegacyOrderCancel | agentic-commerce-system/src/agent/tools/tools.py:87-111 | not-found exactly when no order has the id; otherwise the verdict on the first order with it |
| LegacyTools.LegacyCancelObject | agentic-commerce-system/src/agent/tools/tools.py:89-111 | the not-found reply has no "success"; "reason" appears exactly on a refusal; "success" is true only for a cancellation |
| Router.DeterministicRoute | src/agent/nodes/router.py:29-59 | on the lower-cased question: order_help exactly when an order keyword occurs; product_assist exactly when none does but a product keyword does; other exactly when only discount keywords occur; None exactly when no keyword occurs |
| Router.RouteIgnoresCase | src/agent/nodes/router.py:34 | upper-casing or lower-casing the question changes no route |
| Router.OrderKeywordsReduce | src/agent/nodes/router.py:37-41 | the order rule fires on the same questions without "cancellation" and "order_id", which contain "cancel" and "order" |
| Router.NormalizeDestination | src/agent/nodes/router.py:100-107 | the fallback intent is one of the three; it is the reply's "destination" when that names an intent, and "other" otherwise |
| Router.RouterNode | src/agent/nodes/router.py:61-111 | the update writes only the intent; a keyword route is used as is, without the fallback; otherwise the normalised fallback is used |
| AgentState.IntentOfName | src/agent/state.py:15 | a name maps to an intent exactly when it is one of the three intent names |
| AgentState.MergeList | src/agent/state.py:17-19 | a list key that is not written is kept; when written, it is concatenated onto the prior list (current tree) or replaces it (older tree) |
| AgentState.Merge | src/agent/state.py:13-22 | messages are appended; intent, policy decision and final message take the written value when there is one |
| AgentState.MessagesAccumulate | src/agent/state.py:13 | after any updates the history is the old history followed by every update's messages |
| AgentState.CurrentListsAccumulate | src/agent/state.py:17-19 | in the current tree `tools_called` and `evidence` are the concatenation of everything written |
| AgentState.ToolsMatchEvidence | src/agent/state.py:17-19 | when every update writes as many evidence entries as tool names, both lists keep equal lengths; in the current tree their length is the total number of invocations |
| AgentState.LegacyKeepsLastWrite | agentic-commerce-system/src/agent/state.py:25-26 | in the older tree `tools_called` holds only the last list written |
| AgentState.LastWriteWins | src/agent/state.py:15-22 | after any sequence of updates, intent, policy decision and final message hold the last value written to each, or their earlier value when none writes it |
| Graph.EdgeTableIsEdges | src/agent/graph.py:148-178 | the built edge set holds exactly the edges router→{agent, responder}, agent→{tool_executor, responder}, tool_executor→{policy_guard, agent}, policy_guard→responder, responder→END |
| Graph.GraphBuilder.constructor | src/agent/graph.py:138 | a new builder has no nodes, no entry and no edges |
| Graph.GraphBuilder.AddNode | src/agent/graph.py:140-144 | adds one node and changes nothing else |
| Graph.GraphBuilder.SetEntryPoint | src/agent/graph.py:146 | sets the entry point and changes nothing else |
| Graph.GraphBuilder.AddEdge | src/agent/graph.py:176-178 | adds one edge and changes nothing else |
| Graph.GraphBuilder.AddConditionalEdges | src/agent/graph.py:148-174 | adds one edge from the source to every target of the path map, and changes nothing else |
| Graph.BuildGraphStructure | src/agent/graph.py:134-180 | the built graph has the five nodes, entry "router", and exactly the edges of the table |
| Graph.RouteAfterRouter | src/agent/graph.py:148-156 | "other" goes to the responder, the two other intents to the agent |
| Graph.ShouldContinue | src/agent/graph.py:104-112 | a last AI message with tool calls goes to the tool executor, without them to the responder; with no AI message last, the edge raises |
| Graph.RouteAfterTools | src/agent/graph.py:115-129 | current tree: policy_guard exactly when "order_cancel" is in the accumulated `tools_called`; older tree (agentic-commerce-system/src/agent/graph.py:130-138): exactly when the intent is order_help |
| Graph.CurrentGuardRouteIsSticky | src/agent/graph.py:124-126 | once `order_cancel` is in the accumulated list, every later tool round routes to the guard |
| Graph.ToolsRouteCurrent | src/agent/graph.py:115-129 | when no earlier batch called order_cancel, the current route goes to the guard exactly when this batch called it |
| Graph.RouterUpdate | src/agent/nodes/router.py:61-111 | each tree's router writes only the intent; the older router uses the normalised fallback alone |
| Graph.CallIdInjective | agentic-commerce-system/src/agent/graph.py:67 | "tool_call_i" ids are equal exactly when their indices are |
| Graph.LegacyAgentParse | agentic-commerce-system/src/agent/graph.py:55-81 | no block or bad JSON gives the plain text without calls; a missing key gives plain text; a list gives one call per item with id "tool_call_i", an object one call "tool_call_0"; ids in a batch are distinct; indexing a non-object, or a call the message refuses, raises |
| Graph.AgentMessage | src/agent/graph.py:66-73 | the current agent adds the tool-bound model's message as is; the older one adds its parse, or raises |
| Graph.ToolExecutorNode | src/agent/graph.py:76-99 | one tool message per call, tagged with that call's id; evidence lists the outputs and `tools_called` the names, in call order, with equal lengths; no other key is written |
| Graph.RouterStep | src/agent/graph.py:148-156 | running the router keeps the run invariant, or ends the run out of rounds with the run guarantees |
| Graph.AgentStep | src/agent/graph.py:158-165 | running the agent keeps the run invariant at the node should_continue picks, or ends the run as crashed with the run guarantees |
| Graph.ToolsStep | src/agent/graph.py:167-174 | running the tool executor keeps the run invariant at the node route_after_tools picks, or ends the run out of rounds with the run guarantees |
| Graph.GuardStep | src/agent/graph.py:176 | running the guard keeps the run invariant before the responder, or ends the run as crashed |
| Graph.ResponderStep | src/agent/graph.py:178 | running the responder writes the final text and keeps the run invariant at END |
| Graph.Step | src/agent/graph.py:134-180 | one node runs: the invariant holds at the next node and the run progresses, or the run stops with its guarantees |
| Graph.Run | src/agent/graph.py:183-188 | every run satisfies `RunPost`: the path follows the edges; the state is the merge of the updates; tool names and evidence have equal lengths; "other" runs no tool; the guard is reached only after an order_cancel batch (current tree) or for order_help (older tree) |
| Evaluation.ValidateTraceSchema | tests/eval_framework.py:39-77 | it raises exactly on an unhashable intent; otherwise it is valid exactly when its error list is empty, exactly when all five keys are present, the intent is None or valid, the lists are lists or None, the decision a dict or None, and the final message a non-blank string |
| Evaluation.TraceOf | tests/eval_framework.py:281-287 | the trace read off a state has exactly the five required keys |
| Evaluation.TraceOfSchema | tests/eval_framework.py:281-287 | a state's trace passes the schema exactly when its final message is present and not blank |
| Evaluation.CompletedRunTrace | tests/eval_framework.py:276-287 | a completed run of either tree gives a trace that passes the schema exactly when the responder's text is not blank |
| Evaluation.TwoAlternativesMentioned | tests/eval_framework.py:170-177 | the count of lines 172-176 reaches two exactly when the message mentions two different words of "address", "credit", "support", in any case |
| Evaluation.OrderHelpRules | tests/eval_framework.py:144-179 | the order-help rules raise exactly on a non-container tools list, a non-dict decision, or a non-string message when blocked; otherwise the null-decision error appears exactly when the decision is None, the alternatives error exactly when a blocked answer names fewer than two, and no error exactly when every rule holds |
| Evaluation.EvaluateOrderHelp | tests/eval_framework.py:132-193 | it raises exactly when the schema or a rule raises; otherwise it passes exactly when there is no error, exactly when the trace is well formed and every order-help rule holds |
| Evaluation.EvaluateGuardrail | tests/eval_framework.py:195-241 | it raises exactly on an unhashable intent or a non-string message; otherwise it passes exactly when there is no error, exactly when the trace is well formed, "other", tool-free, refusing and naming the newsletter; the tools error appears exactly when `tools_called` is truthy |
| Evaluation.GuardrailRunsCallNoTools | tests/eval_framework.py:207-227 | a run routed to "other" completes with intent "other" and no tools, so its guardrail verdict depends on the responder's text alone |
| Evaluation.NoDecisionFailsOrderHelp | tests/eval_framework.py:158-162 | a trace without a policy decision never passes evaluate_order_help |
| PolicyGuard.DecisionFrom | agentic-commerce-system/src/agent/nodes/policy_guard.py:38-47 | blocked, with the item's reason, exactly when "success" is `False`; allowed otherwise; `.get` on a non-object raises |
| PolicyGuard.PolicyGuardNode | agentic-commerce-system/src/agent/nodes/policy_guard.py:4-50 | no decision outside order help or without evidence; otherwise no decision exactly when no item qualifies, else the decision from the first item with both "success" and "reason" (unparsable items skipped) |
| PolicyGuard.GuardSeesOnlyRefusals | agentic-commerce-system/src/agent/nodes/policy_guard.py:23-47 | among current order_cancel replies that return an object, only a refusal qualifies, and it becomes a blocked decision with the refusal's reason; an allowed cancellation gives no decision |
| PolicyGuard.CancelEvidenceQualifies | agentic-commerce-system/src/agent/nodes/policy_guard.py:23-35 | over evidence made of current order_cancel replies, an item qualifies for the guard exactly when some reply is a refusal |
| PolicyGuard.GuardSeesOnlyLegacyRefusals | agentic-commerce-system/src/agent/tools/tools.py:87-111 | the same holds for the older order_cancel replies |

## Left out

- File and JSON I/O. The product and order stores are sequences passed in; an unreadable order store is `None`.
- ISO-8601 parsing (`datetime.fromisoformat`). A timestamp is an integer number of seconds, or `None` when it does not parse.
- The timezone mismatch is not modelled. Subtracting a naive timestamp from an aware one raises `TypeError`, which escapes order_cancel.
- The wall clock (`datetime.now`) is the `clock` parameter.
- `Tools.CancelReplyObject` does not model the success reply's `round(minutes, 1)` float or the ISO text of `canceled_at`. There `minutes_since_order` is `JNull` and `canceled_at` is the instant in seconds.
- `Tools.CancelReplyObject` does not model the exception text appended to "Error processing order timestamps: ".
- An order record without an `order_id` or `email` key (a `KeyError` in the scans) is not modelled; every record has both.
- `Tools.OrderLookup` returns the matched record as an `Order` value rather than the raw dictionary.
- All language-model calls are oracle inputs: `get_llm`, prompt construction, the router's fallback call, the agent's model and the responder. `extract_json_from_string` and `json.loads` are reduced to their parsed results.
- The LangGraph runtime (`StateGraph`, `ToolNode`, `compile`) is replaced by the explicit cursor loop in `Graph.Run`. The edge table is checked against the builder calls.
- Tool dispatch by name, and argument coercion by the tool schemas, are the oracle's `toolOutput`.
- `Graph.Oracle`'s `toolOutput` depends on the call alone, not on the round. In the older tree the call ids restart at "tool_call_0" every round, so two identical calls in different rounds get the same output; a clock-dependent `order_cancel` (no `simulated_now`) could answer differently in the program. No contract relies on this.
- The older `ToolNode` result shape is not modelled. The older tree's executor is modelled as pairing the i-th output with the i-th call, as its loop assumes.
- In the older agent, the pattern only captures a block that starts with `{`, so the list branch is unreachable in practice. `Graph.LegacyAgentParse` still models that branch, as the fenced value is an input.
- The message class's validation of a tool call is reduced to: a string name and object arguments (`Accepted`).
- `Graph.Run` is bounded by `maxRounds` agent turns, because the source sets no bound. A run that would need more ends as `OutOfRounds`.
- src/agent/nodes/policy_guard.py is not part of this model. The older tree's guard is used for both generations.
- agentic-commerce-system/src/agent/nodes/router.py is not part of this model. Its normalisation is the same as the current router's fallback tail.
- The responder is not modelled beyond its text, which is an oracle input.
- Regular expressions are modelled with ASCII character classes. Python's `\d` also matches non-ASCII digits, and `$` also matches before a final newline; both differences are left out.
- Case mapping is ASCII only; Unicode case folding is not modelled.
- `Evaluation.EvaluateOrderHelp` does not model the float `score`, its `max(0.0, score)` clamp, or the `details` dictionary.
- `Evaluation.EvaluateGuardrail` does not model the float `score`, its `max(0.0, score)` clamp, or the `details` dictionary.
- `Evaluation.EvaluateOrderHelp` and `Evaluation.EvaluateGuardrail` do not model the wording of error messages; errors are constructors.
- `Evaluation.ValidateTraceSchema` states the verdict and its list as a whole, not which error each malformed key adds.
- `evaluate_product_assist`, `run_evaluation` and result printing are not modelled. They are scoring and reporting code.
- Interactive and printing code (both `main.py` files and the test runners) is not modelled.
- Console output (`print`) in the nodes is not modelled.
- JSON numbers are integers; floats in decoded values are not modelled.
