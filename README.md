# Autonomous Customer Success Swarm — a verified model of its core

This project models, in Dafny, the decision-making core of a customer-support agent swarm.

- **Orchestrator.** A conversation turn loads or creates the conversation state. It runs four agents in a fixed graph (triage, database, policy, resolution), each wrapped by a guard. The guard counts attempts, records an audit list and turns exceptions into a hand-off. The turn then escalates to a human when needed and saves the state in an in-memory store.
- **Policy evaluator.** It decides whether an order may be cancelled, exchanged or returned. It reads the return window ("within N days", "N-day", ...) from the policy text and composes the reasons. It also builds the enhanced search query and falls back to a default seven-day policy.
- **Resolution agent (deterministic "LLM" agent).** It maps an intent plus the policy flags to an action, a customer message, a return label and a refund amount.
- **`/resolve` endpoint.** It moves the CRM deal through the stages that action calls for, one update at a time, and stops at the first failure. It is modelled on the corrected agent: with the agent as written (see Findings), the error escapes `/resolve` before any CRM update.
- **Keyword triage.** It extracts an order id with `\b\d{4,}\b`, picks the first keyword rule that matches, detects urgency and falls back to a language model's JSON answer.
- **Prompt helpers.** They render the last five messages of a conversation and the numbered policy passages.

How the code is modelled:

- **In-place code is modelled in place.** The state dictionary becomes the `Conversation.ConversationDict` class. The store, the graph builder, the orchestrator and the CRM client are classes too. Their methods are proved against functions on values: `Guard.Guarded`, `Graph.RunNodes`, `Runner.TurnResult`, `ResolutionApi.SendStages`.
- **Pure code is modelled by functions.**
- **Python exceptions become values.** They are `StepOutcome.Err` or `Result.Failure`.
- **Dict keys that may be absent become `Option`s.**
- **External services become parameters.** Dates go through a `Calendar` (today, parse, format). The return-label file name, the CRM's answer to each update, and the language model's answer and its JSON decoding are parameters too.

## Model

| member | source | states |
|---|---|---|
| Guard.Enter | backend/app/orchestrator/guard.py:10-31 | An agent at or over 2 attempts is blocked: HUMAN_HANDOFF, handoff and the retry-limit message. Otherwise its counter rises by one and its name is appended to agents_called, creating both when missing. |
| Guard.Absorb | backend/app/orchestrator/guard.py:33-41 | An exception from the agent sets last_error "<name> error: <msg>", HUMAN_HANDOFF and handoff. Nothing else changes, and nothing changes without an exception. |
| Guard.LimitMessageText | backend/app/orchestrator/guard.py:21 | The retry-limit message reads "<name> exceeded retry limit (2 attempts)". |
| Guard.BlockedChangesOnlyHandoff | backend/app/orchestrator/guard.py:15-22 | Over the limit, only the hand-off fields change and the counters and the audit list stay. |
| Guard.EnteredCountsAndAudits | backend/app/orchestrator/guard.py:25-31 | Under the limit, the agent runs on a state with its counter +1 and its name appended. Other counters and fields are kept. |
| Guard.ErrorBecomesHandoff | backend/app/orchestrator/guard.py:33-41 | A raising agent hands off with its message, and the increment and the audit entry survive. |
| Guard.GuardCounters | backend/app/orchestrator/guard.py:15-25 | Other agents' counters are untouched, and no counter decreases. |
| Guard.GuardPreservesAudit | backend/app/orchestrator/guard.py:15-31 | The audit list holds each agent exactly as often as its counter says, and counters stay at most 2. |
| Guard.AtMostMaxExecutions | backend/app/orchestrator/guard.py:15-25 | Over any sequence of guarded calls, an agent's body runs at most 2 minus its starting count times. |
| Escalation.ShouldEscalate | backend/app/orchestrator/escalation.py:1-23 | The loop over the attempts map computes exactly the escalation predicate: hand-off phase, truthy last_error, or more than 5 attempts in all. |
| Escalation.HandoffEscalates | backend/app/orchestrator/escalation.py:10-11 | The HUMAN_HANDOFF phase escalates. |
| Escalation.ErrorEscalatesIffTruthy | backend/app/orchestrator/escalation.py:14-15 | Otherwise, only a non-empty last_error triggers. |
| Escalation.AttemptsThreshold | backend/app/orchestrator/escalation.py:18-20 | Otherwise, escalation happens iff the attempts sum exceeds 5. A missing map counts as none. |
| Escalation.EscalationExamples | backend/app/orchestrator/escalation.py:18-23 | {"a": 3, "b": 3} escalates and {"a": 1} does not. |
| Escalation.EscalationMonotone | backend/app/orchestrator/escalation.py:1-23 | Adding a hand-off, an error or more attempts never turns escalation off. |
| Memory.Store.Load | backend/app/storage/memory.py:9-19 | The stored state when the id is present, None otherwise. |
| Memory.Store.Save | backend/app/storage/memory.py:22-30 | The id maps to the state and a new id joins the key order at the end. Other ids are unaffected. |
| Memory.Store.Clear | backend/app/storage/memory.py:33-41 | The id is removed if present. Nothing happens otherwise, and other ids are unaffected. |
| Memory.Store.GetAllConversations | backend/app/storage/memory.py:44-51 | Every stored id, exactly once, in insertion order. |
| Memory.WithoutKeepsDistinct | backend/app/storage/memory.py:41 | Deleting a key keeps the key list free of duplicates. |
| TriageStub.TriageAgent | backend/app/agents/triage/agent.py:3-8 | The guarded stub equals `Guarded("triage", TriageStep)` on the dictionary. |
| TriageStub.TriageEffect | backend/app/agents/triage/agent.py:3-8 | Under the guard it sets intent "refund", urgency "high" and DATA_FETCH, and counts the call. Over the limit it hands off. |
| DatabaseStub.DatabaseAgent | backend/app/agents/database/agent.py:3-7 | The guarded stub equals `Guarded("database", DatabaseStep)` on the dictionary. |
| DatabaseStub.DatabaseEffect | backend/app/agents/database/agent.py:3-7 | It sets order_status DELIVERED and POLICY_CHECK. Missing entities raise KeyError and hand off. |
| PolicyStub.PolicyAgent | backend/app/agents/policy/agent.py:3-7 | The guarded stub equals `Guarded("policy", PolicyStep)` on the dictionary. |
| PolicyStub.PolicyEffect | backend/app/agents/policy/agent.py:3-7 | It sets refund_allowed True and RESOLUTION. Missing entities raise KeyError and hand off. |
| Resolution.ResolutionAgent | backend/app/agents/resolution/agent.py:90-135 | The in-place dispatcher equals `Guarded("resolution", ResolutionStep)`. |
| Resolution.ResolutionFrame | backend/app/agents/resolution/agent.py:125-133 | The dispatcher writes only reply, status and current_state. It writes nothing when a template raises. |
| Resolution.UnknownIntentHandsOff | backend/app/agents/resolution/agent.py:105-128 | An unknown or missing intent hands off with the human-agent reply. |
| Resolution.GatedOutcome | backend/app/agents/resolution/agent.py:4-43 | Refund, return and exchange raise exactly on missing entities, a None policy_result, or an allowed policy with None order_details. Otherwise they complete. |
| Resolution.UngatedOutcome | backend/app/agents/resolution/agent.py:46-87 | Tracking, complaint and general raise iff entities is missing. A technical issue never raises. |
| Resolution.ApprovalNamesOrder | backend/app/agents/resolution/agent.py:12-40 | An approval shows the order id after "#" and the product after it. |
| Resolution.GatedReply | backend/app/agents/resolution/agent.py:4-43 | Approval iff allowed, and no approval text equals a denial text. Otherwise a denial with the policy's reason: "Policy requirements not met" when the reason key is absent, "None" when it is present but None. |
| Resolution.ComplaintNamesOrderIff | backend/app/agents/resolution/agent.py:67-76 | A complaint reply names the order id iff order_details is truthy. |
| Resolution.TrackingNotFound | backend/app/agents/resolution/agent.py:50-51 | Without order details, tracking answers the not-found reply. |
| Resolution.TrackingShowsOrder | backend/app/agents/resolution/agent.py:53-64 | The reply opens with the id and the product. It then shows the delivery date, the order date or the raw status. |
| Resolution.TrackingClosesByStatus | backend/app/agents/resolution/agent.py:59-64 | "Delivered" closes with the delivery sentence and says "delivered"; "Shipped" closes with the transit sentence and says "transit"; any other status closes with the shipping-team sentence. No reply closes with another branch's sentence. |
| Resolution.TrackingTailsDistinct | backend/app/agents/resolution/agent.py:59-64 | None of the three closing sentences is a suffix of another. |
| Resolution.ConstantReplies | backend/app/agents/resolution/agent.py:79-87 | Technical and general replies are fixed non-empty texts. |
| Resolution.AllowedWithNullOrderHandsOff | backend/app/agents/resolution/agent.py:9-11 | An allowed refund with order_details None raises AttributeError, and the guard hands off. |
| Graph.StateGraph.Compile | backend/app/orchestrator/graph.py:24 | A compiled graph starts at the entry node. |
| Graph.BuildGraph | backend/app/orchestrator/graph.py:9-24 | The built graph's entry is triage and it compiles to triage, database, policy, resolution. |
| Graph.PipelineWalk | backend/app/orchestrator/graph.py:17-22 | The edges lead from triage through the four nodes to the end. |
| Graph.EdgeTargets | backend/app/orchestrator/graph.py:19-22 | Each node's outgoing edge: triage to database, database to policy, policy to resolution, resolution to the end. |
| Graph.Invoke | backend/app/orchestrator/graph.py:24 | Running the compiled order in place equals running the nodes one after the other. |
| Graph.RunNode | backend/app/orchestrator/graph.py:12-15 | Each node is its agent wrapped by the guard under its name. |
| Graph.PipelineShape | backend/app/orchestrator/graph.py:12-22 | The pipeline starts at triage and holds each agent once, under distinct names. |
| Graph.BodiesKeepAudit | backend/app/agents/triage/agent.py:3-8 | No agent body touches the guard's attempts map or audit list. |
| Graph.InvocationCounts | backend/app/orchestrator/graph.py:12-22 | One invocation raises each agent's counter by one exactly when it was under the limit. |
| Graph.AtMostOnePerInvocation | backend/app/orchestrator/graph.py:12-22 | No counter rises by more than one per invocation. |
| Graph.NodesRunAtMostMax | backend/app/orchestrator/guard.py:15-25 | Whatever nodes run, an agent's body runs at most 2 times. |
| Graph.NodesPreserveAudit | backend/app/orchestrator/guard.py:25-31 | The audit invariant survives any node order. |
| Runner.Orchestrator.Prepare | backend/app/orchestrator/runner.py:18-39 | A new conversation gets the initial state. A stored one gets the new message, in_progress and no error. |
| Runner.Orchestrator.RunGraph | backend/app/orchestrator/runner.py:43-50 | The graph's result, escalated when should_escalate holds, with a reply added only when there is none. |
| Runner.Orchestrator.RunOrchestrator | backend/app/orchestrator/runner.py:7-63 | The turn result is saved under the id and returned, and other conversations are untouched. |
| Runner.ResetKeepsHistory | backend/app/orchestrator/runner.py:35-39 | A stored conversation keeps everything but message, status and error. |
| Runner.FinishHandsOff | backend/app/orchestrator/runner.py:46-50 | Escalation sets handoff and HUMAN_HANDOFF and keeps a non-empty reply. Otherwise nothing changes. |
| Runner.FinishIdempotent | backend/app/orchestrator/runner.py:46-50 | Escalating twice equals escalating once. |
| Runner.CrashHandsOff | backend/app/orchestrator/runner.py:56-63 | A graph exception hands off with "Orchestrator error: <e>" and the apology. The crash is taken to happen before any node runs, so no agent is counted. |
| Runner.TurnKeepsAudit | backend/app/orchestrator/runner.py:18-63 | Every turn keeps the audit invariant. |
| Runner.HealthyPass | backend/app/orchestrator/runner.py:43 | Under the limits, a pass runs all four agents and denies the refund for the default reason. |
| Runner.StubsPass | backend/app/orchestrator/graph.py:12-20 | The three stubs together count and audit themselves and set intent, urgency, order status, refund_allowed and RESOLUTION. |
| Runner.RefundPass | backend/app/agents/resolution/agent.py:4-15 | With no stored policy result, the refund is denied for the default reason and the conversation completes. |
| Runner.UnsaturatedTurn | backend/app/orchestrator/escalation.py:18-20 | A pass from counters n < 2 leaves counters n+1 and escalates exactly when n > 0. |
| Runner.SaturatedPass | backend/app/orchestrator/guard.py:15-22 | Once every agent is at its limit, a pass only hands off. |
| Runner.FirstTurn | backend/app/orchestrator/runner.py:20-54 | The first turn completes, and each agent runs once. |
| Runner.SecondTurn | backend/app/orchestrator/runner.py:35-54 | The second turn reaches 8 attempts and is escalated, keeping the denial. |
| Runner.SaturatedTurn | backend/app/orchestrator/runner.py:35-54 | Saturated turns hand off with resolution's limit message and keep entities and counters. |
| Runner.HandedOffStays | backend/app/orchestrator/runner.py:35-54 | A handed-off, saturated conversation stays so on every later turn. |
| Runner.ConversationLifecycle | backend/app/orchestrator/runner.py:18-54 | Turn 1 completes, turn 2 hands off, and from turn 3 on every agent is over its limit. |
| PolicyEvaluator.DaysAgree | backend/app/agents/policy/app/rag/policy_evaluator.py:63-84 | Both day counts agree on parseable dates. Both are absent or 0 otherwise. |
| PolicyEvaluator.SearchMissesNothing | backend/app/agents/policy/app/rag/policy_evaluator.py:52-57 | `re.search` finds nothing only when no position matches. |
| PolicyEvaluator.SearchIsLeftmost | backend/app/agents/policy/app/rag/policy_evaluator.py:52-57 | `re.search` returns the leftmost match. |
| PolicyEvaluator.FirstMatchIsFirstPattern | backend/app/agents/policy/app/rag/policy_evaluator.py:44-57 | Patterns are tried in order, and the first one that matches anywhere decides. |
| PolicyEvaluator.DigitlessDefault | backend/app/agents/policy/app/rag/policy_evaluator.py:61 | A text without digits has the 7-day default. |
| PolicyEvaluator.SoleSeven | backend/app/agents/policy/app/rag/policy_evaluator.py:44-61 | A text whose only digit is a 7 has a 7-day window. |
| PolicyEvaluator.WindowFromWithin | backend/app/agents/policy/app/rag/policy_evaluator.py:52-57 | When "within" matches, the window is the number it captured, read on the lower-cased text. |
| PolicyEvaluator.LeadingWithin | backend/app/agents/policy/app/rag/policy_evaluator.py:44-57 | "within N days" at the start gives N, whatever follows. |
| PolicyEvaluator.FallbackWindow | backend/app/agents/policy/app/rag/policy_evaluator.py:287-289 | The fallback policy has a 7-day window. |
| PolicyEvaluator.CancelTable | backend/app/agents/policy/app/rag/policy_evaluator.py:86-124 | Refused exactly for delivered, cancelled, and shipped-unless-the-policy-allows. The order date is ignored. |
| PolicyEvaluator.ExchangeWindow | backend/app/agents/policy/app/rag/policy_evaluator.py:126-171 | Allowed iff a delivery day is known and at most the window has passed. The reason then counts the days left. |
| PolicyEvaluator.ExchangeIgnoresStatusWhenDated | backend/app/agents/policy/app/rag/policy_evaluator.py:145-171 | With a delivery date the status does not matter. |
| PolicyEvaluator.UndatedRefusal | backend/app/agents/policy/app/rag/policy_evaluator.py:145-156 | Without a date the answer is a refusal that names the status, unless the status is delivered. |
| PolicyEvaluator.ExpiredNamesExpiry | backend/app/agents/policy/app/rag/policy_evaluator.py:165-171 | Past the window, the refusal names the delivery day plus the window. |
| PolicyEvaluator.Excerpt | backend/app/agents/policy/app/rag/policy_evaluator.py:173-242 | The reported policy is at most 500 characters, then "...". |
| PolicyEvaluator.DecisionsIgnoreQuery | backend/app/agents/policy/app/rag/policy_evaluator.py:173-242 | Both flags come from the two decisions, and the query only selects the reason. |
| PolicyEvaluator.ReasonSelection | backend/app/agents/policy/app/rag/policy_evaluator.py:173-242 | Cancel queries get the cancel reason, exchange or return queries the exchange reason, others both. |
| PolicyEvaluator.CombinedOrder | backend/app/agents/policy/app/rag/policy_evaluator.py:173-242 | The favourable reason leads and the other follows. |
| PolicyEvaluator.NoAnswerSevenDays | backend/app/agents/policy/app/rag/policy_evaluator.py:252-298 | With no usable search answer, the fallback policy decides with 7 days. |
| PolicyEvaluator.ExchangeQueryType | backend/app/agents/policy/app/rag/policy_evaluator.py:300-316 | Exchange wording selects the exchange policy type. |
| PolicyEvaluator.PolicyTypeTable | backend/app/agents/policy/app/rag/policy_evaluator.py:306-316 | The policy type, in both directions: exchange wording wins over return/refund wording, which wins over "cancel"; otherwise "return and exchange". |
| PolicyEvaluator.QueryWithoutDelivery | backend/app/agents/policy/app/rag/policy_evaluator.py:300-328 | Without a delivery date the enhanced query has no delivery sentence. |
| PolicyEvaluator.QueryNamesDelivery | backend/app/agents/policy/app/rag/policy_evaluator.py:300-328 | With a delivery date the enhanced query carries it. |
| ResolutionLlm.ApprovalShowsSize | backend/app/agents/resolution/core/llm/Resolution_agent_llm.py:20 | An approved return or exchange message holds the size line with "N/A" for a size of None, 0 or "0", and with the size itself otherwise. |
| ResolutionLlm.ApprovalsShowSizeLine | backend/app/agents/resolution/core/llm/Resolution_agent_llm.py:116-121 | Both approval texts contain the size line they are built with. |
| ResolutionLlm.ApprovedReturnMessage | backend/app/agents/resolution/core/llm/Resolution_agent_llm.py:114-127 | An approved return replies with the return-approval text for the product (default "the product"), the order id and the shown size. |
| ResolutionLlm.ApprovedExchangeMessage | backend/app/agents/resolution/core/llm/Resolution_agent_llm.py:152-165 | An approved exchange replies with the exchange-approval text for the product (default "the product"), the order id, the shown size and the label link. |
| ResolutionLlm.AsWrittenAlwaysFails | backend/app/agents/resolution/core/llm/Resolution_agent_llm.py:20 | Every call to the agent as written fails with the AttributeError. |
| ResolutionLlm.RefundRequestExample | backend/app/agents/resolution/core/llm/Resolution_agent_llm.py:20 | The refund request fails as written. With the size read as absent, it is refunded for 100. |
| ResolutionLlm.InformationalAnswers | backend/app/agents/resolution/core/llm/Resolution_agent_llm.py:28-77 | Tracking, complaint and technical answers ignore the policy flags. They make no label and no refund, and tracking reports the status or "processing". |
| ResolutionLlm.CancelOrRefund | backend/app/agents/resolution/core/llm/Resolution_agent_llm.py:79-186 | A cancel or refund is done for the amount iff cancel_allowed. Otherwise it is a deny with the policy's reason. |
| ResolutionLlm.ReturnOrExchangeApproved | backend/app/agents/resolution/core/llm/Resolution_agent_llm.py:107-170 | With exchange allowed, one label is generated for the order, the product ("the product" when the product is None or empty) and the size, and the link points to it. |
| ResolutionLlm.ApprovedLabelUrl | backend/app/agents/resolution/core/services/return_label_service.py:22 | With the label service's file name, an approved return or exchange links to "http://localhost:8000/labels/return_label_<order id>.pdf". |
| ResolutionLlm.ReturnOrExchangeDenied | backend/app/agents/resolution/core/llm/Resolution_agent_llm.py:94-143 | Without the flag, it is return_deny or exchange_deny with the reason and no label. |
| ResolutionLlm.OtherIntentsDenied | backend/app/agents/resolution/core/llm/Resolution_agent_llm.py:188-197 | Any other intent is denied with the reason. |
| ResolutionLlm.LabelsOnlyOnApproval | backend/app/agents/resolution/core/llm/Resolution_agent_llm.py:107-170 | A label is made iff a return or exchange is approved. A refund amount comes only with a cancel. |
| ResolutionLlm.IntentCaseInsensitive | backend/app/agents/resolution/core/llm/Resolution_agent_llm.py:16 | Intents are compared case-insensitively. |
| ResolutionLlm.ExchangeMessageLinks | backend/app/agents/resolution/core/llm/Resolution_agent_llm.py:152-165 | The exchange approval text contains the link it is given. |
| ResolutionLlm.ExchangeApprovalLinksLabel | backend/app/agents/resolution/core/llm/Resolution_agent_llm.py:145-165 | An approved exchange's message contains its label link. |
| StageManager.StageTransition | backend/app/agents/resolution/crm/stage_manager.py:12-25 | At most two stage keys, each a key of STAGES. |
| StageManager.TransitionTable | backend/app/agents/resolution/crm/stage_manager.py:16-25 | exchange/return give EXCHANGED, cancel/refund give CANCELLED then REFUND_DONE, and anything else gives nothing, in each direction. |
| StageManager.TransitionIgnoresCase | backend/app/agents/resolution/crm/stage_manager.py:16 | Case does not matter. |
| StageManager.StageIdsDistinct | backend/app/agents/resolution/crm/stage_manager.py:5-10 | Every stage key has its own CRM stage id. |
| ResolutionApi.Crm.UpdateDealStage | backend/app/api/resolution.py:33-37 | The update reaches the CRM and the CRM's answer is returned. |
| ResolutionApi.Resolve | backend/app/api/resolution.py:13-43 | The agent's result, the CRM updates sent in stage order until the first failure, and that failure as crm_error. It is composed with the corrected agent (see Findings). |
| ResolutionApi.SentIsPlannedPrefix | backend/app/api/resolution.py:30-37 | The updates sent are a prefix of the planned ones. |
| ResolutionApi.ErrorIsLastRejection | backend/app/api/resolution.py:30-41 | All updates before the last were accepted. An error is the answer to the last one sent. |
| ResolutionApi.NoErrorSendsAll | backend/app/api/resolution.py:30-41 | Without an error, every planned update was sent. |
| ResolutionApi.SentUntilRejected | backend/app/api/resolution.py:27-41 | There is no error iff every planned update was sent and accepted. |
| ResolutionApi.NoCrmForOtherActions | backend/app/api/resolution.py:28 | Denials and informational actions send nothing. |
| ResolutionApi.ApprovalMovesToExchanged | backend/app/api/resolution.py:28-37 | An approved return or exchange sends one EXCHANGED update. |
| ResolutionApi.CancelMovesTwice | backend/app/api/resolution.py:28-41 | A cancel sends CANCELLED then REFUND_DONE. The second is not sent when the first fails. |
| ResolutionApi.CancellationRequestStages | backend/app/api/resolution.py:21-28 | The stages follow the agent's action: a refused cancellation touches no stage. |
| TriageRules.FindIdLeftmost | Triage/triage_agent.py:26 | The search skips exactly the positions where `\b\d{4,}\b` does not match. |
| TriageRules.ExtractOrderId | Triage/triage_agent.py:25-27 | An extracted id has at least 4 characters, all digits. |
| TriageRules.OrderIdIsLeftmostMatch | Triage/triage_agent.py:25-27 | The id is the digit run at the leftmost match. It is None iff nothing matches. |
| TriageRules.IdAfterText | Triage/triage_agent.py:25-27 | A number of 4 or more digits set off by non-word characters, with no digits before it, is the id. |
| TriageRules.IdNeedsBoundary | Triage/triage_agent.py:26 | Digits right after a word character start no id ("abc12345" has none there). |
| TriageRules.OrderIdIgnoresCase | Triage/triage_agent.py:50-52 | Lower-casing the message does not change the id. |
| TriageRules.IntentIsFirstMatchingRule | Triage/triage_agent.py:10-35 | The intent is the first rule in table order with a keyword substring. It is None iff no keyword occurs. |
| TriageRules.RefundWins | Triage/triage_agent.py:11-34 | A refund keyword always gives "refund". |
| TriageRules.ReturnBeatsLaterRules | Triage/triage_agent.py:12-34 | Without refund keywords, "return" wins over the later rules. |
| TriageRules.IntentNames | Triage/triage_agent.py:10-17 | The intent is always one of the six rule names. |
| TriageRules.FirstUrgent | Triage/triage_agent.py:38-42 | Searching the urgent words from position k: a "high" answer means some word from k on occurs in the text. |
| TriageRules.UrgencyIffUrgentWord | Triage/triage_agent.py:19-42 | The rule-based urgency is "high" when an urgent word is a substring of the text, and None exactly when none is. |
| TriageRules.UrgencyIsSubstring | Triage/triage_agent.py:38-42 | Substring matching: "i don't know" is urgent because of "now". |
| TriageRules.RuleHitSkipsModel | Triage/triage_agent.py:50-63 | On a rule hit the result holds that intent, urgency high or normal, the regex id and confidence 0.85. |
| TriageRules.RuleHitIgnoresAnswer | Triage/triage_agent.py:56-63 | On a rule hit the model's answer and its decoding play no part. |
| TriageRules.UndecodableAnswer | Triage/triage_agent.py:78-89 | An answer that is not a JSON object gives unknown, normal, the regex id and confidence 0.50. |
| TriageRules.AnswerOrderIdFallback | Triage/triage_agent.py:78-81 | A decoded answer is kept. A missing or falsy order_id is replaced by the regex id. |
| RagPrompts.FormatConversationHistory | app/prompts/rag_prompts.py:93-113 | The loop's output equals the last five messages, as "Role: content" lines joined by new-lines, or the no-history text. |
| RagPrompts.MessageLine | app/prompts/rag_prompts.py:109-111 | A missing role shows as "Unknown", and missing content as "". |
| RagPrompts.OlderMessagesDropped | app/prompts/rag_prompts.py:108 | Messages before the last five never affect the text. |
| RagPrompts.ShortHistoryGrows | app/prompts/rag_prompts.py:107-113 | With fewer than five messages, a new one adds a new-line and its line. |
| RagPrompts.SingleMessage | app/prompts/rag_prompts.py:104-113 | A single message is rendered as its own line. |
| RagPrompts.FormatContextChunks | app/prompts/rag_prompts.py:116-133 | The loop's output equals the "[Context i]" blocks numbered from 1, joined by new-lines, or the no-context text. |
| RagPrompts.ContextGrows | app/prompts/rag_prompts.py:129-133 | Each further chunk adds a new-line and a block numbered one past the last. |
| RagPrompts.SingleChunk | app/prompts/rag_prompts.py:126-133 | One chunk gives "[Context 1]\n<chunk>\n". |

## Left out

- **Text handling is ASCII-only.** Upper/lower case, `capitalize`, `title`, and the regular-expression classes `\s`, `\d` and `\w` are modelled for ASCII only. Python applies them to all of Unicode.
- **Dates are abstract.** The wall clock, `strptime` and `strftime` are a `Calendar` parameter. Dates are day numbers, and the date texts stay abstract.
- **Network and disk calls are parameters.**
  - The HubSpot PATCH request is `Crm.rejects`.
  - The return-label PDF file name is `labelFile`. The name the label service itself gives is `ResolutionLlm.LabelFileName`.
  - The Ollama chat call and `json.loads` are `answer` and `decode`.
  - The FAISS/RAG search answer is `answer`.
  - The prompts sent to the models are not modelled.
- **A failing chat call is not modelled.** In `run_triage` (Triage/triage_agent.py:69-76), the chat call sits outside the `try`, so its failure would propagate. The model assumes the call returns.
- **Numbers from the LLM are `real`s.** Decoded JSON numbers carry no float rounding.
- **Turns are sequential.** Async scheduling and the unlocked module-level store are not modelled.
- **The store is modelled by value.** It holds object references that the runner later mutates.
- **The graph library is reduced to a builder.** LangGraph internals are not modelled; the model keeps only a builder class and in-order execution of the compiled nodes. State copies between nodes are not modelled.
- **A graph crash is a parameter.** Agents' exceptions are absorbed by the guard, so an exception escaping `graph.ainvoke` can only come from the library. The model gives it as `crash`.
- Runner.CrashHandsOff: a crash is modelled as happening before any node changes the state. A library exception after some nodes have run could leave their guard's in-place counter increments and audit entries (guard.py:25, 31) in the saved state, depending on whether the library copies the nested containers; that is not modelled.
- Runner.Orchestrator.Prepare: a stored state that is an empty dict is falsy and would be replaced by a new state (runner.py:20). The model treats every stored state as present.
- PolicyEvaluator.DaysAgree: `_calculate_days_since_order` has no caller in the evaluator; it is modelled and related to the delivery count only.
- **Label files are not written.** Rendering and saving the label PDF is not part of this model; only its file name enters, through `labelFile`.
- **No confirmation gate or history.** The confirmation gate, the conversation-history store, the conditional routers and the richer triage, database and policy agents exercised by some tests do not appear in the agent code modelled here, so they are not part of this model.

## Findings

| source | as written | input that shows it | evidently intended | confidence | as-written member | corrected member |
|---|---|---|---|---|---|---|
| backend/app/agents/resolution/core/llm/Resolution_agent_llm.py:20 | `data.size` is read, but `ResolutionInput` (backend/app/agents/resolution/app/schemas/model.py:5-15) declares no `size` field, so the attribute access raises before any intent is handled | any request, e.g. order "123", intent "refund", amount 100, cancel_allowed True | the size is optional and shows "N/A" when absent; the refund is carried out for 100 | not executed | ResolutionLlm.RunAgentAsWritten (ResolutionLlm.AsWrittenAlwaysFails, ResolutionLlm.RefundRequestExample) | ResolutionLlm.RunAgent (ResolutionLlm.ApprovalShowsSize, ResolutionLlm.CancelOrRefund) |
