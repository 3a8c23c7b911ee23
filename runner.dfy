/**
 * One conversation turn (backend/app/orchestrator/runner.py): load or create the state,
 * run the compiled graph, escalate, save.
 *
 * `TurnResult(prior, id, msg, crash)` is the turn as a function of the stored state;
 * `Orchestrator.RunOrchestrator` is the in-place code proved against it. An exception
 * escaping the graph invocation cannot come from the agents (the guard absorbs theirs), so
 * it is a parameter: `crash == Some(e)` means the invocation raised e.
 */
module Runner {
  import opened Wrappers
  import opened Conversation
  import opened Guard
  import opened Escalation
  import opened TriageStub
  import opened DatabaseStub
  import opened PolicyStub
  import opened Resolution
  import opened Graph
  import Memory

  const ESCALATION_REPLY: string :=
    "I apologize, but I need "
    + "to escalate this to a "
    + "human agent for better "
    + "assistance. Someone will "
    + "get back to you shortly."

  const ERROR_REPLY: string :=
    "I apologize, but I "
    + "encountered an error. Let "
    + "me connect you with a "
    + "human agent."

  const ORCHESTRATOR_ERROR: string := "Orchestrator error: "

  /** Lines 22-34: the state of a new conversation. */
  function Fresh(id: string, msg: string): State {
    State(Some(id), Some(AwaitingIntent), Some(msg), None, None, Some(NO_ENTITIES),
          Some([]), Some(map[]), None, None, Some(InProgress))
  }

  /** Lines 37-39: a stored conversation takes the new message and forgets its last error. */
  function Reset(prior: State, msg: string): State {
    prior.(userMessage := Some(msg), status := Some(InProgress), lastError := None)
  }

  /** Lines 18-39: the state handed to the graph. */
  function Start(prior: Option<State>, id: string, msg: string): State {
    match prior
    case None => Fresh(id, msg)
    case Some(p) => Reset(p, msg)
  }

  /** Lines 46-50: the escalation applied to the graph's result. */
  ghost function Finish(r: State): State {
    if Escalates(r) then
      r.(status := Some(Status.Handoff), phase := Some(HumanHandoff),
         reply := if Truthy(r.reply) then r.reply else Some(ESCALATION_REPLY))
    else r
  }

  /** Lines 56-61: the state saved when the graph invocation raised. */
  function Crashed(s: State, msg: string): State {
    s.(lastError := Some(ORCHESTRATOR_ERROR + msg), status := Some(Status.Handoff),
       phase := Some(HumanHandoff), reply := Some(ERROR_REPLY))
  }

  /** The state saved and returned by one turn. */
  ghost function TurnResult(prior: Option<State>, id: string, msg: string, crash: Option<string>): State {
    var s := Start(prior, id, msg);
    match crash
    case Some(e) => Crashed(s, e)
    case None => Finish(RunNodes(PIPELINE, s))
  }

  /** The compiled graph (module level `graph = build_graph()`) and the store it saves to. */
  class Orchestrator {
    const store: Memory.Store
    const order: seq<Node>

    ghost predicate Valid()
      reads this, store
    {
      store.Valid() && order == PIPELINE
    }

    constructor (store: Memory.Store)
      requires store.Valid()
      ensures this.store == store && Valid()
    {
      var g := BuildGraph();
      var compiled := g.Compile();
      this.store := store;
      order := compiled.value;
    }

    /** Lines 18-39 in place: the stored state, updated for the new message, or a new one. */
    method Prepare(id: string, msg: string) returns (state: ConversationDict)
      ensures fresh(state) && state.Snapshot() == Start(store.Load(id), id, msg)
    {
      var prior := store.Load(id);
      if prior.None? {
        state := new ConversationDict.FromState(Fresh(id, msg));
      } else {
        state := new ConversationDict.FromState(prior.value);
        state.userMessage := Some(msg);
        state.status := Some(InProgress);
        state.lastError := None;
      }
    }

    /** Lines 43-50: the compiled graph runs on its own copy of the state, then escalation. */
    method RunGraph(s: State) returns (r: State)
      requires order == PIPELINE
      ensures r == Finish(RunNodes(PIPELINE, s))
    {
      var d := new ConversationDict.FromState(s);
      Invoke(d, order);
      var escalate := ShouldEscalate(d.Snapshot());
      if escalate {
        d.status := Some(Status.Handoff);
        d.currentState := Some(HumanHandoff);
        if !(d.reply.Some? && d.reply.value != "") {
          d.reply := Some(ESCALATION_REPLY);
        }
      }
      r := d.Snapshot();
    }

    /**
     * `run_orchestrator(conversation_id, message)`: the turn's result is saved under the
     * conversation id and returned; no other conversation is touched.
     */
    method RunOrchestrator(id: string, msg: string, crash: Option<string>) returns (result: State)
      requires Valid()
      modifies store
      ensures Valid()
      ensures result == TurnResult(old(store.Load(id)), id, msg, crash)
      ensures store.entries == old(store.entries)[id := result]
      ensures forall other :: other != id ==> store.Load(other) == old(store.Load(other))
    {
      var state := Prepare(id, msg);
      if crash.Some? {
        state.lastError := Some(ORCHESTRATOR_ERROR + crash.value);
        state.status := Some(Status.Handoff);
        state.currentState := Some(HumanHandoff);
        state.reply := Some(ERROR_REPLY);
        result := state.Snapshot();
      } else {
        result := RunGraph(state.Snapshot());
      }
      store.Save(id, result);
    }
  }

  // ---------------------------------------------------------------- properties

  /** A stored conversation keeps everything but the message, the status and the error. */
  lemma ResetKeepsHistory(p: State, id: string, msg: string)
    ensures var s := Start(Some(p), id, msg);
      && s.userMessage == Some(msg) && s.status == Some(InProgress) && s.lastError.None?
      && s.(userMessage := p.userMessage, status := p.status, lastError := p.lastError) == p
  {
  }

  /** Escalation hands off with a non-empty reply, keeping a non-empty one; otherwise nothing changes. */
  lemma FinishHandsOff(r: State)
    ensures Escalates(r) ==>
      && Finish(r).status == Some(Status.Handoff) && Finish(r).phase == Some(HumanHandoff)
      && Truthy(Finish(r).reply) && (Truthy(r.reply) ==> Finish(r).reply == r.reply)
      && Finish(r).(status := r.status, phase := r.phase, reply := r.reply) == r
    ensures !Escalates(r) ==> Finish(r) == r
  {
  }

  /** Escalating twice is escalating once. */
  lemma FinishIdempotent(r: State)
    ensures Finish(Finish(r)) == Finish(r)
  {
    if Escalates(r) {
      HandoffEscalates(Finish(r));
    }
  }

  /**
   * An exception from the graph hands off with its message. The crash is taken to happen
   * before any node has changed the state, so no agent is counted.
   */
  lemma CrashHandsOff(prior: Option<State>, id: string, msg: string, e: string)
    ensures var r := TurnResult(prior, id, msg, Some(e));
      var s := Start(prior, id, msg);
      && r.status == Some(Status.Handoff) && r.phase == Some(HumanHandoff)
      && r.lastError == Some("Orchestrator error: " + e) && r.reply == Some(ERROR_REPLY)
      && r.attempts == s.attempts && r.agentsCalled == s.agentsCalled
      && r.userMessage == Some(msg)
  {
  }

  lemma FreshSatisfiesAudit(id: string, msg: string)
    ensures AuditInv(Fresh(id, msg))
  {
  }

  /** Every turn keeps the audit list and the counters in step and within the limit. */
  lemma TurnKeepsAudit(prior: Option<State>, id: string, msg: string, crash: Option<string>)
    requires prior.Some? ==> AuditInv(prior.value)
    ensures AuditInv(TurnResult(prior, id, msg, crash))
  {
    var s := Start(prior, id, msg);
    assert AuditInv(s) by {
      if prior.Some? {
        forall a ensures Occurrences(CalledOf(s), a) == Count(s, a) <= MAX_AGENT_CALLS {
          assert Occurrences(CalledOf(prior.value), a) == Count(prior.value, a);
        }
      }
    }
    if crash.None? {
      NodesPreserveAudit(PIPELINE, s);
      var r := RunNodes(PIPELINE, s);
      forall a ensures Occurrences(CalledOf(Finish(r)), a) == Count(Finish(r), a) <= MAX_AGENT_CALLS {
        assert Occurrences(CalledOf(r), a) == Count(r, a);
      }
    } else {
      forall a ensures Occurrences(CalledOf(Crashed(s, crash.value)), a) == Count(Crashed(s, crash.value), a) <= MAX_AGENT_CALLS {
        assert Occurrences(CalledOf(s), a) == Count(s, a);
      }
    }
  }

  // ---------------------------------------------------------------- the life of a conversation

  /** The four agent names. */
  predicate IsAgent(a: string) {
    a == "triage" || a == "database" || a == "policy" || a == "resolution"
  }

  /** The graph's four nodes, one after the other. */
  lemma PipelineUnfold(s: State)
    ensures RunNodes(PIPELINE, s)
      == Apply(ResolutionNode, Apply(PolicyNode, Apply(DatabaseNode, Apply(TriageNode, s))))
  {
    var t, d, p, r := TriageNode, DatabaseNode, PolicyNode, ResolutionNode;
    assert PIPELINE == [t, d, p] + [r];
    assert [t, d, p] == [t, d] + [p];
    assert [t, d] == [t] + [d];
    assert [t] == [] + [t];
    RunNodesSnoc([t, d, p], r, s);
    RunNodesSnoc([t, d], p, s);
    RunNodesSnoc([t], d, s);
    RunNodesSnoc([], t, s);
  }

  /** What the denial text is: a non-empty reply. */
  lemma DeniedIsTruthy(k: GatedIntent, reason: string)
    ensures Truthy(Some(Denied(k, reason)))
  {
    assert |DeniedHead(k)| > 0;
  }

  /**
   * The three stub nodes under their limits: each is counted and audited, and together
   * they set intent, urgency, order status, refund_allowed and the RESOLUTION phase.
   */
  lemma StubsPass(s: State)
    requires s.entities.Some?
    requires Count(s, "triage") < MAX_AGENT_CALLS && Count(s, "database") < MAX_AGENT_CALLS
    requires Count(s, "policy") < MAX_AGENT_CALLS
    ensures Apply(PolicyNode, Apply(DatabaseNode, Apply(TriageNode, s)))
      == Entered("policy", Entered("database", Entered("triage", s))).(
           intent := Some("refund"), urgency := Some("high"), phase := Some(Resolution),
           entities := Some(s.entities.value.(orderStatus := Some("DELIVERED"), refundAllowed := Some(true))))
  {
  }

  /**
   * The resolution node under its limit, for a refund with no stored policy result: the
   * refund is denied for the default reason and the conversation completes.
   */
  lemma RefundPass(x: State)
    requires x.intent == Some("refund") && x.entities.Some? && x.entities.value.policyResult.Missing?
    requires Count(x, "resolution") < MAX_AGENT_CALLS
    ensures Apply(ResolutionNode, x)
      == Entered("resolution", x).(reply := Some(Denied(RefundIntent, DEFAULT_REASON)),
           status := Some(Status.Completed), phase := Some(Phase.Completed))
  {
    var e := Entered("resolution", x);
    assert e.intent == Some(IntentName(RefundIntent));
    GatedOutcome(RefundIntent, e);
    GatedReply(RefundIntent, e);
    ResolutionFrame(e);
  }

  /**
   * A pass over the graph when every agent is still under its limit and no policy result
   * was ever stored (the policy node records only refund_allowed): every node runs, the
   * intent is "refund", and the refund is denied for the default reason.
   */
  lemma HealthyPass(s: State)
    requires s.entities.Some? && s.entities.value.policyResult.Missing?
    requires forall a :: IsAgent(a) ==> Count(s, a) < MAX_AGENT_CALLS
    ensures var r := RunNodes(PIPELINE, s);
      var e := s.entities.value;
      && r.phase == Some(Phase.Completed) && r.status == Some(Status.Completed)
      && r.reply == Some(Denied(RefundIntent, DEFAULT_REASON))
      && r.intent == Some("refund") && r.urgency == Some("high") && r.lastError == s.lastError
      && r.entities == Some(e.(orderStatus := Some("DELIVERED"), refundAllowed := Some(true)))
      && CalledOf(r) == CalledOf(s) + ["triage", "database", "policy", "resolution"]
  {
    assert IsAgent("triage") && IsAgent("database") && IsAgent("policy") && IsAgent("resolution");
    PipelineUnfold(s);
    StubsPass(s);
    var x := Apply(PolicyNode, Apply(DatabaseNode, Apply(TriageNode, s)));
    assert Count(x, "resolution") == Count(s, "resolution");
    RefundPass(x);
  }

  /** A pass over the graph when every agent has reached its limit: each node only hands off. */
  lemma SaturatedPass(s: State)
    requires forall a :: IsAgent(a) ==> Count(s, a) >= MAX_AGENT_CALLS
    ensures RunNodes(PIPELINE, s)
      == s.(attempts := Some(AttemptsOf(s)), phase := Some(HumanHandoff),
            status := Some(Status.Handoff), lastError := Some(LimitMessage("resolution")))
  {
    assert IsAgent("triage") && IsAgent("database") && IsAgent("policy") && IsAgent("resolution");
    PipelineUnfold(s);
    var s1 := Apply(TriageNode, s);
    assert s1 == Blocked("triage", s);
    var s2 := Apply(DatabaseNode, s1);
    assert s2 == Blocked("database", s1);
    var s3 := Apply(PolicyNode, s2);
    assert s3 == Blocked("policy", s2);
    assert Count(s3, "resolution") == Count(s, "resolution");
    assert Apply(ResolutionNode, s3) == Blocked("resolution", s3);
  }

  /** Attempts maps whose agent counters are all n, and nothing else. */
  function Uniform(n: nat): map<string, nat> {
    map["triage" := n, "database" := n, "policy" := n, "resolution" := n]
  }

  lemma UniformSum(n: nat)
    ensures SumValues(Uniform(n)) == 4 * n
  {
    SumUpdate(map[], "triage", n);
    SumUpdate(map["triage" := n], "database", n);
    SumUpdate(map["triage" := n, "database" := n], "policy", n);
    SumUpdate(map["triage" := n, "database" := n, "policy" := n], "resolution", n);
  }

  /** Counters equal to n on the four agents and 0 elsewhere sum to 4 * n. */
  lemma CountsSum(s: State, n: nat)
    requires forall a :: Count(s, a) == if IsAgent(a) then n else 0
    ensures SumValues(AttemptsOf(s)) == 4 * n
  {
    UniformSum(n);
    forall k ensures Get(AttemptsOf(s), k) <= Get(Uniform(n), k) {
      assert Count(s, k) == Get(AttemptsOf(s), k);
    }
    forall k ensures Get(Uniform(n), k) <= Get(AttemptsOf(s), k) {
      assert Count(s, k) == Get(AttemptsOf(s), k);
    }
    SumMonotone(AttemptsOf(s), Uniform(n));
    SumMonotone(Uniform(n), AttemptsOf(s));
  }

  /** A turn from state s whose counters are n < 2 on the four agents and 0 elsewhere. */
  lemma UnsaturatedTurn(s: State, n: nat)
    requires s.entities.Some? && s.entities.value.policyResult.Missing? && s.lastError.None?
    requires n < MAX_AGENT_CALLS
    requires forall a :: Count(s, a) == if IsAgent(a) then n else 0
    ensures var r := RunNodes(PIPELINE, s);
      && (forall a :: Count(r, a) == if IsAgent(a) then n + 1 else 0)
      && (Escalates(r) <==> n > 0)
      && r.reply == Some(Denied(RefundIntent, DEFAULT_REASON))
      && r.phase == Some(Phase.Completed) && r.status == Some(Status.Completed)
      && r.entities.Some? && r.entities.value.policyResult.Missing?
  {
    var r := RunNodes(PIPELINE, s);
    HealthyPass(s);
    forall a ensures Count(r, a) == if IsAgent(a) then n + 1 else 0 {
      InvocationCounts(s, a);
    }
    CountsSum(r, n + 1);
  }

  /**
   * The first turn of a conversation completes: every agent runs once, and the reply is
   * the refund denial with the default reason.
   */
  lemma FirstTurn(id: string, msg: string)
    ensures var r := TurnResult(None, id, msg, None);
      && r.status == Some(Status.Completed) && r.phase == Some(Phase.Completed)
      && r.reply == Some(Denied(RefundIntent, DEFAULT_REASON)) && r.lastError.None?
      && CalledOf(r) == ["triage", "database", "policy", "resolution"]
      && forall a :: Count(r, a) == if IsAgent(a) then 1 else 0
  {
    var s := Fresh(id, msg);
    HealthyPass(s);
    UnsaturatedTurn(s, 0);
  }

  /**
   * The second turn runs every agent again, reaches six or more attempts in all and is
   * escalated, keeping the denial as its reply.
   */
  lemma SecondTurn(p: State, id: string, msg: string)
    requires p.entities.Some? && p.entities.value.policyResult.Missing?
    requires forall a :: Count(p, a) == if IsAgent(a) then 1 else 0
    ensures var r := TurnResult(Some(p), id, msg, None);
      && r.status == Some(Status.Handoff) && r.phase == Some(HumanHandoff)
      && r.reply == Some(Denied(RefundIntent, DEFAULT_REASON)) && r.lastError.None?
      && forall a :: Count(r, a) == if IsAgent(a) then 2 else 0
  {
    var s := Reset(p, msg);
    assert forall a :: Count(s, a) == Count(p, a);
    HealthyPass(s);
    UnsaturatedTurn(s, 1);
    DeniedIsTruthy(RefundIntent, DEFAULT_REASON);
  }

  /**
   * Once every agent has reached its limit, a turn only hands off: the last error is
   * resolution's retry-limit message, the earlier reply is kept when non-empty, and
   * entities, intent, counters and audit list stay as they were.
   */
  lemma SaturatedTurn(p: State, id: string, msg: string)
    requires forall a :: IsAgent(a) ==> Count(p, a) >= MAX_AGENT_CALLS
    ensures var r := TurnResult(Some(p), id, msg, None);
      && r.status == Some(Status.Handoff) && r.phase == Some(HumanHandoff)
      && r.lastError == Some(LimitMessage("resolution"))
      && r.reply == (if Truthy(p.reply) then p.reply else Some(ESCALATION_REPLY))
      && r.userMessage == Some(msg)
      && r.entities == p.entities && r.intent == p.intent
      && AttemptsOf(r) == AttemptsOf(p) && r.agentsCalled == p.agentsCalled
  {
    var s := Reset(p, msg);
    assert forall a :: Count(s, a) == Count(p, a);
    SaturatedPass(s);
    HandoffEscalates(RunNodes(PIPELINE, s));
  }

  /** The states saved by a sequence of crash-free turns of one conversation. */
  ghost function Replay(prior: Option<State>, id: string, msgs: seq<string>): Option<State>
    decreases |msgs|
  {
    if msgs == [] then prior
    else Replay(Some(TurnResult(prior, id, msgs[0], None)), id, msgs[1..])
  }

  /** A conversation after two or more turns: saturated, handed off, with the denial as reply. */
  ghost predicate HandedOff(r: State) {
    && r.status == Some(Status.Handoff) && r.phase == Some(HumanHandoff)
    && r.reply == Some(Denied(RefundIntent, DEFAULT_REASON))
    && forall a :: IsAgent(a) ==> Count(r, a) == MAX_AGENT_CALLS
  }

  lemma {:induction false} HandedOffStays(p: State, id: string, msgs: seq<string>)
    requires HandedOff(p)
    ensures Replay(Some(p), id, msgs).Some? && HandedOff(Replay(Some(p), id, msgs).value)
    ensures msgs != [] ==> Replay(Some(p), id, msgs).value.lastError == Some(LimitMessage("resolution"))
    decreases |msgs|
  {
    if msgs != [] {
      SaturatedTurn(p, id, msgs[0]);
      DeniedIsTruthy(RefundIntent, DEFAULT_REASON);
      var q := TurnResult(Some(p), id, msgs[0], None);
      assert forall a :: Count(q, a) == Count(p, a);
      HandedOffStays(q, id, msgs[1..]);
      if msgs[1..] == [] {
        assert Replay(Some(q), id, msgs[1..]) == Some(q);
      }
    }
  }

  /**
   * Whatever the user writes, a conversation completes on its first turn, is handed to a
   * human on its second, and from the third turn on every agent is over its retry limit.
   */
  lemma ConversationLifecycle(id: string, msgs: seq<string>)
    requires |msgs| >= 1
    ensures Replay(None, id, msgs).Some?
    ensures var r := Replay(None, id, msgs).value;
      && (|msgs| == 1 ==> r.status == Some(Status.Completed) && r.reply == Some(Denied(RefundIntent, DEFAULT_REASON)))
      && (|msgs| >= 2 ==> HandedOff(r))
      && (|msgs| >= 3 ==> r.lastError == Some(LimitMessage("resolution")))
  {
    var r1 := TurnResult(None, id, msgs[0], None);
    FirstTurn(id, msgs[0]);
    assert Replay(None, id, msgs) == Replay(Some(r1), id, msgs[1..]);
    if |msgs| == 1 {
      assert Replay(Some(r1), id, msgs[1..]) == Some(r1);
    } else {
      HealthyPass(Fresh(id, msgs[0]));
      SecondTurn(r1, id, msgs[1]);
      var r2 := TurnResult(Some(r1), id, msgs[1], None);
      assert Replay(Some(r1), id, msgs[1..]) == Replay(Some(r2), id, msgs[2..]);
      HandedOffStays(r2, id, msgs[2..]);
    }
  }
}
