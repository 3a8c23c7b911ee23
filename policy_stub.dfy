/** The policy step of the graph (backend/app/agents/policy/agent.py): a stub that sets fixed values. */
module PolicyStub {
  import opened Wrappers
  import opened Conversation
  import opened Guard

  /** The agent body: entities["refund_allowed"] = True, on to RESOLUTION; KeyError without entities. */
  function PolicyStep(s: State): StepOutcome {
    match s.entities
    case None => Err(s, ENTITIES_KEY_ERROR)
    case Some(e) => Ok(s.(entities := Some(e.(refundAllowed := Some(true))), phase := Some(Resolution)))
  }

  /** `policy_agent`: the body wrapped by `agent_guard("policy")`. */
  method PolicyAgent(d: ConversationDict)
    modifies d
    ensures d.Snapshot() == Guarded("policy", PolicyStep, old(d.Snapshot()))
  {
    var proceed := Enter(d, "policy");
    if proceed {
      var err: Option<string> := None;
      if d.entities.None? {
        err := Some(ENTITIES_KEY_ERROR);
      } else {
        d.entities := Some(d.entities.value.(refundAllowed := Some(true)));
        d.currentState := Some(Resolution);
      }
      Absorb(d, "policy", err);
    }
  }

  lemma PolicyKeepsAudit()
    ensures KeepsAudit(PolicyStep)
  {
  }

  /**
   * With entities present, refund_allowed becomes True, every other entity and state key
   * is kept, and the phase moves to RESOLUTION; without entities, the KeyError is turned
   * into a hand-off.
   */
  lemma PolicyEffect(s: State)
    requires Count(s, "policy") < MAX_AGENT_CALLS
    ensures var r := Guarded("policy", PolicyStep, s);
      && Count(r, "policy") == Count(s, "policy") + 1
      && CalledOf(r) == CalledOf(s) + ["policy"]
      && (s.entities.Some? ==>
            && r.entities == Some(s.entities.value.(refundAllowed := Some(true)))
            && r.phase == Some(Resolution)
            && r.intent == s.intent && r.lastError == s.lastError && r.status == s.status && r.reply == s.reply)
      && (s.entities.None? ==>
            && r.phase == Some(HumanHandoff) && r.status == Some(Status.Handoff)
            && r.lastError == Some("policy error: 'entities'"))
  {
    assert ErrorMessage("policy", ENTITIES_KEY_ERROR) == "policy error: 'entities'";
  }
}
