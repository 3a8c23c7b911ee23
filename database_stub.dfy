/** The database step of the graph (backend/app/agents/database/agent.py): a stub that sets fixed values. */
module DatabaseStub {
  import opened Wrappers
  import opened Conversation
  import opened Guard

  /** The agent body: entities["order_status"] = "DELIVERED", on to POLICY_CHECK; KeyError without entities. */
  function DatabaseStep(s: State): StepOutcome {
    match s.entities
    case None => Err(s, ENTITIES_KEY_ERROR)
    case Some(e) => Ok(s.(entities := Some(e.(orderStatus := Some("DELIVERED"))), phase := Some(PolicyCheck)))
  }

  /** `database_agent`: the body wrapped by `agent_guard("database")`. */
  method DatabaseAgent(d: ConversationDict)
    modifies d
    ensures d.Snapshot() == Guarded("database", DatabaseStep, old(d.Snapshot()))
  {
    var proceed := Enter(d, "database");
    if proceed {
      var err: Option<string> := None;
      if d.entities.None? {
        err := Some(ENTITIES_KEY_ERROR);
      } else {
        d.entities := Some(d.entities.value.(orderStatus := Some("DELIVERED")));
        d.currentState := Some(PolicyCheck);
      }
      Absorb(d, "database", err);
    }
  }

  lemma DatabaseKeepsAudit()
    ensures KeepsAudit(DatabaseStep)
  {
  }

  /**
   * With entities present, the order status becomes DELIVERED, every other entity and
   * state key is kept, and the phase moves to POLICY_CHECK; without entities, the
   * KeyError is turned into a hand-off.
   */
  lemma DatabaseEffect(s: State)
    requires Count(s, "database") < MAX_AGENT_CALLS
    ensures var r := Guarded("database", DatabaseStep, s);
      && Count(r, "database") == Count(s, "database") + 1
      && CalledOf(r) == CalledOf(s) + ["database"]
      && (s.entities.Some? ==>
            && r.entities == Some(s.entities.value.(orderStatus := Some("DELIVERED")))
            && r.phase == Some(PolicyCheck)
            && r.intent == s.intent && r.lastError == s.lastError && r.status == s.status && r.reply == s.reply)
      && (s.entities.None? ==>
            && r.phase == Some(HumanHandoff) && r.status == Some(Status.Handoff)
            && r.lastError == Some("database error: 'entities'"))
  {
    assert ErrorMessage("database", ENTITIES_KEY_ERROR) == "database error: 'entities'";
  }
}
