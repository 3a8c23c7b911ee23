/** The triage step of the graph (backend/app/agents/triage/agent.py): a stub that sets fixed values. */
module TriageStub {
  import opened Wrappers
  import opened Conversation
  import opened Guard

  /** The agent body: intent "refund", urgency "high", on to DATA_FETCH. */
  function TriageStep(s: State): StepOutcome {
    Ok(s.(intent := Some("refund"), urgency := Some("high"), phase := Some(DataFetch)))
  }

  /** `triage_agent`: the body wrapped by `agent_guard("triage")`. */
  method TriageAgent(d: ConversationDict)
    modifies d
    ensures d.Snapshot() == Guarded("triage", TriageStep, old(d.Snapshot()))
  {
    var proceed := Enter(d, "triage");
    if proceed {
      d.intent := Some("refund");
      d.urgency := Some("high");
      d.currentState := Some(DataFetch);
    }
  }

  lemma TriageKeepsAudit()
    ensures KeepsAudit(TriageStep)
  {
  }

  /**
   * Under the guard, triage either hands off because of the retry limit, or sets intent,
   * urgency and phase, counts the call and changes nothing else: it never raises.
   */
  lemma TriageEffect(s: State)
    ensures var r := Guarded("triage", TriageStep, s);
      if Count(s, "triage") >= MAX_AGENT_CALLS then
        r.phase == Some(HumanHandoff) && r.lastError == Some(LimitMessage("triage"))
      else
        && r.intent == Some("refund") && r.urgency == Some("high") && r.phase == Some(DataFetch)
        && r.entities == s.entities && r.lastError == s.lastError && r.status == s.status
        && r.reply == s.reply && CalledOf(r) == CalledOf(s) + ["triage"]
        && Count(r, "triage") == Count(s, "triage") + 1
  {
  }
}
