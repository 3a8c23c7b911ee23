/**
 * CRM deal stages for a resolution (backend/app/agents/resolution/crm/stage_manager.py):
 * the stage ids of the CRM pipeline and the stage keys an action moves a deal through.
 */
module StageManager {
  import opened Text

  const PIPELINE_ID: string := "default"

  /** Stage key to CRM stage id. */
  const STAGES: map<string, string> := map[
    "DELIVERED" := "appointmentscheduled",
    "EXCHANGED" := "qualifiedtobuy",
    "CANCELLED" := "3071652573",
    "REFUND_DONE" := "presentationscheduled"]

  /** `get_stage_transition`: the stage keys for an intent, in the order they are applied. */
  function StageTransition(intent: string): (r: seq<string>)
    ensures |r| <= 2
    ensures forall k :: 0 <= k < |r| ==> r[k] in STAGES
  {
    var i := Lower(intent);
    if i == "exchange" || i == "return" then ["EXCHANGED"]
    else if i == "cancel" || i == "refund" then ["CANCELLED", "REFUND_DONE"]
    else []
  }

  /**
   * Exchange and return move the deal to EXCHANGED; cancel and refund to CANCELLED and then
   * REFUND_DONE; nothing else moves it. Case does not matter.
   */
  lemma TransitionTable(intent: string)
    ensures StageTransition(intent) == ["EXCHANGED"] <==> Lower(intent) in {"exchange", "return"}
    ensures StageTransition(intent) == ["CANCELLED", "REFUND_DONE"] <==> Lower(intent) in {"cancel", "refund"}
    ensures StageTransition(intent) == [] <==> Lower(intent) !in {"exchange", "return", "cancel", "refund"}
  { }

  lemma TransitionIgnoresCase(a: string, b: string)
    requires Lower(a) == Lower(b)
    ensures StageTransition(a) == StageTransition(b)
  { }

  /** Every stage key names a different CRM stage. */
  lemma StageIdsDistinct()
    ensures forall a, b :: a in STAGES && b in STAGES && a != b ==> STAGES[a] != STAGES[b]
  { }
}
