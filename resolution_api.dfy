/**
 * The `/resolve` endpoint (backend/app/api/resolution.py): run the resolution agent, then move
 * the CRM deal through the stages its action calls for, one update at a time. A failed update
 * stops the remaining ones and is reported next to the agent's answer.
 *
 * The CRM is the HubSpot client's `update_deal_stage`: a call that records the update and
 * may fail, as the CRM decides.
 */
module ResolutionApi {
  import opened Wrappers
  import opened Text
  import opened ResolutionLlm
  import opened StageManager

  /** The arguments of one `update_deal_stage` call. */
  datatype StageUpdate = StageUpdate(orderId: string, pipelineId: string, stageId: string)

  /** The CRM: every update request it has received, and the error it answers each with, if any. */
  class Crm {
    var updates: seq<StageUpdate>
    const rejects: StageUpdate -> Option<string>

    constructor (rejects: StageUpdate -> Option<string>)
      ensures this.rejects == rejects && updates == []
    {
      this.rejects := rejects;
      updates := [];
    }

    /** `update_deal_stage`: the request reaches the CRM, which may reject it. */
    method UpdateDealStage(u: StageUpdate) returns (err: Option<string>)
      modifies this
      ensures updates == old(updates) + [u]
      ensures err == rejects(u)
    {
      updates := updates + [u];
      err := rejects(u);
    }
  }

  /** The response: the agent's answer, and `crm_error` when a CRM update failed. */
  datatype Response = Response(result: Resolution, crmError: Option<string>)

  /** The updates sent for some stage keys and the error that stopped them, if any. */
  datatype Delivery = Delivery(sent: seq<StageUpdate>, error: Option<string>)

  /** The update a stage key calls for: keys without a (non-empty) stage id call for none. */
  function UpdateFor(key: string, orderId: string): Option<StageUpdate> {
    if key in STAGES && STAGES[key] != "" then Some(StageUpdate(orderId, PIPELINE_ID, STAGES[key])) else None
  }

  /** All the updates the keys call for, in order. */
  function Planned(keys: seq<string>, orderId: string): (r: seq<StageUpdate>)
    ensures |r| <= |keys|
    decreases |keys|
  {
    if keys == [] then []
    else
      match UpdateFor(keys[0], orderId)
      case None => Planned(keys[1..], orderId)
      case Some(u) => [u] + Planned(keys[1..], orderId)
  }

  /** Lines 30-37: the updates sent in key order until the CRM rejects one. */
  function SendStages(keys: seq<string>, orderId: string, rejects: StageUpdate -> Option<string>): Delivery
    decreases |keys|
  {
    if keys == [] then Delivery([], None)
    else
      match UpdateFor(keys[0], orderId)
      case None => SendStages(keys[1..], orderId, rejects)
      case Some(u) =>
        match rejects(u)
        case Some(e) => Delivery([u], Some(e))
        case None =>
          var rest := SendStages(keys[1..], orderId, rejects);
          Delivery([u] + rest.sent, rest.error)
  }

  /** The stage updates that follow an agent answer. */
  function CrmDelivery(result: Resolution, orderId: string, rejects: StageUpdate -> Option<string>): Delivery {
    SendStages(StageTransition(result.action), orderId, rejects)
  }

  /**
   * `resolve`: the stages follow the agent's action, not the requested intent. The agent is
   * the corrected `RunAgent`; the agent as written raises before the `try`, so the request
   * would fail with no CRM update and no crm_error.
   */
  method Resolve(request: Input, labelFile: LabelRequest -> string, crm: Crm) returns (response: Response)
    modifies crm
    ensures response.result == RunAgent(request, labelFile).result
    ensures response.crmError == CrmDelivery(response.result, request.orderId, crm.rejects).error
    ensures crm.updates == old(crm.updates) + CrmDelivery(response.result, request.orderId, crm.rejects).sent
  {
    var result := RunAgent(request, labelFile).result;
    var keys := StageTransition(result.action);
    var orderId := request.orderId;
    var error: Option<string> := None;
    ghost var sent: seq<StageUpdate> := [];
    var i := 0;
    while i < |keys| && error.None?
      invariant 0 <= i <= |keys|
      invariant crm.updates == old(crm.updates) + sent
      invariant error.None? ==>
        SendStages(keys, orderId, crm.rejects)
          == Delivery(sent + SendStages(keys[i..], orderId, crm.rejects).sent, SendStages(keys[i..], orderId, crm.rejects).error)
      invariant error.Some? ==> SendStages(keys, orderId, crm.rejects) == Delivery(sent, error)
    {
      assert keys[i..][1..] == keys[i + 1..];
      var key := keys[i];
      if key in STAGES && STAGES[key] != "" {
        var u := StageUpdate(orderId, PIPELINE_ID, STAGES[key]);
        error := crm.UpdateDealStage(u);
        sent := sent + [u];
      }
      i := i + 1;
    }
    response := Response(result, error);
  }

  // ---------------------------------------------------------------- properties

  /** The updates sent are a prefix of the planned ones. */
  lemma {:induction false} SentIsPlannedPrefix(keys: seq<string>, orderId: string, rejects: StageUpdate -> Option<string>)
    ensures var d := SendStages(keys, orderId, rejects); var p := Planned(keys, orderId);
      |d.sent| <= |p| && d.sent == p[..|d.sent|]
    decreases |keys|
  {
    if keys != [] {
      SentIsPlannedPrefix(keys[1..], orderId, rejects);
      match UpdateFor(keys[0], orderId)
      case None =>
      case Some(u) =>
        var rest := SendStages(keys[1..], orderId, rejects);
        var p := Planned(keys[1..], orderId);
        if rejects(u).None? {
          assert ([u] + p)[..|[u] + rest.sent|] == [u] + p[..|rest.sent|];
        } else {
          assert ([u] + p)[..1] == [u];
        }
    }
  }

  /**
   * Every update sent before the last was accepted; an error is the CRM's answer to the last
   * one sent, and without an error every update sent was accepted.
   */
  lemma {:induction false} ErrorIsLastRejection(keys: seq<string>, orderId: string, rejects: StageUpdate -> Option<string>)
    ensures var d := SendStages(keys, orderId, rejects);
      forall k :: 0 <= k < |d.sent| - 1 ==> rejects(d.sent[k]).None?
    ensures var d := SendStages(keys, orderId, rejects);
      d.error.Some? ==> |d.sent| > 0 && d.error == rejects(d.sent[|d.sent| - 1])
    ensures var d := SendStages(keys, orderId, rejects);
      d.error.None? ==> forall k :: 0 <= k < |d.sent| ==> rejects(d.sent[k]).None?
    decreases |keys|
  {
    if keys != [] {
      ErrorIsLastRejection(keys[1..], orderId, rejects);
      match UpdateFor(keys[0], orderId)
      case None =>
      case Some(u) =>
        var rest := SendStages(keys[1..], orderId, rejects);
        if rejects(u).None? {
          assert forall k :: 1 <= k < |[u] + rest.sent| ==> ([u] + rest.sent)[k] == rest.sent[k - 1];
        }
    }
  }

  /** Without an error every planned update was sent. */
  lemma {:induction false} NoErrorSendsAll(keys: seq<string>, orderId: string, rejects: StageUpdate -> Option<string>)
    ensures SendStages(keys, orderId, rejects).error.None? ==> SendStages(keys, orderId, rejects).sent == Planned(keys, orderId)
    decreases |keys|
  {
    if keys != [] {
      NoErrorSendsAll(keys[1..], orderId, rejects);
    }
  }

  /**
   * The updates sent are the planned ones up to and including the first the CRM rejects; the
   * error is that rejection, and there is none exactly when every planned update went through.
   */
  lemma SentUntilRejected(keys: seq<string>, orderId: string, rejects: StageUpdate -> Option<string>)
    ensures var d := SendStages(keys, orderId, rejects); var p := Planned(keys, orderId);
      |d.sent| <= |p| && d.sent == p[..|d.sent|]
    ensures var d := SendStages(keys, orderId, rejects);
      forall k :: 0 <= k < |d.sent| - 1 ==> rejects(d.sent[k]).None?
    ensures var d := SendStages(keys, orderId, rejects);
      d.error.None? <==> d.sent == Planned(keys, orderId) && forall k :: 0 <= k < |d.sent| ==> rejects(d.sent[k]).None?
    ensures var d := SendStages(keys, orderId, rejects);
      d.error.Some? ==> |d.sent| > 0 && d.error == rejects(d.sent[|d.sent| - 1])
  {
    SentIsPlannedPrefix(keys, orderId, rejects);
    ErrorIsLastRejection(keys, orderId, rejects);
    NoErrorSendsAll(keys, orderId, rejects);
  }

  /** Denials and informational answers leave the CRM untouched. */
  lemma NoCrmForOtherActions(result: Resolution, orderId: string, rejects: StageUpdate -> Option<string>)
    requires result.action in {"deny", "return_deny", "exchange_deny", "order_tracking", "complaint", "technical_issue"}
    ensures CrmDelivery(result, orderId, rejects) == Delivery([], None)
  {
    LowerUncapitalised(result.action);
  }

  /** An approved return or exchange moves the deal to the EXCHANGED stage with one update. */
  lemma ApprovalMovesToExchanged(result: Resolution, orderId: string, rejects: StageUpdate -> Option<string>)
    requires result.action == "return" || result.action == "exchange"
    ensures var u := StageUpdate(orderId, PIPELINE_ID, "qualifiedtobuy");
      CrmDelivery(result, orderId, rejects) == Delivery([u], rejects(u))
  {
    LowerUncapitalised(result.action);
    var keys := StageTransition(result.action);
    assert keys == ["EXCHANGED"];
    assert UpdateFor("EXCHANGED", orderId) == Some(StageUpdate(orderId, PIPELINE_ID, "qualifiedtobuy"));
    assert keys[1..] == [];
    assert SendStages(keys[1..], orderId, rejects) == Delivery([], None);
  }

  /**
   * A cancellation moves the deal to CANCELLED and then to REFUND_DONE; when the first update
   * fails the second is not sent.
   */
  lemma CancelMovesTwice(result: Resolution, orderId: string, rejects: StageUpdate -> Option<string>)
    requires result.action == "cancel" || result.action == "refund"
    ensures var u1 := StageUpdate(orderId, PIPELINE_ID, "3071652573");
      var u2 := StageUpdate(orderId, PIPELINE_ID, "presentationscheduled");
      CrmDelivery(result, orderId, rejects)
        == if rejects(u1).Some? then Delivery([u1], rejects(u1)) else Delivery([u1, u2], rejects(u2))
  {
    LowerUncapitalised(result.action);
    var keys := StageTransition(result.action);
    assert keys == ["CANCELLED", "REFUND_DONE"];
    assert UpdateFor("CANCELLED", orderId) == Some(StageUpdate(orderId, PIPELINE_ID, "3071652573"));
    assert UpdateFor("REFUND_DONE", orderId) == Some(StageUpdate(orderId, PIPELINE_ID, "presentationscheduled"));
    assert keys[1..] == ["REFUND_DONE"];
    assert keys[1..][1..] == [];
    assert SendStages(keys[1..][1..], orderId, rejects) == Delivery([], None);
    var u2 := StageUpdate(orderId, PIPELINE_ID, "presentationscheduled");
    assert SendStages(keys[1..], orderId, rejects) == Delivery([u2], rejects(u2));
  }

  /**
   * For a cancellation or refund request the CRM moves only when the agent carried it out:
   * the stages follow the agent's action, not the intent asked for.
   */
  lemma CancellationRequestStages(request: Input, labelFile: LabelRequest -> string, rejects: StageUpdate -> Option<string>)
    requires IntentOf(request) == "cancel" || IntentOf(request) == "refund"
    ensures var d := CrmDelivery(RunAgent(request, labelFile).result, request.orderId, rejects);
      !Truthy(request.cancelAllowed) ==> d == Delivery([], None)
    ensures var d := CrmDelivery(RunAgent(request, labelFile).result, request.orderId, rejects);
      var u1 := StageUpdate(request.orderId, PIPELINE_ID, "3071652573");
      var u2 := StageUpdate(request.orderId, PIPELINE_ID, "presentationscheduled");
      Truthy(request.cancelAllowed) ==>
        d == if rejects(u1).Some? then Delivery([u1], rejects(u1)) else Delivery([u1, u2], rejects(u2))
  {
    var result := RunAgent(request, labelFile).result;
    CancelOrRefund(request, labelFile);
    if Truthy(request.cancelAllowed) {
      CancelMovesTwice(result, request.orderId, rejects);
    } else {
      NoCrmForOtherActions(result, request.orderId, rejects);
    }
  }
}
