/**
 * The resolution step of the graph (backend/app/agents/resolution/agent.py): reply
 * templates per intent, and the dispatcher that writes reply, status and phase.
 */
module Resolution {
  import opened Wrappers
  import opened Text
  import opened Conversation
  import opened Guard

  // Long reply texts are written as concatenations of short pieces: the verifier's cost of
  // a single string literal grows much faster than its length.

  /** The intents the dispatcher answers; any other intent (or none) goes to a human. */
  const KNOWN_INTENTS: set<string> :=
    {"refund", "return", "exchange", "order_tracking", "complaint", "technical_issue", "general_question"}

  /** str(AttributeError) for `.get` called on None. */
  const NONE_GET_ERROR: string := "'NoneType' object has no "
    + "attribute 'get'"

  const DEFAULT_REASON: string := "Policy requirements not met"

  const HUMAN_AGENT: string := "connect you with a human agent"

  const UNKNOWN_HEAD: string := "I'm not quite sure how to " + "help with that. Let me "

  const UNKNOWN_INTENT_REPLY: string := UNKNOWN_HEAD + HUMAN_AGENT + " who can better assist you."

  const TRACKING_NOT_FOUND: string :=
    "I couldn't find tracking "
      + "information for this "
      + "order. Please verify your "
      + "order number and try "
      + "again, or I can connect "
      + "you with a specialist."

  const COMPLAINT_WITHOUT_ORDER: string :=
    "I'm truly sorry to hear "
      + "about your experience. "
      + "Your feedback is "
      + "important to us. I've "
      + "documented your complaint "
      + "and a specialist will "
      + "contact you within 24 "
      + "hours. Can you provide "
      + "more details so we can "
      + "better assist you?"

  const GENERAL_REPLY: string :=
    "Thank you for reaching "
      + "out! I'd be happy to help "
      + "with your question. "
      + "However, for the most "
      + "accurate information, I "
      + "recommend connecting you "
      + "with a specialist who can "
      + "provide detailed "
      + "assistance. Would you "
      + "like me to arrange that?"

  const TECHNICAL_REPLY: string :=
    "I understand you're "
      + "experiencing a technical "
      + "issue. I've logged this "
      + "problem with our "
      + "technical support team. "
      + "They'll investigate and "
      + "reach out to you within 4 "
      + "hours. In the meantime, "
      + "have you tried restarting "
      + "your device or clearing "
      + "your browser cache?"

  /** The three intents whose reply depends on the policy result. */
  datatype GatedIntent = RefundIntent | ReturnIntent | ExchangeIntent

  /** An f-string field: None prints as "None". */
  function Render(o: Option<string>): string {
    o.GetOr("None")
  }

  /** `order_details.get(key)` */
  function Lookup(m: OrderDetails, key: string): Option<string> {
    if key in m then Some(m[key]) else None
  }

  /** `policy_result.get("reason", DEFAULT_REASON)` as the f-string prints it. */
  function ReasonText(r: Slot<string>): string {
    match r
    case Missing => DEFAULT_REASON
    case Null => "None"
    case Present(v) => v
  }

  /** The approval text up to the order id. */
  function ApprovedHead(k: GatedIntent): string {
    match k
    case RefundIntent => "Good news! Your refund " + "request for order #"
    case ReturnIntent => "Your return request " + "for order #"
    case ExchangeIntent => "Your exchange request " + "for order #"
  }

  /** The approval text after the product. */
  function ApprovedTail(k: GatedIntent): string {
    match k
    case RefundIntent =>
      ") has been approved. The "
        + "refund will be processed "
        + "within 5-7 business days "
        + "to your original payment "
        + "method. You'll receive a "
        + "confirmation email "
        + "shortly."
    case ReturnIntent =>
      ") has been approved! I'll "
        + "generate a prepaid return "
        + "label and email it to you "
        + "within the next 30 "
        + "minutes. Please pack the "
        + "item securely and drop it "
        + "off at any shipping "
        + "location. Once we receive "
        + "and inspect the item, "
        + "we'll process your refund."
    case ExchangeIntent =>
      (") has been approved! "
        + "Please let me know what "
        + "size/color you'd like to "
        + "exchange it for, and I'll "
        + "process the exchange. "
        + "We'll send you a prepaid "
        + "return label via email "
        + "for the original item.")
  }

  function Approved(k: GatedIntent, orderId: string, product: string): string {
    ApprovedHead(k) + orderId + " (" + product + ApprovedTail(k)
  }

  /** The denial text up to the reason. */
  function DeniedHead(k: GatedIntent): string {
    match k
    case RefundIntent => "I'm sorry, but we cannot " + "process a refund for this " + "order. Reason: "
    case ReturnIntent => "I'm sorry, but we cannot " + "process a return for this " + "order. Reason: "
    case ExchangeIntent => "I'm sorry, but we cannot " + "process an exchange for " + "this order. Reason: "
  }

  /** The denial text after the reason. */
  function DeniedTail(k: GatedIntent): string {
    match k
    case RefundIntent =>
      ". If you believe this is "
        + "an error, I can connect "
        + "you with a specialist who "
        + "can review your case."
    case ReturnIntent => ". Would you like me to " + "connect you with a " + "specialist?"
    case ExchangeIntent => ". Can I help you with " + "anything else?"
  }

  function Denied(k: GatedIntent, reason: string): string {
    DeniedHead(k) + reason + DeniedTail(k)
  }

  /** generate_refund_response, generate_return_response and generate_exchange_response. */
  function GatedResponse(k: GatedIntent, s: State): Result<string> {
    match s.entities
    case None => Failure(ENTITIES_KEY_ERROR)
    case Some(e) =>
      match e.policyResult
      case Null => Failure(NONE_GET_ERROR)
      case Missing => Success(Denied(k, DEFAULT_REASON))
      case Present(p) =>
        if p.allowed then
          match e.orderDetails
          case Null => Failure(NONE_GET_ERROR)
          case Missing => Success(Approved(k, "None", "None"))
          case Present(m) => Success(Approved(k, Render(Lookup(m, "order_id")), Render(Lookup(m, "product"))))
        else Success(Denied(k, ReasonText(p.reason)))
  }

  /** Truthiness of `entities.get("order_details", {})`. */
  predicate HasOrderDetails(e: Entities) {
    e.orderDetails.Present? && |e.orderDetails.value| > 0
  }

  /** The start every tracking reply shares: the order id and the product. */
  function TrackingHead(orderId: string, product: string): string {
    "Order #" + orderId + " (" + product + ") "
  }

  const DELIVERED_MID: string := "was delivered on "
  const DELIVERED_TAIL: string :=
    ". If you haven't received "
      + "it, please check with "
      + "neighbors or building "
      + "management. Need further "
      + "assistance?"
  const SHIPPED_MID: string := "is currently in transit. "
    + "It was shipped on "
  const SHIPPED_TAIL: string := " and should arrive soon. "
    + "You'll receive a "
    + "notification once it's "
    + "delivered."
  const OTHER_MID: string := "is currently "
  const OTHER_PLACED: string := ". Order placed on "
  const OTHER_TAIL: string := ". If you need more "
    + "details, I can connect "
    + "you with our shipping "
    + "team."

  /** generate_tracking_response */
  function TrackingResponse(s: State): Result<string> {
    match s.entities
    case None => Failure(ENTITIES_KEY_ERROR)
    case Some(e) =>
      if !HasOrderDetails(e) then Success(TRACKING_NOT_FOUND)
      else
        var m := e.orderDetails.value;
        var head := TrackingHead(Render(Lookup(m, "order_id")), Render(Lookup(m, "product")));
        var status := Lookup(m, "status");
        if status == Some("Delivered") then
          Success(DeliveredReply(head, Render(Lookup(m, "delivered_date"))))
        else if status == Some("Shipped") then
          Success(ShippedReply(head, Render(Lookup(m, "order_date"))))
        else
          Success(OtherReply(head, Render(status), Render(Lookup(m, "order_date"))))
  }

  function DeliveredReply(head: string, deliveredDate: string): string {
    head + DELIVERED_MID + deliveredDate + DELIVERED_TAIL
  }

  function ShippedReply(head: string, orderDate: string): string {
    head + SHIPPED_MID + orderDate + SHIPPED_TAIL
  }

  function OtherReply(head: string, status: string, orderDate: string): string {
    head + OTHER_MID + status + OTHER_PLACED + orderDate + OTHER_TAIL
  }

  const COMPLAINT_HEAD: string := "I'm truly sorry to hear "
    + "about your experience "
    + "with order #"

  const COMPLAINT_TAIL: string :=
    ". Your feedback is "
      + "important to us. I've "
      + "documented your complaint "
      + "and escalated it to our "
      + "quality team. A "
      + "specialist will contact "
      + "you within 24 hours to "
      + "address your concerns. In "
      + "the meantime, is there "
      + "anything I can help "
      + "resolve right now?"

  function ComplaintWithOrder(orderId: string): string {
    COMPLAINT_HEAD + orderId + COMPLAINT_TAIL
  }

  /** generate_complaint_response */
  function ComplaintResponse(s: State): Result<string> {
    match s.entities
    case None => Failure(ENTITIES_KEY_ERROR)
    case Some(e) =>
      if HasOrderDetails(e) then Success(ComplaintWithOrder(Render(Lookup(e.orderDetails.value, "order_id"))))
      else Success(COMPLAINT_WITHOUT_ORDER)
  }

  /** generate_general_response: reads entities, answers a constant. */
  function GeneralResponse(s: State): Result<string> {
    if s.entities.None? then Failure(ENTITIES_KEY_ERROR) else Success(GENERAL_REPLY)
  }

  /** The reply for the state's intent, or None for an unknown or missing intent. */
  function ReplyFor(s: State): Option<Result<string>> {
    if s.intent == Some("refund") then Some(GatedResponse(RefundIntent, s))
    else if s.intent == Some("return") then Some(GatedResponse(ReturnIntent, s))
    else if s.intent == Some("exchange") then Some(GatedResponse(ExchangeIntent, s))
    else if s.intent == Some("order_tracking") then Some(TrackingResponse(s))
    else if s.intent == Some("complaint") then Some(ComplaintResponse(s))
    else if s.intent == Some("technical_issue") then Some(Success(TECHNICAL_REPLY))
    else if s.intent == Some("general_question") then Some(GeneralResponse(s))
    else None
  }

  /** The agent body of resolution_agent. */
  function ResolutionStep(s: State): StepOutcome {
    match ReplyFor(s)
    case None => Ok(s.(phase := Some(HumanHandoff), status := Some(Status.Handoff), reply := Some(UNKNOWN_INTENT_REPLY)))
    case Some(Failure(msg)) => Err(s, msg)
    case Some(Success(r)) => Ok(s.(reply := Some(r), status := Some(Status.Completed), phase := Some(Phase.Completed)))
  }

  /** `resolution_agent`: the dispatcher wrapped by `agent_guard("resolution")`. */
  method ResolutionAgent(d: ConversationDict)
    modifies d
    ensures d.Snapshot() == Guarded("resolution", ResolutionStep, old(d.Snapshot()))
  {
    var proceed := Enter(d, "resolution");
    if !proceed {
      return;
    }
    var reply := ReplyFor(d.Snapshot());
    if reply.None? {
      d.currentState := Some(HumanHandoff);
      d.status := Some(Status.Handoff);
      d.reply := Some(UNKNOWN_INTENT_REPLY);
    } else if reply.value.Failure? {
      Absorb(d, "resolution", Some(reply.value.error));
    } else {
      d.reply := Some(reply.value.value);
      d.status := Some(Status.Completed);
      d.currentState := Some(Phase.Completed);
    }
  }

  // ---------------------------------------------------------------- properties

  lemma ResolutionKeepsAudit()
    ensures KeepsAudit(ResolutionStep)
  {
  }

  /** The dispatcher writes only reply, status and current_state; on an exception it writes nothing. */
  lemma ResolutionFrame(s: State)
    ensures var t := ResolutionStep(s).state;
      t.(phase := s.phase, status := s.status, reply := s.reply) == s
    ensures ResolutionStep(s).Err? ==> ResolutionStep(s).state == s
  {
  }

  /** An intent outside the known set, or none at all, hands off with the human-agent reply. */
  lemma UnknownIntentHandsOff(s: State)
    requires s.intent.None? || s.intent.value !in KNOWN_INTENTS
    ensures ResolutionStep(s) == Ok(s.(phase := Some(HumanHandoff), status := Some(Status.Handoff), reply := Some(UNKNOWN_INTENT_REPLY)))
    ensures Contains(UNKNOWN_INTENT_REPLY, HUMAN_AGENT)
  {
    OccursAfter(UNKNOWN_HEAD, HUMAN_AGENT, " who can better assist you.");
    ContainsAt(UNKNOWN_INTENT_REPLY, HUMAN_AGENT, |UNKNOWN_HEAD|);
  }

  /** The intent string that selects each gated template. */
  function IntentName(k: GatedIntent): string {
    match k
    case RefundIntent => "refund"
    case ReturnIntent => "return"
    case ExchangeIntent => "exchange"
  }

  /**
   * Refund, return and exchange raise exactly when entities is missing, when policy_result
   * is None, or when the policy allows and order_details is None; otherwise the conversation
   * completes with the template reply.
   */
  lemma GatedOutcome(k: GatedIntent, s: State)
    requires s.intent == Some(IntentName(k))
    ensures var fails :=
        || s.entities.None?
        || s.entities.value.policyResult.Null?
        || (s.entities.value.policyResult.Present? && s.entities.value.policyResult.value.allowed
            && s.entities.value.orderDetails.Null?);
      && (fails <==> ResolutionStep(s).Err?)
      && (!fails ==>
            && ResolutionStep(s).state.status == Some(Status.Completed)
            && ResolutionStep(s).state.phase == Some(Phase.Completed)
            && ResolutionStep(s).state.reply == Some(GatedResponse(k, s).value))
  {
  }

  /**
   * Tracking, complaint and general questions raise exactly when entities is missing; a
   * technical issue never raises. Otherwise the conversation completes with a non-empty reply.
   */
  lemma UngatedOutcome(s: State)
    requires s.intent.Some? && s.intent.value in {"order_tracking", "complaint", "technical_issue", "general_question"}
    ensures var fails := s.entities.None? && s.intent.value != "technical_issue";
      && (fails <==> ResolutionStep(s).Err?)
      && (!fails ==>
            && ResolutionStep(s).state.status == Some(Status.Completed)
            && ResolutionStep(s).state.phase == Some(Phase.Completed)
            && Truthy(ResolutionStep(s).state.reply))
  {
  }

  /** The approval names the order id right after "order #", and the product after it. */
  lemma ApprovalNamesOrder(k: GatedIntent, orderId: string, product: string)
    ensures ApprovedHead(k)[|ApprovedHead(k)| - 1] == '#'
    ensures OccursAt(Approved(k, orderId, product), orderId, |ApprovedHead(k)|)
    ensures OccursAt(Approved(k, orderId, product), product, |ApprovedHead(k)| + |orderId| + 2)
  {
    var h, t := ApprovedHead(k), ApprovedTail(k);
    OccursAfter(h, orderId, " (");
    OccursExtend(h + orderId + " (", orderId, |h|, product);
    OccursExtend(h + orderId + " (" + product, orderId, |h|, t);
    OccursAfter(h + orderId + " (", product, t);
  }

  /**
   * Refund, return and exchange: with policy_result (and, when it allows, order_details) usable, the reply is
   * the approval iff the policy allows, and no approval reads like a denial. Otherwise it is
   * the denial with the policy's reason: "Policy requirements not met" when the reason key
   * (or the whole policy_result) is absent, "None" when the reason is present but None.
   */
  lemma GatedReply(k: GatedIntent, s: State)
    requires s.entities.Some?
    requires !s.entities.value.policyResult.Null?
    requires s.entities.value.policyResult.Present? && s.entities.value.policyResult.value.allowed ==> !s.entities.value.orderDetails.Null?
    ensures GatedResponse(k, s).Success?
    ensures var e := s.entities.value;
      var allowed := e.policyResult.Present? && e.policyResult.value.allowed;
      var ids := if e.orderDetails.Present? then e.orderDetails.value else map[];
      && (allowed ==> GatedResponse(k, s).value == Approved(k, Render(Lookup(ids, "order_id")), Render(Lookup(ids, "product"))))
      && (e.policyResult.Missing? ==> GatedResponse(k, s).value == Denied(k, DEFAULT_REASON))
      && (e.policyResult.Present? && !allowed ==>
            && (e.policyResult.value.reason.Missing? ==> GatedResponse(k, s).value == Denied(k, DEFAULT_REASON))
            && (e.policyResult.value.reason.Null? ==> GatedResponse(k, s).value == Denied(k, "None"))
            && (e.policyResult.value.reason.Present? ==>
                  GatedResponse(k, s).value == Denied(k, e.policyResult.value.reason.value)))
    ensures forall orderId, product, reason :: Approved(k, orderId, product) != Denied(k, reason)
  {
    forall orderId, product, reason ensures Approved(k, orderId, product) != Denied(k, reason) {
      ApprovalIsNoDenial(k, orderId, product, reason);
    }
  }

  /** An approval and a denial already differ in their first character. */
  lemma ApprovalIsNoDenial(k: GatedIntent, orderId: string, product: string, reason: string)
    ensures Approved(k, orderId, product) != Denied(k, reason)
  {
    HeadsDiffer(k);
    HeadsDecide(ApprovedHead(k), orderId, product, ApprovedTail(k), DeniedHead(k), reason, DeniedTail(k));
  }

  /** The approvals open with "G" or "Y", the denials with "I". */
  lemma HeadsDiffer(k: GatedIntent)
    ensures |ApprovedHead(k)| > 0 && |DeniedHead(k)| > 0 && ApprovedHead(k)[0] != DeniedHead(k)[0]
  {
  }

  /** Two texts whose heads start differently differ, whatever follows the heads. */
  lemma HeadsDecide(h: string, orderId: string, product: string, t: string, d: string, reason: string, u: string)
    requires |h| > 0 && |d| > 0 && h[0] != d[0]
    ensures h + orderId + " (" + product + t != d + reason + u
  {
    assert (h + orderId + " (" + product + t)[0] == h[0];
    assert (d + reason + u)[0] == d[0];
  }

  /** A complaint reply names the order id iff order_details is truthy. */
  lemma ComplaintNamesOrderIff(s: State)
    requires s.entities.Some?
    ensures ComplaintResponse(s).Success?
    ensures HasOrderDetails(s.entities.value) ==>
      var id := Render(Lookup(s.entities.value.orderDetails.value, "order_id"));
      ComplaintResponse(s).value == ComplaintWithOrder(id) && OccursAt(ComplaintResponse(s).value, id, |COMPLAINT_HEAD|)
    ensures !HasOrderDetails(s.entities.value) ==> ComplaintResponse(s).value == COMPLAINT_WITHOUT_ORDER
    ensures forall id :: ComplaintWithOrder(id) != COMPLAINT_WITHOUT_ORDER
  {
    if HasOrderDetails(s.entities.value) {
      OccursAfter(COMPLAINT_HEAD, Render(Lookup(s.entities.value.orderDetails.value, "order_id")), COMPLAINT_TAIL);
    }
    forall id ensures ComplaintWithOrder(id) != COMPLAINT_WITHOUT_ORDER {
      var c := ComplaintWithOrder(id);
      assert c[|c| - 2] == COMPLAINT_TAIL[|COMPLAINT_TAIL| - 2] == 'w';
      assert COMPLAINT_WITHOUT_ORDER[|COMPLAINT_WITHOUT_ORDER| - 2] == 'u';
    }
  }

  /** The order details a tracking reply is built from, when order_details is truthy. */
  function DetailsOf(s: State): OrderDetails
    requires s.entities.Some? && HasOrderDetails(s.entities.value)
  {
    s.entities.value.orderDetails.value
  }

  /** Tracking without truthy order details: the not-found reply. */
  lemma TrackingNotFound(s: State)
    requires s.entities.Some? && !HasOrderDetails(s.entities.value)
    ensures TrackingResponse(s) == Success(TRACKING_NOT_FOUND)
  {
  }

  /**
   * Tracking with order details: the reply opens with the order id and the product, and
   * then shows the delivery date (Delivered), the order date (Shipped), or the raw status
   * (any other status, "None" when there is none).
   */
  lemma TrackingShowsOrder(s: State)
    requires s.entities.Some? && HasOrderDetails(s.entities.value)
    ensures TrackingResponse(s).Success?
    ensures var m := DetailsOf(s);
      var r := TrackingResponse(s).value;
      var head := TrackingHead(Render(Lookup(m, "order_id")), Render(Lookup(m, "product")));
      var status := Lookup(m, "status");
      && OccursAt(r, head, 0)
      && (status == Some("Delivered") ==> OccursAt(r, Render(Lookup(m, "delivered_date")), |head| + |DELIVERED_MID|))
      && (status == Some("Shipped") ==> OccursAt(r, Render(Lookup(m, "order_date")), |head| + |SHIPPED_MID|))
      && (status != Some("Delivered") && status != Some("Shipped") ==> OccursAt(r, Render(status), |head| + |OTHER_MID|))
  {
    var m := DetailsOf(s);
    var head := TrackingHead(Render(Lookup(m, "order_id")), Render(Lookup(m, "product")));
    var status := Lookup(m, "status");
    if status == Some("Delivered") {
      TrackingParts(head, DELIVERED_MID, Render(Lookup(m, "delivered_date")), DELIVERED_TAIL);
    } else if status == Some("Shipped") {
      TrackingParts(head, SHIPPED_MID, Render(Lookup(m, "order_date")), SHIPPED_TAIL);
    } else {
      OtherReplyParts(head, Render(status), Render(Lookup(m, "order_date")));
    }
  }

  /** The other-status reply opens with the head and shows the raw status after the mid. */
  lemma OtherReplyParts(head: string, x: string, orderDate: string)
    ensures OccursAt(OtherReply(head, x, orderDate), head, 0)
    ensures OccursAt(OtherReply(head, x, orderDate), x, |head| + |OTHER_MID|)
  {
    TrackingParts(head, OTHER_MID, x, OTHER_PLACED);
    var r := head + OTHER_MID + x + OTHER_PLACED;
    OccursExtend(r, head, 0, orderDate);
    OccursExtend(r, x, |head| + |OTHER_MID|, orderDate);
    r := r + orderDate;
    OccursExtend(r, head, 0, OTHER_TAIL);
    OccursExtend(r, x, |head| + |OTHER_MID|, OTHER_TAIL);
  }

  /** The three closing sentences of a tracking reply differ: none is a suffix of another. */
  lemma TrackingTailsDistinct()
    ensures !EndsWith(DELIVERED_TAIL, SHIPPED_TAIL) && !EndsWith(SHIPPED_TAIL, DELIVERED_TAIL)
    ensures !EndsWith(DELIVERED_TAIL, OTHER_TAIL) && !EndsWith(OTHER_TAIL, DELIVERED_TAIL)
    ensures !EndsWith(SHIPPED_TAIL, OTHER_TAIL) && !EndsWith(OTHER_TAIL, SHIPPED_TAIL)
  {
    EndsDiffer(DELIVERED_TAIL, SHIPPED_TAIL, 0);
    EndsDiffer(SHIPPED_TAIL, DELIVERED_TAIL, 0);
    EndsDiffer(DELIVERED_TAIL, OTHER_TAIL, 0);
    EndsDiffer(OTHER_TAIL, DELIVERED_TAIL, 0);
    EndsDiffer(SHIPPED_TAIL, OTHER_TAIL, 1);
    EndsDiffer(OTHER_TAIL, SHIPPED_TAIL, 1);
  }

  /**
   * The order's status selects the reply: "Delivered" closes with the delivery
   * sentence and says "delivered", "Shipped" closes with the transit sentence and says
   * "transit", and every other status closes with the shipping-team sentence; no reply
   * closes with another branch's sentence.
   */
  lemma TrackingClosesByStatus(s: State)
    requires s.entities.Some? && HasOrderDetails(s.entities.value)
    ensures TrackingResponse(s).Success?
    ensures var r := TrackingResponse(s).value;
      var status := Lookup(DetailsOf(s), "status");
      && (status == Some("Delivered") ==>
            EndsWith(r, DELIVERED_TAIL) && !EndsWith(r, SHIPPED_TAIL) && !EndsWith(r, OTHER_TAIL)
            && Contains(r, "delivered"))
      && (status == Some("Shipped") ==>
            EndsWith(r, SHIPPED_TAIL) && !EndsWith(r, DELIVERED_TAIL) && !EndsWith(r, OTHER_TAIL)
            && Contains(r, "transit"))
      && (status != Some("Delivered") && status != Some("Shipped") ==>
            EndsWith(r, OTHER_TAIL) && !EndsWith(r, DELIVERED_TAIL) && !EndsWith(r, SHIPPED_TAIL))
  {
    var m := DetailsOf(s);
    var head := TrackingHead(Render(Lookup(m, "order_id")), Render(Lookup(m, "product")));
    var status := Lookup(m, "status");
    if status == Some("Delivered") {
      DeliveredReplyCloses(head, Render(Lookup(m, "delivered_date")));
      DeliveredReplySays(head, Render(Lookup(m, "delivered_date")));
    } else if status == Some("Shipped") {
      ShippedReplyCloses(head, Render(Lookup(m, "order_date")));
      ShippedReplySays(head, Render(Lookup(m, "order_date")));
    } else {
      OtherReplyCloses(head, Render(status), Render(Lookup(m, "order_date")));
    }
  }

  lemma DeliveredReplyCloses(head: string, date: string)
    ensures var r := DeliveredReply(head, date);
      EndsWith(r, DELIVERED_TAIL) && !EndsWith(r, SHIPPED_TAIL) && !EndsWith(r, OTHER_TAIL)
  {
    TrackingTailsDistinct();
    TrackingClose(head + DELIVERED_MID + date, DELIVERED_TAIL, SHIPPED_TAIL, OTHER_TAIL);
  }

  lemma DeliveredReplySays(head: string, date: string)
    ensures Contains(DeliveredReply(head, date), "delivered")
  {
    TrackingMidWords();
    MidWord(head, DELIVERED_MID, "delivered", 4, date, DELIVERED_TAIL);
  }

  lemma ShippedReplyCloses(head: string, date: string)
    ensures var r := ShippedReply(head, date);
      EndsWith(r, SHIPPED_TAIL) && !EndsWith(r, DELIVERED_TAIL) && !EndsWith(r, OTHER_TAIL)
  {
    TrackingTailsDistinct();
    TrackingClose(head + SHIPPED_MID + date, SHIPPED_TAIL, DELIVERED_TAIL, OTHER_TAIL);
  }

  lemma ShippedReplySays(head: string, date: string)
    ensures Contains(ShippedReply(head, date), "transit")
  {
    TrackingMidWords();
    MidWord(head, SHIPPED_MID, "transit", 16, date, SHIPPED_TAIL);
  }

  lemma OtherReplyCloses(head: string, x: string, date: string)
    ensures var r := OtherReply(head, x, date);
      EndsWith(r, OTHER_TAIL) && !EndsWith(r, DELIVERED_TAIL) && !EndsWith(r, SHIPPED_TAIL)
  {
    TrackingTailsDistinct();
    TrackingClose(head + OTHER_MID + x + OTHER_PLACED + date, OTHER_TAIL, DELIVERED_TAIL, SHIPPED_TAIL);
  }

  /** p + t ends with t and, when neither other tail ends t or is ended by it, with neither. */
  lemma TrackingClose(p: string, t: string, u: string, v: string)
    requires !EndsWith(t, u) && !EndsWith(u, t) && !EndsWith(t, v) && !EndsWith(v, t)
    ensures EndsWith(p + t, t) && !EndsWith(p + t, u) && !EndsWith(p + t, v)
  {
    EndsWithAppend(p, t);
    if EndsWith(p + t, u) {
      if |u| <= |t| { EndsWithBoth(p + t, t, u); } else { EndsWithBoth(p + t, u, t); }
    }
    if EndsWith(p + t, v) {
      if |v| <= |t| { EndsWithBoth(p + t, t, v); } else { EndsWithBoth(p + t, v, t); }
    }
  }

  /** Where the words "delivered" and "transit" sit in the middle pieces. */
  lemma TrackingMidWords()
    ensures OccursAt(DELIVERED_MID, "delivered", 4)
    ensures OccursAt(SHIPPED_MID, "transit", 16)
  {
  }

  /** A word inside the middle piece of head + mid + x + t is contained in the whole. */
  lemma MidWord(head: string, mid: string, w: string, i: nat, x: string, t: string)
    requires OccursAt(mid, w, i)
    ensures Contains(head + mid + x + t, w)
  {
    OccursShift(head, mid, w, i);
    OccursExtend(head + mid, w, |head| + i, x);
    OccursExtend(head + mid + x, w, |head| + i, t);
    ContainsAt(head + mid + x + t, w, |head| + i);
  }

  /** In head + mid + x + rest, the head opens the string and x follows the mid. */
  lemma TrackingParts(head: string, mid: string, x: string, rest: string)
    ensures OccursAt(head + mid + x + rest, head, 0)
    ensures OccursAt(head + mid + x + rest, x, |head| + |mid|)
  {
    OccursPrefix(head, mid);
    OccursExtend(head + mid, head, 0, x);
    OccursExtend(head + mid + x, head, 0, rest);
    OccursAfter(head + mid, x, rest);
  }

  /** Technical-issue and general replies do not depend on the rest of the state. */
  lemma ConstantReplies(s: State, s': State)
    requires s.intent == s'.intent == Some("technical_issue") || (s.intent == s'.intent == Some("general_question") && s.entities.Some? && s'.entities.Some?)
    ensures ResolutionStep(s).state.reply == ResolutionStep(s').state.reply
    ensures Truthy(ResolutionStep(s).state.reply)
  {
  }

  /** An allowed refund with order_details present but None raises, and the guard hands off. */
  lemma AllowedWithNullOrderHandsOff(s: State)
    requires Count(s, "resolution") < MAX_AGENT_CALLS
    requires s.intent == Some("refund")
    requires s.entities.Some? && s.entities.value.orderDetails.Null?
    requires s.entities.value.policyResult.Present? && s.entities.value.policyResult.value.allowed
    ensures var r := Guarded("resolution", ResolutionStep, s);
      && r.phase == Some(HumanHandoff) && r.status == Some(Status.Handoff)
      && r.lastError == Some(ErrorMessage("resolution", NONE_GET_ERROR))
  {
  }
}
