/**
 * The rule-based resolution agent behind the `/resolve` endpoint
 * (backend/app/agents/resolution/core/llm/Resolution_agent_llm.py): one decision per intent
 * and policy flags, with a prepaid label generated for an approved return or exchange.
 *
 * The label generator writes a PDF and returns its file name; it is a parameter here, and
 * the result records the one call made to it, if any.
 */
module ResolutionLlm {
  import opened Wrappers
  import opened Text

  /** A size as the agent may find it: absent, a number or a text. */
  datatype SizeValue = NoSize | SizeNumber(n: int) | SizeText(s: string)

  /** ResolutionInput, with the size the agent reads (see LabelRequest and RunAgentAsWritten). */
  datatype Input = Input(
    orderId: string,
    intent: Option<string>,
    product: Option<string>,
    size: SizeValue,
    amount: Option<int>,
    exchangeAllowed: Option<bool>,
    cancelAllowed: Option<bool>,
    reason: Option<string>,
    status: Option<string>)

  /** The arguments of one `generate_return_label` call. */
  datatype LabelRequest = LabelRequest(orderId: string, product: string, size: SizeValue)

  /**
   * The returned dictionary. `orderId` and `status` are None where the key is absent (only the
   * informational answers carry them); the other keys are always present, None meaning None.
   */
  datatype Resolution = Resolution(
    action: string,
    message: string,
    orderId: Option<string>,
    status: Option<string>,
    returnLabelUrl: Option<string>,
    refundAmount: Option<int>,
    reason: Option<string>)

  /** The agent's answer and the label generator call it made. */
  datatype Run = Run(result: Resolution, labelCall: Option<LabelRequest>)

  const LABEL_BASE: string := "http://localhost:8000/labels/"

  /** An optional flag as a Python condition: only True passes. */
  predicate Truthy(b: Option<bool>) { b == Some(true) }

  /** `x or default` for an optional string. */
  function OrDefault(s: Option<string>, default: string): (r: string)
    ensures s.None? || s.value == "" ==> r == default
    ensures s.Some? && s.value != "" ==> r == s.value
  {
    if s.None? || s.value == "" then default else s.value
  }

  /** An optional value inside an f-string: None prints as "None". */
  function ShowText(s: Option<string>): string {
    if s.None? then "None" else s.value
  }

  function ShowAmount(a: Option<int>): string {
    if a.None? then "None" else IntToString(a.value)
  }

  /** Line 20: the size shown to the customer, "N/A" for None, 0 or "0". */
  function ShownSize(size: SizeValue): (r: string)
    ensures size == NoSize || size == SizeNumber(0) || size == SizeText("0") ==> r == "N/A"
    ensures size.SizeNumber? && size.n != 0 ==> r == IntToString(size.n)
    ensures size.SizeText? && size.s != "0" ==> r == size.s
  {
    match size
    case NoSize => "N/A"
    case SizeNumber(n) => if n == 0 then "N/A" else IntToString(n)
    case SizeText(s) => if s == "0" then "N/A" else s
  }

  // ---------------------------------------------------------------- messages

  function TrackingMessage(id: string, status: string): string {
    "\U{1F4E6} Order "
      + "Update\n\nYour order **#" + id + "** is currently **" + status
      + "**.\nIf you need further "
      + "help, I'm here for you!"
  }

  function ComplaintMessage(id: string): string {
    "\U{1F64F} We're sorry for "
      + "the "
      + "inconvenience.\n\nYour "
      + "complaint for order **#" + id
      + "** has been "
      + "registered.\nOur support "
      + "team will review and get "
      + "back to you shortly."
  }

  function TechnicalMessage(id: string): string {
    "\U{1F6E0}\U{FE0F} "
      + "Technical Issue "
      + "Logged\n\nWe've received "
      + "your issue for order **#" + id
      + "**.\nOur technical team "
      + "will investigate and "
      + "update you soon."
  }

  function CancelDeniedMessage(id: string, reason: Option<string>): string {
    "\U{274C} "
      + "Refund/Cancellation Not "
      + "Allowed\n\nOrder **#" + id + "** is not eligible.\nReason: "
      + ShowText(reason)
  }

  function ReturnDeniedMessage(id: string, reason: Option<string>): string {
    "\U{274C} Return Not "
      + "Allowed\n\nOrder **#" + id + "** is not eligible for "
      + "return.\nReason: "
      + ShowText(reason)
  }

  function ExchangeDeniedMessage(id: string, reason: Option<string>): string {
    "\U{274C} Exchange Not "
      + "Allowed\n\nOrder **#" + id + "** is not eligible for "
      + "exchange.\nReason: "
      + ShowText(reason)
  }

  /** The product and order lines of an approval. */
  function DetailsHead(product: string, id: string): string {
    "\U{1F4E6} Product: " + product + "\n\U{1F522} Order ID: " + id
  }

  /** The size line of an approval, with the line breaks around it. */
  function SizeLine(size: string): string {
    "\n\U{1F4CF} Size: " + size + "\n"
  }

  const DETAILS_TAIL: string :=
    "\n\U{1F4C4} A prepaid "
      + "return label has been "
      + "generated.\n"

  /** The product, order and size lines of an approval. */
  function ApprovalDetails(product: string, id: string, size: string): string {
    DetailsHead(product, id) + SizeLine(size) + DETAILS_TAIL
  }

  const RETURN_APPROVED_HEAD: string :=
    "\U{2705} Your return "
      + "request has been "
      + "approved!\n\n"

  const RETURN_APPROVED_TAIL: string :=
    "Please print the label "
      + "and ship the item "
      + "back.\n\U{1F4B0} Refund "
      + "will be processed after "
      + "inspection."

  function ReturnApprovedMessage(product: string, id: string, size: string): string {
    RETURN_APPROVED_HEAD + ApprovalDetails(product, id, size) + RETURN_APPROVED_TAIL
  }

  const EXCHANGE_APPROVED_HEAD: string :=
    "\U{2705} Your exchange "
      + "request has been "
      + "approved!\n\n"

  const LINK_HEAD: string :=
    "\n\U{1F4C4} Download your "
      + "label here:[**Download "
      + "Label**]("

  const LINK_TAIL: string :=
    ")\n\nPlease send the "
      + "original item "
      + "back.\n\n\U{1F501} Once "
      + "received, we will ship "
      + "your replacement item.\n\n"

  /** The download line of an exchange approval and the instructions after it. */
  function LabelLink(url: string): string {
    LINK_HEAD + url + LINK_TAIL
  }

  function ExchangeApprovedMessage(product: string, id: string, size: string, url: string): string {
    EXCHANGE_APPROVED_HEAD + ApprovalDetails(product, id, size) + LabelLink(url)
  }

  function CancelMessage(id: string, amount: Option<int>): string {
    "\U{1F4B0} Refund "
      + "Initiated\n\nYour order "
      + "**#" + id + "** has been "
      + "cancelled.\nRefund of "
      + "**\U{20B9}"
      + ShowAmount(amount) + "** will be processed shortly."
  }

  function FallbackMessage(intent: string, id: string): string {
    "\U{26A0}\U{FE0F} Unable "
      + "to process request\n\n" + Capitalize(intent)
      + " cannot be completed for "
      + "order **#" + id + "**."
  }

  // ---------------------------------------------------------------- the agent

  /** `run_agent_llm`, with the size as an input. */
  function RunAgent(data: Input, labelFile: LabelRequest -> string): Run {
    var intent := Lower(data.intent.GetOr(""));
    var id := data.orderId;
    var product := OrDefault(data.product, "the product");
    var status := OrDefault(data.status, "processing");
    if intent == "order_tracking" then
      Run(Resolution("order_tracking", TrackingMessage(id, status), Some(id), Some(status), None, None, None), None)
    else if intent == "complaint" then
      Run(Resolution("complaint", ComplaintMessage(id), Some(id), None, None, None, data.reason), None)
    else if intent == "technical_issue" then
      Run(Resolution("technical_issue", TechnicalMessage(id), Some(id), None, None, None, data.reason), None)
    else if (intent == "cancel" || intent == "refund") && !Truthy(data.cancelAllowed) then
      Run(Resolution("deny", CancelDeniedMessage(id, data.reason), None, None, None, None, data.reason), None)
    else if intent == "return" && !Truthy(data.exchangeAllowed) then
      Run(Resolution("return_deny", ReturnDeniedMessage(id, data.reason), None, None, None, None, data.reason), None)
    else if intent == "return" then
      var request := LabelRequest(id, product, data.size);
      var url := LABEL_BASE + labelFile(request);
      Run(Resolution("return", ReturnApprovedMessage(product, id, ShownSize(data.size)), None, None, Some(url), None, None),
          Some(request))
    else if intent == "exchange" && !Truthy(data.exchangeAllowed) then
      Run(Resolution("exchange_deny", ExchangeDeniedMessage(id, data.reason), None, None, None, None, data.reason), None)
    else if intent == "exchange" then
      var request := LabelRequest(id, product, data.size);
      var url := LABEL_BASE + labelFile(request);
      Run(Resolution("exchange", ExchangeApprovedMessage(product, id, ShownSize(data.size), url), None, None, Some(url), None, None),
          Some(request))
    else if intent == "cancel" || intent == "refund" then
      Run(Resolution("cancel", CancelMessage(id, data.amount), None, None, None, data.amount, None), None)
    else
      Run(Resolution("deny", FallbackMessage(intent, id), None, None, None, None, data.reason), None)
  }

  // ---------------------------------------------------------------- as written

  /** ResolutionInput as declared in backend/app/agents/resolution/app/schemas/model.py: there is no size. */
  datatype DeclaredInput = DeclaredInput(
    orderId: string,
    intent: Option<string>,
    product: Option<string>,
    amount: Option<int>,
    exchangeAllowed: Option<bool>,
    cancelAllowed: Option<bool>,
    reason: Option<string>,
    status: Option<string>)

  const SIZE_ATTRIBUTE_ERROR: string := "'ResolutionInput' object "
    + "has no attribute 'size'"

  /** `data.size` on the declared model: the attribute does not exist. */
  function SizeAttribute(data: DeclaredInput): Result<SizeValue> {
    Failure(SIZE_ATTRIBUTE_ERROR)
  }

  /** The declared input with a size added. */
  function WithSize(data: DeclaredInput, size: SizeValue): Input {
    Input(data.orderId, data.intent, data.product, size, data.amount, data.exchangeAllowed,
          data.cancelAllowed, data.reason, data.status)
  }

  /** `run_agent_llm` as written: line 20 reads `data.size` before any intent is looked at. */
  function RunAgentAsWritten(data: DeclaredInput, labelFile: LabelRequest -> string): Result<Run> {
    match SizeAttribute(data)
    case Failure(e) => Failure(e)
    case Success(size) => Success(RunAgent(WithSize(data, size), labelFile))
  }

  /** The refund request of the agent's own tests (tests/backend/test_resolution_llm.py). */
  const REFUND_REQUEST: DeclaredInput :=
    DeclaredInput("123", Some("refund"), Some("Test Product"), Some(100), None, Some(true), None, None)

  /** As written, every call fails on line 20, whatever the intent and flags. */
  lemma AsWrittenAlwaysFails(data: DeclaredInput, labelFile: LabelRequest -> string)
    ensures RunAgentAsWritten(data, labelFile) == Failure(SIZE_ATTRIBUTE_ERROR)
  { }

  /** The tests' refund request: as written it fails; read with no size it is carried out for 100. */
  lemma RefundRequestExample(labelFile: LabelRequest -> string)
    ensures RunAgentAsWritten(REFUND_REQUEST, labelFile).Failure?
    ensures RunAgent(WithSize(REFUND_REQUEST, NoSize), labelFile).result.action == "cancel"
    ensures RunAgent(WithSize(REFUND_REQUEST, NoSize), labelFile).result.refundAmount == Some(100)
  {
    LowerUncapitalised("refund");
  }

  // ---------------------------------------------------------------- properties

  /** The intent as compared: lower-cased, "" when absent. */
  function IntentOf(data: Input): string {
    Lower(data.intent.GetOr(""))
  }

  /**
   * Tracking, complaints and technical issues are answered whatever the policy flags say,
   * with the order id, no label and no refund; tracking reports the status, "processing"
   * when none is known.
   */
  lemma InformationalAnswers(data: Input, labelFile: LabelRequest -> string)
    requires IntentOf(data) == "order_tracking" || IntentOf(data) == "complaint" || IntentOf(data) == "technical_issue"
    ensures var r := RunAgent(data, labelFile);
      r.result.action == IntentOf(data) && r.result.orderId == Some(data.orderId)
      && r.result.returnLabelUrl.None? && r.result.refundAmount.None? && r.labelCall.None?
    ensures IntentOf(data) == "order_tracking" ==>
      RunAgent(data, labelFile).result.status == Some(if data.status.None? || data.status.value == "" then "processing" else data.status.value)
    ensures forall e, c :: RunAgent(data.(exchangeAllowed := e, cancelAllowed := c), labelFile) == RunAgent(data, labelFile)
  { }

  /**
   * A cancellation or refund is carried out, for the order's amount, exactly when cancellation
   * is allowed; otherwise it is denied with the policy's reason. No label either way.
   */
  lemma CancelOrRefund(data: Input, labelFile: LabelRequest -> string)
    requires IntentOf(data) == "cancel" || IntentOf(data) == "refund"
    ensures var r := RunAgent(data, labelFile).result;
      r.action == (if Truthy(data.cancelAllowed) then "cancel" else "deny")
      && r.returnLabelUrl.None? && RunAgent(data, labelFile).labelCall.None?
    ensures var r := RunAgent(data, labelFile).result;
      Truthy(data.cancelAllowed) ==> r.refundAmount == data.amount && r.reason.None?
    ensures var r := RunAgent(data, labelFile).result;
      !Truthy(data.cancelAllowed) ==> r.refundAmount.None? && r.reason == data.reason
                                      && EndsWith(r.message, ShowText(data.reason))
  {
    if !Truthy(data.cancelAllowed) {
      var m := RunAgent(data, labelFile).result.message;
      var w := ShowText(data.reason);
      assert m[|m| - |w|..] == w;
    }
  }

  /**
   * A return or exchange is approved exactly when exchange is allowed. An approval generates
   * one label for the order, the product (or "the product") and the size, and links to it.
   */
  lemma ReturnOrExchangeApproved(data: Input, labelFile: LabelRequest -> string)
    requires IntentOf(data) == "return" || IntentOf(data) == "exchange"
    requires Truthy(data.exchangeAllowed)
    ensures var run := RunAgent(data, labelFile);
      run.result.action == IntentOf(data) && run.result.refundAmount.None? && run.result.reason.None?
      && run.labelCall == Some(LabelRequest(
           data.orderId,
           if data.product.None? || data.product.value == "" then "the product" else data.product.value,
           data.size))
      && run.result.returnLabelUrl == Some(LABEL_BASE + labelFile(run.labelCall.value))
  { }

  /** The name `generate_return_label` gives the label file it writes. */
  function LabelFileName(request: LabelRequest): string {
    "return_label_" + request.orderId + ".pdf"
  }

  /** With the label service's own file name, an approval links to the label of its order. */
  lemma ApprovedLabelUrl(data: Input)
    requires IntentOf(data) == "return" || IntentOf(data) == "exchange"
    requires Truthy(data.exchangeAllowed)
    ensures RunAgent(data, LabelFileName).result.returnLabelUrl
      == Some(LABEL_BASE + "return_label_" + data.orderId + ".pdf")
  {
    ReturnOrExchangeApproved(data, LabelFileName);
    UrlOfName(LABEL_BASE, "return_label_", data.orderId, ".pdf");
  }

  /** The link is the base followed by the file name, however the pieces are grouped. */
  lemma UrlOfName(base: string, prefix: string, id: string, suffix: string)
    ensures base + (prefix + id + suffix) == base + prefix + id + suffix
  {
  }

  /** Without the exchange flag a return or exchange is denied with the policy's reason, and no label is made. */
  lemma ReturnOrExchangeDenied(data: Input, labelFile: LabelRequest -> string)
    requires IntentOf(data) == "return" || IntentOf(data) == "exchange"
    requires !Truthy(data.exchangeAllowed)
    ensures var run := RunAgent(data, labelFile);
      run.result.action == IntentOf(data) + "_deny" && run.result.refundAmount.None?
      && run.labelCall.None? && run.result.returnLabelUrl.None? && run.result.reason == data.reason
      && EndsWith(run.result.message, ShowText(data.reason))
  {
    var m := RunAgent(data, labelFile).result.message;
    var w := ShowText(data.reason);
    assert m[|m| - |w|..] == w;
  }

  /** Any other intent, an absent one included, is denied with the policy's reason. */
  lemma OtherIntentsDenied(data: Input, labelFile: LabelRequest -> string)
    requires IntentOf(data) !in {"order_tracking", "complaint", "technical_issue", "cancel", "refund", "return", "exchange"}
    ensures var run := RunAgent(data, labelFile);
      run.result.action == "deny" && run.result.reason == data.reason
      && run.labelCall.None? && run.result.returnLabelUrl.None? && run.result.refundAmount.None?
  { }

  /**
   * The label generator is called exactly for an approved return or exchange; a label link
   * comes exactly with that call, and a refund amount only with a cancellation.
   */
  lemma LabelsOnlyOnApproval(data: Input, labelFile: LabelRequest -> string)
    ensures var run := RunAgent(data, labelFile);
      (run.labelCall.Some? <==> run.result.action == "return" || run.result.action == "exchange")
      && (run.labelCall.Some? <==> (IntentOf(data) == "return" || IntentOf(data) == "exchange") && Truthy(data.exchangeAllowed))
      && (run.result.returnLabelUrl.Some? <==> run.labelCall.Some?)
      && (run.result.refundAmount.Some? ==> run.result.action == "cancel")
  { }

  /** Intents are compared without regard to case. */
  lemma IntentCaseInsensitive(data: Input, other: string, labelFile: LabelRequest -> string)
    requires data.intent.Some? && Lower(other) == Lower(data.intent.value)
    ensures RunAgent(data.(intent := Some(other)), labelFile) == RunAgent(data, labelFile)
  { }

  /** The exchange approval message links the label it names. */
  lemma ExchangeMessageLinks(product: string, id: string, size: string, url: string)
    ensures Contains(ExchangeApprovedMessage(product, id, size, url), url)
  {
    var head := EXCHANGE_APPROVED_HEAD + ApprovalDetails(product, id, size);
    OccursAfter(LINK_HEAD, url, LINK_TAIL);
    OccursShift(head, LabelLink(url), url, |LINK_HEAD|);
    ContainsAt(head + LabelLink(url), url, |head| + |LINK_HEAD|);
  }

  /** Both approval messages show the size line they are given. */
  lemma ApprovalsShowSizeLine(product: string, id: string, size: string, url: string)
    ensures Contains(ReturnApprovedMessage(product, id, size), SizeLine(size))
    ensures Contains(ExchangeApprovedMessage(product, id, size, url), SizeLine(size))
  {
    var d := ApprovalDetails(product, id, size);
    OccursAfter(DetailsHead(product, id), SizeLine(size), DETAILS_TAIL);
    ContainsInside(RETURN_APPROVED_HEAD, d, SizeLine(size), |DetailsHead(product, id)|, RETURN_APPROVED_TAIL);
    ContainsInside(EXCHANGE_APPROVED_HEAD, d, SizeLine(size), |DetailsHead(product, id)|, LabelLink(url));
  }

  /**
   * An approved return or exchange shows the customer's size on its own line, and "N/A" when
   * the size is None, 0 or "0".
   */
  lemma ApprovalShowsSize(data: Input, labelFile: LabelRequest -> string)
    requires IntentOf(data) == "return" || IntentOf(data) == "exchange"
    requires Truthy(data.exchangeAllowed)
    ensures var m := RunAgent(data, labelFile).result.message;
      && (data.size == NoSize || data.size == SizeNumber(0) || data.size == SizeText("0") ==>
            Contains(m, SizeLine("N/A")))
      && (data.size.SizeNumber? && data.size.n != 0 ==>
            Contains(m, SizeLine(IntToString(data.size.n))))
      && (data.size.SizeText? && data.size.s != "0" ==>
            Contains(m, SizeLine(data.size.s)))
  {
    var product := OrDefault(data.product, "the product");
    var url := LABEL_BASE + labelFile(LabelRequest(data.orderId, product, data.size));
    if IntentOf(data) == "return" {
      ApprovedReturnMessage(data, labelFile);
    } else {
      ApprovedExchangeMessage(data, labelFile);
    }
    ApprovalsShowSizeLine(product, data.orderId, ShownSize(data.size), url);
  }

  /** The message of an approved return, with the size as shown. */
  lemma ApprovedReturnMessage(data: Input, labelFile: LabelRequest -> string)
    requires IntentOf(data) == "return" && Truthy(data.exchangeAllowed)
    ensures RunAgent(data, labelFile).result.message
      == ReturnApprovedMessage(OrDefault(data.product, "the product"), data.orderId, ShownSize(data.size))
  {
  }

  /** The message of an approved exchange, with the size as shown and the label's link. */
  lemma ApprovedExchangeMessage(data: Input, labelFile: LabelRequest -> string)
    requires IntentOf(data) == "exchange" && Truthy(data.exchangeAllowed)
    ensures var product := OrDefault(data.product, "the product");
      RunAgent(data, labelFile).result.message
        == ExchangeApprovedMessage(product, data.orderId, ShownSize(data.size),
                                   LABEL_BASE + labelFile(LabelRequest(data.orderId, product, data.size)))
  {
  }

  /** An approved exchange links the generated label in its message. */
  lemma ExchangeApprovalLinksLabel(data: Input, labelFile: LabelRequest -> string)
    requires IntentOf(data) == "exchange" && Truthy(data.exchangeAllowed)
    ensures var r := RunAgent(data, labelFile).result;
      r.returnLabelUrl.Some? && Contains(r.message, r.returnLabelUrl.value)
  {
    var product := OrDefault(data.product, "the product");
    var url := LABEL_BASE + labelFile(LabelRequest(data.orderId, product, data.size));
    ExchangeMessageLinks(product, data.orderId, ShownSize(data.size), url);
  }
}
