/**
 * Order-aware policy evaluation (backend/app/agents/policy/app/rag/policy_evaluator.py):
 * the day window read from the policy text, the cancellation and exchange/return
 * decision tables, the evaluation output, and the query sent to the policy search.
 *
 * Dates are day numbers. The calendar (`today`, parsing "YYYY-MM-DD" text and formatting a
 * day number back) is a parameter: the clock and the date library are not modelled.
 */
module PolicyEvaluator {
  import opened Wrappers
  import opened Text

  /** `self.today`, `datetime.strptime(s, "%Y-%m-%d")` and `strftime("%Y-%m-%d")` as day numbers. */
  datatype Calendar = Calendar(today: int, parse: string -> Option<int>, format: int -> string)

  /** The OrderDetails fields the evaluator reads. */
  datatype Order = Order(orderId: int, product: string, orderDate: string, deliveredDate: Option<string>, status: string)

  /** A (bool, reason) pair. */
  datatype Decision = Decision(allowed: bool, reason: string)

  /** PolicyEvaluationOutput */
  datatype Evaluation = Evaluation(policy: string, exchangeAllowed: bool, cancelAllowed: bool, reason: string)

  // ---------------------------------------------------------------- dates

  /** A date argument the code treats as absent: None, empty, or "none" in any case. */
  predicate NoDate(d: Option<string>) {
    d.None? || d.value == "" || Lower(d.value) == "none"
  }

  /** `_parse_date` */
  function ParseDate(cal: Calendar, s: string): Option<int> {
    if s == "" || Lower(s) == "none" then None else cal.parse(s)
  }

  /** `_calculate_days_since_delivery` */
  function DaysSinceDelivery(cal: Calendar, d: Option<string>): Option<int> {
    if NoDate(d) then None
    else
      match ParseDate(cal, d.value)
      case None => None
      case Some(t) => Some(cal.today - t)
  }

  /** `_calculate_days_since_order`: 0 when the date does not parse. */
  function DaysSinceOrder(cal: Calendar, d: string): int {
    match ParseDate(cal, d)
    case None => 0
    case Some(t) => cal.today - t
  }

  // ---------------------------------------------------------------- the day window

  /** The four patterns of `_extract_days_from_policy`, in the order they are tried. */
  datatype DayPattern =
    | WithinDays   // within\s+(\d+)\s+days
    | DaysOf       // (\d+)\s+days?\s+(?:of|from|after)
    | DashDay      // (\d+)-day
    | UpToDays     // up\s+to\s+(\d+)\s+days

  const PATTERNS: seq<DayPattern> := [WithinDays, DaysOf, DashDay, UpToDays]

  /** The captured group: s[start..end]. */
  datatype Span = Span(start: nat, end: nat)

  /** The end of the run of \s characters starting at i. */
  function SpaceEnd(s: string, i: nat): (j: nat)
    requires i <= |s|
    ensures i <= j <= |s|
    ensures forall k :: i <= k < j ==> IsSpace(s[k])
    ensures j < |s| ==> !IsSpace(s[j])
    decreases |s| - i
  {
    if i < |s| && IsSpace(s[i]) then SpaceEnd(s, i + 1) else i
  }

  /** The end of the run of \d characters starting at i. */
  function DigitEnd(s: string, i: nat): (j: nat)
    requires i <= |s|
    ensures i <= j <= |s|
    ensures forall k :: i <= k < j ==> IsDigit(s[k])
    ensures j < |s| ==> !IsDigit(s[j])
    decreases |s| - i
  {
    if i < |s| && IsDigit(s[i]) then DigitEnd(s, i + 1) else i
  }

  /** A captured group: a non-empty run of digits of s at or after i. */
  predicate DigitGroup(s: string, i: nat, r: Option<Span>) {
    r.Some? ==> i <= r.value.start < r.value.end <= |s|
                && forall k :: r.value.start <= k < r.value.end ==> IsDigit(s[k])
  }

  /** `within\s+(\d+)\s+days` matched at i. */
  function WithinAt(s: string, i: nat): (r: Option<Span>)
    requires i <= |s|
    ensures DigitGroup(s, i, r)
  {
    if !OccursAt(s, "within", i) then None
    else
      var a := SpaceEnd(s, i + 6);
      var b := DigitEnd(s, a);
      var c := SpaceEnd(s, b);
      if i + 6 < a && a < b && b < c && OccursAt(s, "days", c) then Some(Span(a, b)) else None
  }

  /** `(\d+)\s+days?\s+(?:of|from|after)` matched at i. */
  function DaysOfAt(s: string, i: nat): (r: Option<Span>)
    requires i <= |s|
    ensures DigitGroup(s, i, r)
  {
    var b := DigitEnd(s, i);
    var c := SpaceEnd(s, b);
    if i < b && b < c && OccursAt(s, "day", c) then
      var e := if c + 3 < |s| && s[c + 3] == 's' then c + 4 else c + 3;
      var f := SpaceEnd(s, e);
      if e < f && (OccursAt(s, "of", f) || OccursAt(s, "from", f) || OccursAt(s, "after", f))
      then Some(Span(i, b)) else None
    else None
  }

  /** `(\d+)-day` matched at i. */
  function DashDayAt(s: string, i: nat): (r: Option<Span>)
    requires i <= |s|
    ensures DigitGroup(s, i, r)
  {
    var b := DigitEnd(s, i);
    if i < b && OccursAt(s, "-day", b) then Some(Span(i, b)) else None
  }

  /** `up\s+to\s+(\d+)\s+days` matched at i. */
  function UpToAt(s: string, i: nat): (r: Option<Span>)
    requires i <= |s|
    ensures DigitGroup(s, i, r)
  {
    if !OccursAt(s, "up", i) then None
    else
      var a := SpaceEnd(s, i + 2);
      if i + 2 < a && OccursAt(s, "to", a) then
        var b := SpaceEnd(s, a + 2);
        var c := DigitEnd(s, b);
        var d := SpaceEnd(s, c);
        if a + 2 < b && b < c && c < d && OccursAt(s, "days", d) then Some(Span(b, c)) else None
      else None
  }

  /**
   * The group captured by a match of p starting exactly at i. Each \s+ and \d+ of the
   * patterns is followed by a character it cannot consume, so the greedy runs never give
   * anything back and the match at i is unique.
   */
  function CaptureAt(p: DayPattern, s: string, i: nat): (r: Option<Span>)
    requires i <= |s|
    ensures DigitGroup(s, i, r)
  {
    match p
    case WithinDays => WithinAt(s, i)
    case DaysOf => DaysOfAt(s, i)
    case DashDay => DashDayAt(s, i)
    case UpToDays => UpToAt(s, i)
  }

  /** `re.search(p, s)` from position i on: the match starting at the smallest position. */
  function Search(p: DayPattern, s: string, i: nat): (r: Option<Span>)
    requires i <= |s|
    ensures DigitGroup(s, i, r)
    decreases |s| - i
  {
    match CaptureAt(p, s, i)
    case Some(sp) => Some(sp)
    case None => if i == |s| then None else Search(p, s, i + 1)
  }

  /** The first pattern of ps that matches s, and its first match. */
  function FirstMatch(ps: seq<DayPattern>, s: string): (r: Option<Span>)
    ensures DigitGroup(s, 0, r)
    decreases |ps|
  {
    if ps == [] then None
    else
      match Search(ps[0], s, 0)
      case Some(sp) => Some(sp)
      case None => FirstMatch(ps[1..], s)
  }

  /** `_extract_days_from_policy`: the first pattern's number, on the lower-cased text, else 7. */
  function ExtractDays(policyText: string): nat {
    var t := Lower(policyText);
    match FirstMatch(PATTERNS, t)
    case None => 7
    case Some(sp) => DigitsValue(t[sp.start..sp.end])
  }

  // ---------------------------------------------------------------- cancellation

  const CANCEL_DELIVERED: string :=
    "Order has already been "
      + "delivered. Cancellation "
      + "is not possible after "
      + "delivery."
  const CANCEL_CANCELLED: string := "Order is already cancelled."
  const CANCEL_PROCESSING: string := "Order is still being "
    + "processed and can be "
    + "cancelled."
  const CANCEL_SHIPPED_FORBIDDEN: string :=
    "Order has been shipped. "
      + "Our policy does not allow "
      + "cancellation once an "
      + "order is shipped."
  const CANCEL_SHIPPED_ALLOWED: string :=
    "Order has been shipped "
      + "but can still be "
      + "cancelled as per our "
      + "policy."
  const CANCEL_SHIPPED_DEFAULT: string :=
    "Order has been shipped. "
      + "Cancellation is typically "
      + "not possible once an "
      + "order is in transit."
  const CANCEL_DEFAULT: string := "Order can be cancelled as "
    + "it has not been delivered "
    + "yet."

  /** The policy text speaks about cancelling shipped orders without forbidding it. */
  predicate ShippedCancellable(policyText: string) {
    var t := Lower(policyText);
    Contains(t, "cancel") && Contains(t, "shipped") && !Contains(t, "cannot") && !Contains(t, "not allowed")
  }

  /** `_can_cancel_order`; order_date is not read. */
  function CanCancel(status: string, orderDate: string, policyText: string): Decision {
    var s := Lower(status);
    if s == "delivered" then Decision(false, CANCEL_DELIVERED)
    else if s == "cancelled" then Decision(false, CANCEL_CANCELLED)
    else if s == "processing" || s == "pending" then Decision(true, CANCEL_PROCESSING)
    else if s == "shipped" then
      var t := Lower(policyText);
      if Contains(t, "cancel") && Contains(t, "shipped") then
        if Contains(t, "cannot") || Contains(t, "not allowed") then Decision(false, CANCEL_SHIPPED_FORBIDDEN)
        else Decision(true, CANCEL_SHIPPED_ALLOWED)
      else Decision(false, CANCEL_SHIPPED_DEFAULT)
    else Decision(true, CANCEL_DEFAULT)
  }

  // ---------------------------------------------------------------- exchange and return

  /** Refusal for an order that is not marked delivered and carries no delivery date. */
  function NotDeliveredReason(status: string, action: string): string {
    "Order has not been "
      + "delivered yet (current "
      + "status: " + status + "). "
      + Title(action) + " is only possible after "
      + "delivery."
  }

  /** Refusal when no delivery day can be computed. */
  function NoDeliveryDayReason(action: string): string {
    "Order has not been "
      + "delivered yet. " + Title(action) + " is only available after "
      + "delivery."
  }

  /** Acceptance inside the window: the days left are the window minus the days since delivery. */
  function WithinReason(days: int, window: int, action: string): string {
    "Item was delivered " + IntToString(days) + " days ago. " + Title(action)
      + " is allowed within " + IntToString(window) + " days of delivery. You have "
      + IntToString(window - days) + " days remaining."
  }

  /** Refusal past the window, naming the day the window closed. */
  function ExpiredReason(days: int, date: string, window: int, action: string, expiry: string): string {
    "Item was delivered " + IntToString(days) + " days ago (on " + date + "). Our policy allows "
      + action + " only within " + IntToString(window) + " days of delivery. The " + action
      + " period expired on " + expiry + "."
  }

  /** Refusal past the window when the delivery date no longer parses. */
  function ExpiredUndatedReason(days: int, window: int, action: string): string {
    "Item was delivered " + IntToString(days) + " days ago. Our policy allows " + action
      + " only within " + IntToString(window) + " days of delivery. The " + action
      + " period has expired."
  }

  /** `_can_exchange_or_return` */
  function CanExchangeOrReturn(cal: Calendar, deliveredDate: Option<string>, status: string, policyText: string, action: string): Decision {
    if Lower(status) != "delivered" && NoDate(deliveredDate) then
      Decision(false, NotDeliveredReason(status, action))
    else
      match DaysSinceDelivery(cal, deliveredDate)
      case None => Decision(false, NoDeliveryDayReason(action))
      case Some(days) =>
        var window := ExtractDays(policyText);
        if days <= window then Decision(true, WithinReason(days, window, action))
        else
          match ParseDate(cal, deliveredDate.GetOr(""))
          case Some(t) => Decision(false, ExpiredReason(days, deliveredDate.GetOr(""), window, action, cal.format(t + window)))
          case None => Decision(false, ExpiredUndatedReason(days, window, action))
  }

  // ---------------------------------------------------------------- evaluate_policy

  predicate IsCancelQuery(query: string) { AnyIn(Lower(query), ["cancel", "cancellation"]) }

  predicate IsExchangeQuery(query: string) {
    AnyIn(Lower(query), ["exchange", "swap", "change size", "different size"])
  }

  predicate IsReturnQuery(query: string) { AnyIn(Lower(query), ["return", "refund", "send back"]) }

  /** The policy text as reported: at most 500 characters, then "...". */
  function Excerpt(policyText: string): (r: string)
    ensures |policyText| <= 500 ==> r == policyText
    ensures |policyText| > 500 ==> |r| == 503 && r[..500] == policyText[..500] && r[500..] == "..."
  {
    if |policyText| > 500 then policyText[..500] + "..." else policyText
  }

  /** The reason when the query names no intent: both decisions, the favourable one first. */
  function CombinedReason(cancel: Decision, exchange: Decision): string {
    if !cancel.allowed && !exchange.allowed then cancel.reason + " Additionally, " + Lower(exchange.reason)
    else if exchange.allowed && !cancel.allowed then exchange.reason + " However, " + Lower(cancel.reason)
    else if cancel.allowed && !exchange.allowed then cancel.reason + " However, " + Lower(exchange.reason)
    else exchange.reason + " " + cancel.reason
  }

  /** `evaluate_policy` */
  function EvaluatePolicy(cal: Calendar, query: string, order: Order, policyText: string): Evaluation {
    var cancel := CanCancel(order.status, order.orderDate, policyText);
    var exchange := CanExchangeOrReturn(cal, order.deliveredDate, order.status, policyText, "exchange");
    var reason :=
      if IsCancelQuery(query) then cancel.reason
      else if IsExchangeQuery(query) || IsReturnQuery(query) then exchange.reason
      else CombinedReason(cancel, exchange);
    Evaluation(Excerpt(policyText), exchange.allowed, cancel.allowed, reason)
  }

  // ---------------------------------------------------------------- EnhancedPolicyService

  const NO_INFORMATION: string := "don't have enough information"

  const FALLBACK_HEAD: string :=
    "Standard return and "
      + "exchange policy: Items "
      + "can be returned or "
      + "exchanged within "
  const FALLBACK_TAIL: string :=
    " days of delivery if "
      + "unused and in original "
      + "packaging. Cancellation "
      + "is allowed before "
      + "shipment."

  /** The generic policy used when the search has no answer. */
  const FALLBACK_POLICY: string := FALLBACK_HEAD + "7" + FALLBACK_TAIL

  /** Lines 287-289: the policy text evaluated for a given search answer. */
  function PolicyTextFor(answer: string): string {
    if Contains(Lower(answer), NO_INFORMATION) then FALLBACK_POLICY else answer
  }

  /** `query_with_order_context`, with the search answer as a parameter. */
  function QueryWithOrderContext(cal: Calendar, query: string, order: Order, answer: string): Evaluation {
    EvaluatePolicy(cal, query, order, PolicyTextFor(answer))
  }

  /** The policy type named in the search query. */
  function PolicyType(query: string): string {
    var q := Lower(query);
    if AnyIn(q, ["exchange", "swap", "change"]) then "exchange"
    else if AnyIn(q, ["return", "refund"]) then "return"
    else if AnyIn(q, ["cancel"]) then "cancellation"
    else "return and exchange"
  }

  /** The sentence about the delivery date, when there is one. */
  function DeliveredSentence(d: Option<string>): string {
    if NoDate(d) then "" else "The item was delivered on " + d.value + ". "
  }

  /** `_create_enhanced_query` */
  function EnhancedQuery(query: string, order: Order): string {
    var kind := PolicyType(query);
    "What is the " + kind + " policy for " + order.product + "? "
      + "The order status is " + order.status + ". "
      + DeliveredSentence(order.deliveredDate)
      + "How many days are allowed for " + kind + "?"
  }

  // ---------------------------------------------------------------- properties

  /** No character of s is a decimal digit. */
  predicate Digitless(s: string) {
    forall k :: 0 <= k < |s| ==> !IsDigit(s[k])
  }

  /** Lower-casing keeps digits and non-digits apart. */
  lemma LowerDigits(s: string)
    ensures forall k :: 0 <= k < |s| ==> (IsDigit(Lower(s)[k]) <==> IsDigit(s[k]))
    ensures forall k :: 0 <= k < |s| && IsDigit(s[k]) ==> Lower(s)[k] == s[k]
  { }

  /** `re.search` finds nothing from i on only when no match starts at any j >= i. */
  lemma SearchMissesNothing(p: DayPattern, s: string, i: nat)
    requires i <= |s|
    ensures Search(p, s, i).None? ==> forall j :: i <= j <= |s| ==> CaptureAt(p, s, j).None?
  {
    var j := SearchStart(p, s, i);
  }

  /** `re.search` returns the match starting at the smallest position j >= i. */
  lemma SearchIsLeftmost(p: DayPattern, s: string, i: nat)
    requires i <= |s|
    ensures Search(p, s, i).Some? ==>
      exists j :: i <= j <= |s| && CaptureAt(p, s, j) == Search(p, s, i)
                  && forall k :: i <= k < j ==> CaptureAt(p, s, k).None?
  {
    var j := SearchStart(p, s, i);
  }

  /**
   * Where the search from i stops: the position of its match, or one past the end when there
   * is none; nothing matches before it.
   */
  lemma {:induction false} SearchStart(p: DayPattern, s: string, i: nat) returns (j: nat)
    requires i <= |s|
    ensures i <= j <= |s| + 1
    ensures forall k :: i <= k < j ==> CaptureAt(p, s, k).None?
    ensures Search(p, s, i).Some? ==> j <= |s| && CaptureAt(p, s, j) == Search(p, s, i)
    ensures Search(p, s, i).None? ==> j == |s| + 1
    decreases |s| - i
  {
    if CaptureAt(p, s, i).Some? {
      j := i;
    } else if i == |s| {
      j := |s| + 1;
    } else {
      j := SearchStart(p, s, i + 1);
      SearchSkips(p, s, i);
      MissesExtend(p, s, i, j);
    }
  }

  /** A miss at i hands the search on to i + 1. */
  lemma SearchSkips(p: DayPattern, s: string, i: nat)
    requires i < |s| && CaptureAt(p, s, i).None?
    ensures Search(p, s, i) == Search(p, s, i + 1)
  {
  }

  /** A miss just before a stretch of misses extends the stretch. */
  lemma MissesExtend(p: DayPattern, s: string, i: nat, j: nat)
    requires i < j <= |s| + 1 && i <= |s| && CaptureAt(p, s, i).None?
    requires forall k :: i + 1 <= k < j ==> CaptureAt(p, s, k).None?
    ensures forall k :: i <= k < j ==> CaptureAt(p, s, k).None?
  {
  }

  /** The patterns are tried in order: the first one that matches anywhere decides. */
  lemma {:induction false} FirstMatchIsFirstPattern(ps: seq<DayPattern>, s: string)
    ensures FirstMatch(ps, s).None? <==> forall k :: 0 <= k < |ps| ==> Search(ps[k], s, 0).None?
    ensures FirstMatch(ps, s).Some? ==>
      exists k :: 0 <= k < |ps| && FirstMatch(ps, s) == Search(ps[k], s, 0)
                  && forall m :: 0 <= m < k ==> Search(ps[m], s, 0).None?
    decreases |ps|
  {
    if ps != [] && Search(ps[0], s, 0).None? {
      FirstMatchIsFirstPattern(ps[1..], s);
      assert forall k :: 1 <= k < |ps| ==> ps[1..][k - 1] == ps[k];
      if FirstMatch(ps, s).Some? {
        var k :| 0 <= k < |ps[1..]| && FirstMatch(ps[1..], s) == Search(ps[1..][k], s, 0)
                 && forall m :: 0 <= m < k ==> Search(ps[1..][m], s, 0).None?;
        assert forall m :: 0 <= m < k + 1 ==> Search(ps[m], s, 0).None?;
      }
    }
  }

  /** A match begins with a digit, and so does its second character when the group is longer. */
  lemma MatchedDigits(s: string)
    ensures var r := FirstMatch(PATTERNS, s);
      r.Some? ==> IsDigit(s[r.value.start]) && (r.value.end > r.value.start + 1 ==> IsDigit(s[r.value.start + 1]))
  { }

  /** Without any digit in the text no pattern can match, and the window is the default seven days. */
  lemma DigitlessDefault(text: string)
    requires Digitless(text)
    ensures ExtractDays(text) == 7
  {
    LowerDigits(text);
    MatchedDigits(Lower(text));
  }

  /** A text whose only digit is a single 7 between digit-free parts has a seven-day window, matched or defaulted. */
  lemma SoleSeven(head: string, tail: string)
    requires Digitless(head) && Digitless(tail)
    ensures ExtractDays(head + "7" + tail) == 7
  {
    var text := head + "7" + tail;
    var p := |head|;
    assert text[p] == '7';
    assert forall k :: 0 <= k < p ==> text[k] == head[k];
    assert forall k :: p < k < |text| ==> text[k] == tail[k - p - 1];
    LowerDigits(text);
    var t := Lower(text);
    MatchedDigits(t);
    var r := FirstMatch(PATTERNS, t);
    if r.Some? {
      assert r.value.start == p && r.value.end == p + 1;
      assert t[p..p + 1] == ['7'];
      assert DigitsValue(['7']) == DigitsValue([]) * 10 + 7;
    }
  }

  lemma DigitlessAppend(a: string, b: string)
    requires Digitless(a) && Digitless(b)
    ensures Digitless(a + b)
  {
    assert forall k :: |a| <= k < |a + b| ==> (a + b)[k] == b[k - |a|];
  }

  /** The extracted window is the number at the leftmost match of the first pattern, when it is "within". */
  lemma WindowFromWithin(text: string, sp: Span)
    requires Search(WithinDays, Lower(text), 0) == Some(sp)
    ensures sp.start < sp.end <= |text|
    ensures ExtractDays(text) == DigitsValue(Lower(text)[sp.start..sp.end])
  { }

  /** Lower-casing "within D days" + rest, for a run of digits D, only touches the rest. */
  lemma LowerWithin(digits: string, rest: string)
    requires forall k :: 0 <= k < |digits| ==> IsDigit(digits[k])
    ensures Lower("within " + digits + " days" + rest) == "within " + digits + " days" + Lower(rest)
  {
    LowerUncapitalised("within ");
    LowerUncapitalised(digits);
    LowerUncapitalised(" days");
    LowerAppend("within ", digits);
    LowerAppend("within " + digits, " days");
    LowerAppend("within " + digits + " days", rest);
  }

  /** The first pattern matches "within D days" at the very start and captures D. */
  lemma WithinAtStart(digits: string, rest: string)
    requires |digits| > 0 && forall k :: 0 <= k < |digits| ==> IsDigit(digits[k])
    ensures WithinAt("within " + digits + " days" + rest, 0) == Some(Span(7, 7 + |digits|))
  {
    var t := "within " + digits + " days" + rest;
    var w := |digits|;
    assert t[..6] == "within";
    assert t[6] == ' ' && t[7 + w] == ' ' && t[8 + w] == 'd';
    assert forall k :: 7 <= k < 7 + w ==> t[k] == digits[k - 7];
    assert SpaceEnd(t, 7) == 7;
    assert SpaceEnd(t, 6) == 7;
    assert DigitEnd(t, 7) == 7 + w;
    assert SpaceEnd(t, 8 + w) == 8 + w;
    assert SpaceEnd(t, 7 + w) == 8 + w;
    assert t[8 + w..12 + w] == "days";
  }

  /** "within N days" at the head of a policy gives a window of N days, whatever follows. */
  lemma LeadingWithin(n: nat, rest: string)
    ensures ExtractDays("within " + NatToString(n) + " days" + rest) == n
  {
    var digits := NatToString(n);
    LowerWithin(digits, rest);
    var t := "within " + digits + " days" + Lower(rest);
    WithinAtStart(digits, Lower(rest));
    assert Search(WithinDays, t, 0) == Some(Span(7, 7 + |digits|));
    WindowFromWithin("within " + digits + " days" + rest, Span(7, 7 + |digits|));
    assert t[7..7 + |digits|] == digits;
    DigitsValueOfNatToString(n);
  }

  // The generic policy's wording around its "7" has no digit, taken a few pieces at a time.

  lemma HeadStartDigitless()
    ensures Digitless("Standard return and " + "exchange policy: Items ")
  {
    DigitlessAppend("Standard return and ", "exchange policy: Items ");
  }

  lemma HeadEndDigitless()
    ensures Digitless("can be returned or " + "exchanged within ")
  {
    DigitlessAppend("can be returned or ", "exchanged within ");
  }

  lemma FallbackHeadDigitless()
    ensures Digitless(FALLBACK_HEAD)
  {
    HeadStartDigitless();
    HeadEndDigitless();
    DigitlessAppend("Standard return and " + "exchange policy: Items ", "can be returned or " + "exchanged within ");
    assert FALLBACK_HEAD == ("Standard return and " + "exchange policy: Items ") + ("can be returned or " + "exchanged within ");
  }

  lemma TailStartDigitless()
    ensures Digitless(" days of delivery if " + "unused and in original ")
  {
    DigitlessAppend(" days of delivery if ", "unused and in original ");
  }

  lemma TailEndDigitless()
    ensures Digitless("packaging. Cancellation " + "is allowed before " + "shipment.")
  {
    DigitlessAppend("packaging. Cancellation ", "is allowed before ");
    DigitlessAppend("packaging. Cancellation " + "is allowed before ", "shipment.");
  }

  lemma FallbackTailDigitless()
    ensures Digitless(FALLBACK_TAIL)
  {
    TailStartDigitless();
    TailEndDigitless();
    DigitlessAppend(" days of delivery if " + "unused and in original ", "packaging. Cancellation " + "is allowed before " + "shipment.");
    assert FALLBACK_TAIL == (" days of delivery if " + "unused and in original ") + ("packaging. Cancellation " + "is allowed before " + "shipment.");
  }

  /** The generic policy used without a search answer has a seven-day window. */
  lemma FallbackWindow()
    ensures ExtractDays(FALLBACK_POLICY) == 7
  {
    FallbackHeadDigitless();
    FallbackTailDigitless();
    SoleSeven(FALLBACK_HEAD, FALLBACK_TAIL);
  }
  // ---------------------------------------------------------------- decisions

  /**
   * Cancellation is refused exactly for delivered and cancelled orders, and for shipped ones
   * unless the policy speaks of cancelling shipped orders without forbidding it. The order
   * date plays no part.
   */
  lemma CancelTable(status: string, orderDate: string, policyText: string)
    ensures CanCancel(status, orderDate, policyText).allowed <==>
      Lower(status) != "delivered" && Lower(status) != "cancelled"
      && (Lower(status) == "shipped" ==> ShippedCancellable(policyText))
    ensures forall other :: CanCancel(status, other, policyText) == CanCancel(status, orderDate, policyText)
  { }

  /**
   * Exchange or return is allowed exactly when a delivery day is known and at most the
   * window's number of days have passed since; the reason then counts the days left.
   */
  lemma ExchangeWindow(cal: Calendar, d: Option<string>, status: string, policyText: string, action: string)
    ensures CanExchangeOrReturn(cal, d, status, policyText, action).allowed <==>
      DaysSinceDelivery(cal, d).Some? && DaysSinceDelivery(cal, d).value <= ExtractDays(policyText)
    ensures CanExchangeOrReturn(cal, d, status, policyText, action).allowed ==>
      exists days :: DaysSinceDelivery(cal, d) == Some(days) && ExtractDays(policyText) - days >= 0
        && CanExchangeOrReturn(cal, d, status, policyText, action).reason == WithinReason(days, ExtractDays(policyText), action)
  { }

  /** With a delivery date the order status does not change the decision. */
  lemma ExchangeIgnoresStatusWhenDated(cal: Calendar, date: string, s1: string, s2: string, policyText: string, action: string)
    requires !NoDate(Some(date))
    ensures CanExchangeOrReturn(cal, Some(date), s1, policyText, action) == CanExchangeOrReturn(cal, Some(date), s2, policyText, action)
  { }

  /** Without a delivery date the refusal names the status, unless the order claims to be delivered. */
  lemma UndatedRefusal(cal: Calendar, d: Option<string>, status: string, policyText: string, action: string)
    requires NoDate(d)
    ensures !CanExchangeOrReturn(cal, d, status, policyText, action).allowed
    ensures CanExchangeOrReturn(cal, d, status, policyText, action).reason
              == if Lower(status) == "delivered" then NoDeliveryDayReason(action) else NotDeliveredReason(status, action)
  { }

  /** Past the window the refusal always names the day the window closed: the delivery day plus the window. */
  lemma ExpiredNamesExpiry(cal: Calendar, d: Option<string>, status: string, policyText: string, action: string)
    requires DaysSinceDelivery(cal, d).Some? && DaysSinceDelivery(cal, d).value > ExtractDays(policyText)
    ensures exists t ::
              && ParseDate(cal, d.value) == Some(t)
              && CanExchangeOrReturn(cal, d, status, policyText, action).reason
                 == ExpiredReason(cal.today - t, d.value, ExtractDays(policyText), action, cal.format(t + ExtractDays(policyText)))
  { }

  /** The days since delivery and since ordering agree on every date both can read. */
  lemma DaysAgree(cal: Calendar, date: string)
    ensures !NoDate(Some(date)) && cal.parse(date).Some? ==> DaysSinceDelivery(cal, Some(date)) == Some(DaysSinceOrder(cal, date))
    ensures NoDate(Some(date)) || cal.parse(date).None? ==> DaysSinceDelivery(cal, Some(date)).None? && DaysSinceOrder(cal, date) == 0
  { }

  /** The two decisions do not depend on the wording of the query; only the reason does. */
  lemma DecisionsIgnoreQuery(cal: Calendar, q1: string, q2: string, order: Order, policyText: string)
    ensures EvaluatePolicy(cal, q1, order, policyText).(reason := "") == EvaluatePolicy(cal, q2, order, policyText).(reason := "")
    ensures EvaluatePolicy(cal, q1, order, policyText).cancelAllowed == CanCancel(order.status, order.orderDate, policyText).allowed
    ensures EvaluatePolicy(cal, q1, order, policyText).exchangeAllowed
            == CanExchangeOrReturn(cal, order.deliveredDate, order.status, policyText, "exchange").allowed
  { }

  /**
   * A cancellation query gets the cancellation reason; otherwise an exchange or return query
   * gets the exchange reason; any other query gets both.
   */
  lemma ReasonSelection(cal: Calendar, query: string, order: Order, policyText: string)
    ensures var c := CanCancel(order.status, order.orderDate, policyText);
      IsCancelQuery(query) ==> EvaluatePolicy(cal, query, order, policyText).reason == c.reason
    ensures var x := CanExchangeOrReturn(cal, order.deliveredDate, order.status, policyText, "exchange");
      !IsCancelQuery(query) && (IsExchangeQuery(query) || IsReturnQuery(query)) ==>
        EvaluatePolicy(cal, query, order, policyText).reason == x.reason
    ensures var c := CanCancel(order.status, order.orderDate, policyText);
      var x := CanExchangeOrReturn(cal, order.deliveredDate, order.status, policyText, "exchange");
      !IsCancelQuery(query) && !IsExchangeQuery(query) && !IsReturnQuery(query) ==>
        EvaluatePolicy(cal, query, order, policyText).reason == CombinedReason(c, x)
  { }

  /**
   * The combined reason leads with the exchange reason when exchange is allowed and with the
   * cancellation reason otherwise; the other reason follows, lower-cased unless both are allowed.
   */
  lemma CombinedOrder(c: Decision, x: Decision)
    ensures OccursAt(CombinedReason(c, x), if x.allowed then x.reason else c.reason, 0)
    ensures EndsWith(CombinedReason(c, x),
                     if x.allowed && c.allowed then c.reason
                     else if x.allowed then Lower(c.reason) else Lower(x.reason))
  {
    var r := CombinedReason(c, x);
    if !c.allowed && !x.allowed {
      OccursPrefix(c.reason, " Additionally, " + Lower(x.reason));
      assert r == c.reason + (" Additionally, " + Lower(x.reason));
    } else if x.allowed && !c.allowed {
      OccursPrefix(x.reason, " However, " + Lower(c.reason));
      assert r == x.reason + (" However, " + Lower(c.reason));
    } else if c.allowed && !x.allowed {
      OccursPrefix(c.reason, " However, " + Lower(x.reason));
      assert r == c.reason + (" However, " + Lower(x.reason));
    } else {
      OccursPrefix(x.reason, " " + c.reason);
      assert r == x.reason + (" " + c.reason);
    }
  }

  // ---------------------------------------------------------------- the policy search

  /** Without a usable search answer the generic policy decides, with its seven-day window. */
  lemma NoAnswerSevenDays(cal: Calendar, query: string, order: Order, answer: string)
    requires Contains(Lower(answer), NO_INFORMATION)
    ensures QueryWithOrderContext(cal, query, order, answer).exchangeAllowed <==>
      DaysSinceDelivery(cal, order.deliveredDate).Some? && DaysSinceDelivery(cal, order.deliveredDate).value <= 7
    ensures QueryWithOrderContext(cal, query, order, answer).policy == FALLBACK_POLICY
  {
    FallbackWindow();
    ExchangeWindow(cal, order.deliveredDate, order.status, FALLBACK_POLICY, "exchange");
    assert |FALLBACK_POLICY| <= 500;
  }

  /**
   * The policy type asked for, in full: exchange wording wins over return/refund wording,
   * which wins over "cancel"; with none of them the query asks for "return and exchange".
   */
  lemma PolicyTypeTable(query: string)
    ensures var q := Lower(query);
      var exchange, ret, cancel := AnyIn(q, ["exchange", "swap", "change"]), AnyIn(q, ["return", "refund"]), AnyIn(q, ["cancel"]);
      && (PolicyType(query) == "exchange" <==> exchange)
      && (PolicyType(query) == "return" <==> !exchange && ret)
      && (PolicyType(query) == "cancellation" <==> !exchange && !ret && cancel)
      && (PolicyType(query) == "return and exchange" <==> !exchange && !ret && !cancel)
  {
  }

  /** A query mentioning exchange, swap or a size change asks the search for the exchange policy. */
  lemma ExchangeQueryType(query: string)
    requires var q := Lower(query);
      Contains(q, "exchange") || Contains(q, "swap") || Contains(q, "change size")
    ensures PolicyType(query) == "exchange"
  {
    var q := Lower(query);
    var words := ["exchange", "swap", "change"];
    if Contains(q, "exchange") {
      assert Contains(q, words[0]);
    } else if Contains(q, "swap") {
      assert Contains(q, words[1]);
    } else {
      assert "change" + " size" == "change size";
      ContainsShorter(q, "change", " size");
      assert Contains(q, words[2]);
    }
  }

  /** A string containing w + x contains w. */
  lemma ContainsShorter(s: string, w: string, x: string)
    requires Contains(s, w + x)
    ensures Contains(s, w)
  {
    ContainsIff(s, w + x);
    var i :| 0 <= i <= |s| && OccursAt(s, w + x, i);
    assert s[i..i + |w|] == (w + x)[..|w|] == w;
    ContainsAt(s, w, i);
  }

  /** Without a delivery date the search query is the one for an order that has none. */
  lemma QueryWithoutDelivery(query: string, order: Order)
    requires NoDate(order.deliveredDate)
    ensures EnhancedQuery(query, order) == EnhancedQuery(query, order.(deliveredDate := None))
  { }

  /** With a delivery date the search query carries it. */
  lemma QueryNamesDelivery(query: string, order: Order)
    requires !NoDate(order.deliveredDate)
    ensures Contains(EnhancedQuery(query, order), order.deliveredDate.value)
  {
    var kind := PolicyType(query);
    var head := "What is the " + kind + " policy for " + order.product + "? "
                + "The order status is " + order.status + ". " + "The item was delivered on ";
    var d := order.deliveredDate.value;
    var rest := ". " + "How many days are allowed for " + kind + "?";
    assert EnhancedQuery(query, order) == head + d + rest;
    OccursAfter(head, d, rest);
    ContainsAt(head + d + rest, d, |head|);
  }
}
