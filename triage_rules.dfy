/**
 * The stand-alone keyword triage (Triage/triage_agent.py): an order id found by the regular
 * expression `\b\d{4,}\b`, an intent from the first keyword rule that matches, an urgency from
 * a list of urgent words, and a fall-back to a language model when no rule matches.
 *
 * The language model is not part of this model: its answer is a parameter, and so is the
 * JSON decoder applied to it (`json.loads`), which either yields a value or raises.
 */
module TriageRules {
  import opened Wrappers
  import opened Text

  // ---------------------------------------------------------------- order id

  /** The end of the run of digits that starts at i (the greedy `\d+`). */
  function RunEnd(s: string, i: nat): (r: nat)
    requires i <= |s|
    ensures i <= r <= |s|
    ensures forall k :: i <= k < r ==> IsDigit(s[k])
    ensures r == |s| || !IsDigit(s[r])
    decreases |s| - i
  {
    if i < |s| && IsDigit(s[i]) then RunEnd(s, i + 1) else i
  }

  /**
   * `\b\d{4,}\b` matches at i: a word boundary before i, at least four digits, and a word
   * boundary right after them. Backing off the greedy run never helps, because between two
   * digits there is no word boundary, so the run must be taken whole.
   */
  predicate IdAt(s: string, i: nat) {
    && i < |s|
    && (i == 0 || !IsWordChar(s[i - 1]))
    && RunEnd(s, i) - i >= 4
    && (RunEnd(s, i) == |s| || !IsWordChar(s[RunEnd(s, i)]))
  }

  /** `re.search`: the leftmost match at or after i. */
  function FindId(s: string, i: nat): (r: Option<nat>)
    requires i <= |s|
    ensures r.Some? ==> i <= r.value && IdAt(s, r.value)
    decreases |s| - i
  {
    if i >= |s| then None
    else if IdAt(s, i) then Some(i)
    else FindId(s, i + 1)
  }

  /** `extract_order_id`: the matched digits, or None. */
  function ExtractOrderId(text: string): (r: Option<string>)
    ensures r.Some? ==> |r.value| >= 4 && forall k :: 0 <= k < |r.value| ==> IsDigit(r.value[k])
  {
    match FindId(text, 0)
    case None => None
    case Some(i) => Some(text[i..RunEnd(text, i)])
  }

  /** The search skips exactly the positions where the pattern does not match. */
  lemma {:induction false} FindIdLeftmost(s: string, i: nat)
    requires i <= |s|
    ensures FindId(s, i).Some? ==> forall j :: i <= j < FindId(s, i).value ==> !IdAt(s, j)
    ensures FindId(s, i).None? ==> forall j :: i <= j < |s| ==> !IdAt(s, j)
    decreases |s| - i
  {
    if i < |s| && !IdAt(s, i) {
      FindIdLeftmost(s, i + 1);
    }
  }

  /**
   * The id is the digit run at the leftmost position where the pattern matches, and there is
   * none exactly when the pattern matches nowhere.
   */
  lemma OrderIdIsLeftmostMatch(text: string)
    ensures ExtractOrderId(text).None? <==> forall j :: 0 <= j < |text| ==> !IdAt(text, j)
    ensures ExtractOrderId(text).Some? ==>
      exists i :: && 0 <= i < |text| && IdAt(text, i)
                  && ExtractOrderId(text).value == text[i..RunEnd(text, i)]
                  && forall j :: 0 <= j < i ==> !IdAt(text, j)
  {
    FindIdLeftmost(text, 0);
  }

  /** A digit run followed by more digits ends where the longer run ends. */
  lemma {:induction false} RunEndOfDigits(s: string, i: nat, d: string)
    requires i + |d| <= |s| && s[i..i + |d|] == d
    requires forall k :: 0 <= k < |d| ==> IsDigit(d[k])
    requires i + |d| == |s| || !IsDigit(s[i + |d|])
    ensures RunEnd(s, i) == i + |d|
    decreases |d|
  {
    if d != [] {
      assert s[i] == d[0];
      assert s[i + 1..i + 1 + |d[1..]|] == d[1..];
      RunEndOfDigits(s, i + 1, d[1..]);
    }
  }

  /** No match can start where there is no digit. */
  lemma NoIdAtNonDigit(s: string, j: nat)
    requires j < |s| && !IsDigit(s[j])
    ensures !IdAt(s, j)
  {
  }

  /** A search over non-digits reaches the first position after them. */
  lemma {:induction false} FindIdSkipsText(s: string, i: nat, n: nat)
    requires i <= n <= |s|
    requires forall k :: i <= k < n ==> !IsDigit(s[k])
    ensures FindId(s, i) == FindId(s, n)
    decreases n - i
  {
    if i < n {
      NoIdAtNonDigit(s, i);
      FindIdSkipsText(s, i + 1, n);
    }
  }

  /**
   * A number of four or more digits, set off from the text around it by non-word characters,
   * is the id when no digit comes before it ("my order id is 12345", "order #98765 please").
   */
  lemma IdAfterText(p: string, d: string, r: string)
    requires forall k :: 0 <= k < |p| ==> !IsDigit(p[k])
    requires p == [] || !IsWordChar(p[|p| - 1])
    requires |d| >= 4 && forall k :: 0 <= k < |d| ==> IsDigit(d[k])
    requires r == [] || !IsWordChar(r[0])
    ensures ExtractOrderId(p + d + r) == Some(d)
  {
    var s := p + d + r;
    assert s[|p|..|p| + |d|] == d;
    assert forall k :: 0 <= k < |p| ==> s[k] == p[k];
    RunEndOfDigits(s, |p|, d);
    FindIdSkipsText(s, 0, |p|);
    assert IdAt(s, |p|);
  }

  /** Digits glued to a letter are no id: "abc12345" has none. */
  lemma IdNeedsBoundary(s: string, i: nat)
    requires 0 < i < |s| && IsWordChar(s[i - 1])
    ensures !IdAt(s, i)
  {
  }

  /** Lower-casing changes neither digits nor which characters are word characters. */
  lemma LowerKeepsClasses(s: string, k: nat)
    requires k < |s|
    ensures IsDigit(Lower(s)[k]) <==> IsDigit(s[k])
    ensures IsWordChar(Lower(s)[k]) <==> IsWordChar(s[k])
    ensures IsDigit(s[k]) ==> Lower(s)[k] == s[k]
  {
  }

  lemma {:induction false} RunEndLower(s: string, i: nat)
    requires i <= |s|
    ensures RunEnd(Lower(s), i) == RunEnd(s, i)
    ensures Lower(s)[i..RunEnd(s, i)] == s[i..RunEnd(s, i)]
    decreases |s| - i
  {
    if i < |s| {
      LowerKeepsClasses(s, i);
      if IsDigit(s[i]) {
        RunEndLower(s, i + 1);
      }
    }
  }

  lemma IdAtLower(s: string, i: nat)
    ensures IdAt(Lower(s), i) <==> IdAt(s, i)
  {
    if i < |s| {
      RunEndLower(s, i);
      if i > 0 { LowerKeepsClasses(s, i - 1); }
      if RunEnd(s, i) < |s| { LowerKeepsClasses(s, RunEnd(s, i)); }
    }
  }

  lemma {:induction false} FindIdLower(s: string, i: nat)
    requires i <= |s|
    ensures FindId(Lower(s), i) == FindId(s, i)
    decreases |s| - i
  {
    if i < |s| {
      IdAtLower(s, i);
      FindIdLower(s, i + 1);
    }
  }

  /** The id found in the lower-cased message is the one in the message as typed. */
  lemma OrderIdIgnoresCase(message: string)
    ensures ExtractOrderId(Lower(message)) == ExtractOrderId(message)
  {
    FindIdLower(message, 0);
    if FindId(message, 0).Some? {
      RunEndLower(message, FindId(message, 0).value);
    }
  }

  // ---------------------------------------------------------------- keyword rules

  /** `INTENT_RULES`, in its insertion order. */
  const INTENT_RULES: seq<(string, seq<string>)> := [
    ("refund", ["refund", "money back"]),
    ("return", ["return"]),
    ("exchange", ["exchange", "replace"]),
    ("order_tracking", ["where is my order", "track", "order status"]),
    ("complaint", ["bad", "worst", "not happy", "angry"]),
    ("technical_issue", ["not working", "error", "bug"])]

  const URGENT_WORDS: seq<string> := ["urgent", "now", "immediately", "asap"]

  /** The first rule from index k on with a keyword in the text. */
  function FirstRule(rules: seq<(string, seq<string>)>, text: string, k: nat): (r: Option<string>)
    requires k <= |rules|
    ensures r.Some? ==> exists j :: k <= j < |rules| && rules[j].0 == r.value && AnyIn(text, rules[j].1)
    decreases |rules| - k
  {
    if k == |rules| then None
    else if AnyIn(text, rules[k].1) then Some(rules[k].0)
    else FirstRule(rules, text, k + 1)
  }

  /** `rule_based_intent` */
  function RuleBasedIntent(text: string): Option<string> {
    FirstRule(INTENT_RULES, text, 0)
  }

  /** The loop of `rule_based_urgency` from word k on: "high" at the first word in the text. */
  function FirstUrgent(words: seq<string>, text: string, k: nat): (r: Option<string>)
    requires k <= |words|
    ensures r.Some? ==> r.value == "high" && exists j :: k <= j < |words| && Contains(text, words[j])
    decreases |words| - k
  {
    if k == |words| then None
    else if Contains(text, words[k]) then Some("high")
    else FirstUrgent(words, text, k + 1)
  }

  /** `rule_based_urgency` */
  function RuleBasedUrgency(text: string): Option<string> {
    FirstUrgent(URGENT_WORDS, text, 0)
  }

  /** The loop gives up only when none of the remaining words occurs. */
  lemma {:induction false} FirstUrgentComplete(words: seq<string>, text: string, k: nat)
    requires k <= |words|
    ensures FirstUrgent(words, text, k).None? <==> forall j :: k <= j < |words| ==> !Contains(text, words[j])
    decreases |words| - k
  {
    if k < |words| && !Contains(text, words[k]) {
      FirstUrgentComplete(words, text, k + 1);
    }
  }

  /** The urgency is "high" exactly when some urgent word is a substring of the text, and None otherwise. */
  lemma UrgencyIffUrgentWord(text: string)
    ensures RuleBasedUrgency(text).Some? <==> AnyIn(text, URGENT_WORDS)
    ensures RuleBasedUrgency(text).Some? ==> RuleBasedUrgency(text).value == "high"
  {
    FirstUrgentComplete(URGENT_WORDS, text, 0);
  }

  lemma {:induction false} FirstRuleIsFirst(rules: seq<(string, seq<string>)>, text: string, k: nat)
    requires k <= |rules|
    ensures FirstRule(rules, text, k).None? <==> forall j :: k <= j < |rules| ==> !AnyIn(text, rules[j].1)
    ensures FirstRule(rules, text, k).Some? ==>
      exists j :: && k <= j < |rules| && rules[j].0 == FirstRule(rules, text, k).value
                  && AnyIn(text, rules[j].1)
                  && forall m :: k <= m < j ==> !AnyIn(text, rules[m].1)
    decreases |rules| - k
  {
    if k < |rules| {
      if AnyIn(text, rules[k].1) {
        assert FirstRule(rules, text, k) == Some(rules[k].0);
      } else {
        assert FirstRule(rules, text, k) == FirstRule(rules, text, k + 1);
        FirstRuleIsFirst(rules, text, k + 1);
        if FirstRule(rules, text, k).Some? {
          var j :| && k + 1 <= j < |rules| && rules[j].0 == FirstRule(rules, text, k + 1).value
                   && AnyIn(text, rules[j].1)
                   && forall m :: k + 1 <= m < j ==> !AnyIn(text, rules[m].1);
          assert forall m :: k <= m < j ==> !AnyIn(text, rules[m].1);
        }
      }
    }
  }

  /**
   * The intent is the first rule, in table order, with a keyword in the text; there is none
   * exactly when no keyword of any rule occurs.
   */
  lemma IntentIsFirstMatchingRule(text: string)
    ensures RuleBasedIntent(text).None? <==> forall j :: 0 <= j < |INTENT_RULES| ==> !AnyIn(text, INTENT_RULES[j].1)
    ensures RuleBasedIntent(text).Some? ==>
      exists j :: && 0 <= j < |INTENT_RULES| && INTENT_RULES[j].0 == RuleBasedIntent(text).value
                  && AnyIn(text, INTENT_RULES[j].1)
                  && forall m :: 0 <= m < j ==> !AnyIn(text, INTENT_RULES[m].1)
  {
    FirstRuleIsFirst(INTENT_RULES, text, 0);
  }

  /** The intent is one of the six rule names. */
  lemma IntentNames(text: string)
    ensures RuleBasedIntent(text).Some? ==>
      RuleBasedIntent(text).value in {"refund", "return", "exchange", "order_tracking", "complaint", "technical_issue"}
  {
  }

  /** Refund is checked first: "refund" wins over any other keyword, "return" included. */
  lemma RefundWins(text: string)
    requires Contains(text, "refund") || Contains(text, "money back")
    ensures RuleBasedIntent(text) == Some("refund")
  {
    assert INTENT_RULES[0].1[0] == "refund" && INTENT_RULES[0].1[1] == "money back";
  }

  /** A return request with no refund keyword is a return, whatever else it mentions. */
  lemma ReturnBeatsLaterRules(text: string)
    requires !Contains(text, "refund") && !Contains(text, "money back")
    requires Contains(text, "return")
    ensures RuleBasedIntent(text) == Some("return")
  {
    assert INTENT_RULES[0].1 == ["refund", "money back"];
    assert !AnyIn(text, INTENT_RULES[0].1);
    assert INTENT_RULES[1].1[0] == "return";
  }

  /** The urgent words are plain substrings: "i don't know" is urgent because of "now". */
  lemma UrgencyIsSubstring()
    ensures RuleBasedUrgency("i don't know") == Some("high")
  {
    var t := "i don't know";
    assert t == "i don't k" + "now" + "";
    OccursAfter("i don't k", "now", "");
    ContainsAt(t, "now", 9);
    assert URGENT_WORDS[1] == "now";
  }

  // ---------------------------------------------------------------- run_triage

  /** A decoded JSON value. */
  datatype Json =
    | JNull
    | JBool(b: bool)
    | JNum(x: real)
    | JStr(s: string)
    | JArr(items: seq<Json>)
    | JObj(fields: map<string, Json>)

  /** Python truthiness of a decoded value. */
  predicate Truthy(v: Json) {
    match v
    case JNull => false
    case JBool(b) => b
    case JNum(x) => x != 0.0
    case JStr(s) => s != ""
    case JArr(items) => items != []
    case JObj(fields) => fields != map[]
  }

  function OptionalString(o: Option<string>): (r: Json)
    ensures o.None? <==> r == JNull
  {
    match o
    case None => JNull
    case Some(s) => JStr(s)
  }

  /** The dictionary `run_triage` builds itself. */
  function Record(intent: string, urgency: string, orderId: Option<string>, confidence: real): map<string, Json> {
    map["intent" := JStr(intent), "urgency" := JStr(urgency),
        "order_id" := OptionalString(orderId), "confidence" := JNum(confidence)]
  }

  /**
   * `run_triage`: keyword rules on the lower-cased message first; otherwise the model's answer,
   * decoded, with a falsy or missing order id replaced by the one the regular expression found.
   * An answer that does not decode, or decodes to something other than an object (on which
   * `.get` raises), gives the fixed "unknown" record.
   */
  function RunTriage(message: string, answer: string, decode: string -> Option<Json>): map<string, Json> {
    var text := Lower(message);
    var orderId := ExtractOrderId(text);
    var intent := RuleBasedIntent(text);
    var urgency := RuleBasedUrgency(text);
    if intent.Some? then
      Record(intent.value, if urgency.Some? then urgency.value else "normal", orderId, 0.85)
    else
      match decode(answer)
      case Some(JObj(fields)) =>
        var given := if "order_id" in fields then fields["order_id"] else JNull;
        fields["order_id" := if Truthy(given) then given else OptionalString(orderId)]
      case _ => Record("unknown", "normal", orderId, 0.50)
  }

  /**
   * When a rule matches, the model is not consulted: the result is the rule's intent, "high" or
   * "normal" urgency, the regex id of the message and confidence 0.85.
   */
  lemma RuleHitSkipsModel(message: string, answer: string, decode: string -> Option<Json>)
    requires RuleBasedIntent(Lower(message)).Some?
    ensures RunTriage(message, answer, decode)
      == Record(RuleBasedIntent(Lower(message)).value,
                if AnyIn(Lower(message), URGENT_WORDS) then "high" else "normal",
                ExtractOrderId(message), 0.85)
  {
    OrderIdIgnoresCase(message);
  }

  /** On a rule hit, neither the model's answer nor its decoding matters. */
  lemma RuleHitIgnoresAnswer(message: string, answer: string, decode: string -> Option<Json>,
                             answer2: string, decode2: string -> Option<Json>)
    requires RuleBasedIntent(Lower(message)).Some?
    ensures RunTriage(message, answer, decode) == RunTriage(message, answer2, decode2)
  {
  }

  /** An answer that is not a JSON object gives intent "unknown", urgency "normal", confidence 0.50. */
  lemma UndecodableAnswer(message: string, answer: string, decode: string -> Option<Json>)
    requires RuleBasedIntent(Lower(message)).None?
    requires !(decode(answer).Some? && decode(answer).value.JObj?)
    ensures RunTriage(message, answer, decode)
      == Record("unknown", "normal", ExtractOrderId(message), 0.50)
  {
    OrderIdIgnoresCase(message);
  }

  /**
   * A decoded answer is passed on as it is, except that an order id it leaves out or leaves
   * falsy is replaced by the regex id of the message.
   */
  lemma AnswerOrderIdFallback(message: string, answer: string, decode: string -> Option<Json>)
    requires RuleBasedIntent(Lower(message)).None?
    requires decode(answer).Some? && decode(answer).value.JObj?
    ensures var fields := decode(answer).value.fields; var r := RunTriage(message, answer, decode);
      && r.Keys == fields.Keys + {"order_id"}
      && (forall k :: k in fields && k != "order_id" ==> r[k] == fields[k])
      && ("order_id" in fields && Truthy(fields["order_id"]) ==> r["order_id"] == fields["order_id"])
      && (!("order_id" in fields && Truthy(fields["order_id"])) ==> r["order_id"] == OptionalString(ExtractOrderId(message)))
  {
    OrderIdIgnoresCase(message);
  }
}
