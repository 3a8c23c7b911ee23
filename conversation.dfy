/**
 * The per-conversation state record (the ConversationState typed dictionary) as a value,
 * and the mutable dictionary that the guard, the agents and the runner update in place.
 *
 * Python keys that may be absent from the dictionary are `Option` fields, and `None`
 * means "absent". A stored value None is not modelled for these keys: the runner never
 * stores None under them. For some of them the difference would matter: the guard tests
 * `"attempts" not in state` and `"agents_called" not in state` by membership, and
 * `state["entities"]` raises a different exception on a stored None than on a missing
 * key. The entities entries read with `.get(key, default)` are different: callers of
 * the agents (the repository's tests among them) do store None there, so those fields
 * are a three-valued `Slot`.
 */
module Conversation {
  import opened Wrappers

  /** current_state */
  datatype Phase = AwaitingIntent | DataFetch | PolicyCheck | Resolution | Completed | HumanHandoff

  /** status */
  datatype Status = InProgress | Completed | Handoff

  /**
   * An entities entry read with `entities.get(key, {})`: absent (the default `{}` is
   * used), present but None (calling `.get` on it raises), or present.
   */
  datatype Slot<+T> = Missing | Null | Present(value: T)

  /**
   * entities["policy_result"]: the truthiness of its "allowed" key and its "reason" key,
   * which `.get("reason", default)` reads differently when absent and when None.
   */
  datatype PolicyResult = PolicyResult(allowed: bool, reason: Slot<string>)

  /** entities["order_details"]: an open string-keyed dictionary. */
  type OrderDetails = map<string, string>

  /** The entities dictionary: the keys the agents shown write or read. */
  datatype Entities = Entities(
    orderStatus: Option<string>,
    refundAllowed: Option<bool>,
    policyResult: Slot<PolicyResult>,
    orderDetails: Slot<OrderDetails>,
    userIssue: Option<string>)

  /** `{}` */
  const NO_ENTITIES: Entities := Entities(None, None, Missing, Missing, None)

  datatype State = State(
    conversationId: Option<string>,
    phase: Option<Phase>,
    userMessage: Option<string>,
    intent: Option<string>,
    urgency: Option<string>,
    entities: Option<Entities>,
    agentsCalled: Option<seq<string>>,
    attempts: Option<map<string, nat>>,
    lastError: Option<string>,
    reply: Option<string>,
    status: Option<Status>)

  /** A step either returns a state or raises after possibly having changed it already. */
  datatype StepOutcome = Ok(state: State) | Err(state: State, msg: string)

  /** str(KeyError('entities')): what `state["entities"]` raises when the key is absent. */
  const ENTITIES_KEY_ERROR: string := "'entities'"

  /** Python truthiness of an optional string: present and non-empty. */
  predicate Truthy(o: Option<string>) {
    o.Some? && o.value != ""
  }

  /** `state.get("attempts", {})` */
  function AttemptsOf(s: State): map<string, nat> {
    s.attempts.GetOr(map[])
  }

  /** `state.get("agents_called", [])` */
  function CalledOf(s: State): seq<string> {
    s.agentsCalled.GetOr([])
  }

  /** `attempts.get(name, 0)` */
  function Get(m: map<string, nat>, name: string): nat {
    if name in m then m[name] else 0
  }

  /** `state["attempts"].get(name, 0)` once the map exists. */
  function Count(s: State, name: string): nat {
    Get(AttemptsOf(s), name)
  }

  /** The mutable conversation dictionary. */
  class ConversationDict {
    var conversationId: Option<string>
    var currentState: Option<Phase>
    var userMessage: Option<string>
    var intent: Option<string>
    var urgency: Option<string>
    var entities: Option<Entities>
    var agentsCalled: Option<seq<string>>
    var attempts: Option<map<string, nat>>
    var lastError: Option<string>
    var reply: Option<string>
    var status: Option<Status>

    /** The dictionary's current contents as a value. */
    function Snapshot(): State
      reads this
    {
      State(conversationId, currentState, userMessage, intent, urgency, entities,
            agentsCalled, attempts, lastError, reply, status)
    }

    /** A dictionary holding the given contents. */
    constructor FromState(s: State)
      ensures Snapshot() == s
    {
      conversationId := s.conversationId;
      currentState := s.phase;
      userMessage := s.userMessage;
      intent := s.intent;
      urgency := s.urgency;
      entities := s.entities;
      agentsCalled := s.agentsCalled;
      attempts := s.attempts;
      lastError := s.lastError;
      reply := s.reply;
      status := s.status;
    }
  }
}
