/**
 * The agent guard (backend/app/orchestrator/guard.py): a per-agent attempt counter kept in
 * the conversation state, an `agents_called` audit list, and exception absorption.
 *
 * `Guarded(name, step, s)` is the wrapper's effect as a function of the state it is given;
 * `Enter` and `Absorb` are the wrapper's in-place code before and after the step.
 */
module Guard {
  import opened Wrappers
  import opened Text
  import opened Conversation

  const MAX_AGENT_CALLS: nat := 2

  /** f"{agent_name} exceeded retry limit ({MAX_AGENT_CALLS} attempts)" */
  function LimitMessage(name: string): string {
    name + " exceeded retry limit (" + NatToString(MAX_AGENT_CALLS) + " attempts)"
  }

  /** f"{agent_name} error: {str(e)}" */
  function ErrorMessage(name: string, msg: string): string {
    name + " error: " + msg
  }

  /** The state the wrapper returns when the agent is over its limit. */
  function Blocked(name: string, s: State): State {
    s.(attempts := Some(AttemptsOf(s)), phase := Some(HumanHandoff),
       status := Some(Status.Handoff), lastError := Some(LimitMessage(name)))
  }

  /** The state handed to the agent: its counter raised and its name appended to the audit list. */
  function Entered(name: string, s: State): State {
    s.(attempts := Some(AttemptsOf(s)[name := Count(s, name) + 1]),
       agentsCalled := Some(CalledOf(s) + [name]))
  }

  /** What the wrapper returns once the agent has returned or raised. */
  function Absorbed(name: string, o: StepOutcome): State {
    match o
    case Ok(t) => t
    case Err(t, msg) =>
      t.(lastError := Some(ErrorMessage(name, msg)), phase := Some(HumanHandoff),
         status := Some(Status.Handoff))
  }

  /** `agent_guard(name)(step)` applied to state s. */
  function Guarded(name: string, step: State -> StepOutcome, s: State): State {
    if Count(s, name) >= MAX_AGENT_CALLS then Blocked(name, s)
    else Absorbed(name, step(Entered(name, s)))
  }

  /** A step that leaves the attempts map and the audit list as it found them. */
  ghost predicate KeepsAudit(step: State -> StepOutcome) {
    forall t: State :: step(t).state.attempts == t.attempts && step(t).state.agentsCalled == t.agentsCalled
  }

  /** Occurrences of name in an audit list. */
  function Occurrences(calls: seq<string>, name: string): nat
    decreases |calls|
  {
    if calls == [] then 0
    else Occurrences(calls[..|calls| - 1], name) + (if calls[|calls| - 1] == name then 1 else 0)
  }

  /**
   * Every agent appears in the audit list exactly as often as its counter says, and no
   * counter is above the limit.
   */
  ghost predicate AuditInv(s: State) {
    forall a :: Occurrences(CalledOf(s), a) == Count(s, a) <= MAX_AGENT_CALLS
  }

  // ---------------------------------------------------------------- in-place code

  /** Lines 10-31: create the attempts map, check the limit, count the call and audit it. */
  method Enter(d: ConversationDict, name: string) returns (proceed: bool)
    modifies d
    ensures proceed == (Count(old(d.Snapshot()), name) < MAX_AGENT_CALLS)
    ensures d.Snapshot() == if proceed then Entered(name, old(d.Snapshot())) else Blocked(name, old(d.Snapshot()))
  {
    if d.attempts.None? {
      d.attempts := Some(map[]);
    }
    var count := Get(d.attempts.value, name);
    if count >= MAX_AGENT_CALLS {
      d.currentState := Some(HumanHandoff);
      d.status := Some(Status.Handoff);
      d.lastError := Some(LimitMessage(name));
      return false;
    }
    d.attempts := Some(d.attempts.value[name := count + 1]);
    if d.agentsCalled.None? {
      d.agentsCalled := Some([]);
    }
    d.agentsCalled := Some(d.agentsCalled.value + [name]);
    return true;
  }

  /** Lines 36-41: an exception raised by the agent (err) becomes a hand-off. */
  method Absorb(d: ConversationDict, name: string, err: Option<string>)
    modifies d
    ensures err.None? ==> d.Snapshot() == old(d.Snapshot())
    ensures err.Some? ==> d.Snapshot() == Absorbed(name, Err(old(d.Snapshot()), err.value))
  {
    if err.Some? {
      d.lastError := Some(ErrorMessage(name, err.value));
      d.currentState := Some(HumanHandoff);
      d.status := Some(Status.Handoff);
    }
  }

  // ---------------------------------------------------------------- properties

  lemma LimitMessageText(name: string)
    ensures LimitMessage(name) == name + " exceeded retry limit (2 attempts)"
  {
  }

  /**
   * Over the limit, the step is not called; the state gains the hand-off fields and an
   * (otherwise unchanged) attempts map, and nothing else changes.
   */
  lemma BlockedChangesOnlyHandoff(name: string, step: State -> StepOutcome, s: State)
    requires Count(s, name) >= MAX_AGENT_CALLS
    ensures var r := Guarded(name, step, s);
      && r.phase == Some(HumanHandoff) && r.status == Some(Status.Handoff)
      && r.lastError == Some(name + " exceeded retry limit (2 attempts)")
      && AttemptsOf(r) == AttemptsOf(s) && r.agentsCalled == s.agentsCalled
      && r.(phase := s.phase, status := s.status, lastError := s.lastError, attempts := s.attempts) == s
  {
    LimitMessageText(name);
  }

  /**
   * Under the limit, the step runs exactly once, on a state whose counter for name is one
   * higher and whose audit list ends with name; all other fields are those of s.
   */
  lemma EnteredCountsAndAudits(name: string, s: State)
    ensures var e := Entered(name, s);
      && Count(e, name) == Count(s, name) + 1
      && CalledOf(e) == CalledOf(s) + [name]
      && (forall a :: a != name ==> Count(e, a) == Count(s, a))
      && e.(attempts := s.attempts, agentsCalled := s.agentsCalled) == s
  {
  }

  /** An exception keeps the increment and the audit entry, and hands off with its message. */
  lemma ErrorBecomesHandoff(name: string, step: State -> StepOutcome, s: State)
    requires Count(s, name) < MAX_AGENT_CALLS
    requires step(Entered(name, s)).Err?
    requires KeepsAudit(step)
    ensures var r := Guarded(name, step, s);
      && r.phase == Some(HumanHandoff) && r.status == Some(Status.Handoff)
      && r.lastError == Some(name + " error: " + step(Entered(name, s)).msg)
      && Count(r, name) == Count(s, name) + 1
      && CalledOf(r) == CalledOf(s) + [name]
  {
  }

  /** Counters of other agents are never touched, and no counter decreases. */
  lemma GuardCounters(name: string, step: State -> StepOutcome, s: State, a: string)
    requires KeepsAudit(step)
    ensures var r := Guarded(name, step, s);
      && (a != name ==> Count(r, a) == Count(s, a))
      && Count(s, a) <= Count(r, a)
      && Count(r, name) == (if Count(s, name) < MAX_AGENT_CALLS then Count(s, name) + 1 else Count(s, name))
  {
    var e := Entered(name, s);
    if Count(s, name) < MAX_AGENT_CALLS {
      assert step(e).state.attempts == e.attempts;
    }
  }

  lemma {:induction false} OccurrencesAppend(calls: seq<string>, x: string, a: string)
    ensures Occurrences(calls + [x], a) == Occurrences(calls, a) + (if x == a then 1 else 0)
  {
    assert (calls + [x])[..|calls + [x]| - 1] == calls;
  }

  /** The guard keeps the audit list and the counters in step and within the limit. */
  lemma GuardPreservesAudit(name: string, step: State -> StepOutcome, s: State)
    requires KeepsAudit(step)
    requires AuditInv(s)
    ensures AuditInv(Guarded(name, step, s))
  {
    var r := Guarded(name, step, s);
    if Count(s, name) < MAX_AGENT_CALLS {
      var e := Entered(name, s);
      assert step(e).state.attempts == e.attempts && step(e).state.agentsCalled == e.agentsCalled;
      forall a
        ensures Occurrences(CalledOf(r), a) == Count(r, a) <= MAX_AGENT_CALLS
      {
        OccurrencesAppend(CalledOf(s), name, a);
        assert Occurrences(CalledOf(s), a) == Count(s, a);
      }
    } else {
      forall a
        ensures Occurrences(CalledOf(r), a) == Count(r, a) <= MAX_AGENT_CALLS
      {
        assert Occurrences(CalledOf(s), a) == Count(s, a);
      }
    }
  }

  /** One wrapped call: the agent's name and its body. */
  datatype Call = Call(name: string, step: State -> StepOutcome)

  /** Calls made one after the other, each on the state the previous one returned. */
  function RunCalls(cs: seq<Call>, s: State): State
    decreases |cs|
  {
    if cs == [] then s else RunCalls(cs[1..], Guarded(cs[0].name, cs[0].step, s))
  }

  /** How many of those calls ran the body of agent a. */
  function Executions(cs: seq<Call>, s: State, a: string): nat
    decreases |cs|
  {
    if cs == [] then 0
    else (if cs[0].name == a && Count(s, a) < MAX_AGENT_CALLS then 1 else 0)
         + Executions(cs[1..], Guarded(cs[0].name, cs[0].step, s), a)
  }

  /**
   * Whatever calls are made, in whatever order, each one counted exactly when its body
   * runs: agent a's body runs at most MAX_AGENT_CALLS times in all, fewer when its counter
   * already started above zero.
   */
  lemma {:induction false} AtMostMaxExecutions(cs: seq<Call>, s: State, a: string)
    requires forall i :: 0 <= i < |cs| ==> KeepsAudit(cs[i].step)
    requires Count(s, a) <= MAX_AGENT_CALLS
    ensures Count(RunCalls(cs, s), a) == Count(s, a) + Executions(cs, s, a)
    ensures Executions(cs, s, a) <= MAX_AGENT_CALLS - Count(s, a)
    decreases |cs|
  {
    if cs != [] {
      var next := Guarded(cs[0].name, cs[0].step, s);
      assert KeepsAudit(cs[0].step);
      GuardCounters(cs[0].name, cs[0].step, s, a);
      assert forall i :: 0 <= i < |cs[1..]| ==> KeepsAudit(cs[1..][i].step) by {
        forall i | 0 <= i < |cs[1..]| ensures KeepsAudit(cs[1..][i].step) {
          assert cs[1..][i] == cs[i + 1];
        }
      }
      AtMostMaxExecutions(cs[1..], next, a);
    }
  }
}
