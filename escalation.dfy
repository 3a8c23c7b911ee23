/** The escalation predicate (backend/app/orchestrator/escalation.py). */
module Escalation {
  import opened Wrappers
  import opened Conversation

  /** sum(attempts.values()) */
  ghost function SumValues(m: map<string, nat>): nat
    decreases |m|
  {
    if m == map[] then 0
    else
      var k :| k in m;
      m[k] + SumValues(m - {k})
  }

  /** The sum may be taken starting from any key. */
  lemma {:induction false} SumRemove(m: map<string, nat>, k: string)
    requires k in m
    ensures SumValues(m) == m[k] + SumValues(m - {k})
    decreases |m|
  {
    var j :| j in m && SumValues(m) == m[j] + SumValues(m - {j});
    if j != k {
      var mj := m - {j};
      var mk := m - {k};
      assert |mj| < |m|;
      SumRemove(mj, k);
      assert mj - {k} == m - {j, k};
      SumRemove(mk, j);
      assert mk - {j} == m - {j, k};
    }
  }

  /** Setting one counter changes the sum by the difference. */
  lemma SumUpdate(m: map<string, nat>, k: string, v: nat)
    ensures SumValues(m[k := v]) == SumValues(m) - Get(m, k) + v
  {
    var m' := m[k := v];
    SumRemove(m', k);
    assert m' - {k} == m - {k};
    if k in m {
      SumRemove(m, k);
    } else {
      assert m - {k} == m;
    }
  }

  /** Raising counters (or adding keys) never lowers the sum. */
  lemma {:induction false} SumMonotone(m: map<string, nat>, m': map<string, nat>)
    requires forall k :: Get(m, k) <= Get(m', k)
    ensures SumValues(m) <= SumValues(m')
    decreases |m|
  {
    if m != map[] {
      var k :| k in m;
      SumRemove(m, k);
      var mk := m - {k};
      var mk' := m'[k := 0];
      SumUpdate(m', k, 0);
      forall j ensures Get(mk, j) <= Get(mk', j) {
        assert Get(m, j) <= Get(m', j);
      }
      SumMonotone(mk, mk');
    }
  }

  /** should_escalate as a predicate on the state. */
  ghost predicate Escalates(s: State) {
    || s.phase == Some(HumanHandoff)
    || Truthy(s.lastError)
    || SumValues(AttemptsOf(s)) > 5
  }

  /** should_escalate: the hand-off phase, then a truthy last_error, then more than 5 attempts in all. */
  method ShouldEscalate(s: State) returns (b: bool)
    ensures b == Escalates(s)
  {
    if s.phase == Some(HumanHandoff) {
      return true;
    }
    if s.lastError.Some? && s.lastError.value != "" {
      return true;
    }
    var rest := AttemptsOf(s);
    var total := 0;
    while rest != map[]
      invariant total + SumValues(rest) == SumValues(AttemptsOf(s))
      decreases |rest|
    {
      var k :| k in rest;
      SumRemove(rest, k);
      total := total + rest[k];
      rest := rest - {k};
    }
    return total > 5;
  }

  lemma HandoffEscalates(s: State)
    requires s.phase == Some(HumanHandoff)
    ensures Escalates(s)
  {
  }

  /** A missing or empty error does not trigger by itself; a non-empty one does. */
  lemma ErrorEscalatesIffTruthy(s: State)
    requires s.phase != Some(HumanHandoff) && SumValues(AttemptsOf(s)) <= 5
    ensures Escalates(s) <==> (s.lastError.Some? && s.lastError.value != "")
  {
  }

  /** Counts only more than 5 attempts in all, and a missing map counts as none. */
  lemma AttemptsThreshold(s: State)
    requires s.phase != Some(HumanHandoff) && !Truthy(s.lastError)
    ensures Escalates(s) <==> SumValues(AttemptsOf(s)) > 5
    ensures s.attempts.None? ==> !Escalates(s)
  {
  }

  /** {"a": 3, "b": 3} escalates; {"a": 1} in a completed state does not. */
  lemma EscalationExamples(s: State)
    requires s.phase == Some(Phase.Completed) && s.lastError.None?
    ensures s.attempts == Some(map["a" := 3, "b" := 3]) ==> Escalates(s)
    ensures s.attempts == Some(map["a" := 1]) ==> !Escalates(s)
  {
    SumUpdate(map["a" := 3], "b", 3);
    SumUpdate(map[], "a", 3);
    SumUpdate(map[], "a", 1);
  }

  /**
   * Monotone: moving to the hand-off phase, setting an error or raising counters never
   * turns an escalation off.
   */
  lemma EscalationMonotone(s: State, s': State)
    requires s.phase == Some(HumanHandoff) ==> s'.phase == Some(HumanHandoff)
    requires Truthy(s.lastError) ==> Truthy(s'.lastError)
    requires forall k :: Count(s, k) <= Count(s', k)
    requires Escalates(s)
    ensures Escalates(s')
  {
    if !(s.phase == Some(HumanHandoff)) && !Truthy(s.lastError) {
      forall k ensures Get(AttemptsOf(s), k) <= Get(AttemptsOf(s'), k) {
        assert Count(s, k) <= Count(s', k);
      }
      SumMonotone(AttemptsOf(s), AttemptsOf(s'));
    }
  }
}
