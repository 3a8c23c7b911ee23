/**
 * The workflow graph (backend/app/orchestrator/graph.py): four guard-wrapped agents joined
 * by unconditional edges, triage -> database -> policy -> resolution -> end. The graph
 * library is modelled as a small builder class and sequential composition of the nodes.
 */
module Graph {
  import opened Wrappers
  import opened Conversation
  import opened Guard
  import opened TriageStub
  import opened DatabaseStub
  import opened PolicyStub
  import opened Resolution

  /** The four agent functions the graph can hold. */
  datatype Node = TriageNode | DatabaseNode | PolicyNode | ResolutionNode

  /** The name each agent is registered and guarded under. */
  function NameOf(n: Node): string {
    match n
    case TriageNode => "triage"
    case DatabaseNode => "database"
    case PolicyNode => "policy"
    case ResolutionNode => "resolution"
  }

  /** The agent body inside the guard. */
  function BodyOf(n: Node): State -> StepOutcome {
    match n
    case TriageNode => TriageStep
    case DatabaseNode => DatabaseStep
    case PolicyNode => PolicyStep
    case ResolutionNode => ResolutionStep
  }

  /** Running one node: the agent body wrapped by the guard under the node's name. */
  function Apply(n: Node, s: State): State {
    Guarded(NameOf(n), BodyOf(n), s)
  }

  /** The reserved name of the graph's end. */
  const END: string := "__end__"

  /** An edge `add_edge(from, to)`. */
  datatype Edge = Edge(from: string, to: string)

  /** The target of the first edge leaving `from`, if any. */
  function Target(edges: seq<Edge>, from: string): Option<string> {
    if edges == [] then None
    else if edges[0].from == from then Some(edges[0].to)
    else Target(edges[1..], from)
  }

  /**
   * Follows the edges from `cur` until END, collecting the nodes met; None when a name is
   * not a node, has no outgoing edge, or the walk does not reach END within `fuel` steps.
   */
  function Walk(nodes: map<string, Node>, edges: seq<Edge>, cur: string, fuel: nat): (r: Option<seq<Node>>)
    ensures r.Some? && cur != END ==> cur in nodes && |r.value| > 0 && r.value[0] == nodes[cur]
    decreases fuel
  {
    if cur == END then Some([])
    else if fuel == 0 || cur !in nodes || Target(edges, cur).None? then None
    else
      match Walk(nodes, edges, Target(edges, cur).value, fuel - 1)
      case None => None
      case Some(rest) => Some([nodes[cur]] + rest)
  }

  /** `StateGraph(ConversationState)`: registered nodes, edges and the entry point. */
  class StateGraph {
    var nodes: map<string, Node>
    var edges: seq<Edge>
    var entry: Option<string>

    constructor ()
      ensures nodes == map[] && edges == [] && entry == None
    {
      nodes := map[];
      edges := [];
      entry := None;
    }

    method AddNode(name: string, n: Node)
      modifies this
      ensures nodes == old(nodes)[name := n] && edges == old(edges) && entry == old(entry)
    {
      nodes := nodes[name := n];
    }

    method SetEntryPoint(name: string)
      modifies this
      ensures entry == Some(name) && nodes == old(nodes) && edges == old(edges)
    {
      entry := Some(name);
    }

    method AddEdge(from: string, to: string)
      modifies this
      ensures edges == old(edges) + [Edge(from, to)] && nodes == old(nodes) && entry == old(entry)
    {
      edges := edges + [Edge(from, to)];
    }

    /** `compile()`: the node order an invocation runs, or None for a malformed graph. */
    function Compile(): (r: Option<seq<Node>>)
      reads this
      ensures r.Some? ==> entry.Some? && (entry.value != END ==> entry.value in nodes && |r.value| > 0 && r.value[0] == nodes[entry.value])
    {
      if entry.None? then None else Walk(nodes, edges, entry.value, |edges|)
    }
  }

  /** The nodes and edges `build_graph` registers. */
  const NODES: map<string, Node> :=
    map["triage" := TriageNode, "database" := DatabaseNode, "policy" := PolicyNode, "resolution" := ResolutionNode]
  const EDGES: seq<Edge> :=
    [Edge("triage", "database"), Edge("database", "policy"), Edge("policy", "resolution"), Edge("resolution", END)]

  /** The order every invocation of the built graph runs. */
  const PIPELINE: seq<Node> := [TriageNode, DatabaseNode, PolicyNode, ResolutionNode]

  /** Each registered name's outgoing edge. */
  lemma EdgeTargets()
    ensures Target(EDGES, "triage") == Some("database")
    ensures Target(EDGES, "database") == Some("policy")
    ensures Target(EDGES, "policy") == Some("resolution")
    ensures Target(EDGES, "resolution") == Some(END)
  {
    var e1, e2, e3 := EDGES[1..], EDGES[2..], EDGES[3..];
    assert e1 == [Edge("database", "policy"), Edge("policy", "resolution"), Edge("resolution", END)];
    assert e2 == e1[1..] == [Edge("policy", "resolution"), Edge("resolution", END)];
    assert e3 == e2[1..] == [Edge("resolution", END)];
    assert Target(e2, "policy") == Some("resolution");
    assert Target(e1, "policy") == Some("resolution");
    assert Target(e3, "resolution") == Some(END);
    assert Target(e2, "resolution") == Some(END);
    assert Target(e1, "resolution") == Some(END);
  }

  /** From triage, the edges lead through the four nodes to the end, one edge per step. */
  lemma PipelineWalk()
    ensures Walk(NODES, EDGES, "triage", |EDGES|) == Some(PIPELINE)
  {
    EdgeTargets();
    assert NODES["resolution"] == ResolutionNode && NODES["policy"] == PolicyNode;
    assert NODES["database"] == DatabaseNode && NODES["triage"] == TriageNode;
    assert "resolution" != END && "policy" != END && "database" != END && "triage" != END;
    assert Walk(NODES, EDGES, END, 0) == Some([]);
    assert [ResolutionNode] + [] == [ResolutionNode];
    assert Walk(NODES, EDGES, "resolution", 1) == Some([ResolutionNode]);
    assert [PolicyNode] + [ResolutionNode] == [PolicyNode, ResolutionNode];
    assert Walk(NODES, EDGES, "policy", 2) == Some([PolicyNode, ResolutionNode]);
    assert [DatabaseNode] + [PolicyNode, ResolutionNode] == [DatabaseNode, PolicyNode, ResolutionNode];
    assert Walk(NODES, EDGES, "database", 3) == Some([DatabaseNode, PolicyNode, ResolutionNode]);
    assert [TriageNode] + [DatabaseNode, PolicyNode, ResolutionNode] == PIPELINE;
    assert |EDGES| == 4;
  }

  /** `build_graph()` */
  method BuildGraph() returns (g: StateGraph)
    ensures fresh(g)
    ensures g.entry == Some("triage")
    ensures g.Compile() == Some(PIPELINE)
  {
    g := new StateGraph();
    g.AddNode("triage", TriageNode);
    g.AddNode("database", DatabaseNode);
    g.AddNode("policy", PolicyNode);
    g.AddNode("resolution", ResolutionNode);
    g.SetEntryPoint("triage");
    g.AddEdge("triage", "database");
    g.AddEdge("database", "policy");
    g.AddEdge("policy", "resolution");
    g.AddEdge("resolution", END);
    assert g.nodes == NODES;
    assert g.edges == EDGES;
    PipelineWalk();
  }

  /** The guarded calls a node order makes. */
  function CallsOf(order: seq<Node>): (cs: seq<Call>)
    ensures |cs| == |order|
    ensures forall i :: 0 <= i < |order| ==> cs[i] == Call(NameOf(order[i]), BodyOf(order[i]))
  {
    seq(|order|, i requires 0 <= i < |order| => Call(NameOf(order[i]), BodyOf(order[i])))
  }

  lemma {:induction false} RunCallsSnoc(cs: seq<Call>, c: Call, s: State)
    ensures RunCalls(cs + [c], s) == Guarded(c.name, c.step, RunCalls(cs, s))
    decreases |cs|
  {
    if cs == [] {
      assert RunCalls([c], s) == RunCalls([], Guarded(c.name, c.step, s));
    } else {
      assert (cs + [c])[1..] == cs[1..] + [c];
      RunCallsSnoc(cs[1..], c, Guarded(cs[0].name, cs[0].step, s));
    }
  }

  /** Nodes run one after the other, each on the state the one before returned. */
  function RunNodes(order: seq<Node>, s: State): State {
    RunCalls(CallsOf(order), s)
  }

  /** Running one more node applies it to the state the others returned. */
  lemma RunNodesSnoc(order: seq<Node>, n: Node, s: State)
    ensures RunNodes(order + [n], s) == Apply(n, RunNodes(order, s))
  {
    assert CallsOf(order + [n]) == CallsOf(order) + [Call(NameOf(n), BodyOf(n))];
    RunCallsSnoc(CallsOf(order), Call(NameOf(n), BodyOf(n)), s);
  }

  /** One node, run in place on the conversation dictionary. */
  method RunNode(d: ConversationDict, n: Node)
    modifies d
    ensures d.Snapshot() == Apply(n, old(d.Snapshot()))
  {
    match n
    case TriageNode => TriageAgent(d);
    case DatabaseNode => DatabaseAgent(d);
    case PolicyNode => PolicyAgent(d);
    case ResolutionNode => ResolutionAgent(d);
  }

  /** `graph.ainvoke(state)` for a compiled node order: every node runs, in order. */
  method Invoke(d: ConversationDict, order: seq<Node>)
    modifies d
    ensures d.Snapshot() == RunNodes(order, old(d.Snapshot()))
  {
    for i := 0 to |order|
      invariant d.Snapshot() == RunNodes(order[..i], old(d.Snapshot()))
    {
      assert order[..i + 1] == order[..i] + [order[i]];
      RunNodesSnoc(order[..i], order[i], old(d.Snapshot()));
      RunNode(d, order[i]);
    }
    assert order[..|order|] == order;
  }

  // ---------------------------------------------------------------- properties

  /** The pipeline starts at triage and holds each agent exactly once, under distinct names. */
  lemma PipelineShape()
    ensures PIPELINE[0] == TriageNode && NameOf(PIPELINE[0]) == "triage"
    ensures forall n: Node :: n in PIPELINE
    ensures forall i, j :: 0 <= i < j < |PIPELINE| ==> NameOf(PIPELINE[i]) != NameOf(PIPELINE[j])
  {
    forall n: Node ensures n in PIPELINE {
      match n
      case TriageNode => assert PIPELINE[0] == n;
      case DatabaseNode => assert PIPELINE[1] == n;
      case PolicyNode => assert PIPELINE[2] == n;
      case ResolutionNode => assert PIPELINE[3] == n;
    }
  }

  /** Every agent body keeps the guard's bookkeeping fields. */
  lemma BodiesKeepAudit(n: Node)
    ensures KeepsAudit(BodyOf(n))
  {
    match n
    case TriageNode => TriageKeepsAudit();
    case DatabaseNode => DatabaseKeepsAudit();
    case PolicyNode => PolicyKeepsAudit();
    case ResolutionNode => ResolutionKeepsAudit();
  }

  /** Every call a node order makes keeps the guard's bookkeeping fields. */
  lemma CallsKeepAudit(order: seq<Node>)
    ensures forall i :: 0 <= i < |order| ==> KeepsAudit(CallsOf(order)[i].step)
  {
    forall i | 0 <= i < |order| ensures KeepsAudit(CallsOf(order)[i].step) {
      BodiesKeepAudit(order[i]);
    }
  }

  /** The names a sequence of calls uses. */
  function NamesOf(cs: seq<Call>): set<string> {
    set i | 0 <= i < |cs| :: cs[i].name
  }

  /**
   * Calls under pairwise distinct names raise each counter by one exactly when one of
   * them is named after it and it was under the limit; other counters stay.
   */
  lemma {:induction false} DistinctCallsCount(cs: seq<Call>, s: State, a: string)
    requires forall i :: 0 <= i < |cs| ==> KeepsAudit(cs[i].step)
    requires forall i, j :: 0 <= i < j < |cs| ==> cs[i].name != cs[j].name
    ensures Count(RunCalls(cs, s), a) == Count(s, a) + (if a in NamesOf(cs) && Count(s, a) < MAX_AGENT_CALLS then 1 else 0)
    decreases |cs|
  {
    if cs != [] {
      var next := Guarded(cs[0].name, cs[0].step, s);
      assert KeepsAudit(cs[0].step);
      GuardCounters(cs[0].name, cs[0].step, s, a);
      var rest := cs[1..];
      assert forall i :: 0 <= i < |rest| ==> rest[i] == cs[i + 1];
      DistinctCallsCount(rest, next, a);
      assert NamesOf(cs) == {cs[0].name} + NamesOf(rest) by {
        forall x | x in NamesOf(cs) ensures x in {cs[0].name} + NamesOf(rest) {
          var i :| 0 <= i < |cs| && cs[i].name == x;
          if i > 0 { assert rest[i - 1].name == x; }
        }
      }
      assert cs[0].name !in NamesOf(rest) by {
        forall i | 0 <= i < |rest| ensures rest[i].name != cs[0].name {
          assert rest[i] == cs[i + 1];
        }
      }
    }
  }

  /**
   * One invocation of the pipeline raises each agent's counter by one exactly when that
   * agent was under its limit, whatever the phase: a node after one that handed off still
   * runs. Names outside the pipeline keep their counters.
   */
  lemma InvocationCounts(s: State, a: string)
    ensures var r := RunNodes(PIPELINE, s);
      Count(r, a) == Count(s, a) + (if a in {"triage", "database", "policy", "resolution"} && Count(s, a) < MAX_AGENT_CALLS then 1 else 0)
  {
    var cs := CallsOf(PIPELINE);
    CallsKeepAudit(PIPELINE);
    PipelineShape();
    assert NamesOf(cs) == {"triage", "database", "policy", "resolution"} by {
      assert cs[0].name == "triage" && cs[1].name == "database" && cs[2].name == "policy" && cs[3].name == "resolution";
    }
    DistinctCallsCount(cs, s, a);
  }

  /** One invocation raises no counter by more than one. */
  lemma AtMostOnePerInvocation(s: State, a: string)
    ensures Count(s, a) <= Count(RunNodes(PIPELINE, s), a) <= Count(s, a) + 1
  {
    InvocationCounts(s, a);
  }

  /** Whatever order of nodes runs, no agent's body runs more than MAX_AGENT_CALLS times. */
  lemma NodesRunAtMostMax(order: seq<Node>, s: State, a: string)
    requires Count(s, a) <= MAX_AGENT_CALLS
    ensures Count(RunNodes(order, s), a) <= MAX_AGENT_CALLS
    ensures Executions(CallsOf(order), s, a) <= MAX_AGENT_CALLS - Count(s, a)
  {
    CallsKeepAudit(order);
    AtMostMaxExecutions(CallsOf(order), s, a);
  }

  /** The guard's audit invariant holds after any node order that starts from it. */
  lemma {:induction false} NodesPreserveAudit(order: seq<Node>, s: State)
    requires AuditInv(s)
    ensures AuditInv(RunNodes(order, s))
    decreases |order|
  {
    if order != [] {
      var init, last := order[..|order| - 1], order[|order| - 1];
      assert order == init + [last];
      NodesPreserveAudit(init, s);
      RunNodesSnoc(init, last, s);
      BodiesKeepAudit(last);
      GuardPreservesAudit(NameOf(last), BodyOf(last), RunNodes(init, s));
    }
  }
}
