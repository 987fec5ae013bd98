/** The workflow graph (`ChatbotDAG`): six nodes wired input -> decision -> (llm | tool) ->
    memory -> output -> END, with one conditional edge after the decision node; the run of a
    query through it (`process_query`); and the module-level singleton that caches the graph
    (`get_chatbot_dag`, `clear_dag_cache`). */
module Graph {
  import opened Common
  import opened Nodes
  import opened Validators

  /** The nodes of the graph, and `END`. */
  datatype Stage = InputNode | DecisionNode | LlmNode | ToolNode | MemoryNode | OutputNode | End

  /** The edges added by `_build_dag`. The decision node's edge is chosen by the route
      `_route_query` reads from the state (its `query_type`): `text` leads to the language
      model, `calculation` to the tool, and any other route has no edge. */
  function Successor(stage: Stage, route: string): Option<Stage>
  {
    match stage
    case InputNode => Some(DecisionNode)
    case DecisionNode =>
      if route == "text" then Some(LlmNode)
      else if route == "calculation" then Some(ToolNode)
      else None
    case LlmNode => Some(MemoryNode)
    case ToolNode => Some(MemoryNode)
    case MemoryNode => Some(OutputNode)
    case OutputNode => Some(End)
    case End => None
  }

  /** The depth of a stage: the number of edges from the entry point. */
  function Rank(stage: Stage): nat
  {
    match stage
    case InputNode => 0
    case DecisionNode => 1
    case LlmNode => 2
    case ToolNode => 2
    case MemoryNode => 3
    case OutputNode => 4
    case End => 5
  }

  /** Every edge goes one level deeper, so the graph has no cycle; and every edge except the
      decision node's ignores the route. */
  lemma EdgesDescend(stage: Stage, route: string, other: string)
    ensures Successor(stage, route).Some? ==> Rank(Successor(stage, route).value) == Rank(stage) + 1
    ensures stage != DecisionNode ==> Successor(stage, route) == Successor(stage, other)
    ensures Successor(stage, route).None? <==>
      stage == End || (stage == DecisionNode && route != "text" && route != "calculation")
  {
  }

  /** The node functions a graph is compiled over (the callables `_build_dag` registers with
      `add_node`), each mapping the state on entry to the state it leaves. */
  datatype NodeFunctions = NodeFunctions(
    input: State -> State,
    decision: State -> State,
    llm: State -> State,
    tool: State -> State,
    memory: State -> State,
    output: State -> State)

  /** The node `stage` applied to a state. */
  function Apply(stage: Stage, s: State, w: NodeFunctions): State
  {
    match stage
    case InputNode => w.input(s)
    case DecisionNode => w.decision(s)
    case LlmNode => w.llm(s)
    case ToolNode => w.tool(s)
    case MemoryNode => w.memory(s)
    case OutputNode => w.output(s)
    case End => s
  }

  /** The final state of a run that enters the graph at `stage` with the state `s`: the node
      runs, its edge is chosen by the route the updated state holds, and the run goes on from
      there; it stops at `END`, or where no edge leads on. */
  function RunFrom(stage: Stage, s: State, w: NodeFunctions): State
    decreases 5 - Rank(stage)
  {
    if stage == End then s
    else
      var t := Apply(stage, s, w);
      match Successor(stage, t.queryType)
      case None => t
      case Some(next) =>
        EdgesDescend(stage, t.queryType, t.queryType);
        RunFrom(next, t, w)
  }

  /** The nodes such a run visits, in order. */
  function Trace(stage: Stage, s: State, w: NodeFunctions): seq<Stage>
    decreases 5 - Rank(stage)
  {
    if stage == End then []
    else
      var t := Apply(stage, s, w);
      match Successor(stage, t.queryType)
      case None => [stage]
      case Some(next) =>
        EdgesDescend(stage, t.queryType, t.queryType);
        [stage] + Trace(next, t, w)
  }

  /** The memory and output nodes run one after the other and end the run. */
  lemma FinishFrom(s: State, w: NodeFunctions)
    ensures RunFrom(MemoryNode, s, w) == w.output(w.memory(s))
    ensures Trace(MemoryNode, s, w) == [MemoryNode, OutputNode]
  {
    var m := w.memory(s);
    assert RunFrom(OutputNode, m, w) == w.output(m);
    assert Trace(OutputNode, m, w) == [OutputNode];
  }

  /** The language model or the tool is followed by memory and output, whatever route the
      state holds. */
  lemma BranchFrom(stage: Stage, s: State, w: NodeFunctions)
    requires stage == LlmNode || stage == ToolNode
    ensures RunFrom(stage, s, w) == w.output(w.memory(Apply(stage, s, w)))
    ensures Trace(stage, s, w) == [stage, MemoryNode, OutputNode]
  {
    FinishFrom(Apply(stage, s, w), w);
  }

  /** From the decision node, a run whose decision picks one of the two routes takes the
      branch that route names. */
  lemma DecisionFrom(s: State, w: NodeFunctions)
    requires w.decision(s).queryType == "text" || w.decision(s).queryType == "calculation"
    ensures var d := w.decision(s);
      RunFrom(DecisionNode, s, w) ==
        w.output(w.memory(if d.queryType == "text" then w.llm(d) else w.tool(d)))
    ensures Trace(DecisionNode, s, w) ==
      [DecisionNode, if w.decision(s).queryType == "text" then LlmNode else ToolNode, MemoryNode, OutputNode]
  {
    var d := w.decision(s);
    var branch := if d.queryType == "text" then LlmNode else ToolNode;
    assert Successor(DecisionNode, d.queryType) == Some(branch);
    BranchFrom(branch, d, w);
    assert [DecisionNode] + [branch, MemoryNode, OutputNode] == [DecisionNode, branch, MemoryNode, OutputNode];
  }

  /** From the entry point, a run whose decision picks one of the two routes goes through
      all the nodes. */
  lemma EntryFrom(s0: State, w: NodeFunctions)
    requires w.decision(w.input(s0)).queryType == "text" || w.decision(w.input(s0)).queryType == "calculation"
    ensures var d := w.decision(w.input(s0));
      RunFrom(InputNode, s0, w) ==
        w.output(w.memory(if d.queryType == "text" then w.llm(d) else w.tool(d)))
    ensures Trace(InputNode, s0, w) ==
      [InputNode, DecisionNode, if w.decision(w.input(s0)).queryType == "text" then LlmNode else ToolNode,
       MemoryNode, OutputNode]
  {
    var e := w.input(s0);
    assert Successor(InputNode, e.queryType) == Some(DecisionNode);
    DecisionFrom(e, w);
  }

  lemma AppendRegroups(visited: seq<Stage>, stage: Stage, rest: seq<Stage>)
    ensures visited + [stage] + rest == visited + ([stage] + rest)
  {
  }

  /** The chatbot's own nodes (`ChatbotNodes`), over one language model and one evaluator. */
  function ChatbotNodes(llm: LanguageModel, evaluate: Evaluator): NodeFunctions
  {
    NodeFunctions(InputStage, DecisionStage, s => LlmStage(s, llm), s => ToolStage(s, evaluate),
                  MemoryStage, OutputStage)
  }

  /** The language model or the tool, as the route says. */
  function Branch(s: State, llm: LanguageModel, evaluate: Evaluator): State
  {
    if s.queryType == "calculation" then ToolStage(s, evaluate) else LlmStage(s, llm)
  }

  /** The final state of a complete run of the chatbot's graph from the entry point. */
  function Run(s0: State, llm: LanguageModel, evaluate: Evaluator): State
  {
    RunFrom(InputNode, s0, ChatbotNodes(llm, evaluate))
  }

  /** The state after the decision node in a run that started from `s0`. */
  function Decided(s0: State): State
  {
    DecisionStage(InputStage(s0))
  }

  /** The state after the language model or the tool. */
  function Answered(s0: State, llm: LanguageModel, evaluate: Evaluator): State
  {
    Branch(Decided(s0), llm, evaluate)
  }

  /** A complete run is the six nodes composed along the route the decision node chose, and
      it visits input, decision, exactly one of the language model and the tool, memory and
      output, in that order; no error ends a run early. */
  lemma {:induction false} EveryRunVisitsAllStages(s0: State, llm: LanguageModel, evaluate: Evaluator)
    ensures Run(s0, llm, evaluate) == OutputStage(MemoryStage(Answered(s0, llm, evaluate)))
    ensures var visited := Trace(InputNode, s0, ChatbotNodes(llm, evaluate));
      && visited == [InputNode, DecisionNode, if Decided(s0).queryType == "text" then LlmNode else ToolNode,
                     MemoryNode, OutputNode]
      && (LlmNode in visited <==> ToolNode !in visited)
      && (ToolNode in visited <==> IsCalculationQuery(InputStage(s0).userQuery))
  {
    var w := ChatbotNodes(llm, evaluate);
    var d := Decided(s0);
    assert w.decision(w.input(s0)) == d;
    EntryFrom(s0, w);
    assert (if d.queryType == "text" then w.llm(d) else w.tool(d)) == Branch(d, llm, evaluate);
    var branch := if d.queryType == "text" then LlmNode else ToolNode;
    OneBranchVisited(branch);
    DecisionStageRoutes(InputStage(s0));
    assert branch == ToolNode <==> d.queryType == "calculation";
  }

  /** A path through the graph holds one of the two branches and not the other. */
  lemma OneBranchVisited(branch: Stage)
    requires branch == LlmNode || branch == ToolNode
    ensures var visited := [InputNode, DecisionNode, branch, MemoryNode, OutputNode];
      && (LlmNode in visited <==> ToolNode !in visited)
      && (ToolNode in visited <==> branch == ToolNode)
  {
  }

  /** The initial state `process_query` builds; a missing history is the empty one. */
  function InitialState(userQuery: string, sessionId: string, history: seq<Message>): State
  {
    State(userQuery, "", "", "", "", history, sessionId)
  }

  /** The dictionary `process_query` returns. */
  datatype QueryResult = QueryResult(
    success: bool,
    response: string,
    queryType: string,
    chatHistory: seq<Message>,
    calculationResult: string,
    error: string)

  const FaultResponse := "An error occurred while processing your request."

  /** A complete run always ends with a response, a route, and the exchange recorded as the
      last two entries of a history of at most twenty messages; the recorded reply is the one
      before the output node's fallback. */
  lemma {:induction false} RunOutcome(s0: State, llm: LanguageModel, evaluate: Evaluator)
    ensures Run(s0, llm, evaluate).response != []
    ensures Run(s0, llm, evaluate).queryType == Decided(s0).queryType
    ensures Run(s0, llm, evaluate).error == Answered(s0, llm, evaluate).error
    ensures var t := Run(s0, llm, evaluate);
      var n := |s0.chatHistory| + 2;
      && |t.chatHistory| == (if n < MaxHistory then n else MaxHistory)
      && t.chatHistory[|t.chatHistory| - 2] == Message("user", InputStage(s0).userQuery, Some(t.queryType))
      && t.chatHistory[|t.chatHistory| - 1] ==
        Message("assistant", Answered(s0, llm, evaluate).response, None)
  {
    EveryRunVisitsAllStages(s0, llm, evaluate);
    BranchKeepsQuery(Decided(s0), llm, evaluate);
    FinishOutcome(Answered(s0, llm, evaluate));
  }

  lemma BranchKeepsQuery(s: State, llm: LanguageModel, evaluate: Evaluator)
    ensures var b := Branch(s, llm, evaluate);
      b.userQuery == s.userQuery && b.queryType == s.queryType && b.chatHistory == s.chatHistory
  {
  }

  /** The memory and output nodes together. */
  lemma {:induction false} FinishOutcome(b: State)
    ensures var t := OutputStage(MemoryStage(b));
      var n := |b.chatHistory| + 2;
      && t.response != [] && t.queryType == b.queryType && t.error == b.error
      && |t.chatHistory| == (if n < MaxHistory then n else MaxHistory)
      && t.chatHistory[|t.chatHistory| - 2] == Message("user", b.userQuery, Some(b.queryType))
      && t.chatHistory[|t.chatHistory| - 1] == Message("assistant", b.response, None)
  {
    MemoryStageKeepsLatest(b);
  }

  /** An error recorded at the input node survives to the end of the run unless the language
      model or the evaluator fails, and the run still goes through every later stage. */
  lemma {:induction false} InputErrorPersists(s0: State, llm: LanguageModel, evaluate: Evaluator)
    ensures var entered := InputStage(s0);
      var decided := DecisionStage(entered);
      var t := Run(s0, llm, evaluate);
      && (decided.queryType == "text" && llm(decided.userQuery, HistoryText(decided.chatHistory)).Ok? ==>
          t.error == entered.error)
      && (decided.queryType == "calculation" && evaluate(ExtractMathExpression(decided.userQuery)).Ok? ==>
          t.error == entered.error)
      && |t.chatHistory| >= 2
  {
    var entered := InputStage(s0);
    var decided := DecisionStage(entered);
    LlmStageAbsorbsFailure(decided, llm);
    ToolStageOutcome(decided, evaluate);
    RunOutcome(s0, llm, evaluate);
  }

  /** An empty query (which is what a query made only of a tag sanitises to) is flagged by the
      input node, routed to the language model all the same, and, when the model answers,
      ends the run with the input node's error. */
  lemma {:induction false} EmptyQueryStillRuns(s0: State, llm: LanguageModel, evaluate: Evaluator)
    requires s0.userQuery == []
    requires llm([], HistoryText(s0.chatHistory)).Ok?
    ensures Decided(s0).queryType == "text"
    ensures Trace(InputNode, s0, ChatbotNodes(llm, evaluate)) ==
      [InputNode, DecisionNode, LlmNode, MemoryNode, OutputNode]
    ensures Run(s0, llm, evaluate).error == NoQueryError
  {
    InputStageRefuses(s0, NoQueryError);
    DecisionStageRoutes(InputStage(s0));
    NothingIsCalculation();
    EveryRunVisitsAllStages(s0, llm, evaluate);
    InputErrorPersists(s0, llm, evaluate);
  }

  /** An accepted query that reads as a calculation, and whose extracted expression the
      evaluator accepts, is answered with the announcement of the result. */
  lemma {:induction false} CalculationRun(s0: State, llm: LanguageModel, evaluate: Evaluator, value: string)
    requires s0.userQuery != [] && ValidateQuery(PyStr(s0.userQuery)) == Accept
    requires IsCalculationQuery(Sanitize(s0.userQuery))
    requires evaluate(ExtractMathExpression(Sanitize(s0.userQuery))) == Ok(value)
    ensures var t := Run(s0, llm, evaluate);
      && t.response == "The result of " + ExtractMathExpression(Sanitize(s0.userQuery)) + " is " + value
      && t.queryType == "calculation" && t.calculationResult == value && t.error == s0.error
  {
    InputStageAccepts(s0);
    var d := Decided(s0);
    DecisionStageRoutes(InputStage(s0));
    assert d.queryType == "calculation";
    ToolStageOutcome(d, evaluate);
    var a := Answered(s0, llm, evaluate);
    assert a == ToolStage(d, evaluate);
    MemoryStageKeepsLatest(a);
    OutputStageSettles(MemoryStage(a));
    EveryRunVisitsAllStages(s0, llm, evaluate);
  }

  /** An empty reply from the language model is answered with the fixed fallback, while the
      history keeps the empty reply: the memory node runs before the output node. */
  lemma {:induction false} EmptyReplyFallsBack(s0: State, llm: LanguageModel, evaluate: Evaluator)
    requires Decided(s0).queryType == "text"
    requires llm(Decided(s0).userQuery, HistoryText(Decided(s0).chatHistory)) == Ok("")
    ensures Run(s0, llm, evaluate).response == NoResponseFallback
    ensures var h := Run(s0, llm, evaluate).chatHistory;
      |h| >= 2 && h[|h| - 1] == Message("assistant", "", None)
  {
    var d := Decided(s0);
    LlmStageAbsorbsFailure(d, llm);
    var a := Answered(s0, llm, evaluate);
    assert a == LlmStage(d, llm) && a.response == "";
    MemoryStageKeepsLatest(a);
    EveryRunVisitsAllStages(s0, llm, evaluate);
  }

  /** The example of the graph module's own documentation: "What is 5 + 3?" is routed to the
      tool and, when the evaluator gives 8, answered "The result of 5 + 3 is 8". */
  lemma {:induction false} DocumentedExample(llm: LanguageModel, evaluate: Evaluator)
    requires evaluate("5 + 3") == Ok("8")
    ensures Run(InitialState("What is 5 + 3?", "session-123", []), llm, evaluate).response ==
      "The result of 5 + 3 is 8"
  {
    var q := "What is 5 + 3?";
    var s0 := InitialState(q, "session-123", []);
    DocumentedQueryIsClean();
    DocumentedCalculation();
    DocumentedExpression();
    CalculationRun(s0, llm, evaluate, "8");
    DocumentedAnnouncement();
  }

  lemma DocumentedAnnouncement()
    ensures "The result of " + "5 + 3" + " is " + "8" == "The result of 5 + 3 is 8"
  {
  }

  /** `ChatbotDAG`: the compiled graph over one set of node implementations. */
  class ChatbotDag {
    const nodes: WorkflowNodes

    constructor(llm: LanguageModel, evaluate: Evaluator)
      ensures nodes.llm == llm && nodes.evaluate == evaluate
    {
      nodes := new WorkflowNodes(llm, evaluate);
    }

    /** Run the node `stage` names on the state. */
    method RunNode(stage: Stage, st: GraphState)
      modifies st
      ensures st.Snapshot() == Apply(stage, old(st.Snapshot()), ChatbotNodes(nodes.llm, nodes.evaluate))
    {
      match stage {
        case InputNode => WorkflowNodes.InputNode(st);
        case DecisionNode => WorkflowNodes.DecisionNode(st);
        case LlmNode => nodes.LlmNode(st);
        case ToolNode => nodes.ToolNode(st);
        case MemoryNode => WorkflowNodes.MemoryNode(st);
        case OutputNode => WorkflowNodes.OutputNode(st);
        case End =>
      }
    }

    /** `graph.invoke`: starting at the entry point, run each node on the state and follow
        the edge the updated state's route selects, until `END`. Returns the stages visited. */
    method Invoke(st: GraphState) returns (visited: seq<Stage>)
      modifies st
      ensures st.Snapshot() == Run(old(st.Snapshot()), nodes.llm, nodes.evaluate)
      ensures visited == Trace(InputNode, old(st.Snapshot()), ChatbotNodes(nodes.llm, nodes.evaluate))
    {
      ghost var s0 := st.Snapshot();
      ghost var w := ChatbotNodes(nodes.llm, nodes.evaluate);
      var stage := InputNode;
      visited := [];
      while stage != End
        invariant RunFrom(stage, st.Snapshot(), w) == RunFrom(InputNode, s0, w)
        invariant visited + Trace(stage, st.Snapshot(), w) == Trace(InputNode, s0, w)
        decreases 5 - Rank(stage)
      {
        ghost var before := st.Snapshot();
        RunNode(stage, st);
        if stage == DecisionNode {
          assert st.Snapshot() == DecisionStage(before);
        }
        EdgesDescend(stage, st.queryType, st.queryType);
        var next := Successor(stage, st.queryType);
        if next.None? {
          // Only the decision node can lack an edge, and it always picks a route that has one.
          assert false;
        }
        assert Trace(stage, before, w) == [stage] + Trace(next.value, st.Snapshot(), w);
        AppendRegroups(visited, stage, Trace(next.value, st.Snapshot(), w));
        visited := visited + [stage];
        stage := next.value;
      }
    }

    /** `process_query`: run the graph on a fresh state. If the graph engine itself raises
        (`engineFault`), the result reports failure with a fixed message and the history it
        was given; otherwise it carries the final state. */
    method ProcessQuery(userQuery: string, sessionId: string, sessionHistory: seq<Message>,
                        engineFault: Option<string>)
      returns (r: QueryResult)
      ensures engineFault.Some? ==>
        r == QueryResult(false, FaultResponse, "", sessionHistory, "", engineFault.value)
      ensures engineFault.None? ==>
        var t := Run(InitialState(userQuery, sessionId, sessionHistory), nodes.llm, nodes.evaluate);
        r == QueryResult(true, t.response, t.queryType, t.chatHistory, t.calculationResult, t.error)
      ensures r.response != []
      ensures r.success ==> 2 <= |r.chatHistory| <= MaxHistory
      ensures r.success ==> r.queryType == "text" || r.queryType == "calculation"
    {
      var st := new GraphState(InitialState(userQuery, sessionId, sessionHistory));
      var visited := Invoke(st);
      if engineFault.Some? {
        return QueryResult(false, FaultResponse, "", sessionHistory, "", engineFault.value);
      }
      RunOutcome(InitialState(userQuery, sessionId, sessionHistory), nodes.llm, nodes.evaluate);
      r := QueryResult(true, st.response, st.queryType, st.chatHistory, st.calculationResult, st.error);
    }
  }

  /** The module-level `_chatbot_dag_instance` with `get_chatbot_dag` and `clear_dag_cache`. */
  class DagRegistry {
    var instance: ChatbotDag?

    constructor()
      ensures instance == null
    {
      instance := null;
    }

    /** `get_chatbot_dag`: build the graph on first use, then keep handing out the same one. */
    method GetChatbotDag(llm: LanguageModel, evaluate: Evaluator) returns (dag: ChatbotDag)
      modifies this
      ensures old(instance) != null ==> dag == old(instance)
      ensures old(instance) == null ==> fresh(dag) && dag.nodes.llm == llm && dag.nodes.evaluate == evaluate
      ensures instance == dag
    {
      if instance == null {
        instance := new ChatbotDag(llm, evaluate);
      }
      dag := instance;
    }

    /** `clear_dag_cache`: forget the cached graph. */
    method ClearDagCache()
      modifies this
      ensures instance == null
    {
      instance := null;
    }
  }
}
