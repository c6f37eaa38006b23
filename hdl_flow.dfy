/**
 * The optimisation graph: four nodes over a shared key-value state, run in
 * the wired order resource_init, agent, compile_check, resource_final.
 *
 * Each node reads the state and returns a partial update, which is merged
 * into the state (a later value for a key replaces the earlier one). A node
 * that raises stops the run. The resource runner (with the summary of its
 * report), the compile runner, the chat model and file reads are
 * collaborators passed in; the calls made to them are recorded in order.
 *
 * No node writes optimised files: the later nodes run on the original
 * `hdl_paths`.
 */
module HdlFlow {
  import opened Common
  import opened Prompts
  import CompileCheck

  // ---------------------------------------------------------------------
  // State
  // ---------------------------------------------------------------------

  /** The values the state holds. */
  datatype Value =
    | PathList(paths: seq<string>)
    | Str(s: string)
    | MessageList(messages: seq<Message>)
    | Reply(message: Message)
    | Flag(b: bool)
    | OptStr(o: Option<string>)

  /** The keys `HdlOptState` declares. */
  datatype Key =
    | HdlPathsKey | QueryKey | ChatHistoryKey | SystemPromptKey
    | TopNameKey | HdlBundleKey | BaseSummaryKey | MessagesKey
    | AgentResponseKey
    | CompileOkKey | CompileErrorsKey
    | FinalSummaryKey | SummaryTextKey

  /** The key as the state dict spells it. */
  function KeyName(k: Key): string {
    match k
    case HdlPathsKey => "hdl_paths"
    case QueryKey => "query"
    case ChatHistoryKey => "chat_history"
    case SystemPromptKey => "system_prompt"
    case TopNameKey => "top_name"
    case HdlBundleKey => "hdl_bundle"
    case BaseSummaryKey => "base_summary"
    case MessagesKey => "messages"
    case AgentResponseKey => "agent_response"
    case CompileOkKey => "compile_ok"
    case CompileErrorsKey => "compile_errors"
    case FinalSummaryKey => "final_summary"
    case SummaryTextKey => "summary_text"
  }

  /** The flow's inputs, provided in the initial state. */
  const InputKeys: set<Key> := {HdlPathsKey, QueryKey, ChatHistoryKey, SystemPromptKey}

  type State = map<Key, Value>

  /** A missing key, a value of the wrong shape, a raised `ValueError`, a failing resource run, or a route through an unregistered node. */
  datatype FlowError = KeyError(key: Key) | TypeError(key: Key) | ValueError(message: string) | RunnerError(message: string)
    | UnknownNode(name: string)

  function GetPaths(st: State, key: Key): (r: Result<seq<string>, FlowError>)
    ensures r.Ok? <==> key in st && st[key].PathList?
    ensures r.Ok? ==> r.value == st[key].paths
  {
    if key !in st then Err(KeyError(key))
    else if st[key].PathList? then Ok(st[key].paths)
    else Err(TypeError(key))
  }

  function GetStr(st: State, key: Key): (r: Result<string, FlowError>)
    ensures r.Ok? <==> key in st && st[key].Str?
    ensures r.Ok? ==> r.value == st[key].s
  {
    if key !in st then Err(KeyError(key))
    else if st[key].Str? then Ok(st[key].s)
    else Err(TypeError(key))
  }

  function GetMessages(st: State, key: Key): (r: Result<seq<Message>, FlowError>)
    ensures r.Ok? <==> key in st && st[key].MessageList?
    ensures r.Ok? ==> r.value == st[key].messages
  {
    if key !in st then Err(KeyError(key))
    else if st[key].MessageList? then Ok(st[key].messages)
    else Err(TypeError(key))
  }

  // ---------------------------------------------------------------------
  // Collaborators and the nodes
  // ---------------------------------------------------------------------

  /** A call made to a collaborator. */
  datatype Call = RunnerCall(paths: seq<string>, top: string) | LlmCall(messages: seq<Message>) | CompileCall(paths: seq<string>, top: string)

  /**
   * `resourceSummary(paths, top)` is the summary of the report the resource
   * runner returns, or the message of what it raised.
   */
  datatype Collaborators = Collaborators(
    read: string -> ReadOutcome,
    resourceSummary: (seq<string>, string) -> Result<string, string>,
    compile: (seq<string>, string) -> CompileCheck.CompileCheckResult,
    llm: seq<Message> -> Message)

  /** The calls a node made and the update it returned, or what it raised. */
  datatype NodeOutcome = NodeOutcome(calls: seq<Call>, update: Result<State, FlowError>)

  const InitNoPaths: string := "resource_init_node: no HDL paths provided"
  const CompileNoPaths: string := "compile_check_node: no HDL paths provided"
  const FinalNoPaths: string := "resource_final_node: no HDL paths provided"

  const Indent4: string := "    "
  const Indent8: string := Indent4 + Indent4
  const Indent12: string := Indent8 + Indent4

  /** The graph's design prompt: template lines indented by eight spaces, the bundle by twelve, the closing quotes by four. */
  function FlowDesignPrompt(query: string, top: string, baseSummary: string, bundle: string): string {
    DesignPrompt(Indent8, Indent12, Indent4, query, top, baseSummary, bundle)
  }

  /** The part of `resource_init_node` after the baseline run: the query, system prompt and history are read, in that order. */
  function InitUpdate(st: State, top: string, bundle: string, summary: string): (r: Result<State, FlowError>)
    ensures r.Ok? <==> GetStr(st, QueryKey).Ok? && GetStr(st, SystemPromptKey).Ok? && GetMessages(st, ChatHistoryKey).Ok?
    ensures r.Ok? ==> r.value.Keys == {TopNameKey, HdlBundleKey, BaseSummaryKey, MessagesKey}
  {
    var query :- GetStr(st, QueryKey);
    var system :- GetStr(st, SystemPromptKey);
    var history :- GetMessages(st, ChatHistoryKey);
    var messages := Conversation(system, history, FlowDesignPrompt(query, top, summary, bundle));
    Ok(map[TopNameKey := Str(top), HdlBundleKey := Str(bundle), BaseSummaryKey := Str(summary),
           MessagesKey := MessageList(messages)])
  }

  /**
   * `resource_init_node`: empty `hdl_paths` raise before anything is read or
   * run; otherwise the baseline resource run is the one call, and the update
   * holds exactly the top name (the stem of the first path), the bundle, the
   * baseline summary and `[system, *history, human]`.
   */
  function ResourceInitNode(st: State, env: Collaborators): (o: NodeOutcome)
    ensures GetPaths(st, HdlPathsKey) == Ok([]) ==> o == NodeOutcome([], Err(ValueError(InitNoPaths)))
    ensures o.calls != [] ==>
      && GetPaths(st, HdlPathsKey).Ok?
      && var paths := st[HdlPathsKey].paths;
      && paths != [] && o.calls == [RunnerCall(paths, PathStem(paths[0]))]
    ensures o.update.Ok? ==>
      && o.calls != [] && GetPaths(st, HdlPathsKey).Ok?
      && GetStr(st, QueryKey).Ok? && GetStr(st, SystemPromptKey).Ok? && GetMessages(st, ChatHistoryKey).Ok?
      && var paths := st[HdlPathsKey].paths;
      && var top := PathStem(paths[0]);
      && env.resourceSummary(paths, top).Ok?
      && o.update.value.Keys == {TopNameKey, HdlBundleKey, BaseSummaryKey, MessagesKey}
      && o.update.value[TopNameKey] == Str(top)
      && o.update.value[HdlBundleKey] == Str(Bundle(paths, env.read))
      && o.update.value[BaseSummaryKey] == Str(env.resourceSummary(paths, top).value)
      && o.update.value[MessagesKey].MessageList?
  {
    match GetPaths(st, HdlPathsKey)
    case Err(e) => NodeOutcome([], Err(e))
    case Ok(paths) =>
      if paths == [] then NodeOutcome([], Err(ValueError(InitNoPaths)))
      else
        var top := PathStem(paths[0]);
        var bundle := Bundle(paths, env.read);
        var calls := [RunnerCall(paths, top)];
        match env.resourceSummary(paths, top)
        case Err(m) => NodeOutcome(calls, Err(RunnerError(m)))
        case Ok(summary) => NodeOutcome(calls, InitUpdate(st, top, bundle, summary))
  }

  /**
   * The messages `resource_init_node` stores: the system prompt, the chat
   * history unchanged, and the design prompt built from the query, the stem
   * of the first path, the baseline summary and the bundle of all paths.
   */
  lemma InitMessages(st: State, env: Collaborators)
    requires WellFormedInputs(st)
    requires env.resourceSummary(st[HdlPathsKey].paths, PathStem(st[HdlPathsKey].paths[0])).Ok?
    ensures var o := ResourceInitNode(st, env);
      var paths := st[HdlPathsKey].paths;
      var top := PathStem(paths[0]);
      && o.update.Ok?
      && o.update.value[MessagesKey] == MessageList(Conversation(st[SystemPromptKey].s, st[ChatHistoryKey].messages,
           FlowDesignPrompt(st[QueryKey].s, top, env.resourceSummary(paths, top).value, Bundle(paths, env.read))))
  {
  }

  /** The agent node: the model is called on `messages`, and the update holds only its reply. */
  function AgentNode(st: State, env: Collaborators): (o: NodeOutcome)
    ensures o.update.Ok? <==> GetMessages(st, MessagesKey).Ok?
    ensures o.update.Ok? ==>
      && o.calls == [LlmCall(st[MessagesKey].messages)]
      && o.update.value == map[AgentResponseKey := Reply(env.llm(st[MessagesKey].messages))]
    ensures o.update.Err? ==> o.calls == []
  {
    match GetMessages(st, MessagesKey)
    case Err(e) => NodeOutcome([], Err(e))
    case Ok(ms) => NodeOutcome([LlmCall(ms)], Ok(map[AgentResponseKey := Reply(env.llm(ms))]))
  }

  /**
   * `compile_check_node`: empty `hdl_paths` raise; otherwise the compile
   * runner is called on the original paths and the state's top name, and the
   * update holds exactly its `ok` and `errors`.
   */
  function CompileCheckNode(st: State, env: Collaborators): (o: NodeOutcome)
    ensures GetPaths(st, HdlPathsKey) == Ok([]) ==> o == NodeOutcome([], Err(ValueError(CompileNoPaths)))
    ensures o.update.Ok? <==>
      GetPaths(st, HdlPathsKey).Ok? && st[HdlPathsKey].paths != [] && GetStr(st, TopNameKey).Ok?
    ensures o.update.Ok? ==>
      var paths, top := st[HdlPathsKey].paths, st[TopNameKey].s;
      && o.calls == [CompileCall(paths, top)]
      && o.update.value == map[CompileOkKey := Flag(env.compile(paths, top).ok),
                               CompileErrorsKey := OptStr(env.compile(paths, top).errors)]
    ensures o.update.Err? ==> o.calls == []
  {
    match GetPaths(st, HdlPathsKey)
    case Err(e) => NodeOutcome([], Err(e))
    case Ok(paths) =>
      if paths == [] then NodeOutcome([], Err(ValueError(CompileNoPaths)))
      else
        match GetStr(st, TopNameKey)
        case Err(e) => NodeOutcome([], Err(e))
        case Ok(top) =>
          var result := env.compile(paths, top);
          NodeOutcome([CompileCall(paths, top)],
                      Ok(map[CompileOkKey := Flag(result.ok), CompileErrorsKey := OptStr(result.errors)]))
  }

  const SummaryHeading: string := "\n\n---\n" + "Resource utilization summary (stub):\n"
  const BeforeLabel: string := "- Before optimization: "
  const AfterLabel: string := "- After optimization:  "

  /** The closing summary text: the heading, then the baseline and the final summaries on labelled lines. */
  function SummaryText(base: string, final: string): (t: string)
    ensures Contains(t, BeforeLabel + base + "\n") && Contains(t, AfterLabel + final + "\n")
  {
    var before := BeforeLabel + base + "\n";
    var after := AfterLabel + final + "\n";
    ContainsMiddle(SummaryHeading, before, after);
    ContainsMiddle(SummaryHeading + before, after, "");
    assert SummaryHeading + before + after + "" == SummaryHeading + before + after;
    SummaryHeading + before + after
  }

  /** The part of `resource_final_node` after the final run: the baseline summary is read then. */
  function FinalUpdate(st: State, top: string, final: string): (r: Result<State, FlowError>)
    ensures r.Ok? <==> GetStr(st, BaseSummaryKey).Ok?
    ensures r.Ok? ==> r.value.Keys == {FinalSummaryKey, SummaryTextKey, TopNameKey}
  {
    var base :- GetStr(st, BaseSummaryKey);
    Ok(map[FinalSummaryKey := Str(final), SummaryTextKey := Str(SummaryText(base, final)), TopNameKey := Str(top)])
  }

  /**
   * `resource_final_node`: empty `hdl_paths` raise; otherwise the resource
   * runner is called again on the original paths and the state's top name;
   * the update holds the final summary, the summary text, and the top name
   * unchanged.
   */
  function ResourceFinalNode(st: State, env: Collaborators): (o: NodeOutcome)
    ensures GetPaths(st, HdlPathsKey) == Ok([]) ==> o == NodeOutcome([], Err(ValueError(FinalNoPaths)))
    ensures o.update.Ok? ==>
      && GetPaths(st, HdlPathsKey).Ok? && GetStr(st, TopNameKey).Ok?
      && var paths, top := st[HdlPathsKey].paths, st[TopNameKey].s;
      && paths != []
      && o.calls == [RunnerCall(paths, top)]
      && env.resourceSummary(paths, top).Ok? && GetStr(st, BaseSummaryKey).Ok?
      && o.update.value.Keys == {FinalSummaryKey, SummaryTextKey, TopNameKey}
      && o.update.value[TopNameKey] == st[TopNameKey]
      && o.update.value[FinalSummaryKey] == Str(env.resourceSummary(paths, top).value)
  {
    match GetPaths(st, HdlPathsKey)
    case Err(e) => NodeOutcome([], Err(e))
    case Ok(paths) =>
      if paths == [] then NodeOutcome([], Err(ValueError(FinalNoPaths)))
      else
        match GetStr(st, TopNameKey)
        case Err(e) => NodeOutcome([], Err(e))
        case Ok(top) =>
          var calls := [RunnerCall(paths, top)];
          match env.resourceSummary(paths, top)
          case Err(m) => NodeOutcome(calls, Err(RunnerError(m)))
          case Ok(final) => NodeOutcome(calls, FinalUpdate(st, top, final))
  }

  /** The summary text `resource_final_node` stores pairs the stored baseline summary with the final one. */
  lemma FinalSummaryText(st: State, env: Collaborators)
    requires GetPaths(st, HdlPathsKey).Ok? && st[HdlPathsKey].paths != [] && GetStr(st, TopNameKey).Ok?
    requires GetStr(st, BaseSummaryKey).Ok? && env.resourceSummary(st[HdlPathsKey].paths, st[TopNameKey].s).Ok?
    ensures var o := ResourceFinalNode(st, env);
      && o.update.Ok?
      && o.update.value[SummaryTextKey]
         == Str(SummaryText(st[BaseSummaryKey].s, env.resourceSummary(st[HdlPathsKey].paths, st[TopNameKey].s).value))
  {
  }

  // ---------------------------------------------------------------------
  // The graph
  // ---------------------------------------------------------------------

  datatype NodeId = ResourceInit | Agent | CompileCheckStep | ResourceFinal

  /** The function registered under a node name. */
  function RunNode(id: NodeId, st: State, env: Collaborators): NodeOutcome {
    match id
    case ResourceInit => ResourceInitNode(st, env)
    case Agent => AgentNode(st, env)
    case CompileCheckStep => CompileCheckNode(st, env)
    case ResourceFinal => ResourceFinalNode(st, env)
  }

  const ResourceInitName: string := "resource_init"
  const AgentName: string := "agent"
  const CompileCheckName: string := "compile_check"
  const ResourceFinalName: string := "resource_final"
  const End: string := "__end__"

  /** A graph under construction: its named nodes, its edges in the order added, and its entry point. */
  class StateGraph {
    var nodes: map<string, NodeId>
    var edges: seq<(string, string)>
    var entry: Option<string>

    constructor()
      ensures nodes == map[] && edges == [] && entry == None
    {
      nodes := map[];
      edges := [];
      entry := None;
    }

    /** `add_node`: a name may be registered once. */
    method AddNode(name: string, id: NodeId)
      requires name !in nodes && name != End
      modifies this
      ensures nodes == old(nodes)[name := id] && edges == old(edges) && entry == old(entry)
    {
      nodes := nodes[name := id];
    }

    method AddEdge(from: string, to: string)
      modifies this
      ensures edges == old(edges) + [(from, to)] && nodes == old(nodes) && entry == old(entry)
    {
      edges := edges + [(from, to)];
    }

    method SetEntryPoint(name: string)
      modifies this
      ensures entry == Some(name) && nodes == old(nodes) && edges == old(edges)
    {
      entry := Some(name);
    }
  }

  const WiredNodes: map<string, NodeId> :=
    map[ResourceInitName := ResourceInit, AgentName := Agent, CompileCheckName := CompileCheckStep,
        ResourceFinalName := ResourceFinal]

  const WiredEdges: seq<(string, string)> :=
    [(ResourceInitName, AgentName), (AgentName, CompileCheckName), (CompileCheckName, ResourceFinalName),
     (ResourceFinalName, End)]

  /** The wiring of `build_hdl_optimization_graph`. */
  method BuildGraph() returns (g: StateGraph)
    ensures fresh(g)
    ensures g.nodes == WiredNodes && g.edges == WiredEdges && g.entry == Some(ResourceInitName)
  {
    g := new StateGraph();
    g.AddNode(ResourceInitName, ResourceInit);
    g.AddNode(AgentName, Agent);
    g.AddNode(CompileCheckName, CompileCheckStep);
    g.AddNode(ResourceFinalName, ResourceFinal);
    g.SetEntryPoint(ResourceInitName);
    g.AddEdge(ResourceInitName, AgentName);
    g.AddEdge(AgentName, CompileCheckName);
    g.AddEdge(CompileCheckName, ResourceFinalName);
    g.AddEdge(ResourceFinalName, End);
  }

  /** The target of the first edge leaving `from`. */
  function Successor(edges: seq<(string, string)>, from: string): (r: Option<string>)
    ensures r.Some? ==> exists k :: 0 <= k < |edges| && edges[k] == (from, r.value)
  {
    if edges == [] then None
    else if edges[0].0 == from then Some(edges[0].1)
    else
      var r := Successor(edges[1..], from);
      if r.Some? then
        ghost var k :| 0 <= k < |edges[1..]| && edges[1..][k] == (from, r.value);
        assert edges[k + 1] == (from, r.value);
        r
      else r
  }

  /** The nodes visited from `at`, following one edge at a time, until the end (at most `fuel` nodes). */
  function Route(edges: seq<(string, string)>, at: string, fuel: nat): seq<string>
    decreases fuel
  {
    if fuel == 0 || at == End then []
    else
      match Successor(edges, at)
      case None => [at]
      case Some(next) => [at] + Route(edges, next, fuel - 1)
  }

  /** The node names differ from each other and from the end marker. */
  lemma NamesDistinct()
    ensures |[ResourceInitName, AgentName, CompileCheckName, ResourceFinalName, End]| == 5
    ensures ResourceInitName != AgentName && ResourceInitName != CompileCheckName && ResourceInitName != ResourceFinalName
    ensures AgentName != CompileCheckName && AgentName != ResourceFinalName && CompileCheckName != ResourceFinalName
    ensures End !in {ResourceInitName, AgentName, CompileCheckName, ResourceFinalName}
  {
    assert |ResourceInitName| == 13 && |AgentName| == 5 && |CompileCheckName| == 13 && |ResourceFinalName| == 14 && |End| == 7;
    assert ResourceInitName[0] == 'r' && CompileCheckName[0] == 'c';
  }

  /** Each wired node's first outgoing edge leads to the next node, the last to the end. */
  lemma WiredSuccessors()
    ensures Successor(WiredEdges, AgentName) == Some(CompileCheckName)
    ensures Successor(WiredEdges, CompileCheckName) == Some(ResourceFinalName)
    ensures Successor(WiredEdges, ResourceFinalName) == Some(End)
  {
    NamesDistinct();
    var e3 := [(ResourceFinalName, End)];
    var e2 := [(CompileCheckName, ResourceFinalName)] + e3;
    var e1 := [(AgentName, CompileCheckName)] + e2;
    var e := WiredEdges;
    assert e == [(ResourceInitName, AgentName)] + e1;
    assert e[1..] == e1 && e1[1..] == e2 && e2[1..] == e3;
    assert Successor(e3, ResourceFinalName) == Some(End);
    assert Successor(e2, ResourceFinalName) == Some(End);
    assert Successor(e1, ResourceFinalName) == Some(End);
    assert Successor(e2, CompileCheckName) == Some(ResourceFinalName);
    assert Successor(e1, CompileCheckName) == Some(ResourceFinalName);
    assert Successor(e1, AgentName) == Some(CompileCheckName);
  }

  /** The wired graph visits its four nodes in order and then ends. */
  lemma WiredRoute()
    ensures Route(WiredEdges, ResourceInitName, |WiredEdges|) == WiredOrder
    ensures Successor(WiredEdges, ResourceFinalName) == Some(End)
  {
    NamesDistinct();
    WiredSuccessors();
    var e := WiredEdges;
    assert Successor(e, ResourceInitName) == Some(AgentName);
    assert Route(e, End, 0) == [];
    assert Route(e, ResourceFinalName, 1) == [ResourceFinalName];
    assert Route(e, CompileCheckName, 2) == [CompileCheckName, ResourceFinalName];
    assert Route(e, AgentName, 3) == [AgentName, CompileCheckName, ResourceFinalName];
    assert |e| == 4;
  }

  const WiredOrder: seq<string> := [ResourceInitName, AgentName, CompileCheckName, ResourceFinalName]

  /** The calls made and the final state, or the first error raised. */
  datatype FlowRun = FlowRun(calls: seq<Call>, result: Result<State, FlowError>)

  /** Runs the named nodes in order, merging each update into the state. */
  function RunRoute(nodes: map<string, NodeId>, route: seq<string>, st: State, env: Collaborators): FlowRun
    decreases |route|
  {
    if route == [] then FlowRun([], Ok(st))
    else if route[0] !in nodes then FlowRun([], Err(UnknownNode(route[0])))
    else
      var o := RunNode(nodes[route[0]], st, env);
      match o.update
      case Err(e) => FlowRun(o.calls, Err(e))
      case Ok(u) =>
        var rest := RunRoute(nodes, route[1..], st + u, env);
        FlowRun(o.calls + rest.calls, rest.result)
  }

  /** `graph.compile().invoke(state)`. */
  function Invoke(st: State, env: Collaborators): FlowRun {
    RunRoute(WiredNodes, Route(WiredEdges, ResourceInitName, |WiredEdges|), st, env)
  }

  /** Runs the given node functions in order, stopping at the first that raises. */
  function RunNodes(ids: seq<NodeId>, st: State, env: Collaborators): FlowRun
    decreases |ids|
  {
    if ids == [] then FlowRun([], Ok(st))
    else
      var o := RunNode(ids[0], st, env);
      match o.update
      case Err(e) => FlowRun(o.calls, Err(e))
      case Ok(u) =>
        var rest := RunNodes(ids[1..], st + u, env);
        FlowRun(o.calls + rest.calls, rest.result)
  }

  /** A route whose every name is registered runs the registered functions in route order. */
  lemma {:induction false} RouteRunsNodes(nodes: map<string, NodeId>, route: seq<string>, ids: seq<NodeId>,
                                          st: State, env: Collaborators)
    requires |route| == |ids|
    requires forall k :: 0 <= k < |route| ==> route[k] in nodes && nodes[route[k]] == ids[k]
    ensures RunRoute(nodes, route, st, env) == RunNodes(ids, st, env)
    decreases |route|
  {
    if route != [] {
      var o := RunNode(ids[0], st, env);
      if o.update.Ok? {
        RouteRunsNodes(nodes, route[1..], ids[1..], st + o.update.value, env);
      }
    }
  }

  /** Running the wired graph is running init, agent, compile check and final in a row. */
  lemma InvokeRunsNodes(st: State, env: Collaborators)
    ensures Invoke(st, env) == RunNodes(NodeOrder, st, env)
  {
    WiredRoute();
    NamesDistinct();
    RouteRunsNodes(WiredNodes, WiredOrder, NodeOrder, st, env);
  }

  // ---------------------------------------------------------------------
  // Properties of a run
  // ---------------------------------------------------------------------

  /** Empty `hdl_paths` make the first node raise, before any collaborator is called. */
  lemma EmptyPathsRaiseFirst(st: State, env: Collaborators)
    requires GetPaths(st, HdlPathsKey) == Ok([])
    ensures Invoke(st, env) == FlowRun([], Err(ValueError(InitNoPaths)))
  {
    InvokeRunsNodes(st, env);
  }

  /** The inputs a run needs, with a non-empty path list. */
  predicate WellFormedInputs(st: State) {
    && GetPaths(st, HdlPathsKey).Ok? && st[HdlPathsKey].paths != []
    && GetStr(st, QueryKey).Ok? && GetStr(st, SystemPromptKey).Ok? && GetMessages(st, ChatHistoryKey).Ok?
  }

  /** The keys the first node writes. */
  const InitKeys: set<Key> := {TopNameKey, HdlBundleKey, BaseSummaryKey, MessagesKey}

  /** The keys the three later nodes add. */
  const LaterKeys: set<Key> := {AgentResponseKey, CompileOkKey, CompileErrorsKey, FinalSummaryKey, SummaryTextKey}

  /** The keys the four nodes write. */
  const WrittenKeys: set<Key> := InitKeys + LaterKeys

  /** One node that returns an update: its calls come first, then the rest runs on the merged state. */
  lemma RunNodesStep(ids: seq<NodeId>, st: State, env: Collaborators)
    requires ids != [] && RunNode(ids[0], st, env).update.Ok?
    ensures var o := RunNode(ids[0], st, env);
      var rest := RunNodes(ids[1..], st + o.update.value, env);
      RunNodes(ids, st, env) == FlowRun(o.calls + rest.calls, rest.result)
  {
  }

  /** The first node writes its four keys over the inputs. */
  lemma InitStage(st: State, env: Collaborators)
    requires WellFormedInputs(st)
    requires env.resourceSummary(st[HdlPathsKey].paths, PathStem(st[HdlPathsKey].paths[0])).Ok?
    ensures var o := ResourceInitNode(st, env);
      var paths := st[HdlPathsKey].paths;
      var top := PathStem(paths[0]);
      && o.update.Ok?
      && o.calls == [RunnerCall(paths, top)]
      && o.update.value[MessagesKey].MessageList?
      && st + o.update.value
         == st[TopNameKey := Str(top)][HdlBundleKey := Str(Bundle(paths, env.read))]
              [BaseSummaryKey := Str(env.resourceSummary(paths, top).value)][MessagesKey := o.update.value[MessagesKey]]
  {
  }

  /** The agent node writes the reply. */
  lemma AgentStage(s: State, env: Collaborators)
    requires GetMessages(s, MessagesKey).Ok?
    ensures var o := AgentNode(s, env);
      && o.update.Ok? && o.calls == [LlmCall(s[MessagesKey].messages)]
      && s + o.update.value == s[AgentResponseKey := Reply(env.llm(s[MessagesKey].messages))]
  {
  }

  /** The compile node writes the compile runner's outcome. */
  lemma CompileStage(s: State, env: Collaborators)
    requires GetPaths(s, HdlPathsKey).Ok? && s[HdlPathsKey].paths != [] && GetStr(s, TopNameKey).Ok?
    ensures var o := CompileCheckNode(s, env);
      var r := env.compile(s[HdlPathsKey].paths, s[TopNameKey].s);
      && o.update.Ok? && o.calls == [CompileCall(s[HdlPathsKey].paths, s[TopNameKey].s)]
      && s + o.update.value == s[CompileOkKey := Flag(r.ok)][CompileErrorsKey := OptStr(r.errors)]
  {
  }

  /** The final node writes the two summaries and the top name it read. */
  lemma FinalStage(s: State, env: Collaborators)
    requires GetPaths(s, HdlPathsKey).Ok? && s[HdlPathsKey].paths != [] && GetStr(s, TopNameKey).Ok?
    requires GetStr(s, BaseSummaryKey).Ok? && env.resourceSummary(s[HdlPathsKey].paths, s[TopNameKey].s).Ok?
    ensures var o := ResourceFinalNode(s, env);
      && o.update.Ok? && o.calls == [RunnerCall(s[HdlPathsKey].paths, s[TopNameKey].s)]
      && s + o.update.value
         == s[FinalSummaryKey := o.update.value[FinalSummaryKey]][SummaryTextKey := o.update.value[SummaryTextKey]]
             [TopNameKey := s[TopNameKey]]
  {
  }

  /** The last node alone. */
  lemma FinalRun(s3: State, env: Collaborators)
    requires GetPaths(s3, HdlPathsKey).Ok? && s3[HdlPathsKey].paths != [] && GetStr(s3, TopNameKey).Ok?
    requires GetStr(s3, BaseSummaryKey).Ok? && env.resourceSummary(s3[HdlPathsKey].paths, s3[TopNameKey].s).Ok?
    ensures var r := RunNodes([ResourceFinal], s3, env);
      && r.calls == [RunnerCall(s3[HdlPathsKey].paths, s3[TopNameKey].s)]
      && r.result.Ok?
      && r.result.value.Keys == s3.Keys + {FinalSummaryKey, SummaryTextKey}
      && forall k :: k in s3 && k != FinalSummaryKey && k != SummaryTextKey ==> r.result.value[k] == s3[k]
  {
    FinalStage(s3, env);
    RunNodesStep([ResourceFinal], s3, env);
    var o := ResourceFinalNode(s3, env);
    assert [ResourceFinal][1..] == [];
    assert o.calls + [] == o.calls;
  }

  /** The compile node, then the last. */
  lemma CompileAndFinalRun(s2: State, env: Collaborators)
    requires GetPaths(s2, HdlPathsKey).Ok? && s2[HdlPathsKey].paths != [] && GetStr(s2, TopNameKey).Ok?
    requires GetStr(s2, BaseSummaryKey).Ok? && env.resourceSummary(s2[HdlPathsKey].paths, s2[TopNameKey].s).Ok?
    ensures var r := RunNodes([CompileCheckStep, ResourceFinal], s2, env);
      var paths, top := s2[HdlPathsKey].paths, s2[TopNameKey].s;
      && r.calls == [CompileCall(paths, top), RunnerCall(paths, top)]
      && r.result.Ok?
      && r.result.value.Keys == s2.Keys + {CompileOkKey, CompileErrorsKey, FinalSummaryKey, SummaryTextKey}
      && r.result.value[CompileOkKey] == Flag(env.compile(paths, top).ok)
      && r.result.value[CompileErrorsKey] == OptStr(env.compile(paths, top).errors)
      && forall k :: k in s2 && k !in {CompileOkKey, CompileErrorsKey, FinalSummaryKey, SummaryTextKey}
           ==> r.result.value[k] == s2[k]
  {
    CompileStage(s2, env);
    var o := CompileCheckNode(s2, env);
    var s3 := s2 + o.update.value;
    FinalRun(s3, env);
    RunNodesStep([CompileCheckStep, ResourceFinal], s2, env);
    assert [CompileCheckStep, ResourceFinal][1..] == [ResourceFinal];
    CompileThenFinal(s2, s3, env.compile(s2[HdlPathsKey].paths, s2[TopNameKey].s), o.calls,
                     RunNodes([ResourceFinal], s3, env), RunNodes([CompileCheckStep, ResourceFinal], s2, env));
  }

  /** The facts of `CompileAndFinalRun`, from those of its two stages. */
  lemma CompileThenFinal(s2: State, s3: State, c: CompileCheck.CompileCheckResult, calls: seq<Call>, fin: FlowRun, r: FlowRun)
    requires HdlPathsKey in s2 && s2[HdlPathsKey].PathList? && TopNameKey in s2 && s2[TopNameKey].Str?
    requires s3 == s2[CompileOkKey := Flag(c.ok)][CompileErrorsKey := OptStr(c.errors)]
    requires calls == [CompileCall(s2[HdlPathsKey].paths, s2[TopNameKey].s)]
    requires fin.calls == [RunnerCall(s3[HdlPathsKey].paths, s3[TopNameKey].s)]
    requires fin.result.Ok? && fin.result.value.Keys == s3.Keys + {FinalSummaryKey, SummaryTextKey}
    requires forall k :: k in s3 && k != FinalSummaryKey && k != SummaryTextKey ==> fin.result.value[k] == s3[k]
    requires r == FlowRun(calls + fin.calls, fin.result)
    ensures var paths, top := s2[HdlPathsKey].paths, s2[TopNameKey].s;
      && r.calls == [CompileCall(paths, top), RunnerCall(paths, top)]
      && r.result.Ok?
      && r.result.value.Keys == s2.Keys + {CompileOkKey, CompileErrorsKey, FinalSummaryKey, SummaryTextKey}
      && r.result.value[CompileOkKey] == Flag(c.ok)
      && r.result.value[CompileErrorsKey] == OptStr(c.errors)
      && forall k :: k in s2 && k !in {CompileOkKey, CompileErrorsKey, FinalSummaryKey, SummaryTextKey}
           ==> r.result.value[k] == s2[k]
  {
  }

  /** The last three nodes, from a state the first node left. */
  lemma LaterStages(s1: State, env: Collaborators)
    requires GetPaths(s1, HdlPathsKey).Ok? && s1[HdlPathsKey].paths != [] && GetStr(s1, TopNameKey).Ok?
    requires GetStr(s1, BaseSummaryKey).Ok? && env.resourceSummary(s1[HdlPathsKey].paths, s1[TopNameKey].s).Ok?
    requires GetMessages(s1, MessagesKey).Ok?
    ensures var r := RunNodes([Agent, CompileCheckStep, ResourceFinal], s1, env);
      var paths, top := s1[HdlPathsKey].paths, s1[TopNameKey].s;
      && r.calls == [LlmCall(s1[MessagesKey].messages), CompileCall(paths, top), RunnerCall(paths, top)]
      && r.result.Ok?
      && r.result.value.Keys == s1.Keys + LaterKeys
      && r.result.value[CompileOkKey] == Flag(env.compile(paths, top).ok)
      && r.result.value[CompileErrorsKey] == OptStr(env.compile(paths, top).errors)
      && forall k :: k in s1 && k !in LaterKeys
           ==> r.result.value[k] == s1[k]
  {
    AgentStage(s1, env);
    var o := AgentNode(s1, env);
    var s2 := s1 + o.update.value;
    CompileAndFinalRun(s2, env);
    RunNodesStep([Agent, CompileCheckStep, ResourceFinal], s1, env);
    assert [Agent, CompileCheckStep, ResourceFinal][1..] == [CompileCheckStep, ResourceFinal];
  }

  const NodeOrder: seq<NodeId> := [ResourceInit, Agent, CompileCheckStep, ResourceFinal]

  /** What a successful run leaves: the calls in order and the final state. */
  predicate SuccessfulRun(st: State, env: Collaborators, r: FlowRun)
    requires WellFormedInputs(st)
  {
    var paths := st[HdlPathsKey].paths;
    var top := PathStem(paths[0]);
    && r.result.Ok?
    && var fin := r.result.value;
    && fin.Keys == st.Keys + WrittenKeys
    && fin[MessagesKey].MessageList?
    && r.calls == [RunnerCall(paths, top), LlmCall(fin[MessagesKey].messages), CompileCall(paths, top), RunnerCall(paths, top)]
    && (forall k :: k in InputKeys ==> fin[k] == st[k])
    && fin[TopNameKey] == Str(top)
    && fin[CompileOkKey] == Flag(env.compile(paths, top).ok)
    && fin[CompileErrorsKey] == OptStr(env.compile(paths, top).errors)
  }

  /** The first node's call comes first; the later nodes run on the state it leaves. */
  lemma InitRun(st: State, env: Collaborators)
    requires WellFormedInputs(st)
    requires env.resourceSummary(st[HdlPathsKey].paths, PathStem(st[HdlPathsKey].paths[0])).Ok?
    ensures ResourceInitNode(st, env).update.Ok?
    ensures var s1 := st + ResourceInitNode(st, env).update.value;
      var paths := st[HdlPathsKey].paths;
      var rest := RunNodes([Agent, CompileCheckStep, ResourceFinal], s1, env);
      RunNodes(NodeOrder, st, env) == FlowRun([RunnerCall(paths, PathStem(paths[0]))] + rest.calls, rest.result)
  {
    InitStage(st, env);
    RunNodesStep(NodeOrder, st, env);
    assert NodeOrder[1..] == [Agent, CompileCheckStep, ResourceFinal];
  }

  /** The state the first node leaves keeps the inputs and adds its four keys, the top name among them. */
  lemma InitState(st: State, env: Collaborators)
    requires WellFormedInputs(st)
    requires env.resourceSummary(st[HdlPathsKey].paths, PathStem(st[HdlPathsKey].paths[0])).Ok?
    ensures ResourceInitNode(st, env).update.Ok?
    ensures var s1 := st + ResourceInitNode(st, env).update.value;
      && s1.Keys == st.Keys + InitKeys
      && (forall k :: k in InputKeys ==> s1[k] == st[k])
      && s1[TopNameKey] == Str(PathStem(st[HdlPathsKey].paths[0]))
      && GetStr(s1, BaseSummaryKey).Ok? && GetMessages(s1, MessagesKey).Ok?
  {
    InitStage(st, env);
  }

  /** The facts the first node's run and the later nodes' run give, put together. */
  lemma SuccessFromStages(st: State, env: Collaborators, s1: State, rest: FlowRun, r: FlowRun)
    requires WellFormedInputs(st)
    requires var paths := st[HdlPathsKey].paths;
      var top := PathStem(paths[0]);
      && r == FlowRun([RunnerCall(paths, top)] + rest.calls, rest.result)
      && s1.Keys == st.Keys + InitKeys
      && (forall k :: k in InputKeys ==> s1[k] == st[k])
      && s1[TopNameKey] == Str(top)
      && GetMessages(s1, MessagesKey).Ok?
    requires var paths, top := s1[HdlPathsKey].paths, s1[TopNameKey].s;
      && rest.calls == [LlmCall(s1[MessagesKey].messages), CompileCall(paths, top), RunnerCall(paths, top)]
      && rest.result.Ok?
      && rest.result.value.Keys == s1.Keys + LaterKeys
      && rest.result.value[CompileOkKey] == Flag(env.compile(paths, top).ok)
      && rest.result.value[CompileErrorsKey] == OptStr(env.compile(paths, top).errors)
      && forall k :: k in s1 && k !in LaterKeys ==> rest.result.value[k] == s1[k]
    ensures SuccessfulRun(st, env, r)
  {
    var fin := r.result.value;
    assert fin.Keys == st.Keys + InitKeys + LaterKeys;
    assert fin[MessagesKey] == s1[MessagesKey];
    assert fin[TopNameKey] == s1[TopNameKey];
    forall k | k in InputKeys
      ensures fin[k] == st[k]
    {
      assert k in s1 && fin[k] == s1[k];
    }
  }

  /** Well-formed inputs and a succeeding resource runner give a successful run. */
  lemma SuccessCase(st: State, env: Collaborators)
    requires WellFormedInputs(st)
    requires env.resourceSummary(st[HdlPathsKey].paths, PathStem(st[HdlPathsKey].paths[0])).Ok?
    ensures SuccessfulRun(st, env, RunNodes(NodeOrder, st, env))
  {
    InitRun(st, env);
    InitState(st, env);
    var s1 := st + ResourceInitNode(st, env).update.value;
    LaterStages(s1, env);
    SuccessFromStages(st, env, s1, RunNodes([Agent, CompileCheckStep, ResourceFinal], s1, env), RunNodes(NodeOrder, st, env));
  }

  /** Missing or ill-shaped inputs, empty paths or a failing baseline run make the first node raise. */
  lemma FailureCase(st: State, env: Collaborators)
    requires !WellFormedInputs(st)
      || !env.resourceSummary(st[HdlPathsKey].paths, PathStem(st[HdlPathsKey].paths[0])).Ok?
    ensures RunNodes(NodeOrder, st, env).result.Err?
  {
    assert ResourceInitNode(st, env).update.Err?;
  }

  /**
   * A run succeeds exactly when the inputs are there and the resource runner
   * succeeds on the original paths and the stem of the first. Then the calls
   * are the baseline run, the model, the compile check and the final run, all
   * on the original paths; the inputs are kept; the top name is the stem of
   * the first path; the compile outcome is the compile runner's; and the
   * state gains exactly the keys the nodes write, none for optimised files.
   */
  lemma RunOutcome(st: State, env: Collaborators)
    ensures Invoke(st, env).result.Ok? <==>
      WellFormedInputs(st) && env.resourceSummary(st[HdlPathsKey].paths, PathStem(st[HdlPathsKey].paths[0])).Ok?
    ensures Invoke(st, env).result.Ok? ==> WellFormedInputs(st) && SuccessfulRun(st, env, Invoke(st, env))
  {
    InvokeRunsNodes(st, env);
    if WellFormedInputs(st) && env.resourceSummary(st[HdlPathsKey].paths, PathStem(st[HdlPathsKey].paths[0])).Ok? {
      SuccessCase(st, env);
    } else {
      FailureCase(st, env);
    }
  }

  /** With the stub compile runner a successful run records `compile_ok` true and no errors. */
  lemma StubCompileSucceeds(st: State, env: Collaborators)
    requires forall ps, t :: env.compile(ps, t) == CompileCheck.Run(ps, t)
    ensures var r := Invoke(st, env).result;
      r.Ok? ==>
        && CompileOkKey in r.value && r.value[CompileOkKey] == Flag(true)
        && CompileErrorsKey in r.value && r.value[CompileErrorsKey] == OptStr(None)
  {
    RunOutcome(st, env);
  }
}
