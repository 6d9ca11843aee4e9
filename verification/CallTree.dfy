/** One hop of a call tree: the hidden arguments of a tool call, the headers that `send_to_agent` sets,
    the authentication in front of the proxy, and the task that the proxy opens. */
module CallTree {
  import opened GoStrings
  import opened Json

  /** Request headers; an empty value is an absent header. */
  datatype Headers = Headers(principal: string, group: string, toolGroup: string, root: string,
                             parentTask: string, parentCall: string, source: string)

  const NO_HEADERS := Headers("", "", "", "", "", "", "")

  datatype Mode = WithContext | Stateless

  /** The row that the proxy creates, and the group in which the turn of a builtin agent runs. */
  datatype Task = Task(id: string, agent: string, context: Option<string>, root: Option<string>,
                       parent: Option<string>, parentCall: Option<string>, group: string)

  function Present(s: string): Option<string> {
    if s == "" then None else Some(s)
  }

  // ---- The proxy

  /** `params` of the JSON-RPC request; none when it is not an object. */
  type Params = Option<map<string, Value>>

  function StringParam(p: Params, key: string): string {
    if p.Some? then OrEmpty(StringAt(p.value, key)) else ""
  }

  /** The edited parameters and the context id that the task gets. */
  function ContextApplied(p: Params, mode: Mode, newId: string): (Params, Option<string>) {
    if mode.Stateless? then (if p.Some? then Some(p.value - {"contextId"}) else None, None)
    else if StringParam(p, "contextId") != "" then (p, Some(StringParam(p, "contextId")))
    else (Some((if p.Some? then p.value else map[])["contextId" := Str(newId)]), Some(newId))
  }

  class RpcRequest {
    var params: Params

    constructor (p: Params)
      ensures params == p
    {
      params := p;
    }

    /** `applyContextModeToRPC` edits the request in place. */
    method ApplyContextMode(mode: Mode, newId: string) returns (context: Option<string>)
      modifies this
      ensures (params, context) == ContextApplied(old(params), mode, newId)
    {
      if mode.Stateless? {
        if params.Some? {
          params := Some(params.value - {"contextId"});
        }
        return None;
      }
      context := None;
      if params.Some? && "contextId" in params.value && params.value["contextId"].Str?
        && params.value["contextId"].s != "" {
        context := Some(params.value["contextId"].s);
      }
      if context.Some? {
        return;
      }
      context := Some(newId);
      if params.Some? {
        params := Some(params.value["contextId" := Str(newId)]);
      } else {
        params := Some(map["contextId" := Str(newId)]);
      }
    }
  }

  function ResolvedRoot(h: Headers, p: Params, context: Option<string>, original: string): Option<string> {
    if h.root != "" then Some(h.root)
    else if StringParam(p, "rootContextId") != "" then Some(StringParam(p, "rootContextId"))
    else if OrEmpty(context) != "" then context
    else Present(original)
  }

  /** The group of the turn: the member's own, or for the platform itself the one of the tool call. */
  function TurnGroup(h: Headers): string {
    if h.group == "" && h.principal == "admin" then h.toolGroup else h.group
  }

  function Opened(h: Headers, agent: string, p: Params, mode: Mode, newTask: string, newContext: string): Task {
    var (edited, context) := ContextApplied(p, mode, newContext);
    Task(newTask, agent, context, ResolvedRoot(h, edited, context, StringParam(p, "contextId")),
         Present(h.parentTask), Present(h.parentCall), TurnGroup(h))
  }

  /** The task-creating part of `ServeHTTP`. */
  method OpenTask(h: Headers, agent: string, p: Params, mode: Mode, newTask: string, newContext: string)
    returns (task: Task)
    ensures task == Opened(h, agent, p, mode, newTask, newContext)
  {
    var rpc := new RpcRequest(p);
    var original := StringParam(rpc.params, "contextId");
    var context := rpc.ApplyContextMode(mode, newContext);
    var root := ResolvedRoot(h, rpc.params, context, original);
    var group := h.group;
    if group == "" && h.principal == "admin" {
      group := h.toolGroup;
    }
    task := Task(newTask, agent, context, root, Present(h.parentTask), Present(h.parentCall), group);
  }

  /** A value that the trimming of tool arguments leaves as it is, and that is not read as absent. */
  predicate Carried(s: string) {
    s != "" && Tight(s)
  }

  predicate CarriedRoot(root: Option<string>) {
    root.Some? && Carried(root.value)
  }

  /** A request that names no context and no root opens a task whose root survives every hop, unless the
      agent is stateless; then the task has no root at all. */
  lemma FreshRequestHasRoot(h: Headers, agent: string, p: Params, mode: Mode, newTask: string, newContext: string)
    requires h.root == "" && StringParam(p, "rootContextId") == "" && StringParam(p, "contextId") == ""
             && Carried(newContext)
    ensures var t := Opened(h, agent, p, mode, newTask, newContext);
            && t.root == (if mode.Stateless? then None else Some(newContext))
            && (CarriedRoot(t.root) <==> mode.WithContext?)
  {
  }

  // ---- Authentication in front of the proxy

  /** Agents of each group, and the active groups, as the platform answers at one time. */
  datatype Directory = Directory(agents: map<string, set<string>>, active: set<string>)

  predicate HasAgent(d: Directory, group: string, agent: string) {
    group != "" && agent != "" && group in d.agents && agent in d.agents[group]
  }

  datatype Caller = Admin | MemberOf(group: string) | Nobody

  function Cleared(h: Headers): Headers {
    h.(principal := "", group := "")
  }

  /** What reaches `/agent/<name>`: principal and group come from the credentials, never from the caller. */
  function Authenticated(d: Directory, h: Headers, caller: Caller, agent: string): Option<Headers> {
    match caller
    case Admin => Some(Cleared(h).(principal := "admin"))
    case MemberOf(g) => if HasAgent(d, g, agent) then Some(Cleared(h).(principal := "member", group := g)) else None
    case Nobody => None
  }

  /** Whatever headers the caller of a member token sends, its turn runs in the group of the token, and
      only agents of that group are reached. */
  lemma MemberGroupIsGranted(d: Directory, h: Headers, g: string, agent: string)
    ensures var r := Authenticated(d, h, MemberOf(g), agent);
            && (r.Some? <==> HasAgent(d, g, agent))
            && (r.Some? ==> TurnGroup(r.value) == g)
  {
  }

  // ---- Tool arguments

  /** The entries of a tool's arguments that this code reads; an entry that is absent or is not a string
      reads as "".  `hiddenGroup` is `_group_id`, `group` the model's own `group_id`. */
  datatype Args = Args(agent: string, message: string, group: string, source: string, root: string,
                       parentTask: string, parentCall: string, hiddenGroup: string)

  function ArgsOf(m: map<string, Value>): Args {
    Args(OrEmpty(StringAt(m, "agent")), OrEmpty(StringAt(m, "message")), OrEmpty(StringAt(m, "group_id")),
         OrEmpty(StringAt(m, "_source_agent")), OrEmpty(StringAt(m, "_root_context_id")),
         OrEmpty(StringAt(m, "_parent_task_id")), OrEmpty(StringAt(m, "_parent_tool_call_id")),
         OrEmpty(StringAt(m, "_group_id")))
  }

  function Over(known: string, written: string): string {
    if known != "" then known else written
  }

  /** `defaultCallTool`: what the turn knows overrides what the model wrote. */
  function HiddenArgs(args: Args, turn: Task, callId: string): Args {
    args.(source := turn.agent, root := Over(OrEmpty(turn.root), args.root),
          parentTask := Over(turn.id, args.parentTask),
          parentCall := Over(callId, args.parentCall), hiddenGroup := Over(turn.group, args.hiddenGroup))
  }

  method PrepareArguments(c: Codec, text: string, turn: Task, callId: string) returns (prepared: Option<Args>)
    ensures prepared == if text == "" then Some(HiddenArgs(ArgsOf(map[]), turn, callId))
                        else match DecodeObject(c, text)
                             case None => None
                             case Some(m) => Some(HiddenArgs(ArgsOf(m), turn, callId))
  {
    var args := ArgsOf(map[]);
    if text != "" {
      var decoded := DecodeObject(c, text);
      if decoded.None? {
        return None;
      }
      args := ArgsOf(decoded.value);
    }
    args := args.(source := turn.agent);
    if OrEmpty(turn.root) != "" {
      args := args.(root := OrEmpty(turn.root));
    }
    if turn.id != "" {
      args := args.(parentTask := turn.id);
    }
    if callId != "" {
      args := args.(parentCall := callId);
    }
    if turn.group != "" {
      args := args.(hiddenGroup := turn.group);
    }
    prepared := Some(args);
  }

  function GroupIdFromArgs(args: Args): string {
    if TrimSpace(args.hiddenGroup) != "" then TrimSpace(args.hiddenGroup) else TrimSpace(args.group)
  }

  // ---- send_to_agent

  const DEFAULT_P2P := "default-p2p"

  predicate CanInferP2P(d: Directory, source: string) {
    source != "" && DEFAULT_P2P in d.active && HasAgent(d, DEFAULT_P2P, source)
  }

  datatype Send = Sent(headers: Headers, agent: string) | Refused(reason: string)

  function SentHeaders(args: Args, group: string): Headers {
    NO_HEADERS.(source := TrimSpace(args.source), toolGroup := group, root := TrimSpace(args.root),
                parentTask := TrimSpace(args.parentTask), parentCall := TrimSpace(args.parentCall))
  }

  /** Whether source and target share the group; without any group there is nothing to check. */
  function CheckedSend(d: Directory, args: Args, agent: string, group: string): Send {
    var source := TrimSpace(args.source);
    if group != "" && source != "" && !HasAgent(d, group, source) then
      Refused("source agent is not a member of the group")
    else if group != "" && !HasAgent(d, group, agent) then
      Refused("target agent is not visible in the group")
    else Sent(SentHeaders(args, group), agent)
  }

  function SendToAgent(d: Directory, args: Args): Send {
    var agent := args.agent;
    var source := TrimSpace(args.source);
    if agent == "" then Refused("agent name is required")
    else if args.message == "" then Refused("message is required")
    else if GroupIdFromArgs(args) == "" && source != "" then
      if CanInferP2P(d, source) then CheckedSend(d, args, agent, DEFAULT_P2P) else Refused("group_id is required")
    else CheckedSend(d, args, agent, GroupIdFromArgs(args))
  }

  /** `executeSendToAgentContext` up to the request: each header is set only when it has a value. */
  method ExecuteSendToAgent(d: Directory, args: Args) returns (send: Send)
    ensures send == SendToAgent(d, args)
  {
    var agent := args.agent;
    if agent == "" {
      return Refused("agent name is required");
    }
    if args.message == "" {
      return Refused("message is required");
    }
    var source := TrimSpace(args.source);
    var root := TrimSpace(args.root);
    var parentTask := TrimSpace(args.parentTask);
    var parentCall := TrimSpace(args.parentCall);
    var group := GroupIdFromArgs(args);
    if group == "" && source != "" {
      if !CanInferP2P(d, source) {
        return Refused("group_id is required");
      }
      group := DEFAULT_P2P;
    }
    if group != "" {
      if source != "" && !HasAgent(d, group, source) {
        return Refused("source agent is not a member of the group");
      }
      if !HasAgent(d, group, agent) {
        return Refused("target agent is not visible in the group");
      }
    }
    var h := NO_HEADERS;
    if source != "" { h := h.(source := source); }
    if group != "" { h := h.(toolGroup := group); }
    if root != "" { h := h.(root := root); }
    if parentTask != "" { h := h.(parentTask := parentTask); }
    if parentCall != "" { h := h.(parentCall := parentCall); }
    send := Sent(h, agent);
  }

  // ---- A whole hop: from a running turn to the task of the called agent

  const SENT_PARAMS: Params := Some(map["message" := Obj(map["role" := Str("ROLE_USER")])])

  function Delivered(d: Directory, send: Send, mode: Mode, newTask: string, newContext: string): Option<Task>
    requires send.Sent?
  {
    match Authenticated(d, send.headers, Admin, send.agent)
    case None => None
    case Some(h) => Some(Opened(h, send.agent, SENT_PARAMS, mode, newTask, newContext))
  }

  lemma CarriedIffFixed(s: string)
    ensures Carried(s) <==> s != "" && TrimSpace(s) == s
  {
    TrimSpaceFixes(s);
  }

  lemma SentCarriesArgs(d: Directory, args: Args)
    ensures var s := SendToAgent(d, args);
            var group := GroupIdFromArgs(args);
            s.Sent? ==>
              && s.headers.parentTask == TrimSpace(args.parentTask) && s.headers.root == TrimSpace(args.root)
              && (group != "" ==> s.headers.toolGroup == group && HasAgent(d, group, s.agent))
  {
  }

  /** The headers of a call carry the id of the calling task, its root when that is carried, and its
      group when that is carried; the target was then a member of the group. */
  lemma SentFromTurn(d: Directory, args: Args, turn: Task, callId: string)
    requires Carried(turn.id)
    ensures var s := SendToAgent(d, HiddenArgs(args, turn, callId));
            s.Sent? ==>
              && s.headers.parentTask == turn.id
              && (CarriedRoot(turn.root) ==> Some(s.headers.root) == turn.root)
              && (Carried(turn.group) ==> s.headers.toolGroup == turn.group && HasAgent(d, turn.group, s.agent))
  {
    SentCarriesArgs(d, HiddenArgs(args, turn, callId));
    CarriedIffFixed(turn.id);
    CarriedIffFixed(OrEmpty(turn.root));
    CarriedIffFixed(turn.group);
  }

  /** The task that a call opens: its parent is the calling task; root and group are those of the call,
      and a call without a root starts one with the called agent's context. */
  lemma DeliveredLineage(d: Directory, send: Send, mode: Mode, newTask: string, newContext: string)
    requires send.Sent? && send.headers.parentTask != ""
    ensures var t := Delivered(d, send, mode, newTask, newContext);
            && t.Some? && t.value.id == newTask && t.value.agent == send.agent
            && t.value.parent == Some(send.headers.parentTask)
            && (send.headers.root != "" ==> t.value.root == Some(send.headers.root))
            && (send.headers.root == "" ==> t.value.root == if mode.WithContext? then Present(newContext) else None)
            && t.value.group == send.headers.toolGroup
  {
  }

  // ---- Exactly when a hop keeps root and group

  function Hop(d: Directory, args: Args, turn: Task, callId: string, mode: Mode, newTask: string,
               newContext: string): Option<Task> {
    var s := SendToAgent(d, HiddenArgs(args, turn, callId));
    if s.Sent? then Delivered(d, s, mode, newTask, newContext) else None
  }

  ghost predicate KeepsRoot(turn: Task) {
    forall d, args, callId, mode, newTask, newContext | Carried(newContext) ::
      var t := Hop(d, args, turn, callId, mode, newTask, newContext); t.Some? ==> t.value.root == turn.root
  }

  ghost predicate KeepsGroup(turn: Task) {
    forall d, args, callId, mode, newTask, newContext ::
      var t := Hop(d, args, turn, callId, mode, newTask, newContext);
      t.Some? ==> t.value.group == turn.group && HasAgent(d, turn.group, t.value.agent)
  }

  /** A directory in which the source and the target share a group. */
  function Shared(group: string, source: string, target: string): Directory {
    Directory(map[group := {source, target}], {group})
  }

  function Ask(target: string, group: string): Args {
    Args(target, "m", group, "", "", "", "", "")
  }

  /** A call that is always admitted: to a member of the group that the turn or else the model names. */
  lemma SomeSend(turn: Task) returns (d: Directory)
    ensures var s := SendToAgent(d, HiddenArgs(Ask("b", "other"), turn, ""));
            && s.Sent? && s.agent == "b" && s.headers.parentTask == TrimSpace(turn.id)
            && s.headers.root == TrimSpace(OrEmpty(turn.root))
            && s.headers.toolGroup == if TrimSpace(turn.group) != "" then TrimSpace(turn.group) else "other"
  {
    var a := HiddenArgs(Ask("b", "other"), turn, "");
    SolidEnds("other");
    var g := GroupIdFromArgs(a);
    var source := TrimSpace(a.source);
    d := Shared(g, source, "b");
    assert g != "" && HasAgent(d, g, "b") && (source != "" ==> HasAgent(d, g, source));
  }

  /** The task that this call opens, whatever the turn. */
  lemma SomeHop(turn: Task) returns (d: Directory)
    requires Carried(turn.id)
    ensures var t := Hop(d, Ask("b", "other"), turn, "", WithContext, "new", "ctx");
            var root, group := TrimSpace(OrEmpty(turn.root)), TrimSpace(turn.group);
            && t.Some?
            && t.value.root == Some(if root != "" then root else "ctx")
            && t.value.group == if group != "" then group else "other"
  {
    d := SomeSend(turn);
    CarriedIffFixed(turn.id);
    DeliveredLineage(d, SendToAgent(d, HiddenArgs(Ask("b", "other"), turn, "")), WithContext, "new", "ctx");
  }

  /** A hop keeps the root context, whatever the model writes and whichever agent is called, exactly
      when the root is present, not blank and has no space at its ends. */
  lemma RootKeptIffCarried(turn: Task)
    requires Carried(turn.id)
    ensures KeepsRoot(turn) <==> CarriedRoot(turn.root)
  {
    if CarriedRoot(turn.root) {
      forall d, args, callId, mode, newTask, newContext | Carried(newContext)
        ensures var t := Hop(d, args, turn, callId, mode, newTask, newContext); t.Some? ==> t.value.root == turn.root
      {
        SentFromTurn(d, args, turn, callId);
      }
    } else {
      RootIsLost(turn);
    }
  }

  lemma RootIsLost(turn: Task)
    requires Carried(turn.id) && !CarriedRoot(turn.root)
    ensures !KeepsRoot(turn)
  {
    var d := SomeHop(turn);
    SolidEnds("ctx");
    CarriedIffFixed(OrEmpty(turn.root));
    TrimsAway(OrEmpty(turn.root));
    var t := Hop(d, Ask("b", "other"), turn, "", WithContext, "new", "ctx");
    assert t.value.root != turn.root;
  }

  /** A blank string is not a word. */
  lemma TrimsAway(s: string)
    ensures TrimSpace(s) == "" ==> s != "ctx" && s != "other"
  {
    SolidEnds("ctx");
    SolidEnds("other");
  }

  /** A hop stays inside the group of its turn, whatever group the model asks for, exactly when the
      group id is not blank and has no space at its ends. */
  lemma GroupKeptIffCarried(turn: Task)
    requires Carried(turn.id)
    ensures KeepsGroup(turn) <==> Carried(turn.group)
  {
    if Carried(turn.group) {
      forall d, args, callId, mode, newTask, newContext
        ensures var t := Hop(d, args, turn, callId, mode, newTask, newContext);
                t.Some? ==> t.value.group == turn.group && HasAgent(d, turn.group, t.value.agent)
      {
        SentFromTurn(d, args, turn, callId);
      }
    } else {
      GroupIsLeft(turn);
    }
  }

  lemma GroupIsLeft(turn: Task)
    requires Carried(turn.id) && !Carried(turn.group)
    ensures !KeepsGroup(turn)
  {
    var d := SomeHop(turn);
    CarriedIffFixed(turn.group);
    TrimsAway(turn.group);
    var t := Hop(d, Ask("b", "other"), turn, "", WithContext, "new", "ctx");
    assert t.value.group != turn.group;
  }
}
