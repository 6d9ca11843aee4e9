/** What a hop of a call tree does with each value: the task that a request opens, the arguments that a tool
    reads, when a call is sent, and what the opened task knows of its caller. */
module HopOutcomes {
  import opened GoStrings
  import opened Json
  import opened CallTree

  // ---- The task that a request opens

  /** The text under a key of the parameters; absent, of another type or empty are the same. */
  predicate Names(p: Params, key: string, text: string) {
    text != "" && p.Some? && key in p.value && p.value[key] == Str(text)
  }

  ghost predicate NamesNothing(p: Params, key: string) {
    forall text :: !Names(p, key, text)
  }

  lemma StringParamIs(p: Params, key: string)
    ensures forall text :: Names(p, key, text) <==> text != "" && StringParam(p, key) == text
    ensures NamesNothing(p, key) <==> StringParam(p, key) == ""
  {
    if StringParam(p, key) != "" {
      assert Names(p, key, StringParam(p, key));
    }
  }

  /** The context of a request: a stateless agent gets none, and the parameter is taken away; a context that
      the request names is kept as it is; otherwise the new one is written into the parameters.  No other
      parameter changes. */
  lemma ContextSays(p: Params, mode: Mode, newId: string, named: string)
    ensures var (edited, context) := ContextApplied(p, mode, newId);
            && (mode == Stateless ==> context == None && (edited.Some? <==> p.Some?)
                                      && (edited.Some? ==> "contextId" !in edited.value))
            && (mode == WithContext && Names(p, "contextId", named) ==> context == Some(named) && edited == p)
            && (mode == WithContext && NamesNothing(p, "contextId") ==>
                  context == Some(newId) && edited.Some? && "contextId" in edited.value
                  && edited.value["contextId"] == Str(newId))
            && forall key :: key != "contextId" ==>
                 (p.Some? && key in p.value <==> edited.Some? && key in edited.value)
                 && (p.Some? && key in p.value ==> edited.value[key] == p.value[key])
  {
    StringParamIs(p, "contextId");
  }

  /** The root of a request: the header first, then the parameter, then the context of the task, and for a
      stateless agent the context that the caller named. */
  ghost predicate IsRoot(h: Headers, p: Params, mode: Mode, context: Option<string>, root: Option<string>) {
    if h.root != "" then root == Some(h.root)
    else if !NamesNothing(p, "rootContextId") then exists text :: Names(p, "rootContextId", text) && root == Some(text)
    else if mode == WithContext then root == (if context == Some("") then None else context)
    else if NamesNothing(p, "contextId") then root == None
    else exists text :: Names(p, "contextId", text) && root == Some(text)
  }

  /** The task that is opened for an agent. */
  lemma OpenedSays(h: Headers, agent: string, p: Params, mode: Mode, newTask: string, newContext: string)
    ensures var t := Opened(h, agent, p, mode, newTask, newContext);
            && t.id == newTask && t.agent == agent
            && (mode == Stateless ==> t.context == None)
            && (mode == WithContext ==>
                  if NamesNothing(p, "contextId") then t.context == Some(newContext)
                  else t.context.Some? && Names(p, "contextId", t.context.value))
            && IsRoot(h, p, mode, t.context, t.root)
            && (if h.parentTask == "" then t.parent == None else t.parent == Some(h.parentTask))
            && (if h.parentCall == "" then t.parentCall == None else t.parentCall == Some(h.parentCall))
            && t.group == (if h.group != "" then h.group else if h.principal == "admin" then h.toolGroup else "")
  {
    StringParamIs(p, "contextId");
    StringParamIs(p, "rootContextId");
    var (edited, context) := ContextApplied(p, mode, newContext);
    var root := StringParam(p, "rootContextId");
    assert StringParam(edited, "rootContextId") == root;
    if root != "" {
      assert Names(p, "rootContextId", root);
    }
    var named := StringParam(p, "contextId");
    if named != "" {
      assert Names(p, "contextId", named);
    }
  }

  // ---- Who is let through

  /** Principal and group that a caller writes itself count for nothing; a member runs in the group of its
      token and reaches the agents of that group only; the platform reaches every agent, in the group of the
      tool call; nobody else gets through. */
  lemma CredentialsDecide(d: Directory, h: Headers, forged: Headers, caller: Caller, agent: string)
    requires forged == h.(principal := forged.principal, group := forged.group)
    ensures Authenticated(d, forged, caller, agent) == Authenticated(d, h, caller, agent)
    ensures var r := Authenticated(d, h, caller, agent);
            match caller
            case Nobody => r == None
            case Admin => r.Some? && TurnGroup(r.value) == h.toolGroup
            case MemberOf(g) =>
              && (r.Some? <==> g != "" && agent != "" && g in d.agents && agent in d.agents[g])
              && (r.Some? ==> TurnGroup(r.value) == g)
  {
  }

  // ---- Arguments

  /** The arguments as a model writes them. */
  function Written(a: Args): map<string, Value> {
    map["agent" := Str(a.agent), "message" := Str(a.message), "group_id" := Str(a.group),
        "_source_agent" := Str(a.source), "_root_context_id" := Str(a.root), "_parent_task_id" := Str(a.parentTask),
        "_parent_tool_call_id" := Str(a.parentCall), "_group_id" := Str(a.hiddenGroup)]
  }

  lemma WrittenHolds(a: Args)
    ensures var m := Written(a);
            && StringAt(m, "agent") == Some(a.agent) && StringAt(m, "message") == Some(a.message)
            && StringAt(m, "group_id") == Some(a.group) && StringAt(m, "_source_agent") == Some(a.source)
  {
  }

  lemma WrittenHides(a: Args)
    ensures var m := Written(a);
            && StringAt(m, "_root_context_id") == Some(a.root) && StringAt(m, "_parent_task_id") == Some(a.parentTask)
            && StringAt(m, "_parent_tool_call_id") == Some(a.parentCall)
            && StringAt(m, "_group_id") == Some(a.hiddenGroup)
  {
  }

  /** Every argument is read back from under its own name. */
  lemma ArgumentsComeBack(a: Args)
    ensures ArgsOf(Written(a)) == a
  {
    WrittenHolds(a);
    WrittenHides(a);
  }

  // ---- When a call is sent

  predicate IsMember(d: Directory, group: string, agent: string) {
    group != "" && agent != "" && group in d.agents && agent in d.agents[group]
  }

  /** The group that a call is about: the hidden one, else the one the model names, else the default group of
      an agent that belongs to it. */
  predicate GroupOfCall(d: Directory, args: Args, group: string) {
    if TrimSpace(args.hiddenGroup) != "" then group == TrimSpace(args.hiddenGroup)
    else if TrimSpace(args.group) != "" then group == TrimSpace(args.group)
    else if TrimSpace(args.source) == "" then group == ""
    else group == "default-p2p" && "default-p2p" in d.active && IsMember(d, "default-p2p", TrimSpace(args.source))
  }

  /** A call with these arguments may be sent: agent and message are named, and without a group it comes from
      outside all groups, while in a group both ends belong to it. */
  predicate MayBeSent(d: Directory, args: Args, group: string) {
    && args.agent != "" && args.message != "" && GroupOfCall(d, args, group)
    && (group != "" ==>
          && IsMember(d, group, args.agent)
          && (TrimSpace(args.source) != "" ==> IsMember(d, group, TrimSpace(args.source))))
  }

  /** A call is sent exactly when it may be, to the agent it names, with the headers of its arguments. */
  lemma SentIff(d: Directory, args: Args)
    ensures var s := SendToAgent(d, args);
            && (s.Sent? <==> exists group :: MayBeSent(d, args, group))
            && (s.Sent? ==>
                  && s.agent == args.agent && MayBeSent(d, args, s.headers.toolGroup)
                  && s.headers == Headers("", "", s.headers.toolGroup, TrimSpace(args.root), TrimSpace(args.parentTask),
                                          TrimSpace(args.parentCall), TrimSpace(args.source)))
  {
    var s := SendToAgent(d, args);
    if s.Sent? {
      assert MayBeSent(d, args, s.headers.toolGroup);
    }
  }

  /** A refused call says why, by the first of these that holds. */
  lemma RefusedSays(d: Directory, args: Args)
    ensures var s := SendToAgent(d, args);
            s.Refused? ==>
              s.reason ==
                if args.agent == "" then "agent name is required"
                else if args.message == "" then "message is required"
                else if forall group :: !GroupOfCall(d, args, group) then "group_id is required"
                else if forall group :: GroupOfCall(d, args, group) ==>
                          TrimSpace(args.source) != "" && !IsMember(d, group, TrimSpace(args.source))
                     then "source agent is not a member of the group"
                else "target agent is not visible in the group"
  {
    var source := TrimSpace(args.source);
    var named := GroupIdFromArgs(args);
    var group := if named == "" && source != "" then DEFAULT_P2P else named;
    if named != "" || source == "" || CanInferP2P(d, source) {
      assert GroupOfCall(d, args, group);
      assert forall g :: GroupOfCall(d, args, g) ==> g == group;
    }
  }

  // ---- What the opened task knows

  /** A hop: what the turn knows goes into the task that the call opens, and nothing else does. */
  lemma HopSays(d: Directory, args: Args, turn: Task, callId: string, mode: Mode, newTask: string, newContext: string)
    requires Carried(turn.id)
    ensures var t := Hop(d, args, turn, callId, mode, newTask, newContext);
            t.Some? ==>
              && t.value.id == newTask && t.value.agent == args.agent && t.value.parent == Some(turn.id)
              && (Carried(callId) ==> t.value.parentCall == Some(callId))
              && (mode == WithContext ==> t.value.context == Some(newContext))
              && (mode == Stateless ==> t.value.context == None)
  {
    SentFromTurn(d, args, turn, callId);
    SentIff(d, HiddenArgs(args, turn, callId));
    CarriedIffFixed(callId);
    var s := SendToAgent(d, HiddenArgs(args, turn, callId));
    if s.Sent? {
      var h := Authenticated(d, s.headers, Admin, s.agent).value;
      StringParamIs(SENT_PARAMS, "contextId");
      OpenedSays(h, s.agent, SENT_PARAMS, mode, newTask, newContext);
    }
  }

  /** The arguments of a call in a turn: what the turn knows stands over what the model wrote; agent, message
      and the group that the model names are the model's. */
  lemma HiddenSays(args: Args, turn: Task, callId: string)
    ensures var a := HiddenArgs(args, turn, callId);
            && a.agent == args.agent && a.message == args.message && a.group == args.group && a.source == turn.agent
            && a.root == (if turn.root == None || turn.root == Some("") then args.root else turn.root.value)
            && a.parentTask == (if turn.id == "" then args.parentTask else turn.id)
            && a.parentCall == (if callId == "" then args.parentCall else callId)
            && a.hiddenGroup == (if turn.group == "" then args.hiddenGroup else turn.group)
  {
  }
}
