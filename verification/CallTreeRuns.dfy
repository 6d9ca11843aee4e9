/** Call trees of any depth: turns run side by side, call each other, and group membership changes
    between the check of a call and its delivery. */
module CallTreeRuns {
  import opened GoStrings
  import opened Json
  import opened CallTree

  /** A request from outside: headers and credentials of its caller, and the directory in which they were
      checked. */
  datatype Entry = Entry(h: Headers, who: Caller, checked: Directory, p: Params, mode: Mode, newContext: string)

  /** Where a task comes from: outside, or a call of an earlier task that was checked in a directory. */
  datatype Origin = Outside(entry: Entry) | Call(caller: nat, checked: Directory)

  /** A call on its way: the request that a turn sent. */
  datatype Flight = Flight(caller: nat, checked: Directory, send: Send)

  datatype State = State(directory: Directory, tasks: seq<Task>, origins: seq<Origin>, flights: seq<Flight>)

  datatype Step =
    | ChangeDirectory(d: Directory)
    | Request(h: Headers, who: Caller, agent: string, p: Params, mode: Mode, newTask: string, newContext: string)
    | SendCall(caller: nat, args: Args, callId: string)
    | Deliver(k: nat, mode: Mode, newTask: string, newContext: string)

  const EMPTY := State(Directory(map[], {}), [], [], [])

  /** A generated id: not used yet, and as `uuid` prints it. */
  predicate NewId(s: State, id: string) {
    Carried(id) && forall i :: 0 <= i < |s.tasks| ==> s.tasks[i].id != id
  }

  function WithTask(s: State, t: Task, o: Origin): State {
    s.(tasks := s.tasks + [t], origins := s.origins + [o])
  }

  /** The task that a request opens, once its credentials have let it through. */
  function Entered(e: Entry, agent: string, newTask: string): Option<Task> {
    match Authenticated(e.checked, e.h, e.who, agent)
    case None => None
    case Some(h) => Some(Opened(h, agent, e.p, e.mode, newTask, e.newContext))
  }

  /** `Request` is any request from outside that carries no parent header.  A flight stays listed after
      its delivery, so that nothing below depends on a request being delivered only once. */
  function Next(s: State, step: Step): State {
    match step
    case ChangeDirectory(d) => s.(directory := d)
    case Request(h, who, agent, p, mode, newTask, newContext) =>
      if h.parentTask == "" && NewId(s, newTask) && Carried(newContext) then
        var e := Entry(h, who, s.directory, p, mode, newContext);
        match Entered(e, agent, newTask)
        case None => s
        case Some(t) => WithTask(s, t, Outside(e))
      else s
    case SendCall(caller, args, callId) =>
      if caller >= |s.tasks| then s
      else
        var send := SendToAgent(s.directory, HiddenArgs(args, s.tasks[caller], callId));
        if send.Sent? then s.(flights := s.flights + [Flight(caller, s.directory, send)]) else s
    case Deliver(k, mode, newTask, newContext) =>
      if k < |s.flights| && s.flights[k].send.Sent? && NewId(s, newTask) then
        var f := s.flights[k];
        match Delivered(s.directory, f.send, mode, newTask, newContext)
        case None => s
        case Some(t) => WithTask(s, t, Call(f.caller, f.checked))
      else s
  }

  function Run(s: State, steps: seq<Step>): State
    decreases |steps|
  {
    if steps == [] then s else Run(Next(s, steps[0]), steps[1..])
  }

  // ---- What every step keeps

  predicate FlightOk(tasks: seq<Task>, f: Flight) {
    && f.caller < |tasks| && f.send.Sent?
    && f.send.headers.parentTask == tasks[f.caller].id
    && (CarriedRoot(tasks[f.caller].root) ==> Some(f.send.headers.root) == tasks[f.caller].root)
    && (Carried(tasks[f.caller].group) ==>
          f.send.headers.toolGroup == tasks[f.caller].group && HasAgent(f.checked, tasks[f.caller].group, f.send.agent))
  }

  /** A task from outside has no parent and is what its request opens; a called task names an earlier task
      as its parent, and has its root and its group. */
  predicate TaskOk(tasks: seq<Task>, o: Origin, i: nat)
    requires i < |tasks|
  {
    && Carried(tasks[i].id)
    && match o
       case Outside(e) =>
         && tasks[i].parent == None && Carried(e.newContext)
         && Entered(e, tasks[i].agent, tasks[i].id) == Some(tasks[i])
       case Call(caller, checked) =>
         && caller < i
         && tasks[i].parent == Some(tasks[caller].id)
         && (CarriedRoot(tasks[caller].root) ==> tasks[i].root == tasks[caller].root)
         && (Carried(tasks[caller].group) ==>
               tasks[i].group == tasks[caller].group && HasAgent(checked, tasks[caller].group, tasks[i].agent))
  }

  predicate Distinct(tasks: seq<Task>) {
    forall i, j :: 0 <= i < j < |tasks| ==> tasks[i].id != tasks[j].id
  }

  predicate Inv(s: State) {
    && |s.origins| == |s.tasks|
    && Distinct(s.tasks)
    && (forall i :: 0 <= i < |s.tasks| ==> TaskOk(s.tasks, s.origins[i], i))
    && (forall k :: 0 <= k < |s.flights| ==> FlightOk(s.tasks, s.flights[k]))
  }

  lemma AddingKeepsInv(s: State, t: Task, o: Origin)
    requires Inv(s) && NewId(s, t.id)
    requires TaskOk(s.tasks + [t], o, |s.tasks|)
    ensures Inv(WithTask(s, t, o))
  {
    var r := WithTask(s, t, o);
    forall i | 0 <= i < |r.tasks| ensures TaskOk(r.tasks, r.origins[i], i) {
      assert i < |s.tasks| ==> TaskOk(s.tasks, s.origins[i], i);
    }
    forall k | 0 <= k < |r.flights| ensures FlightOk(r.tasks, r.flights[k]) {
      assert FlightOk(s.tasks, s.flights[k]);
    }
  }

  lemma SendingKeepsInv(s: State, caller: nat, args: Args, callId: string)
    requires Inv(s) && caller < |s.tasks|
    ensures Inv(Next(s, SendCall(caller, args, callId)))
  {
    assert TaskOk(s.tasks, s.origins[caller], caller);
    SentFromTurn(s.directory, args, s.tasks[caller], callId);
  }

  lemma DeliveredIsOk(s: State, f: Flight, mode: Mode, newTask: string, newContext: string)
    requires f.caller < |s.tasks| == |s.origins| && TaskOk(s.tasks, s.origins[f.caller], f.caller)
    requires FlightOk(s.tasks, f) && Carried(newTask)
    ensures var t := Delivered(s.directory, f.send, mode, newTask, newContext);
            && t.Some? && t.value.id == newTask
            && TaskOk(s.tasks + [t.value], Call(f.caller, f.checked), |s.tasks|)
  {
    DeliveredLineage(s.directory, f.send, mode, newTask, newContext);
  }

  lemma DeliverAdds(s: State, k: nat, t: Task, mode: Mode, newTask: string, newContext: string)
    requires k < |s.flights| && s.flights[k].send.Sent? && NewId(s, newTask)
    requires Delivered(s.directory, s.flights[k].send, mode, newTask, newContext) == Some(t)
    ensures Next(s, Deliver(k, mode, newTask, newContext)) ==
            WithTask(s, t, Call(s.flights[k].caller, s.flights[k].checked))
  {
  }

  lemma DeliveryKeepsInv(s: State, k: nat, mode: Mode, newTask: string, newContext: string)
    requires Inv(s) && k < |s.flights| && NewId(s, newTask)
    ensures Inv(Next(s, Deliver(k, mode, newTask, newContext)))
  {
    var f := s.flights[k];
    assert FlightOk(s.tasks, f);
    DeliveredIsOk(s, f, mode, newTask, newContext);
    var t := Delivered(s.directory, f.send, mode, newTask, newContext).value;
    DeliverAdds(s, k, t, mode, newTask, newContext);
    AddingKeepsInv(s, t, Call(f.caller, f.checked));
  }

  lemma EntryKeepsInv(s: State, e: Entry, agent: string, newTask: string)
    requires Inv(s) && NewId(s, newTask) && Carried(e.newContext) && e.h.parentTask == ""
    ensures Entered(e, agent, newTask).Some? ==> Inv(WithTask(s, Entered(e, agent, newTask).value, Outside(e)))
  {
    var t := Entered(e, agent, newTask);
    if t.Some? {
      assert t.value.parent == None && t.value.id == newTask && t.value.agent == agent;
      AddingKeepsInv(s, t.value, Outside(e));
    }
  }

  lemma StepKeepsInv(s: State, step: Step)
    requires Inv(s)
    ensures Inv(Next(s, step))
  {
    match step
    case ChangeDirectory(_) =>
    case Request(h, who, agent, p, mode, newTask, newContext) =>
      if h.parentTask == "" && NewId(s, newTask) && Carried(newContext) {
        EntryKeepsInv(s, Entry(h, who, s.directory, p, mode, newContext), agent, newTask);
      }
    case SendCall(caller, args, callId) => if caller < |s.tasks| { SendingKeepsInv(s, caller, args, callId); }
    case Deliver(k, mode, newTask, newContext) =>
      if k < |s.flights| && NewId(s, newTask) { DeliveryKeepsInv(s, k, mode, newTask, newContext); }
  }

  lemma {:induction false} RunKeepsInv(s: State, steps: seq<Step>)
    requires Inv(s)
    ensures Inv(Run(s, steps))
    decreases |steps|
  {
    if steps != [] {
      StepKeepsInv(s, steps[0]);
      RunKeepsInv(Next(s, steps[0]), steps[1..]);
    }
  }

  // ---- Main results

  /** The task at the top of the tree of task `i`: the calls are followed back to the outside. */
  function Top(s: State, i: nat): (t: nat)
    requires Inv(s) && i < |s.tasks|
    ensures t <= i && s.origins[t].Outside?
  {
    match s.origins[i]
    case Outside(_) => i
    case Call(caller, _) => assert TaskOk(s.tasks, s.origins[i], i); Top(s, caller)
  }

  /** Parents: a task that was opened by a call has a parent that existed before it; every other task
      has none.  So the parents form trees. */
  lemma ParentsExisted(steps: seq<Step>, i: nat)
    requires i < |Run(EMPTY, steps).tasks|
    ensures var s := Run(EMPTY, steps);
            && i < |s.origins|
            && match s.tasks[i].parent
               case None => s.origins[i].Outside?
               case Some(p) => exists j :: 0 <= j < i && s.tasks[j].id == p
  {
    RunKeepsInv(EMPTY, steps);
    var s := Run(EMPTY, steps);
    assert TaskOk(s.tasks, s.origins[i], i);
  }

  lemma {:induction false} RootOfTree(s: State, i: nat)
    requires Inv(s) && i < |s.tasks| && CarriedRoot(s.tasks[Top(s, i)].root)
    ensures s.tasks[i].root == s.tasks[Top(s, i)].root
  {
    assert TaskOk(s.tasks, s.origins[i], i);
    if s.origins[i].Call? {
      RootOfTree(s, s.origins[i].caller);
    }
  }

  lemma {:induction false} GroupOfTree(s: State, i: nat)
    requires Inv(s) && i < |s.tasks| && Carried(s.tasks[Top(s, i)].group)
    ensures var g := s.tasks[Top(s, i)].group;
            && s.tasks[i].group == g
            && (s.origins[i].Call? ==> HasAgent(s.origins[i].checked, g, s.tasks[i].agent))
  {
    assert TaskOk(s.tasks, s.origins[i], i);
    if s.origins[i].Call? {
      GroupOfTree(s, s.origins[i].caller);
    }
  }

  /** Lineage and confinement, in every run and at every depth: all tasks of a tree share the root of
      the top task; and when the top turn runs in a group, so does every turn below it, and each called
      agent was a member of that group when its call was checked. */
  lemma TreesShareRootAndGroup(steps: seq<Step>, i: nat)
    requires i < |Run(EMPTY, steps).tasks|
    ensures var s := Run(EMPTY, steps);
            && Inv(s)
            && var top := s.tasks[Top(s, i)];
            && (CarriedRoot(top.root) ==> s.tasks[i].root == top.root)
            && (Carried(top.group) ==>
                  && s.tasks[i].group == top.group
                  && (s.origins[i].Call? ==> HasAgent(s.origins[i].checked, top.group, s.tasks[i].agent)))
  {
    RunKeepsInv(EMPTY, steps);
    var s := Run(EMPTY, steps);
    var top := s.tasks[Top(s, i)];
    if CarriedRoot(top.root) {
      RootOfTree(s, i);
    }
    if Carried(top.group) {
      GroupOfTree(s, i);
    }
  }

  /** The request names no context and no root, and its agent keeps contexts. */
  predicate Fresh(e: Entry) {
    && e.mode.WithContext? && e.h.root == ""
    && StringParam(e.p, "rootContextId") == "" && StringParam(e.p, "contextId") == ""
  }

  /** A tree that a fresh request opens has the new context of that request as its root, in every task
      and at every depth. */
  lemma FreshTreesShareTheirContext(steps: seq<Step>, i: nat)
    requires i < |Run(EMPTY, steps).tasks|
    ensures var s := Run(EMPTY, steps);
            && Inv(s)
            && var t := Top(s, i);
               var e := s.origins[t].entry;
               Fresh(e) ==> s.tasks[t].context == s.tasks[i].root == Some(e.newContext)
  {
    TreesShareRootAndGroup(steps, i);
    var s := Run(EMPTY, steps);
    var t := Top(s, i);
    var e := s.origins[t].entry;
    if Fresh(e) {
      assert TaskOk(s.tasks, s.origins[t], t);
      var h := Authenticated(e.checked, e.h, e.who, s.tasks[t].agent).value;
      FreshRequestHasRoot(h, s.tasks[t].agent, e.p, e.mode, s.tasks[t].id, e.newContext);
    }
  }

  /** The directory in which a task's agent was looked up before the task was opened. */
  function CheckedIn(o: Origin): Directory {
    match o case Outside(e) => e.checked case Call(_, checked) => checked
  }

  /** Whatever a member sends and whatever the agents it reaches call, at every depth: the whole tree runs
      in the group of the member's token, and every agent in it was a member of that group when it was
      checked. */
  lemma MemberTreesStayInTheirGroup(steps: seq<Step>, i: nat, g: string)
    requires i < |Run(EMPTY, steps).tasks| && Tight(g)
    ensures var s := Run(EMPTY, steps);
            && Inv(s)
            && (s.origins[Top(s, i)].entry.who == MemberOf(g) ==>
                  s.tasks[i].group == g && HasAgent(CheckedIn(s.origins[i]), g, s.tasks[i].agent))
  {
    TreesShareRootAndGroup(steps, i);
    var s := Run(EMPTY, steps);
    var t := Top(s, i);
    var e := s.origins[t].entry;
    if e.who == MemberOf(g) {
      assert TaskOk(s.tasks, s.origins[t], t);
      MemberGroupIsGranted(e.checked, e.h, g, s.tasks[t].agent);
    }
  }
}
