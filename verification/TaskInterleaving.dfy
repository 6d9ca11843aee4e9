/** The task tools run by several agents at once.  Every database statement is one atomic step; the
    dependency check reads its rows one at a time, and other clients run between any two steps. */
module TaskInterleaving {
  import opened Json
  import opened TaskItems

  /** How far a client is in `claim_task` or `complete_task`. */
  datatype Client =
    | Idle
    | Checking(id: string, owner: string, left: seq<string>)
    | Cleared(id: string, owner: string)
    | Finishing(id: string, result: string)

  datatype Event = Claimed(id: string) | Finished(id: string)

  datatype State = State(rows: Rows, clients: map<nat, Client>, log: seq<Event>)

  datatype Step =
    | CreateTask(item: Item)
    | BeginClaim(client: nat, id: string, owner: string)
    | CheckDep(client: nat)
    | Claim(client: nat)
    | BeginComplete(client: nat, id: string, result: string)
    | Complete(client: nat)

  function At(s: State, c: nat): Client {
    if c in s.clients then s.clients[c] else Idle
  }

  function With(s: State, c: nat, client: Client): State {
    s.(clients := s.clients[c := client])
  }

  /** The first read of `CanStart`: the row of the task itself. */
  function AfterLookup(rows: Rows, id: string, owner: string): Client {
    if id !in rows then Idle
    else
      match rows[id].blockedBy
      case NoBlockers => Cleared(id, owner)
      case Blockers(ids) => Checking(id, owner, ids)
      case BadBlockers => Idle
  }

  /** A step that does not apply to the client's position changes nothing. */
  function Next(s: State, step: Step): State {
    match step
    case CreateTask(item) =>
      if item.status.Pending? then s.(rows := Created(s.rows, item)) else s
    case BeginClaim(c, id, owner) =>
      if At(s, c).Idle? then With(s, c, AfterLookup(s.rows, id, owner)) else s
    case CheckDep(c) =>
      (match At(s, c)
       case Checking(id, owner, left) =>
         if left == [] then With(s, c, Cleared(id, owner))
         else if Done(s.rows, left[0]) then With(s, c, Checking(id, owner, left[1..]))
         else With(s, c, Idle)
       case _ => s)
    case Claim(c) =>
      (match At(s, c)
       case Cleared(id, owner) =>
         var won := id in s.rows && s.rows[id].status.Pending?;
         With(s, c, Idle).(rows := ClaimedRows(s.rows, id, owner), log := if won then s.log + [Claimed(id)] else s.log)
       case _ => s)
    case BeginComplete(c, id, result) =>
      if At(s, c).Idle? && id in s.rows && s.rows[id].status.InProgress? then With(s, c, Finishing(id, result)) else s
    case Complete(c) =>
      (match At(s, c)
       case Finishing(id, result) =>
         With(s, c, Idle).(rows := Updated(s.rows, id, Completed, result, ""), log := s.log + [Finished(id)])
       case _ => s)
  }

  function Run(s: State, steps: seq<Step>): State
    decreases |steps|
  {
    if steps == [] then s else Run(Next(s, steps[0]), steps[1..])
  }

  const EMPTY := State(map[], map[], [])

  // ---- What every step keeps

  predicate Advanced(before: Item, after: Item) {
    && after.blockedBy == before.blockedBy
    && (!before.status.Pending? ==> !after.status.Pending? && after.owner == before.owner)
    && (before.status.InProgress? ==> after.status.InProgress? || after.status.Completed?)
    && (before.status.Completed? ==> after.status.Completed?)
  }

  predicate Grown(before: Rows, after: Rows) {
    forall id :: id in before ==> id in after && Advanced(before[id], after[id])
  }

  predicate Started(rows: Rows, id: string) {
    id in rows && (rows[id].status.InProgress? || rows[id].status.Completed?)
  }

  /** Every task in progress or completed has all its dependencies completed. */
  ghost predicate Safe(rows: Rows) {
    forall id :: id in rows && !rows[id].status.Pending? ==> Started(rows, id) && Startable(rows, id) == Some(true)
  }

  /** What a client has read is still true: completion is never taken back. */
  predicate ClientOk(rows: Rows, client: Client) {
    match client
    case Idle => true
    case Checking(id, _, left) =>
      && id in rows && rows[id].blockedBy.Blockers?
      && var ids := rows[id].blockedBy.ids;
      && |left| <= |ids| && left == ids[|ids| - |left|..]
      && AllDone(rows, ids[..|ids| - |left|])
    case Cleared(id, _) => Startable(rows, id) == Some(true)
    case Finishing(id, _) => Started(rows, id)
  }

  function DepsOf(rows: Rows, t: string): seq<string> {
    if t in rows then Deps(rows[t].blockedBy) else []
  }

  predicate MayFollow(rows: Rows, log: seq<Event>, e: Event) {
    match e
    case Claimed(t) => t in rows && Claimed(t) !in log && forall d :: d in DepsOf(rows, t) ==> Finished(d) in log
    case Finished(t) => Claimed(t) in log
  }

  /** The history: a task is claimed once, after all its dependencies were finished, and finished only
      after it was claimed. */
  predicate LogOk(rows: Rows, log: seq<Event>) {
    log == [] || (LogOk(rows, log[..|log| - 1]) && MayFollow(rows, log[..|log| - 1], log[|log| - 1]))
  }

  ghost predicate LogCovers(rows: Rows, log: seq<Event>) {
    && (forall id :: Claimed(id) in log <==> id in rows && !rows[id].status.Pending?)
    && (forall id :: Finished(id) in log <==> Done(rows, id))
  }

  predicate ClientsOk(rows: Rows, clients: map<nat, Client>) {
    forall c :: c in clients ==> ClientOk(rows, clients[c])
  }

  ghost predicate Inv(s: State) {
    && Safe(s.rows)
    && ClientsOk(s.rows, s.clients)
    && LogOk(s.rows, s.log)
    && LogCovers(s.rows, s.log)
  }

  lemma StepGrows(s: State, step: Step)
    requires ClientsOk(s.rows, s.clients)
    ensures Grown(s.rows, Next(s, step).rows)
  {
  }

  lemma {:induction false} LogStaysOk(before: Rows, after: Rows, log: seq<Event>)
    requires Grown(before, after) && LogOk(before, log)
    ensures LogOk(after, log)
  {
    if log != [] {
      LogStaysOk(before, after, log[..|log| - 1]);
    }
  }

  lemma DoneStays(before: Rows, after: Rows, ids: seq<string>)
    requires Grown(before, after) && AllDone(before, ids)
    ensures AllDone(after, ids)
  {
  }

  lemma ClientsStayOk(before: Rows, after: Rows, clients: map<nat, Client>)
    requires Grown(before, after) && ClientsOk(before, clients)
    ensures ClientsOk(after, clients)
  {
  }

  /** A row moved forward keeps the table safe when its own dependencies are completed. */
  lemma SafeStays(before: Rows, after: Rows, changed: string)
    requires Safe(before) && Grown(before, after) && after.Keys == before.Keys
    requires forall id :: id in before && id != changed ==> after[id].status == before[id].status
    requires changed in before ==> Started(after, changed) && Startable(before, changed) == Some(true)
    ensures Safe(after)
  {
  }

  /** The step that changes nothing but a client's position. */
  lemma MoveKeepsInv(s: State, c: nat, client: Client)
    requires Inv(s) && ClientOk(s.rows, client)
    ensures Inv(With(s, c, client))
  {
  }

  lemma CheckKeepsInv(s: State, c: nat)
    requires Inv(s)
    ensures Inv(Next(s, CheckDep(c)))
  {
    if At(s, c).Checking? {
      var Checking(id, owner, left) := At(s, c);
      assert ClientOk(s.rows, s.clients[c]);
      var ids := s.rows[id].blockedBy.ids;
      var n := |ids| - |left|;
      if left == [] {
        assert ids[..n] == ids;
        MoveKeepsInv(s, c, Cleared(id, owner));
      } else if Done(s.rows, left[0]) {
        assert ids[n..][1..] == ids[n + 1..] && ids[n] == left[0];
        assert ids[..n + 1] == ids[..n] + [ids[n]];
        MoveKeepsInv(s, c, Checking(id, owner, left[1..]));
      } else {
        MoveKeepsInv(s, c, Idle);
      }
    }
  }

  lemma CreateKeepsInv(s: State, item: Item)
    requires Inv(s) && item.status.Pending?
    ensures Inv(Next(s, CreateTask(item)))
  {
    var after := Created(s.rows, item);
    assert Grown(s.rows, after);
    LogStaysOk(s.rows, after, s.log);
    ClientsStayOk(s.rows, after, s.clients);
    forall id | id in after && !after[id].status.Pending?
      ensures Started(after, id) && Startable(after, id) == Some(true)
    {
      DoneStays(s.rows, after, Deps(s.rows[id].blockedBy));
    }
  }

  lemma {:induction false} FinishedWasClaimed(rows: Rows, log: seq<Event>, t: string)
    requires LogOk(rows, log) && Finished(t) in log
    ensures Claimed(t) in log
  {
    var before := log[..|log| - 1];
    assert log == before + [log[|log| - 1]];
    if Finished(t) in before {
      FinishedWasClaimed(rows, before, t);
    }
  }

  /** What remains to check after the rows moved forward and the log grew by one event. */
  lemma LogGrows(before: Rows, after: Rows, log: seq<Event>, e: Event)
    requires Grown(before, after) && LogOk(before, log) && MayFollow(before, log, e)
    ensures LogOk(after, log + [e])
  {
    LogStaysOk(before, after, log);
    assert (log + [e])[..|log|] == log;
  }

  lemma CoversClaim(before: Rows, after: Rows, log: seq<Event>, t: string)
    requires LogCovers(before, log) && t in before && after.Keys == before.Keys && after[t].status.InProgress?
    requires before[t].status.Pending? && forall id :: id in before && id != t ==> after[id] == before[id]
    ensures LogCovers(after, log + [Claimed(t)])
  {
  }

  lemma CoversFinish(before: Rows, after: Rows, log: seq<Event>, t: string)
    requires LogCovers(before, log) && t in before && after.Keys == before.Keys && after[t].status.Completed?
    requires Started(before, t) && forall id :: id in before && id != t ==> after[id] == before[id]
    ensures LogCovers(after, log + [Finished(t)])
  {
  }

  lemma ClaimKeepsInv(s: State, c: nat, id: string, owner: string)
    requires Inv(s) && At(s, c) == Cleared(id, owner)
    ensures Inv(Next(s, Claim(c)))
  {
    assert ClientOk(s.rows, s.clients[c]);
    if s.rows[id].status.Pending? {
      WonClaimKeepsInv(s, c, id, owner);
    } else {
      MoveKeepsInv(s, c, Idle);
    }
  }

  lemma WonClaimKeepsInv(s: State, c: nat, id: string, owner: string)
    requires Inv(s) && At(s, c) == Cleared(id, owner) && id in s.rows && s.rows[id].status.Pending?
    ensures Inv(Next(s, Claim(c)))
  {
    StepGrows(s, Claim(c));
    assert ClientOk(s.rows, s.clients[c]);
    var after := ClaimedRows(s.rows, id, owner);
    ClientsStayOk(s.rows, after, s.clients);
    SafeStays(s.rows, after, id);
    ClearedMayClaim(s, id);
    LogGrows(s.rows, after, s.log, Claimed(id));
    CoversClaim(s.rows, after, s.log, id);
  }

  lemma ClearedMayClaim(s: State, id: string)
    requires Inv(s) && Startable(s.rows, id) == Some(true) && s.rows[id].status.Pending?
    ensures MayFollow(s.rows, s.log, Claimed(id))
  {
  }

  lemma CompleteKeepsInv(s: State, c: nat, id: string, result: string)
    requires Inv(s) && At(s, c) == Finishing(id, result)
    ensures var after := Updated(s.rows, id, Completed, result, "");
            Inv(State(after, s.clients[c := Idle], s.log + [Finished(id)]))
  {
    StepGrows(s, Complete(c));
    assert ClientOk(s.rows, s.clients[c]);
    var after := Updated(s.rows, id, Completed, result, "");
    ClientsStayOk(s.rows, after, s.clients);
    SafeStays(s.rows, after, id);
    LogGrows(s.rows, after, s.log, Finished(id));
    CoversFinish(s.rows, after, s.log, id);
  }

  lemma BeginClaimKeepsInv(s: State, c: nat, id: string, owner: string)
    requires Inv(s)
    ensures Inv(Next(s, BeginClaim(c, id, owner)))
  {
    if At(s, c).Idle? {
      MoveKeepsInv(s, c, AfterLookup(s.rows, id, owner));
    }
  }

  lemma BeginCompleteKeepsInv(s: State, c: nat, id: string, result: string)
    requires Inv(s)
    ensures Inv(Next(s, BeginComplete(c, id, result)))
  {
    if At(s, c).Idle? && id in s.rows && s.rows[id].status.InProgress? {
      MoveKeepsInv(s, c, Finishing(id, result));
    }
  }

  lemma StepKeepsInv(s: State, step: Step)
    requires Inv(s)
    ensures Inv(Next(s, step))
  {
    match step
    case CreateTask(item) => if item.status.Pending? { CreateKeepsInv(s, item); }
    case BeginClaim(c, id, owner) => BeginClaimKeepsInv(s, c, id, owner);
    case CheckDep(c) => CheckKeepsInv(s, c);
    case Claim(c) => if At(s, c).Cleared? { ClaimKeepsInv(s, c, At(s, c).id, At(s, c).owner); }
    case BeginComplete(c, id, result) => BeginCompleteKeepsInv(s, c, id, result);
    case Complete(c) => if At(s, c).Finishing? { CompleteKeepsInv(s, c, At(s, c).id, At(s, c).result); }
  }

  lemma {:induction false} RunKeepsInv(s: State, steps: seq<Step>)
    requires Inv(s)
    ensures Inv(Run(s, steps))
    decreases |steps|
  {
    if steps != [] {
      StepKeepsInv(s, steps[0]);
      RunKeepsInv(Next(s, steps[0]), steps[1..]);
    }
  }

  // ---- Main results, for every interleaving

  /** Although check and claim are separate steps, a task in progress or completed has every
      dependency completed. */
  lemma EveryRunIsSafe(steps: seq<Step>)
    ensures Safe(Run(EMPTY, steps).rows)
  {
    RunKeepsInv(EMPTY, steps);
  }

  predicate ClaimedAt(log: seq<Event>, k: int, t: string) {
    0 <= k < |log| && log[k] == Claimed(t)
  }

  lemma {:induction false} EarlierLogOk(rows: Rows, log: seq<Event>, k: nat)
    requires LogOk(rows, log) && k <= |log|
    ensures LogOk(rows, log[..k])
    decreases |log|
  {
    if k == |log| {
      assert log[..k] == log;
    } else {
      var before := log[..|log| - 1];
      EarlierLogOk(rows, before, k);
      assert before[..k] == log[..k];
    }
  }

  lemma ClaimComesAfterDeps(rows: Rows, log: seq<Event>, k: nat, t: string)
    requires LogOk(rows, log) && ClaimedAt(log, k, t)
    ensures Claimed(t) !in log[..k] && forall d :: d in DepsOf(rows, t) ==> Finished(d) in log[..k]
  {
  }

  lemma ClaimedBeforeFinished(rows: Rows, log: seq<Event>, k: nat, d: string)
    requires LogOk(rows, log) && k <= |log| && Finished(d) in log[..k]
    ensures exists i, j :: 0 <= i < j < k && log[i] == Claimed(d) && log[j] == Finished(d)
  {
    var j :| 0 <= j < k && log[..k][j] == Finished(d);
    EarlierLogOk(rows, log, j + 1);
    assert log[..j + 1][..j] == log[..j];
    var i :| 0 <= i < j && log[..j][i] == Claimed(d);
    assert log[i] == Claimed(d) && log[j] == Finished(d);
  }

  /** At most one claim per task succeeds. */
  lemma AtMostOneClaim(steps: seq<Step>, j: nat, k: nat, t: string)
    requires ClaimedAt(Run(EMPTY, steps).log, j, t) && ClaimedAt(Run(EMPTY, steps).log, k, t)
    ensures j == k
  {
    RunKeepsInv(EMPTY, steps);
    var s := Run(EMPTY, steps);
    ClaimComesAfterDeps(s.rows, s.log, j, t);
    ClaimComesAfterDeps(s.rows, s.log, k, t);
    assert forall i, n :: 0 <= i < n <= |s.log| ==> s.log[..n][i] == s.log[i];
  }

  predicate FinishedAt(log: seq<Event>, k: int, t: string) {
    0 <= k < |log| && log[k] == Finished(t)
  }

  /** A claim comes after the completion of every dependency, which comes after that dependency's own
      claim. */
  lemma ClaimsFollowDependencies(steps: seq<Step>, k: nat, t: string, d: string)
    requires var s := Run(EMPTY, steps); ClaimedAt(s.log, k, t) && d in DepsOf(s.rows, t)
    ensures var log := Run(EMPTY, steps).log;
            exists i, j :: 0 <= i < j < k && log[i] == Claimed(d) && log[j] == Finished(d)
  {
    RunKeepsInv(EMPTY, steps);
    var s := Run(EMPTY, steps);
    ClaimComesAfterDeps(s.rows, s.log, k, t);
    ClaimedBeforeFinished(s.rows, s.log, k, d);
  }

  lemma FinishComesAfterClaim(rows: Rows, log: seq<Event>, k: nat, t: string) returns (i: nat)
    requires LogOk(rows, log) && FinishedAt(log, k, t)
    ensures i < k && ClaimedAt(log, i, t)
  {
    EarlierLogOk(rows, log, k + 1);
    assert log[..k + 1][..k] == log[..k];
    i :| 0 <= i < k && log[..k][i] == Claimed(t);
  }

  /** Completions follow a topological order: every completion of a task comes after a completion of each
      of its dependencies. */
  lemma CompletionsFollowDependencies(steps: seq<Step>, k: nat, t: string, d: string)
    requires var s := Run(EMPTY, steps); FinishedAt(s.log, k, t) && d in DepsOf(s.rows, t)
    ensures exists j :: 0 <= j < k && FinishedAt(Run(EMPTY, steps).log, j, d)
  {
    RunKeepsInv(EMPTY, steps);
    var s := Run(EMPTY, steps);
    var i := FinishComesAfterClaim(s.rows, s.log, k, t);
    ClaimComesAfterDeps(s.rows, s.log, i, t);
    var j :| 0 <= j < i && s.log[..i][j] == Finished(d);
    assert FinishedAt(s.log, j, d);
  }

  /** A closed walk along dependencies. */
  predicate IsCycle(rows: Rows, cycle: seq<string>) {
    && cycle != []
    && (forall i :: 0 <= i < |cycle| ==> cycle[(i + 1) % |cycle|] in DepsOf(rows, cycle[i]))
  }

  lemma {:induction false} NoClaimOnCycle(rows: Rows, log: seq<Event>, cycle: seq<string>, i: nat, k: nat)
    requires LogOk(rows, log) && IsCycle(rows, cycle) && i < |cycle|
    ensures !ClaimedAt(log, k, cycle[i])
    decreases k
  {
    if ClaimedAt(log, k, cycle[i]) {
      var next := (i + 1) % |cycle|;
      ClaimComesAfterDeps(rows, log, k, cycle[i]);
      EarlierLogOk(rows, log, k);
      FinishedWasClaimed(rows, log[..k], cycle[next]);
      var j :| 0 <= j < k && log[..k][j] == Claimed(cycle[next]);
      NoClaimOnCycle(rows, log, cycle, next, j);
    }
  }

  lemma CycleIsPending(s: State, cycle: seq<string>, i: nat)
    requires Inv(s) && IsCycle(s.rows, cycle) && i < |cycle|
    ensures cycle[i] in s.rows && s.rows[cycle[i]].status.Pending?
  {
    assert cycle[(i + 1) % |cycle|] in DepsOf(s.rows, cycle[i]);
    if !s.rows[cycle[i]].status.Pending? {
      assert Claimed(cycle[i]) in s.log;
      var k :| 0 <= k < |s.log| && s.log[k] == Claimed(cycle[i]);
      NoClaimOnCycle(s.rows, s.log, cycle, i, k);
    }
  }

  /** No task on a dependency cycle is ever claimed, in any interleaving: all of them stay pending. */
  lemma CyclesStayPending(steps: seq<Step>, cycle: seq<string>, i: nat)
    requires IsCycle(Run(EMPTY, steps).rows, cycle) && i < |cycle|
    ensures var rows := Run(EMPTY, steps).rows; cycle[i] in rows && rows[cycle[i]].status.Pending?
  {
    RunKeepsInv(EMPTY, steps);
    CycleIsPending(Run(EMPTY, steps), cycle, i);
  }

  /** Once a task is claimed its owner never changes, and its status only advances. */
  lemma {:induction false} OwnerIsKept(s: State, steps: seq<Step>)
    requires Inv(s)
    ensures Grown(s.rows, Run(s, steps).rows)
    decreases |steps|
  {
    if steps != [] {
      StepGrows(s, steps[0]);
      StepKeepsInv(s, steps[0]);
      OwnerIsKept(Next(s, steps[0]), steps[1..]);
    }
  }

  // ---- Uninterrupted, the steps are the sequential tool

  function ClaimSteps(rows: Rows, c: nat, id: string, owner: string): seq<Step> {
    var checks := if id in rows then |Deps(rows[id].blockedBy)| + 1 else 0;
    [BeginClaim(c, id, owner)] + seq(checks, _ => CheckDep(c)) + [Claim(c)]
  }

  lemma {:induction false} ChecksDecide(s: State, c: nat, n: nat, id: string, owner: string, left: seq<string>)
    requires At(s, c) == Checking(id, owner, left) && n == |left| + 1
    ensures var r := Run(s, seq(n, _ => CheckDep(c)) + [Claim(c)]);
            && r.rows == (if AllDone(s.rows, left) then ClaimedRows(s.rows, id, owner) else s.rows)
            && At(r, c).Idle?
    decreases |left|
  {
    var steps := seq(n, _ => CheckDep(c)) + [Claim(c)];
    var s1 := Next(s, CheckDep(c));
    assert steps[0] == CheckDep(c) && steps[1..] == seq(n - 1, _ => CheckDep(c)) + [Claim(c)];
    if left == [] {
      assert steps[1..] == [Claim(c)];
      assert Run(s1, [Claim(c)]) == Next(s1, Claim(c));
    } else if Done(s.rows, left[0]) {
      ChecksDecide(s1, c, n - 1, id, owner, left[1..]);
      assert AllDone(s.rows, left) <==> AllDone(s.rows, left[1..]) by {
        assert forall i :: 1 <= i < |left| ==> left[i] == left[1..][i - 1];
      }
    } else {
      IdleChecksDoNothing(s1, c, n - 1);
      assert !AllDone(s.rows, left);
    }
  }

  lemma {:induction false} IdleChecksDoNothing(s: State, c: nat, n: nat)
    requires At(s, c).Idle?
    ensures Run(s, seq(n, _ => CheckDep(c)) + [Claim(c)]) == s
  {
    var steps := seq(n, _ => CheckDep(c)) + [Claim(c)];
    if n == 0 {
      assert steps == [Claim(c)];
      assert Run(s, [Claim(c)]) == Next(s, Claim(c));
    } else {
      assert steps[0] == CheckDep(c) && steps[1..] == seq(n - 1, _ => CheckDep(c)) + [Claim(c)];
      IdleChecksDoNothing(s, c, n - 1);
    }
  }

  lemma ClearedChecksDoNothing(s: State, c: nat, id: string, owner: string)
    requires At(s, c) == Cleared(id, owner)
    ensures Run(s, seq(1, _ => CheckDep(c)) + [Claim(c)]) == Next(s, Claim(c))
  {
    var steps := seq(1, _ => CheckDep(c)) + [Claim(c)];
    assert steps[0] == CheckDep(c) && steps[1..] == [Claim(c)];
    assert Run(s, [Claim(c)]) == Next(s, Claim(c));
  }

  /** A client that runs without interruption leaves the rows that `ExecuteClaimTask` leaves. */
  lemma UninterruptedIsSequential(s: State, c: nat, id: string, owner: string)
    requires At(s, c).Idle?
    ensures Run(s, ClaimSteps(s.rows, c, id, owner)).rows ==
            if Startable(s.rows, id) == Some(true) then ClaimedRows(s.rows, id, owner) else s.rows
  {
    var n := if id in s.rows then |Deps(s.rows[id].blockedBy)| + 1 else 0;
    var rest := seq(n, _ => CheckDep(c)) + [Claim(c)];
    var steps := ClaimSteps(s.rows, c, id, owner);
    assert steps[0] == BeginClaim(c, id, owner) && steps[1..] == rest;
    var s1 := Next(s, steps[0]);
    match At(s1, c)
    case Idle => IdleChecksDoNothing(s1, c, n);
    case Checking(_, _, left) => ChecksDecide(s1, c, n, id, owner, left);
    case Cleared(_, _) => ClearedChecksDoNothing(s1, c, id, owner);
    case Finishing(_, _) =>
  }

  // ---- When a result is final

  /** The status check of `complete_task` is not repeated by its update: two clients that both saw the
      task in progress both complete it, and the later result replaces the earlier one. */
  lemma LaterCompletionWins(s: State, a: nat, b: nat, t: string, first: string, second: string)
    requires a != b && At(s, a).Idle? && At(s, b).Idle? && t in s.rows && s.rows[t].status.InProgress?
    ensures var r := Run(s, [BeginComplete(a, t, first), BeginComplete(b, t, second), Complete(a), Complete(b)]);
            t in r.rows && r.rows[t].result == second && r.log == s.log + [Finished(t), Finished(t)]
  {
    var steps := [BeginComplete(a, t, first), BeginComplete(b, t, second), Complete(a), Complete(b)];
    var s1 := Next(s, steps[0]);
    var s2 := Next(s1, steps[1]);
    var s3 := Next(s2, steps[2]);
    var s4 := Next(s3, steps[3]);
    assert Run(s3, steps[3..]) == s4;
    assert Run(s2, steps[2..]) == s4;
    assert Run(s1, steps[1..]) == s4;
    assert s4.log == s.log + [Finished(t), Finished(t)];
  }

  /** The clients that have passed the status check of `complete_task` for a task. */
  function Completers(s: State, t: string): set<nat> {
    set c | c in s.clients && s.clients[c].Finishing? && s.clients[c].id == t
  }

  predicate Settled(s: State, t: string) {
    Done(s.rows, t) && forall c :: c in Completers(s, t) ==> s.clients[c].result == s.rows[t].result
  }

  /** A completed task stays completed, and no further client gets past the status check. */
  lemma DoneStep(s: State, step: Step, t: string)
    requires Done(s.rows, t)
    ensures var r := Next(s, step);
            && Done(r.rows, t) && Completers(r, t) <= Completers(s, t)
            && (forall c :: c in Completers(r, t) ==> r.clients[c] == s.clients[c])
            && (r.rows[t].result == s.rows[t].result ||
                (step.Complete? && step.client in Completers(s, t)
                 && r.rows[t].result == s.clients[step.client].result))
  {
  }

  lemma {:induction false} SettledStays(s: State, steps: seq<Step>, t: string)
    requires Settled(s, t)
    ensures Settled(Run(s, steps), t) && Run(s, steps).rows[t].result == s.rows[t].result
    decreases |steps|
  {
    if steps != [] {
      DoneStep(s, steps[0], t);
      SettledStays(Next(s, steps[0]), steps[1..], t);
    }
  }

  ghost predicate KeepsResult(s: State, t: string)
    requires Done(s.rows, t)
  {
    forall steps :: var r := Run(s, steps); Done(r.rows, t) && r.rows[t].result == s.rows[t].result
  }

  /** The result of a completed task is final, in every continuation, if and only if every client that
      has already passed the status check for it brings the same result. */
  lemma ResultIsFinalIff(s: State, t: string)
    requires Done(s.rows, t)
    ensures KeepsResult(s, t) <==> Settled(s, t)
  {
    if Settled(s, t) {
      forall steps ensures var r := Run(s, steps); Done(r.rows, t) && r.rows[t].result == s.rows[t].result {
        SettledStays(s, steps, t);
      }
    } else {
      var c :| c in Completers(s, t) && s.clients[c].result != s.rows[t].result;
      var steps := [Complete(c)];
      assert Run(s, steps) == Next(s, Complete(c));
      assert Run(s, steps).rows[t].result == s.clients[c].result;
    }
  }

  /** How often a log reports the completion of a task. */
  function Completions(log: seq<Event>, t: string): nat {
    if log == [] then 0 else Completions(log[..|log| - 1], t) + if log[|log| - 1] == Finished(t) then 1 else 0
  }

  lemma CompletionsPush(log: seq<Event>, e: Event, t: string)
    ensures Completions(log + [e], t) == Completions(log, t) + if e == Finished(t) then 1 else 0
  {
    assert (log + [e])[..|log|] == log;
  }

  lemma CompletionStep(s: State, step: Step, t: string)
    requires Done(s.rows, t)
    ensures var r := Next(s, step);
            Completions(r.log, t) + |Completers(r, t)| <= Completions(s.log, t) + |Completers(s, t)|
  {
    var r := Next(s, step);
    DoneStep(s, step, t);
    Subset(Completers(r, t), Completers(s, t));
    if step.Complete? && At(s, step.client).Finishing? {
      var id := At(s, step.client).id;
      CompletionsPush(s.log, Finished(id), t);
      if id == t {
        assert step.client in Completers(s, t);
        Subset(Completers(r, t), Completers(s, t) - {step.client});
      }
    } else if step.Claim? && At(s, step.client).Cleared? {
      CompletionsPush(s.log, Claimed(At(s, step.client).id), t);
    }
  }

  lemma {:induction false} Subset(a: set<nat>, b: set<nat>)
    requires a <= b
    ensures |a| <= |b|
  {
    if a != {} {
      var x :| x in a;
      Subset(a - {x}, b - {x});
    }
  }

  /** From the moment a task is completed, it is completed again at most once per client that had already
      passed the status check. */
  lemma {:induction false} CompletionsAreBounded(s: State, steps: seq<Step>, t: string)
    requires Done(s.rows, t)
    ensures Completions(Run(s, steps).log, t) <= Completions(s.log, t) + |Completers(s, t)|
    decreases |steps|
  {
    if steps != [] {
      DoneStep(s, steps[0], t);
      CompletionStep(s, steps[0], t);
      CompletionsAreBounded(Next(s, steps[0]), steps[1..], t);
    }
  }
}
