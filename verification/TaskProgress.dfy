/** When the task tools can finish a set of tasks, and that they then cannot get stuck. */
module TaskProgress {
  import opened Json
  import opened TaskItems
  import opened TaskInterleaving

  /** Nothing in progress or failed, readable dependency lists, every dependency a row. */
  ghost predicate Quiet(rows: Rows) {
    forall id :: id in rows ==>
      && (rows[id].status.Pending? || rows[id].status.Completed?)
      && !rows[id].blockedBy.BadBlockers?
      && (forall d :: d in DepsOf(rows, id) ==> d in rows)
  }

  function Open(rows: Rows): set<string> {
    set id | id in rows && !rows[id].status.Completed?
  }

  predicate Ready(rows: Rows, t: string) {
    t in Open(rows) && Startable(rows, t) == Some(true)
  }

  /** Tasks that wait for each other in a circle. */
  predicate Deadlock(rows: Rows, cycle: seq<string>) {
    IsCycle(rows, cycle) && forall i :: 0 <= i < |cycle| ==> cycle[i] in Open(rows)
  }

  ghost predicate Acyclic(rows: Rows) {
    forall cycle :: !Deadlock(rows, cycle)
  }

  /** One successful `claim_task` followed by a successful `complete_task`. */
  function Finish(rows: Rows, t: string): Rows {
    Updated(ClaimedRows(rows, t, "agent"), t, Completed, "", "")
  }

  predicate Schedule(rows: Rows, order: seq<string>)
    decreases |order|
  {
    order == [] || (Ready(rows, order[0]) && Schedule(Finish(rows, order[0]), order[1..]))
  }

  function After(rows: Rows, order: seq<string>): Rows
    decreases |order|
  {
    if order == [] then rows else After(Finish(rows, order[0]), order[1..])
  }

  // ---- A walk along open dependencies ends in a startable task or in a circle

  predicate IsWalk(rows: Rows, path: seq<string>) {
    && path != []
    && (forall i :: 0 <= i < |path| ==> path[i] in Open(rows))
    && (forall i :: 0 <= i < |path| - 1 ==> path[i + 1] in DepsOf(rows, path[i]))
    && (forall i, j :: 0 <= i < j < |path| ==> path[i] != path[j])
  }

  lemma {:induction false} DistinctFits(path: seq<string>, s: set<string>)
    requires (forall i :: 0 <= i < |path| ==> path[i] in s)
             && (forall i, j :: 0 <= i < j < |path| ==> path[i] != path[j])
    ensures |path| <= |s|
  {
    if path != [] {
      var last := path[|path| - 1];
      DistinctFits(path[..|path| - 1], s - {last});
    }
  }

  /** The first dependency that is not completed; in a quiet, closed table it is open. */
  lemma OpenDependency(rows: Rows, t: string) returns (d: string)
    requires Quiet(rows) && t in Open(rows) && !Ready(rows, t)
    ensures d in DepsOf(rows, t) && d in Open(rows)
  {
    var ids := Deps(rows[t].blockedBy);
    var i :| 0 <= i < |ids| && !Done(rows, ids[i]);
    d := ids[i];
  }

  lemma NextIndex(i: nat, n: nat)
    requires i < n
    ensures (i + 1) % n == if i + 1 < n then i + 1 else 0
  {
  }

  lemma CloseCircle(rows: Rows, path: seq<string>, k: nat)
    requires IsWalk(rows, path) && k < |path| && path[k] in DepsOf(rows, path[|path| - 1])
    ensures Deadlock(rows, path[k..])
  {
    var cycle := path[k..];
    forall i | 0 <= i < |cycle| ensures cycle[(i + 1) % |cycle|] in DepsOf(rows, cycle[i]) {
      NextIndex(i, |cycle|);
      assert cycle[i] == path[k + i];
      assert i + 1 < |cycle| ==> cycle[i + 1] == path[k + i + 1] && path[k + i + 1] in DepsOf(rows, path[k + i]);
    }
  }

  lemma {:induction false} WalkEnds(rows: Rows, path: seq<string>)
    requires Quiet(rows) && IsWalk(rows, path)
    ensures (exists t :: Ready(rows, t)) || (exists cycle :: Deadlock(rows, cycle))
    decreases |Open(rows)| - |path|
  {
    DistinctFits(path, Open(rows));
    var last := path[|path| - 1];
    if !Ready(rows, last) {
      var d := OpenDependency(rows, last);
      if d in path {
        var k :| 0 <= k < |path| && path[k] == d;
        CloseCircle(rows, path, k);
      } else {
        DistinctFits(path + [d], Open(rows));
        WalkEnds(rows, path + [d]);
      }
    }
  }

  /** Progress: with open tasks and no circle, some open task passes `CanStart`. */
  lemma SomeTaskIsReady(rows: Rows)
    requires Quiet(rows) && Acyclic(rows) && Open(rows) != {}
    ensures exists t :: Ready(rows, t)
  {
    var t :| t in Open(rows);
    WalkEnds(rows, [t]);
  }

  // ---- Finishing one task

  lemma FinishKeeps(rows: Rows, t: string)
    requires Quiet(rows) && Ready(rows, t)
    ensures Quiet(Finish(rows, t)) && Open(Finish(rows, t)) == Open(rows) - {t}
    ensures forall id :: DepsOf(Finish(rows, t), id) == DepsOf(rows, id)
  {
  }

  lemma CircleIsNotReady(rows: Rows, cycle: seq<string>, i: nat)
    requires Quiet(rows) && Deadlock(rows, cycle) && i < |cycle|
    ensures !Ready(rows, cycle[i])
  {
    var d := cycle[(i + 1) % |cycle|];
    assert d in DepsOf(rows, cycle[i]) && d in Open(rows);
  }

  lemma CircleStays(rows: Rows, t: string, cycle: seq<string>)
    requires Quiet(rows) && Ready(rows, t) && Deadlock(rows, cycle)
    ensures Deadlock(Finish(rows, t), cycle)
  {
    FinishKeeps(rows, t);
    forall i | 0 <= i < |cycle| ensures cycle[i] != t {
      CircleIsNotReady(rows, cycle, i);
    }
  }

  lemma FinishKeepsAcyclic(rows: Rows, t: string)
    requires Quiet(rows) && Ready(rows, t) && Acyclic(rows)
    ensures Acyclic(Finish(rows, t))
  {
    FinishKeeps(rows, t);
    forall cycle ensures !Deadlock(Finish(rows, t), cycle) {
      assert !Deadlock(rows, cycle);
    }
  }

  // ---- Main results

  /** Every schedule finishes one open task per entry, and in an acyclic table it can be continued as
      long as a task is open: claim and complete cannot get stuck. */
  lemma {:induction false} SchedulesProgress(rows: Rows, order: seq<string>)
    requires Quiet(rows) && Schedule(rows, order)
    ensures |Open(After(rows, order))| == |Open(rows)| - |order|
    ensures Acyclic(rows) && Open(After(rows, order)) != {} ==> exists t :: Ready(After(rows, order), t)
    decreases |order|
  {
    if order == [] {
      if Acyclic(rows) && Open(rows) != {} {
        SomeTaskIsReady(rows);
      }
    } else {
      FinishKeeps(rows, order[0]);
      if Acyclic(rows) {
        FinishKeepsAcyclic(rows, order[0]);
      }
      SchedulesProgress(Finish(rows, order[0]), order[1..]);
    }
  }

  ghost predicate Finishes(rows: Rows, order: seq<string>) {
    Schedule(rows, order) && Open(After(rows, order)) == {}
  }

  lemma {:induction false} AcyclicFinishes(rows: Rows) returns (order: seq<string>)
    requires Quiet(rows) && Acyclic(rows)
    ensures Finishes(rows, order)
    decreases |Open(rows)|
  {
    if Open(rows) == {} {
      order := [];
    } else {
      SomeTaskIsReady(rows);
      var t :| Ready(rows, t);
      FinishKeeps(rows, t);
      FinishKeepsAcyclic(rows, t);
      var rest := AcyclicFinishes(Finish(rows, t));
      order := [t] + rest;
      assert order[1..] == rest;
    }
  }

  lemma {:induction false} CircleNeverFinishes(rows: Rows, cycle: seq<string>, order: seq<string>)
    requires Quiet(rows) && Deadlock(rows, cycle) && Schedule(rows, order)
    ensures Deadlock(After(rows, order), cycle)
    decreases |order|
  {
    if order != [] {
      FinishKeeps(rows, order[0]);
      CircleStays(rows, order[0], cycle);
      CircleNeverFinishes(Finish(rows, order[0]), cycle, order[1..]);
    }
  }

  lemma CircleBlocks(rows: Rows, cycle: seq<string>, order: seq<string>)
    requires Quiet(rows) && Deadlock(rows, cycle)
    ensures !Finishes(rows, order)
  {
    if Schedule(rows, order) {
      CircleNeverFinishes(rows, cycle, order);
      assert cycle[0] in Open(After(rows, order));
    }
  }

  /** The tools can finish every task exactly when no open tasks wait for each other in a circle. */
  lemma FinishableIffAcyclic(rows: Rows)
    requires Quiet(rows)
    ensures (exists order :: Finishes(rows, order)) <==> Acyclic(rows)
  {
    if Acyclic(rows) {
      var order := AcyclicFinishes(rows);
      assert Finishes(rows, order);
    }
    forall order, cycle | Deadlock(rows, cycle) ensures !Finishes(rows, order) {
      CircleBlocks(rows, cycle, order);
    }
  }
}
