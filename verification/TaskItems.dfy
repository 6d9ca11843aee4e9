/** The task system: the `task_items` table, its store, and the create, claim and complete tools. */
module TaskItems {
  import opened GoStrings
  import opened Json

  datatype Status = Pending | InProgress | Completed | Failed

  /** The `blocked_by` column: empty, a JSON list of ids, or text that is no such list. */
  datatype Blockers = NoBlockers | Blockers(ids: seq<string>) | BadBlockers

  datatype Item = Item(id: string, context: string, subject: string, description: string, status: Status,
                       owner: string, blockedBy: Blockers, result: string, error: string)

  type Rows = map<string, Item>

  function Deps(b: Blockers): seq<string> {
    match b case Blockers(ids) => ids case _ => []
  }

  predicate Done(rows: Rows, id: string) {
    id in rows && rows[id].status.Completed?
  }

  predicate AllDone(rows: Rows, ids: seq<string>) {
    forall i :: 0 <= i < |ids| ==> Done(rows, ids[i])
  }

  /** What `CanStart` answers: no answer stands for the error on a malformed column. */
  function Startable(rows: Rows, id: string): Option<bool> {
    if id !in rows then Some(false)
    else
      match rows[id].blockedBy
      case NoBlockers => Some(true)
      case Blockers(ids) => Some(AllDone(rows, ids))
      case BadBlockers => None
  }

  /** The three updates, each one atomic SQL statement. */
  function Created(rows: Rows, item: Item): Rows {
    if item.id in rows then rows else rows[item.id := item]
  }

  function ClaimedRows(rows: Rows, id: string, owner: string): Rows {
    if id in rows && rows[id].status.Pending?
    then rows[id := rows[id].(owner := owner, status := InProgress)] else rows
  }

  function Updated(rows: Rows, id: string, status: Status, result: string, error: string): Rows {
    if id in rows then rows[id := rows[id].(status := status, result := result, error := error)] else rows
  }

  /** Items of a context in creation order, and among them the pending ones that can start. */
  function InContext(rows: Rows, order: seq<string>, context: string): seq<Item> {
    if order == [] then []
    else (if order[0] in rows && rows[order[0]].context == context then [rows[order[0]]] else [])
         + InContext(rows, order[1..], context)
  }

  predicate Reported(rows: Rows, item: Item) {
    item.status.Pending? && Startable(rows, item.id) == Some(true)
  }

  function OnlyUnblocked(rows: Rows, items: seq<Item>): seq<Item> {
    if items == [] then []
    else (if Reported(rows, items[0]) then [items[0]] else [])
         + OnlyUnblocked(rows, items[1..])
  }

  lemma UnblockedStep(rows: Rows, items: seq<Item>, i: nat, sofar: seq<Item>)
    requires i < |items|
    ensures sofar + OnlyUnblocked(rows, items[i..]) ==
            (if Reported(rows, items[i]) then sofar + [items[i]] else sofar) + OnlyUnblocked(rows, items[i + 1..])
  {
  }

  /** `strings.Split(s, ",")`, every piece trimmed. */
  function TrimmedPieces(s: string, piece: string): seq<string>
    decreases |s|
  {
    if s == "" then [TrimSpace(piece)]
    else if s[0] == ',' then [TrimSpace(piece)] + TrimmedPieces(s[1..], "")
    else TrimmedPieces(s[1..], piece + [s[0]])
  }

  datatype Reply =
    | Missing(argument: string)
    | Problem(error: string)
    | CreatedTask(id: string, deps: Blockers)
    | BlockedTask(id: string)
    | ClaimedTask(id: string, owner: string)
    | NoSuchTask(id: string)
    | CannotComplete(id: string, status: Status)
    | CompletedTask(id: string, unblocked: seq<Item>)

  class TaskItemStore {
    var rows: Rows
    var order: seq<string>

    ghost predicate Valid()
      reads this
    {
      && (forall id :: id in rows ==> rows[id].id == id)
      && (forall id :: id in order <==> id in rows)
      && (forall i, j :: 0 <= i < j < |order| ==> order[i] != order[j])
    }

    constructor ()
      ensures Valid() && rows == map[] && order == []
    {
      rows, order := map[], [];
    }

    /** Inserting an id that exists violates the primary key. */
    method Create(item: Item) returns (ok: bool)
      requires Valid()
      modifies this
      ensures Valid() && rows == Created(old(rows), item)
      ensures ok <==> item.id !in old(rows)
      ensures order == if ok then old(order) + [item.id] else old(order)
    {
      ok := item.id !in rows;
      if ok {
        rows := rows[item.id := item];
        order := order + [item.id];
      }
    }

    method Get(id: string) returns (item: Option<Item>)
      ensures item == if id in rows then Some(rows[id]) else None
    {
      item := if id in rows then Some(rows[id]) else None;
    }

    method UpdateStatus(id: string, status: Status, result: string, error: string)
      requires Valid()
      modifies this`rows
      ensures Valid() && rows == Updated(old(rows), id, status, result, error)
    {
      if id in rows {
        rows := rows[id := rows[id].(status := status, result := result, error := error)];
      }
    }

    method Claim(id: string, owner: string) returns (ok: bool)
      requires Valid()
      modifies this`rows
      ensures Valid() && rows == ClaimedRows(old(rows), id, owner)
      ensures ok <==> id in old(rows) && old(rows)[id].status.Pending?
    {
      ok := id in rows && rows[id].status.Pending?;
      if ok {
        rows := rows[id := rows[id].(owner := owner, status := InProgress)];
      }
    }

    /** Reads the dependencies one by one and stops at the first that is missing or not completed. */
    method CanStart(id: string) returns (answer: Option<bool>)
      ensures answer == Startable(rows, id)
    {
      var item := Get(id);
      if item.None? {
        return Some(false);
      }
      match item.value.blockedBy {
        case NoBlockers => return Some(true);
        case BadBlockers => return None;
        case Blockers(deps) =>
          for i := 0 to |deps|
            invariant AllDone(rows, deps[..i])
          {
            var dep := Get(deps[i]);
            if dep.None? || !dep.value.status.Completed? {
              assert !Done(rows, deps[i]);
              return Some(false);
            }
            assert forall k :: 0 <= k < i ==> deps[..i][k] == deps[k];
          }
          assert deps[..|deps|] == deps;
          return Some(true);
      }
    }

    method ListUnblocked(context: string) returns (items: seq<Item>)
      requires Valid()
      ensures items == OnlyUnblocked(rows, InContext(rows, order, context))
    {
      var all := InContext(rows, order, context);
      items := [];
      for i := 0 to |all|
        invariant items + OnlyUnblocked(rows, all[i..]) == OnlyUnblocked(rows, all)
      {
        UnblockedStep(rows, all, i, items);
        if all[i].status.Pending? {
          var ok := CanStart(all[i].id);
          if ok == Some(true) {
            items := items + [all[i]];
          }
        }
      }
    }

    /** `create_task`: the new id is a fresh clock reading. */
    method ExecuteCreateTask(newId: string, subject: string, description: string, context: string, blockedBy: string)
      returns (reply: Reply)
      requires Valid()
      modifies this
      ensures Valid()
      ensures subject == "" || context == "" ==>
        rows == old(rows) && reply == Missing(if subject == "" then "subject" else "context_id")
      ensures subject != "" && context != "" ==>
        var deps := if blockedBy == "" then NoBlockers else Blockers(TrimmedPieces(blockedBy, ""));
        && rows == Created(old(rows), Item(newId, context, subject, description, Pending, "", deps, "", ""))
        && reply == if newId in old(rows) then Problem("failed to create task") else CreatedTask(newId, deps)
    {
      if subject == "" {
        return Missing("subject");
      }
      if context == "" {
        return Missing("context_id");
      }
      var deps := NoBlockers;
      if blockedBy != "" {
        deps := Blockers(TrimmedPieces(blockedBy, ""));
      }
      var ok := Create(Item(newId, context, subject, description, Pending, "", deps, "", ""));
      reply := if ok then CreatedTask(newId, deps) else Problem("failed to create task");
    }

    /** `claim_task`: the dependency check and the claim are two separate operations. */
    method ExecuteClaimTask(id: string, owner: string) returns (reply: Reply)
      requires Valid()
      modifies this`rows
      ensures Valid()
      ensures var may := id != "" && Startable(old(rows), id) == Some(true);
              var who := if owner == "" then "agent" else owner;
              rows == if may then ClaimedRows(old(rows), id, who) else old(rows)
      ensures reply == if id == "" then Missing("task_id")
                       else
                         match Startable(old(rows), id)
                         case None => Problem("invalid blocked_by JSON")
                         case Some(false) => BlockedTask(id)
                         case Some(true) =>
                           if old(rows)[id].status.Pending?
                           then ClaimedTask(id, if owner == "" then "agent" else owner)
                           else Problem("task item is not pending or does not exist")
    {
      if id == "" {
        return Missing("task_id");
      }
      var who := if owner == "" then "agent" else owner;
      var ok := CanStart(id);
      if ok.None? {
        return Problem("invalid blocked_by JSON");
      }
      if !ok.value {
        return BlockedTask(id);
      }
      var claimed := Claim(id, who);
      if !claimed {
        return Problem("task item is not pending or does not exist");
      }
      reply := ClaimedTask(id, who);
    }

    /** `complete_task`: reads the status, writes the new one, then lists what can start. */
    method ExecuteCompleteTask(id: string, result: string) returns (reply: Reply)
      requires Valid()
      modifies this`rows
      ensures Valid()
      ensures id in old(rows) && id != "" && old(rows)[id].status.InProgress? ==>
        && rows == Updated(old(rows), id, Completed, result, "")
        && reply == CompletedTask(id, OnlyUnblocked(rows, InContext(rows, order, old(rows)[id].context)))
      ensures !(id in old(rows) && id != "" && old(rows)[id].status.InProgress?) ==>
        && rows == old(rows)
        && reply == if id == "" then Missing("task_id") else if id !in old(rows) then NoSuchTask(id)
                    else CannotComplete(id, old(rows)[id].status)
    {
      if id == "" {
        return Missing("task_id");
      }
      var item := Get(id);
      if item.None? {
        return NoSuchTask(id);
      }
      if !item.value.status.InProgress? {
        return CannotComplete(id, item.value.status);
      }
      UpdateStatus(id, Completed, result, "");
      var unblocked := ListUnblocked(item.value.context);
      reply := CompletedTask(id, unblocked);
    }
  }

  // ---- What completing a task reports

  lemma {:induction false} InContextMembers(rows: Rows, order: seq<string>, context: string, item: Item)
    ensures item in InContext(rows, order, context) <==>
            exists i :: 0 <= i < |order| && order[i] in rows && rows[order[i]] == item && item.context == context
  {
    if order != [] {
      InContextMembers(rows, order[1..], context, item);
      assert forall i :: 1 <= i < |order| ==> order[i] == order[1..][i - 1];
      if item in InContext(rows, order[1..], context) {
        var i :| 0 <= i < |order[1..]| && order[1..][i] in rows && rows[order[1..][i]] == item
          && item.context == context;
        assert order[i + 1] in rows && rows[order[i + 1]] == item;
      }
    }
  }

  lemma {:induction false} UnblockedMembers(rows: Rows, items: seq<Item>, item: Item)
    ensures item in OnlyUnblocked(rows, items) <==>
            item in items && Reported(rows, item)
  {
    if items != [] {
      UnblockedMembers(rows, items[1..], item);
      assert items == [items[0]] + items[1..];
    }
  }

  /** The list reported after a completion holds exactly the pending tasks of the context that can
      start; so a task whose last open dependency was the completed one is reported if and only if it
      belongs to the context of the completed task. */
  lemma CompletionReports(rows: Rows, order: seq<string>, done: string, result: string, t: string)
    requires (forall id :: id in rows ==> rows[id].id == id) && (forall id :: id in order <==> id in rows)
    requires done in rows && t in rows && t != done && rows[t].status.Pending?
    requires Startable(rows, t) == Some(false)
    ensures var after := Updated(rows, done, Completed, result, "");
            Startable(after, t) == Some(true) ==>
              (rows[t] in OnlyUnblocked(after, InContext(after, order, rows[done].context)) <==>
               rows[t].context == rows[done].context)
  {
    var after := Updated(rows, done, Completed, result, "");
    var context := rows[done].context;
    UnblockedMembers(after, InContext(after, order, context), rows[t]);
    InContextMembers(after, order, context, rows[t]);
    assert t in order;
    var i :| 0 <= i < |order| && order[i] == t;
    assert after[order[i]] == rows[t];
  }
}
