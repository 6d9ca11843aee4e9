/** What the task tools leave behind, told apart from how they compute it: the dependencies that a comma list
    gives, when a task may start, what is listed, and where every entry of a row comes from. */
module TaskOutcomes {
  import opened GoStrings
  import opened Json
  import opened TaskItems
  import opened TaskInterleaving

  // ---- The comma list

  predicate NoComma(s: string) {
    ',' !in s
  }

  /** The pieces between the commas of a text. */
  ghost predicate Pieces(s: string, pieces: seq<string>) {
    pieces != [] && Join(pieces, ",") == s && forall i :: 0 <= i < |pieces| ==> NoComma(pieces[i])
  }

  lemma JoinCons(x: string, rest: seq<string>)
    requires rest != []
    ensures Join([x] + rest, ",") == x + "," + Join(rest, ",")
  {
    assert ([x] + rest)[1..] == rest;
  }

  ghost predicate Yields(s: string, piece: string, pieces: seq<string>) {
    && Pieces(piece + s, pieces) && |TrimmedPieces(s, piece)| == |pieces|
    && forall i :: 0 <= i < |pieces| ==> TrimmedPieces(s, piece)[i] == TrimSpace(pieces[i])
  }

  lemma YieldsLast(piece: string)
    requires NoComma(piece)
    ensures Yields("", piece, [piece])
  {
    assert piece + "" == piece;
  }

  lemma PiecesCut(s: string, piece: string, rest: seq<string>)
    requires NoComma(piece) && s != "" && s[0] == ',' && Pieces(s[1..], rest)
    ensures Pieces(piece + s, [piece] + rest)
  {
    JoinCons(piece, rest);
    assert piece + "," + s[1..] == piece + s;
  }

  lemma YieldsCut(s: string, piece: string, rest: seq<string>)
    requires NoComma(piece) && s != "" && s[0] == ',' && Yields(s[1..], "", rest)
    ensures Yields(s, piece, [piece] + rest)
  {
    assert "" + s[1..] == s[1..];
    PiecesCut(s, piece, rest);
    var trimmed := TrimmedPieces(s[1..], "");
    assert TrimmedPieces(s, piece) == [TrimSpace(piece)] + trimmed;
    forall i | 0 <= i < |rest| + 1 ensures ([TrimSpace(piece)] + trimmed)[i] == TrimSpace(([piece] + rest)[i]) {
      assert i > 0 ==> trimmed[i - 1] == TrimSpace(rest[i - 1]);
    }
  }

  lemma YieldsMore(s: string, piece: string, pieces: seq<string>)
    requires s != "" && s[0] != ',' && Yields(s[1..], piece + [s[0]], pieces)
    ensures Yields(s, piece, pieces)
  {
    assert piece + [s[0]] + s[1..] == piece + s;
  }

  lemma {:induction false} PiecesOf(s: string, piece: string) returns (pieces: seq<string>)
    requires NoComma(piece)
    ensures Yields(s, piece, pieces)
    decreases |s|
  {
    if s == "" {
      pieces := [piece];
      YieldsLast(piece);
    } else if s[0] == ',' {
      var rest := PiecesOf(s[1..], "");
      pieces := [piece] + rest;
      YieldsCut(s, piece, rest);
    } else {
      pieces := PiecesOf(s[1..], piece + [s[0]]);
      YieldsMore(s, piece, pieces);
    }
  }

  /** A comma list names exactly the texts between its commas, without the spaces around them, in their
      order; an empty piece stays a piece. */
  lemma CommaListSays(s: string) returns (pieces: seq<string>)
    ensures Pieces(s, pieces) && |TrimmedPieces(s, "")| == |pieces|
    ensures forall i :: 0 <= i < |pieces| ==> TrimmedPieces(s, "")[i] == TrimSpace(pieces[i])
  {
    pieces := PiecesOf(s, "");
    assert "" + s == s;
  }

  // ---- What may start, and what is listed

  /** A task may start exactly when it is there, its list of dependencies can be read, and each of them is
      there and completed; only a list that cannot be read is an error. */
  lemma StartableIff(rows: Rows, id: string)
    ensures Startable(rows, id) == Some(true) <==>
            && id in rows && rows[id].blockedBy != BadBlockers
            && (rows[id].blockedBy.Blockers? ==>
                  forall i :: 0 <= i < |rows[id].blockedBy.ids| ==>
                    var d := rows[id].blockedBy.ids[i]; d in rows && rows[d].status == Completed)
    ensures Startable(rows, id) == None <==> id in rows && rows[id].blockedBy == BadBlockers
  {
  }

  predicate Ready(rows: Rows, context: string, id: string) {
    id in rows && rows[id].context == context && rows[id].status == Pending && Startable(rows, id) == Some(true)
  }

  /** The ready tasks of a context among the ids of a list. */
  function ReadyAmong(rows: Rows, order: seq<string>, context: string): seq<string> {
    if order == [] then []
    else (if Ready(rows, context, order[0]) then [order[0]] else []) + ReadyAmong(rows, order[1..], context)
  }

  lemma OnlyUnblockedAppend(rows: Rows, a: seq<Item>, b: seq<Item>)
    ensures OnlyUnblocked(rows, a + b) == OnlyUnblocked(rows, a) + OnlyUnblocked(rows, b)
  {
    if a == [] {
      assert a + b == b;
    } else {
      var s := a + b;
      assert s[0] == a[0] && s[1..] == a[1..] + b;
      OnlyUnblockedAppend(rows, a[1..], b);
    }
  }

  /** Listing gives the rows of exactly the ready tasks of the context, in creation order. */
  lemma {:induction false} ListedAreReady(rows: Rows, order: seq<string>, context: string)
    requires forall id :: id in rows ==> rows[id].id == id
    ensures var items := OnlyUnblocked(rows, InContext(rows, order, context));
            var ids := ReadyAmong(rows, order, context);
            && |items| == |ids|
            && forall i :: 0 <= i < |ids| ==> ids[i] in rows && items[i] == rows[ids[i]]
  {
    if order != [] {
      ListedAreReady(rows, order[1..], context);
      var first := if order[0] in rows && rows[order[0]].context == context then [rows[order[0]]] else [];
      OnlyUnblockedAppend(rows, first, InContext(rows, order[1..], context));
      assert first != [] ==> first[1..] == [];
    }
  }

  // ---- Where the entries of a row come from

  predicate CreatedBy(steps: seq<Step>, item: Item) {
    exists k :: 0 <= k < |steps| && steps[k].CreateTask? && SameTask(steps[k].item, item)
  }

  /** Everything but status, owner, result and error. */
  predicate SameTask(a: Item, b: Item) {
    && a.id == b.id && a.context == b.context && a.subject == b.subject && a.description == b.description
    && a.blockedBy == b.blockedBy
  }

  predicate AskedFor(steps: seq<Step>, id: string, owner: string) {
    exists k :: 0 <= k < |steps| && steps[k].BeginClaim? && steps[k].id == id && steps[k].owner == owner
  }

  predicate Reported(steps: seq<Step>, id: string, result: string) {
    exists k :: 0 <= k < |steps| && steps[k].BeginComplete? && steps[k].id == id && steps[k].result == result
  }

  /** The task was created so; whoever owns it once it has started asked for it; and its result, once it is
      completed, is one that was reported for it. */
  predicate RowExplained(steps: seq<Step>, id: string, item: Item) {
    && item.id == id && CreatedBy(steps, item)
    && (item.status == InProgress || item.status == Completed ==> AskedFor(steps, id, item.owner))
    && (item.status == Completed ==> Reported(steps, id, item.result) && item.error == "")
  }

  predicate ClientExplained(steps: seq<Step>, client: Client) {
    match client
    case Idle => true
    case Checking(id, owner, _) => AskedFor(steps, id, owner)
    case Cleared(id, owner) => AskedFor(steps, id, owner)
    case Finishing(id, result) => Reported(steps, id, result)
  }

  ghost predicate Explained(s: State, steps: seq<Step>) {
    && (forall id :: id in s.rows ==> RowExplained(steps, id, s.rows[id]))
    && (forall c :: c in s.clients ==> ClientExplained(steps, s.clients[c]))
  }

  lemma KeepsExplaining(steps: seq<Step>, step: Step)
    ensures forall item :: CreatedBy(steps, item) ==> CreatedBy(steps + [step], item)
    ensures forall id, owner :: AskedFor(steps, id, owner) ==> AskedFor(steps + [step], id, owner)
    ensures forall id, result :: Reported(steps, id, result) ==> Reported(steps + [step], id, result)
  {
    var more := steps + [step];
    assert forall k :: 0 <= k < |steps| ==> more[k] == steps[k];
    forall item | CreatedBy(steps, item) ensures CreatedBy(more, item) {
      var k :| 0 <= k < |steps| && steps[k].CreateTask? && SameTask(steps[k].item, item);
      assert more[k].CreateTask? && SameTask(more[k].item, item);
    }
    forall id, owner | AskedFor(steps, id, owner) ensures AskedFor(more, id, owner) {
      var k :| 0 <= k < |steps| && steps[k].BeginClaim? && steps[k].id == id && steps[k].owner == owner;
      assert more[k].BeginClaim?;
    }
    forall id, result | Reported(steps, id, result) ensures Reported(more, id, result) {
      var k :| 0 <= k < |steps| && steps[k].BeginComplete? && steps[k].id == id && steps[k].result == result;
      assert more[k].BeginComplete?;
    }
  }

  lemma LastExplains(steps: seq<Step>, step: Step)
    ensures step.CreateTask? ==> CreatedBy(steps + [step], step.item)
    ensures step.BeginClaim? ==> AskedFor(steps + [step], step.id, step.owner)
    ensures step.BeginComplete? ==> Reported(steps + [step], step.id, step.result)
  {
    assert (steps + [step])[|steps|] == step;
  }

  lemma RowStays(steps: seq<Step>, step: Step, id: string, item: Item)
    requires RowExplained(steps, id, item)
    ensures RowExplained(steps + [step], id, item)
  {
    KeepsExplaining(steps, step);
  }

  lemma ClaimExplains(steps: seq<Step>, id: string, item: Item, owner: string)
    requires RowExplained(steps, id, item) && AskedFor(steps, id, owner)
    ensures RowExplained(steps, id, item.(owner := owner, status := InProgress))
  {
    var k :| 0 <= k < |steps| && steps[k].CreateTask? && SameTask(steps[k].item, item);
    assert SameTask(steps[k].item, item.(owner := owner, status := InProgress));
  }

  lemma CompletionExplains(steps: seq<Step>, id: string, item: Item, result: string)
    requires RowExplained(steps, id, item) && (item.status == InProgress || item.status == Completed)
    requires Reported(steps, id, result)
    ensures RowExplained(steps, id, item.(status := Completed, result := result, error := ""))
  {
    var k :| 0 <= k < |steps| && steps[k].CreateTask? && SameTask(steps[k].item, item);
    assert SameTask(steps[k].item, item.(status := Completed, result := result, error := ""));
  }

  lemma CreationExplains(steps: seq<Step>, item: Item)
    requires item.status.Pending?
    ensures RowExplained(steps + [CreateTask(item)], item.id, item)
  {
    LastExplains(steps, CreateTask(item));
  }

  lemma RowsStayExplained(s: State, steps: seq<Step>, step: Step, id: string)
    requires Inv(s) && Explained(s, steps) && id in Next(s, step).rows
    ensures RowExplained(steps + [step], id, Next(s, step).rows[id])
  {
    if id in s.rows {
      RowStays(steps, step, id, s.rows[id]);
    }
    match step
    case CreateTask(item) => if item.status.Pending? { CreationExplains(steps, item); }
    case Claim(c) =>
      if At(s, c).Cleared? && At(s, c).id == id && id in s.rows {
        ClientStays(steps, step, s.clients[c]);
        ClaimExplains(steps + [step], id, s.rows[id], At(s, c).owner);
      }
    case Complete(c) =>
      if At(s, c).Finishing? && At(s, c).id == id && id in s.rows {
        ClientStays(steps, step, s.clients[c]);
        assert ClientOk(s.rows, s.clients[c]);
        CompletionExplains(steps + [step], id, s.rows[id], At(s, c).result);
      }
    case _ =>
  }

  lemma ClientStays(steps: seq<Step>, step: Step, client: Client)
    requires ClientExplained(steps, client)
    ensures ClientExplained(steps + [step], client)
  {
    KeepsExplaining(steps, step);
  }

  lemma ClientsStayExplained(s: State, steps: seq<Step>, step: Step, c: nat)
    requires Explained(s, steps) && c in Next(s, step).clients
    ensures ClientExplained(steps + [step], Next(s, step).clients[c])
  {
    KeepsExplaining(steps, step);
    LastExplains(steps, step);
    if c in s.clients {
      assert ClientExplained(steps, s.clients[c]);
    }
  }

  lemma StepExplains(s: State, steps: seq<Step>, step: Step)
    requires Inv(s) && Explained(s, steps)
    ensures Explained(Next(s, step), steps + [step])
  {
    var t := Next(s, step);
    forall id | id in t.rows ensures RowExplained(steps + [step], id, t.rows[id]) {
      RowsStayExplained(s, steps, step, id);
    }
    forall c | c in t.clients ensures ClientExplained(steps + [step], t.clients[c]) {
      ClientsStayExplained(s, steps, step, c);
    }
  }

  lemma {:induction false} RunPush(s: State, steps: seq<Step>, step: Step)
    ensures Run(s, steps + [step]) == Next(Run(s, steps), step)
    decreases |steps|
  {
    if steps == [] {
      assert steps + [step] == [step] && [step][1..] == [];
    } else {
      var whole := steps + [step];
      assert whole[0] == steps[0] && whole[1..] == steps[1..] + [step];
      RunPush(Next(s, steps[0]), steps[1..], step);
    }
  }

  /** In every interleaving each row is explained: created as it stands, owned by a client that asked for it,
      completed with a result that was reported for it. */
  lemma {:induction false} RowsAreExplained(steps: seq<Step>)
    ensures Explained(Run(EMPTY, steps), steps)
  {
    if steps != [] {
      var before, step := steps[..|steps| - 1], steps[|steps| - 1];
      RowsAreExplained(before);
      RunPush(EMPTY, before, step);
      assert steps == before + [step];
      RunKeepsInv(EMPTY, before);
      StepExplains(Run(EMPTY, before), before, step);
    }
  }
}
