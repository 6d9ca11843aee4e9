/** Chat transcripts in memory and in the `messages` table, and what it means for one to be closed:
    every block of tool calls is answered, call by call and in order. */
module Transcript {
  import opened GoStrings
  import opened Json

  datatype ToolCall = ToolCall(id: string, name: string, arguments: string)

  datatype ChatMessage =
    ChatMessage(role: string, content: string, reasoning: string, calls: seq<ToolCall>, callId: string)

  /** The `tool_calls` column: empty, text that decodes to a list of calls, or text that does not. */
  datatype CallColumn = Blank | Encoded(calls: seq<ToolCall>) | Malformed

  datatype Row =
    Row(role: string, content: string, reasoning: Option<string>, calls: CallColumn, callId: Option<string>)

  /** A row as a chat message, before the filter of `buildChatHistory`. */
  function Loaded(r: Row): ChatMessage {
    ChatMessage(if r.role == "agent" then "assistant" else r.role, r.content, OrEmpty(r.reasoning),
                match r.calls case Encoded(cs) => cs case _ => [], OrEmpty(r.callId))
  }

  function LoadedAll(rows: seq<Row>): (r: seq<ChatMessage>)
    ensures |r| == |rows|
  {
    seq(|rows|, i requires 0 <= i < |rows| => Loaded(rows[i]))
  }

  /** `buildChatHistory`: a tool row without a call id is dropped. */
  function History(rows: seq<Row>): seq<ChatMessage> {
    if rows == [] then []
    else
      var m := Loaded(rows[0]);
      (if m.role == "tool" && m.callId == "" then [] else [m]) + History(rows[1..])
  }

  lemma {:induction false} HistoryAppend(a: seq<Row>, b: seq<Row>)
    ensures History(a + b) == History(a) + History(b)
  {
    if a == [] {
      assert a + b == b;
    } else {
      var s := a + b;
      assert s[0] == a[0] && s[1..] == a[1..] + b;
      HistoryAppend(a[1..], b);
      var m := Loaded(a[0]);
      Assoc(if m.role == "tool" && m.callId == "" then [] else [m], History(a[1..]), History(b));
    }
  }

  lemma HistoryPush(rows: seq<Row>, i: nat)
    requires i < |rows|
    ensures var m := Loaded(rows[i]);
            History(rows[..i + 1]) == History(rows[..i]) + if m.role == "tool" && m.callId == "" then [] else [m]
  {
    assert rows[..i + 1] == rows[..i] + [rows[i]];
    HistoryAppend(rows[..i], [rows[i]]);
    assert [rows[i]][1..] == [];
  }

  method LoadRow(r: Row) returns (msg: ChatMessage)
    ensures msg == Loaded(r)
  {
    var role := r.role;
    if role == "agent" {
      role := "assistant";
    }
    msg := ChatMessage(role, r.content, "", [], "");
    if r.reasoning.Some? && r.reasoning.value != "" {
      msg := msg.(reasoning := r.reasoning.value);
    }
    if r.calls.Encoded? {
      msg := msg.(calls := r.calls.calls);
    }
    if r.callId.Some? && r.callId.value != "" {
      msg := msg.(callId := r.callId.value);
    }
  }

  method BuildChatHistory(rows: seq<Row>) returns (history: seq<ChatMessage>)
    ensures history == History(rows)
  {
    history := [];
    for i := 0 to |rows|
      invariant history == History(rows[..i])
    {
      HistoryPush(rows, i);
      var msg := LoadRow(rows[i]);
      if msg.role == "tool" && msg.callId == "" {
        continue;
      }
      history := history + [msg];
    }
    assert rows[..|rows|] == rows;
  }

  // ---- Closed transcripts

  /** What closedness looks at. */
  datatype Shape = Plain | Block(ids: seq<string>) | Answer(id: string)

  function Ids(calls: seq<ToolCall>): (ids: seq<string>)
    ensures |ids| == |calls|
  {
    seq(|calls|, i requires 0 <= i < |calls| => calls[i].id)
  }

  function ShapeOf(m: ChatMessage): Shape {
    if m.role == "tool" then Answer(m.callId)
    else if m.calls != [] then Block(Ids(m.calls))
    else Plain
  }

  function Shapes(ms: seq<ChatMessage>): (s: seq<Shape>)
    ensures |s| == |ms|
  {
    seq(|ms|, i requires 0 <= i < |ms| => ShapeOf(ms[i]))
  }

  lemma ShapesAppend(a: seq<ChatMessage>, b: seq<ChatMessage>)
    ensures Shapes(a + b) == Shapes(a) + Shapes(b)
  {
  }

  function Answers(ids: seq<string>): (s: seq<Shape>)
    ensures |s| == |ids|
  {
    seq(|ids|, i requires 0 <= i < |ids| => Answer(ids[i]))
  }

  /** Every block is followed by exactly one answer per call, in call order, and no answer stands
      anywhere else. */
  predicate Closed(s: seq<Shape>)
    decreases |s|
  {
    s == []
    || (s[0].Plain? && Closed(s[1..]))
    || (s[0].Block? && var n := |s[0].ids|; n < |s| && s[1..1 + n] == Answers(s[0].ids) && Closed(s[1 + n..]))
  }

  lemma {:induction false} ClosedAppend(a: seq<Shape>, b: seq<Shape>)
    requires Closed(a)
    ensures Closed(a + b) <==> Closed(b)
    decreases |a|
  {
    var s := a + b;
    if a == [] {
      assert s == b;
    } else if a[0].Plain? {
      assert s[0] == a[0] && s[1..] == a[1..] + b;
      ClosedAppend(a[1..], b);
    } else {
      var n := |a[0].ids|;
      assert s[1 + n..] == a[1 + n..] + b;
      assert s[0] == a[0] && s[1..1 + n] == a[1..1 + n];
      ClosedAppend(a[1 + n..], b);
    }
  }

  lemma ClosedRound(ids: seq<string>)
    ensures Closed([Block(ids)] + Answers(ids))
  {
  }

  function Weight(s: Shape): int {
    match s case Plain => 0 case Block(ids) => |ids| case Answer(_) => -1
  }

  /** Calls asked for minus answers given. */
  function Owed(s: seq<Shape>): int {
    if s == [] then 0 else Weight(s[0]) + Owed(s[1..])
  }

  lemma {:induction false} OwedAppend(a: seq<Shape>, b: seq<Shape>)
    ensures Owed(a + b) == Owed(a) + Owed(b)
  {
    if a == [] {
      assert a + b == b;
    } else {
      var s := a + b;
      assert s[0] == a[0] && s[1..] == a[1..] + b;
      OwedAppend(a[1..], b);
    }
  }

  lemma {:induction false} OwedAnswers(ids: seq<string>)
    ensures Owed(Answers(ids)) == -|ids|
  {
    if ids != [] {
      assert Answers(ids)[1..] == Answers(ids[1..]);
      OwedAnswers(ids[1..]);
    }
  }

  lemma {:induction false} ClosedOwesNothing(s: seq<Shape>)
    requires Closed(s)
    ensures Owed(s) == 0
    decreases |s|
  {
    if s != [] && s[0].Plain? {
      ClosedOwesNothing(s[1..]);
    } else if s != [] {
      var ids := s[0].ids;
      var n := |ids|;
      ClosedOwesNothing(s[1 + n..]);
      OwedAnswers(ids);
      OwedAppend(Answers(ids), s[1 + n..]);
      assert s[1..] == s[1..1 + n] + s[1 + n..];
    }
  }

  // ---- What the filter of `buildChatHistory` drops

  predicate IsDropped(r: Row) {
    r.role == "tool" && OrEmpty(r.callId) == ""
  }

  function Dropped(rows: seq<Row>): nat {
    if rows == [] then 0 else (if IsDropped(rows[0]) then 1 else 0) + Dropped(rows[1..])
  }

  lemma ShapesCons(m: ChatMessage, ms: seq<ChatMessage>)
    ensures Owed(Shapes([m] + ms)) == Weight(ShapeOf(m)) + Owed(Shapes(ms))
  {
    assert Shapes([m] + ms)[1..] == Shapes(ms);
  }

  /** Every dropped row is an answer lost. */
  lemma {:induction false} HistoryOwes(rows: seq<Row>)
    ensures Owed(Shapes(History(rows))) == Owed(Shapes(LoadedAll(rows))) + Dropped(rows)
  {
    if rows != [] {
      HistoryOwes(rows[1..]);
      var m := Loaded(rows[0]);
      assert LoadedAll(rows) == [m] + LoadedAll(rows[1..]);
      ShapesCons(m, LoadedAll(rows[1..]));
      ShapesCons(m, History(rows[1..]));
      assert [] + History(rows[1..]) == History(rows[1..]);
    }
  }

  lemma {:induction false} HistoryKeeps(rows: seq<Row>)
    ensures |History(rows)| == |rows| - Dropped(rows)
    ensures Dropped(rows) == 0 ==> History(rows) == LoadedAll(rows)
  {
    if rows != [] {
      HistoryKeeps(rows[1..]);
      assert LoadedAll(rows) == [Loaded(rows[0])] + LoadedAll(rows[1..]);
    }
  }

  lemma {:induction false} DroppedAppend(a: seq<Row>, b: seq<Row>)
    ensures Dropped(a + b) == Dropped(a) + Dropped(b)
  {
    if a == [] {
      assert a + b == b;
    } else {
      var s := a + b;
      assert s[0] == a[0] && s[1..] == a[1..] + b;
      DroppedAppend(a[1..], b);
    }
  }

  lemma {:induction false} NothingDropped(rows: seq<Row>)
    ensures Dropped(rows) == 0 <==> forall i :: 0 <= i < |rows| ==> !IsDropped(rows[i])
  {
    if rows != [] {
      NothingDropped(rows[1..]);
      assert forall i :: 1 <= i < |rows| ==> rows[i] == rows[1..][i - 1];
    }
  }

  // ---- What the reload makes of the rows

  /** The message of a row that is kept. */
  predicate Tells(r: Row, m: ChatMessage) {
    && m.role == (if r.role == "agent" then "assistant" else r.role)
    && m.content == r.content
    && m.reasoning == (if r.reasoning.Some? then r.reasoning.value else "")
    && m.calls == (if r.calls.Encoded? then r.calls.calls else [])
    && m.callId == (if r.callId.Some? then r.callId.value else "")
  }

  /** A tool row without a call id answers nothing. */
  predicate Orphan(r: Row) {
    r.role == "tool" && (r.callId == None || r.callId == Some(""))
  }

  function Kept(rows: seq<Row>): seq<Row> {
    if rows == [] then [] else (if Orphan(rows[0]) then [] else [rows[0]]) + Kept(rows[1..])
  }

  /** The reload tells exactly the rows that are no orphans, one message each, in their order. */
  lemma {:induction false} HistorySays(rows: seq<Row>)
    ensures |History(rows)| == |Kept(rows)|
    ensures forall i :: 0 <= i < |Kept(rows)| ==> Tells(Kept(rows)[i], History(rows)[i])
  {
    if rows != [] {
      HistorySays(rows[1..]);
    }
  }
}
