/** What the three logs of the tool loop keep in common: closed requests, closed rows except after
    an unknown tool, and rows that reload to the messages they were saved from. */
module LoopTranscripts {
  import opened GoStrings
  import opened Json
  import opened Transcript
  import opened ToolLoop

  // ---- Rows mirror messages

  function ReasoningColumn(reasoning: string): Option<string> {
    if reasoning != "" then Some(reasoning) else None
  }

  /** The row that the loop saves for a message it appends. */
  function RowOf(cfg: Config, m: ChatMessage): Row {
    if m.role == "tool" then Row("tool", cfg.redact(m.content), None, Blank, Some(m.callId))
    else Row("agent", m.content, ReasoningColumn(m.reasoning), Encoded(MaskedAll(cfg, m.calls)), None)
  }

  function RowsOf(cfg: Config, ms: seq<ChatMessage>): (r: seq<Row>)
    ensures |r| == |ms|
  {
    seq(|ms|, i requires 0 <= i < |ms| => RowOf(cfg, ms[i]))
  }

  lemma RowsOfAppend(cfg: Config, a: seq<ChatMessage>, b: seq<ChatMessage>)
    ensures RowsOf(cfg, a + b) == RowsOf(cfg, a) + RowsOf(cfg, b)
  {
  }

  /** The row saved for the closing text, which is never appended to the messages. */
  ghost predicate IsFinalRow(exit: Exit, rows: seq<Row>) {
    match exit
    case Finished(text) =>
      && |rows| == 1 && rows[0].role == "agent" && rows[0].content == text
      && rows[0].calls == Blank && rows[0].callId == None
    case _ => rows == []
  }

  /** `b` extends `a` by the messages `added`, and the rows by the rows of those messages. */
  ghost predicate Extends(cfg: Config, a: State, b: State, added: seq<ChatMessage>) {
    && b.messages == a.messages + added
    && b.rows == a.rows + RowsOf(cfg, added)
  }

  function ToolMessage(m: ChatMessage): bool {
    m.role == "tool" && m.calls == [] && m.reasoning == ""
  }

  lemma ExtendsTwice(cfg: Config, a: State, b: State, c: State, x: seq<ChatMessage>, y: seq<ChatMessage>)
    requires Extends(cfg, a, b, x) && Extends(cfg, b, c, y)
    ensures Extends(cfg, a, c, x + y)
  {
  }

  /** The serial phase has answered calls `i`, `i + 1`, ... with `added`. */
  ghost predicate AnswersFrom(cfg: Config, ids: seq<string>, i: nat, a: State, b: State, added: seq<ChatMessage>) {
    && Extends(cfg, a, b, added) && b.requests == a.requests
    && (forall m :: m in added ==> ToolMessage(m))
    && i + |added| <= |ids|
    && (forall k :: 0 <= k < |added| ==> added[k].callId == ids[i + k])
  }

  lemma AnswersFromStep(cfg: Config, ids: seq<string>, i: nat, a: State, b: State, c: State, m: ChatMessage,
                        rest: seq<ChatMessage>)
    requires AnswersFrom(cfg, ids, i, a, b, [m]) && AnswersFrom(cfg, ids, i + 1, b, c, rest)
    ensures AnswersFrom(cfg, ids, i, a, c, [m] + rest)
  {
  }

  lemma ServedCallAnswers(cfg: Config, w: World, round: nat, calls: seq<ToolCall>, ro: map<string, Outcome>, i: nat,
                          st: State)
    returns (m: ChatMessage)
    requires i < |calls|
    ensures var s := ServedCall(cfg, w, round, calls, ro, i, st);
            if s.fatal.None? then AnswersFrom(cfg, Ids(calls), i, st, s.st, [m])
            else AnswersFrom(cfg, Ids(calls), i, st, s.st, [])
  {
    var text := Capped(cfg, Resolved(cfg, w, round, calls, ro, i).text);
    m := ChatMessage("tool", text, "", [], calls[i].id);
    assert RowsOf(cfg, [m]) == [RowOf(cfg, m)];
    assert RowsOf(cfg, []) == [];
  }

  /** The serial phase answers the calls in order, up to the one that is unknown. */
  lemma {:induction false} ServedFromAnswers(cfg: Config, w: World, round: nat, calls: seq<ToolCall>,
                                             ro: map<string, Outcome>, i: nat, st: State)
    returns (added: seq<ChatMessage>)
    requires i <= |calls|
    ensures var s := ServedFrom(cfg, w, round, calls, ro, i, st);
            AnswersFrom(cfg, Ids(calls), i, st, s.st, added) && (s.fatal.None? <==> i + |added| == |calls|)
    decreases |calls| - i
  {
    added := [];
    if i < |calls| {
      var m := ServedCallAnswers(cfg, w, round, calls, ro, i, st);
      var c := ServedCall(cfg, w, round, calls, ro, i, st);
      if c.fatal.None? {
        var rest := ServedFromAnswers(cfg, w, round, calls, ro, i + 1, c.st);
        added := [m] + rest;
        AnswersFromStep(cfg, Ids(calls), i, st, c.st, ServedFrom(cfg, w, round, calls, ro, i + 1, c.st).st, m, rest);
      }
    } else {
      assert RowsOf(cfg, []) == [];
    }
  }

  /** What a run adds is made of whole rounds, except that an unknown tool leaves calls unanswered. */
  predicate AddedShape(exit: Exit, messages: seq<ChatMessage>) {
    if exit.ToolNotFound? then Owed(Shapes(messages)) > 0 else Closed(Shapes(messages))
  }

  ghost predicate LoopMessage(m: ChatMessage) {
    if m.role == "tool" then ToolMessage(m) else m.role == "assistant" && m.callId == "" && m.calls != []
  }

  lemma AnswerShapes(ids: seq<string>, added: seq<ChatMessage>)
    requires |added| <= |ids|
    requires forall m :: m in added ==> ToolMessage(m)
    requires forall k :: 0 <= k < |added| ==> added[k].callId == ids[k]
    ensures Shapes(added) == Answers(ids[..|added|])
  {
    forall k | 0 <= k < |added|
      ensures Shapes(added)[k] == Answers(ids[..|added|])[k]
    {
      assert added[k] in added;
    }
  }

  lemma RoundAdds(cfg: Config, w: World, round: nat, t: Turn, st: State) returns (added: seq<ChatMessage>)
    requires t.calls != []
    ensures var s := RoundServed(cfg, w, round, t, st);
            && Extends(cfg, st, s.st, added) && s.st.requests == st.requests
            && (forall m :: m in added ==> LoopMessage(m))
            && (s.fatal.None? ==> Closed(Shapes(added)))
            && (s.fatal.Some? ==> Owed(Shapes(added)) > 0)
  {
    var p := PoolRun(w, round, t.calls, EMPTY_POOL, w.schedule(round));
    var head := ChatMessage("assistant", t.text, t.reasoning, t.calls, "");
    var recorded := Recorded(cfg, round, t, p, st);
    assert RowsOf(cfg, [head]) == [RowOf(cfg, head)];
    assert Extends(cfg, st, recorded, [head]);
    var rest := ServedFromAnswers(cfg, w, round, t.calls, p.results, 0, recorded);
    var s := ServedFrom(cfg, w, round, t.calls, p.results, 0, recorded);
    added := [head] + rest;
    ExtendsTwice(cfg, st, recorded, s.st, [head], rest);
    ShapesAppend([head], rest);
    var ids := Ids(t.calls);
    AnswerShapes(ids, rest);
    assert Shapes([head]) == [Block(ids)];
    if s.fatal.None? {
      assert ids[..|rest|] == ids;
      ClosedRound(ids);
    } else {
      OwedAppend([Block(ids)], Answers(ids[..|rest|]));
      OwedAnswers(ids[..|rest|]);
      assert Owed([Block(ids)]) == |ids| + Owed([]);
    }
  }

  lemma AddedShapeCons(exit: Exit, first: seq<ChatMessage>, rest: seq<ChatMessage>)
    requires Closed(Shapes(first)) && AddedShape(exit, rest)
    ensures AddedShape(exit, first + rest)
  {
    ShapesAppend(first, rest);
    if exit.ToolNotFound? {
      ClosedOwesNothing(Shapes(first));
      OwedAppend(Shapes(first), Shapes(rest));
    } else {
      ClosedAppend(Shapes(first), Shapes(rest));
    }
  }

  /** What a run of the loop adds to messages and rows. */
  ghost predicate Growth(cfg: Config, st: State, r: Ended, added: seq<ChatMessage>, final: seq<Row>) {
    && r.st.messages == st.messages + added
    && r.st.rows == st.rows + RowsOf(cfg, added) + final
    && IsFinalRow(r.exit, final)
    && (forall m :: m in added ==> LoopMessage(m))
    && AddedShape(r.exit, added)
  }

  ghost predicate NewRequestsClosed(a: State, b: State) {
    && a.requests <= b.requests
    && forall k :: |a.requests| <= k < |b.requests| ==> Closed(Shapes(b.requests[k]))
  }

  ghost predicate RunAdds(cfg: Config, st: State, r: Ended, added: seq<ChatMessage>, final: seq<Row>) {
    Growth(cfg, st, r, added, final) && (Closed(Shapes(st.messages)) ==> NewRequestsClosed(st, r.st))
  }

  lemma GrowthAfterRound(cfg: Config, st: State, mid: State, r: Ended, first: seq<ChatMessage>, rest: seq<ChatMessage>,
                         final: seq<Row>)
    requires Extends(cfg, st, mid, first)
    requires (forall m :: m in first ==> LoopMessage(m)) && Closed(Shapes(first))
    requires Growth(cfg, mid, r, rest, final)
    ensures Growth(cfg, st, r, first + rest, final)
  {
    AddedShapeCons(r.exit, first, rest);
    RowsOfAppend(cfg, first, rest);
    var x, y := RowsOf(cfg, first), RowsOf(cfg, rest);
    assert r.st.messages == st.messages + (first + rest) by {
      Assoc(st.messages, first, rest);
    }
    assert r.st.rows == st.rows + (x + y) + final by {
      Assoc(st.rows, x, y);
    }
  }

  lemma RequestsAfterRound(st: State, mid: State, last: State, first: seq<ChatMessage>)
    requires mid.messages == st.messages + first && mid.requests == st.requests + [st.messages]
    requires Closed(Shapes(st.messages)) && Closed(Shapes(first))
    requires Closed(Shapes(mid.messages)) ==> NewRequestsClosed(mid, last)
    ensures NewRequestsClosed(st, last)
  {
    ShapesAppend(st.messages, first);
    ClosedAppend(Shapes(st.messages), Shapes(first));
    assert last.requests[|st.requests|] == mid.requests[|st.requests|] == st.messages;
  }

  /** By induction on the rounds. */
  lemma {:induction false} RoundsAdd(cfg: Config, w: World, round: nat, turns: nat, st: State)
    returns (added: seq<ChatMessage>, final: seq<Row>)
    ensures RunAdds(cfg, st, Rounds(cfg, w, round, turns, st), added, final)
    decreases MaxRounds(cfg) + 1 - round
  {
    added, final := [], [];
    assert RowsOf(cfg, []) == [] && Shapes([]) == [];
    if round <= MaxRounds(cfg) && turns + 1 <= MaxTurns(cfg) && w.llm(round).Stream? {
      var t := Consumed(NO_TURN, w.llm(round).items);
      var heard := st.(requests := st.requests + [st.messages], events := st.events + t.events);
      if t.error.None? && t.calls == [] {
        final := [TextRow(t, Blank)];
      } else if t.error.None? && round < MaxRounds(cfg) {
        added := RoundAdds(cfg, w, round, t, heard);
        var s := RoundServed(cfg, w, round, t, heard);
        assert Extends(cfg, st, s.st, added);
        if s.fatal.None? {
          var rest;
          rest, final := RoundsAdd(cfg, w, round + 1, turns + 1, s.st);
          var r := Rounds(cfg, w, round + 1, turns + 1, s.st);
          GrowthAfterRound(cfg, st, s.st, r, added, rest, final);
          if Closed(Shapes(st.messages)) {
            RequestsAfterRound(st, s.st, r.st, added);
          }
          added := added + rest;
        }
      }
    }
  }

  // ---- What follows for a request and for the next one

  /** The messages that a run starts from. */
  function Opening(stored: Option<seq<Row>>, userText: string): seq<ChatMessage> {
    (match stored case Some(rows) => History(rows) case None => []) + [ChatMessage("user", userText, "", [], "")]
  }

  /** A plain message at the end changes nothing. */
  lemma PlainEnd(s: seq<Shape>)
    ensures Closed(s + [Plain]) <==> Closed(s)
  {
    assert [Plain][1..] == [] && Closed([Plain]);
    if Closed(s) {
      ClosedAppend(s, [Plain]);
    }
    if Closed(s + [Plain]) {
      PlainTail(s);
    }
  }

  lemma OpeningClosed(stored: Option<seq<Row>>, userText: string)
    ensures Closed(Shapes(Opening(stored, userText))) <==> (stored.Some? ==> Closed(Shapes(History(stored.value))))
  {
    var past := match stored case Some(rows) => History(rows) case None => [];
    var user := ChatMessage("user", userText, "", [], "");
    ShapesAppend(past, [user]);
    assert Shapes([user]) == [Plain];
    PlainEnd(Shapes(past));
  }

  lemma {:induction false} PlainTail(s: seq<Shape>)
    requires Closed(s + [Plain])
    ensures Closed(s)
    decreases |s|
  {
    var t := s + [Plain];
    if s != [] && s[0].Plain? {
      assert t[0] == s[0] && t[1..] == s[1..] + [Plain];
      PlainTail(s[1..]);
    } else if s != [] {
      var n := |s[0].ids|;
      assert t[0] == s[0];
      assert forall k :: 1 <= k <= n ==> t[k] == t[1..1 + n][k - 1] && t[k].Answer?;
      assert t[|s|] == Plain;
      assert t[1 + n..] == s[1 + n..] + [Plain];
      assert t[1..1 + n] == s[1..1 + n];
      PlainTail(s[1 + n..]);
    }
  }

  lemma HandledAdds(cfg: Config, w: World, stored: Option<seq<Row>>, userText: string, st: State)
    returns (added: seq<ChatMessage>, final: seq<Row>)
    ensures var start := st.(messages := Opening(stored, userText));
            RunAdds(cfg, start, Handled(cfg, w, stored, userText, st), added, final)
  {
    var start := st.(messages := Opening(stored, userText), events := st.events + [Working]);
    added, final := RoundsAdd(cfg, w, 0, 0, start);
  }

  /** Every request a run sends to the LLM carries a closed transcript, provided the stored history
      it starts from is closed. */
  lemma RequestsAreClosed(cfg: Config, w: World, stored: Option<seq<Row>>, userText: string, rows: seq<Row>)
    requires stored.Some? ==> Closed(Shapes(History(stored.value)))
    ensures var r := Handled(cfg, w, stored, userText, State([], rows, [], [], []));
            forall k :: 0 <= k < |r.st.requests| ==> Closed(Shapes(r.st.requests[k]))
  {
    OpeningClosed(stored, userText);
    var added, final := HandledAdds(cfg, w, stored, userText, State([], rows, [], [], []));
  }

  lemma LoadedShapes(cfg: Config, added: seq<ChatMessage>)
    requires forall m :: m in added ==> LoopMessage(m)
    ensures Shapes(LoadedAll(RowsOf(cfg, added))) == Shapes(added)
  {
    forall i | 0 <= i < |added|
      ensures Shapes(LoadedAll(RowsOf(cfg, added)))[i] == Shapes(added)[i]
    {
      assert added[i] in added;
      assert Ids(MaskedAll(cfg, added[i].calls)) == Ids(added[i].calls);
    }
  }

  lemma LoadedAppend(a: seq<Row>, b: seq<Row>)
    ensures LoadedAll(a + b) == LoadedAll(a) + LoadedAll(b)
  {
  }

  /** The rows a run adds are closed exactly when it does not end at an unknown tool. */
  lemma AddedRowsClosed(cfg: Config, r: Ended, added: seq<ChatMessage>, final: seq<Row>)
    requires IsFinalRow(r.exit, final) && AddedShape(r.exit, added)
    requires forall m :: m in added ==> LoopMessage(m)
    ensures var s := Shapes(LoadedAll(RowsOf(cfg, added) + final));
            if r.exit.ToolNotFound? then Owed(s) > 0 else Closed(s)
  {
    LoadedAppend(RowsOf(cfg, added), final);
    LoadedShapes(cfg, added);
    ShapesAppend(LoadedAll(RowsOf(cfg, added)), LoadedAll(final));
    var tail := Shapes(LoadedAll(final));
    OwedAppend(Shapes(added), tail);
    if r.exit.Finished? {
      assert tail == [Plain] && [Plain][1..] == [];
      ClosedAppend(Shapes(added), tail);
    } else {
      assert tail == [] && Shapes(added) + tail == Shapes(added);
    }
  }

  /** The stored transcript stays closed exactly when the run does not end at an unknown tool: stream
      errors and both limits return before the round has saved anything. */
  lemma StoredTranscriptClosed(cfg: Config, w: World, stored: Option<seq<Row>>, userText: string, rows: seq<Row>)
    requires Closed(Shapes(LoadedAll(rows)))
    ensures var r := Handled(cfg, w, stored, userText, State([], rows, [], [], []));
            Closed(Shapes(LoadedAll(r.st.rows))) <==> !r.exit.ToolNotFound?
  {
    var added, final := HandledAdds(cfg, w, stored, userText, State([], rows, [], [], []));
    var r := Handled(cfg, w, stored, userText, State([], rows, [], [], []));
    AddedRowsClosed(cfg, r, added, final);
    var saved := RowsOf(cfg, added) + final;
    Assoc(rows, RowsOf(cfg, added), final);
    LoadedAppend(rows, saved);
    ShapesAppend(LoadedAll(rows), LoadedAll(saved));
    var s := Shapes(LoadedAll(saved));
    ClosedAppend(Shapes(LoadedAll(rows)), s);
    if Closed(s) {
      ClosedOwesNothing(s);
    }
  }
}
