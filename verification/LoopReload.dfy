/** Reloading what a run saved: exactly when the reloaded history equals the transcript in memory,
    exactly when the next run starts from a closed transcript, and what that gives for whole
    conversations on one context. */
module LoopReload {
  import opened GoStrings
  import opened Json
  import opened Transcript
  import opened ToolLoop
  import opened LoopTranscripts

  /** A message as it should come back: arguments and tool results redacted, everything else as it was. */
  function Reloaded(cfg: Config, m: ChatMessage): ChatMessage {
    if m.role == "tool" then m.(content := cfg.redact(m.content)) else m.(calls := MaskedAll(cfg, m.calls))
  }

  function ReloadedAll(cfg: Config, ms: seq<ChatMessage>): (r: seq<ChatMessage>)
    ensures |r| == |ms|
  {
    seq(|ms|, i requires 0 <= i < |ms| => Reloaded(cfg, ms[i]))
  }

  // Redaction touches only the texts: role, call ids, call names and result ids survive it.
  lemma ReloadKeepsStructure(cfg: Config, m: ChatMessage)
    ensures var r := Reloaded(cfg, m);
            && r.role == m.role && r.reasoning == m.reasoning && r.callId == m.callId
            && (m.role != "tool" ==> r.content == m.content)
            && |r.calls| == |m.calls|
            && forall i :: 0 <= i < |m.calls| ==> r.calls[i].id == m.calls[i].id && r.calls[i].name == m.calls[i].name
  {
  }

  lemma ReloadKeepsShapes(cfg: Config, ms: seq<ChatMessage>)
    ensures Shapes(ReloadedAll(cfg, ms)) == Shapes(ms)
  {
    forall i | 0 <= i < |ms| ensures ShapeOf(Reloaded(cfg, ms[i])) == ShapeOf(ms[i]) {
      ReloadKeepsStructure(cfg, ms[i]);
      assert Ids(Reloaded(cfg, ms[i]).calls) == Ids(ms[i].calls);
    }
  }

  ghost predicate NoBlankIds(ms: seq<ChatMessage>) {
    forall i :: 0 <= i < |ms| && ms[i].role == "tool" ==> ms[i].callId != ""
  }

  lemma LoadedRows(cfg: Config, added: seq<ChatMessage>)
    requires forall m :: m in added ==> LoopMessage(m)
    ensures LoadedAll(RowsOf(cfg, added)) == ReloadedAll(cfg, added)
    ensures Dropped(RowsOf(cfg, added)) == 0 <==> NoBlankIds(added)
  {
    var rows := RowsOf(cfg, added);
    forall i | 0 <= i < |added|
      ensures Loaded(rows[i]) == Reloaded(cfg, added[i])
      ensures IsDropped(rows[i]) <==> added[i].role == "tool" && added[i].callId == ""
    {
      assert added[i] in added;
      assert added[i].role == "tool" ==> MaskedAll(cfg, added[i].calls) == [] == added[i].calls;
    }
    NothingDropped(rows);
  }

  lemma FinalRowKept(exit: Exit, final: seq<Row>)
    requires IsFinalRow(exit, final)
    ensures Dropped(final) == 0
  {
  }

  lemma SavedReloads(cfg: Config, r: Ended, added: seq<ChatMessage>, final: seq<Row>)
    requires IsFinalRow(r.exit, final) && forall m :: m in added ==> LoopMessage(m)
    ensures History(RowsOf(cfg, added) + final) == ReloadedAll(cfg, added) + LoadedAll(final) <==> NoBlankIds(added)
  {
    var saved := RowsOf(cfg, added);
    LoadedRows(cfg, added);
    FinalRowKept(r.exit, final);
    HistoryAppend(saved, final);
    HistoryKeeps(saved);
    HistoryKeeps(final);
    if Dropped(saved) != 0 {
      assert |History(saved) + History(final)| < |added| + |final|;
      assert |ReloadedAll(cfg, added) + LoadedAll(final)| == |added| + |final|;
    }
  }

  /** Reload round trip.  After a request, its context reads back as the history before it, the
      messages of the run, redacted, and the closing text, if and only if every tool message of the
      run has a call id.  The redaction leaves every call and every answer in its place. */
  lemma ReloadRoundTrip(cfg: Config, w: World, stored: Option<seq<Row>>, userText: string, rows: seq<Row>)
    returns (added: seq<ChatMessage>, final: seq<Row>)
    ensures var r := Handled(cfg, w, stored, userText, State([], rows, [], [], []));
            && r.st.messages == Opening(stored, userText) + added
            && IsFinalRow(r.exit, final)
            && Shapes(ReloadedAll(cfg, added)) == Shapes(added)
            && (History(r.st.rows) == History(rows) + ReloadedAll(cfg, added) + LoadedAll(final) <==> NoBlankIds(added))
  {
    added, final := HandledAdds(cfg, w, stored, userText, State([], rows, [], [], []));
    var r := Handled(cfg, w, stored, userText, State([], rows, [], [], []));
    SavedReloads(cfg, r, added, final);
    ReloadKeepsShapes(cfg, added);
    var saved := RowsOf(cfg, added) + final;
    Assoc(rows, RowsOf(cfg, added), final);
    HistoryAppend(rows, saved);
    var here, back := History(rows), ReloadedAll(cfg, added) + LoadedAll(final);
    assert here + ReloadedAll(cfg, added) + LoadedAll(final) == here + back;
    assert (here + History(saved))[|here|..] == History(saved) && (here + back)[|here|..] == back;
  }

  lemma SavedOwes(cfg: Config, r: Ended, added: seq<ChatMessage>, final: seq<Row>)
    requires IsFinalRow(r.exit, final) && AddedShape(r.exit, added)
    requires forall m :: m in added ==> LoopMessage(m)
    ensures var h := Shapes(History(RowsOf(cfg, added) + final));
            if !r.exit.ToolNotFound? && NoBlankIds(added) then Closed(h) else Owed(h) > 0
  {
    var saved := RowsOf(cfg, added) + final;
    AddedRowsClosed(cfg, r, added, final);
    LoadedRows(cfg, added);
    FinalRowKept(r.exit, final);
    DroppedAppend(RowsOf(cfg, added), final);
    HistoryOwes(saved);
    HistoryKeeps(saved);
    if !r.exit.ToolNotFound? {
      ClosedOwesNothing(Shapes(LoadedAll(saved)));
    }
  }

  /** What the next request on the context loads is closed if and only if this run neither stopped at
      an unknown tool nor saved an answer without a call id. */
  lemma NextHistoryClosed(cfg: Config, w: World, stored: Option<seq<Row>>, userText: string, rows: seq<Row>)
    returns (added: seq<ChatMessage>)
    requires Closed(Shapes(History(rows)))
    ensures var r := Handled(cfg, w, stored, userText, State([], rows, [], [], []));
            && r.st.messages == Opening(stored, userText) + added
            && (Closed(Shapes(History(r.st.rows))) <==> !r.exit.ToolNotFound? && NoBlankIds(added))
  {
    var final;
    added, final := HandledAdds(cfg, w, stored, userText, State([], rows, [], [], []));
    var r := Handled(cfg, w, stored, userText, State([], rows, [], [], []));
    SavedOwes(cfg, r, added, final);
    var saved := RowsOf(cfg, added) + final;
    Assoc(rows, RowsOf(cfg, added), final);
    HistoryAppend(rows, saved);
    var h := Shapes(History(saved));
    ShapesAppend(History(rows), History(saved));
    ClosedAppend(Shapes(History(rows)), h);
    if Closed(h) {
      ClosedOwesNothing(h);
    }
  }

  // ---- Conversations

  /** One request on a context: the proxy saves a non-empty user text before the engine loads the
      history and appends the same text again. */
  datatype Visit = Visit(w: World, userText: string)

  function Arrived(rows: seq<Row>, v: Visit): seq<Row> {
    rows + if v.userText != "" then [Row("user", v.userText, None, Blank, None)] else []
  }

  function VisitRun(cfg: Config, rows: seq<Row>, v: Visit): Ended {
    Handled(cfg, v.w, Some(Arrived(rows, v)), v.userText, State([], Arrived(rows, v), [], [], []))
  }

  /** Rows of the context after a list of requests. */
  function Visited(cfg: Config, rows: seq<Row>, vs: seq<Visit>): seq<Row>
    decreases |vs|
  {
    if vs == [] then rows else Visited(cfg, VisitRun(cfg, rows, vs[0]).st.rows, vs[1..])
  }

  /** The run neither stopped at an unknown tool nor got a call without an id. */
  ghost predicate Sound(cfg: Config, rows: seq<Row>, v: Visit) {
    var r := VisitRun(cfg, rows, v);
    !r.exit.ToolNotFound? && NoBlankIds(r.st.messages)
  }

  ghost predicate AllSound(cfg: Config, rows: seq<Row>, vs: seq<Visit>)
    decreases |vs|
  {
    vs == [] || (Sound(cfg, rows, vs[0]) && AllSound(cfg, VisitRun(cfg, rows, vs[0]).st.rows, vs[1..]))
  }

  /** The row that the proxy saves is one plain message more, or none. */
  lemma ArrivedShapes(rows: seq<Row>, v: Visit)
    ensures Shapes(History(Arrived(rows, v))) == Shapes(History(rows)) + if v.userText != "" then [Plain] else []
  {
    if v.userText != "" {
      var user := Row("user", v.userText, None, Blank, None);
      HistoryAppend(rows, [user]);
      assert History([user]) == [Loaded(user)] by {
        assert [user][1..] == [];
        assert [Loaded(user)] + History([]) == [Loaded(user)];
      }
      ShapesAppend(History(rows), [Loaded(user)]);
      assert Shapes([Loaded(user)]) == [Plain];
    } else {
      assert Arrived(rows, v) == rows;
    }
  }

  lemma ArrivedClosed(rows: seq<Row>, v: Visit)
    ensures Closed(Shapes(History(Arrived(rows, v)))) <==> Closed(Shapes(History(rows)))
  {
    ArrivedShapes(rows, v);
    PlainEnd(Shapes(History(rows)));
    assert Shapes(History(rows)) + [] == Shapes(History(rows));
  }

  lemma HistoryHasIds(rows: seq<Row>)
    ensures NoBlankIds(History(rows))
  {
  }

  lemma OpeningHasIds(rows: seq<Row>, userText: string, added: seq<ChatMessage>)
    ensures NoBlankIds(Opening(Some(rows), userText) + added) <==> NoBlankIds(added)
  {
    HistoryHasIds(rows);
    var o := Opening(Some(rows), userText);
    var all := o + added;
    assert forall i :: 0 <= i < |o| ==> all[i] == o[i];
    assert forall i :: 0 <= i < |added| ==> all[|o| + i] == added[i];
    assert forall i :: 0 <= i < |History(rows)| ==> o[i] == History(rows)[i];
  }

  ghost predicate AllRequestsClosed(r: Ended) {
    forall k :: 0 <= k < |r.st.requests| ==> Closed(Shapes(r.st.requests[k]))
  }

  /** One visit keeps the history of its context closed exactly when it is sound. */
  lemma VisitKeepsClosed(cfg: Config, rows: seq<Row>, v: Visit)
    requires Closed(Shapes(History(rows)))
    ensures Closed(Shapes(History(VisitRun(cfg, rows, v).st.rows))) <==> Sound(cfg, rows, v)
  {
    ArrivedClosed(rows, v);
    var here := Arrived(rows, v);
    var added := NextHistoryClosed(cfg, v.w, Some(here), v.userText, here);
    OpeningHasIds(here, v.userText, added);
  }

  lemma VisitRequestsClosed(cfg: Config, rows: seq<Row>, v: Visit)
    requires Closed(Shapes(History(rows)))
    ensures AllRequestsClosed(VisitRun(cfg, rows, v))
  {
    ArrivedClosed(rows, v);
    RequestsAreClosed(cfg, v.w, Some(Arrived(rows, v)), v.userText, Arrived(rows, v));
  }

  lemma ArrivedOwes(rows: seq<Row>, v: Visit)
    ensures Owed(Shapes(History(Arrived(rows, v)))) == Owed(Shapes(History(rows)))
  {
    ArrivedShapes(rows, v);
    OwedAppend(Shapes(History(rows)), if v.userText != "" then [Plain] else []);
    assert [Plain][1..] == [];
  }

  /** A visit adds a number of missing answers, and none exactly when it is sound. */
  lemma VisitOwes(cfg: Config, rows: seq<Row>, v: Visit)
    ensures var before := Owed(Shapes(History(rows)));
            var after := Owed(Shapes(History(VisitRun(cfg, rows, v).st.rows)));
            before <= after && (before == after <==> Sound(cfg, rows, v))
  {
    var here := Arrived(rows, v);
    ArrivedOwes(rows, v);
    var added, final := HandledAdds(cfg, v.w, Some(here), v.userText, State([], here, [], [], []));
    OpeningHasIds(here, v.userText, added);
    SavedOwes(cfg, VisitRun(cfg, rows, v), added, final);
    var saved := RowsOf(cfg, added) + final;
    Assoc(here, RowsOf(cfg, added), final);
    HistoryAppend(here, saved);
    ShapesAppend(History(here), History(saved));
    OwedAppend(Shapes(History(here)), Shapes(History(saved)));
    if Closed(Shapes(History(saved))) {
      ClosedOwesNothing(Shapes(History(saved)));
    }
  }

  /** What is owed never shrinks again: a context stays broken. */
  lemma {:induction false} VisitsOwe(cfg: Config, rows: seq<Row>, vs: seq<Visit>)
    ensures var before := Owed(Shapes(History(rows)));
            var after := Owed(Shapes(History(Visited(cfg, rows, vs))));
            before <= after && (before == after <==> AllSound(cfg, rows, vs))
    decreases |vs|
  {
    if vs != [] {
      VisitOwes(cfg, rows, vs[0]);
      VisitsOwe(cfg, VisitRun(cfg, rows, vs[0]).st.rows, vs[1..]);
    }
  }

  lemma {:induction false} SoundVisitsKeepClosed(cfg: Config, rows: seq<Row>, vs: seq<Visit>)
    requires Closed(Shapes(History(rows))) && AllSound(cfg, rows, vs)
    ensures Closed(Shapes(History(Visited(cfg, rows, vs))))
    decreases |vs|
  {
    if vs != [] {
      VisitKeepsClosed(cfg, rows, vs[0]);
      SoundVisitsKeepClosed(cfg, VisitRun(cfg, rows, vs[0]).st.rows, vs[1..]);
    }
  }

  /** After any number of requests on one context that starts closed: whatever is asked next, its first
      request to the LLM, and then every one, carries a closed transcript if and only if no earlier run
      stopped at an unknown tool or got a call without an id. */
  lemma ConversationClosed(cfg: Config, rows: seq<Row>, vs: seq<Visit>, last: Visit)
    requires Closed(Shapes(History(rows)))
    ensures var r := VisitRun(cfg, Visited(cfg, rows, vs), last);
            && (AllRequestsClosed(r) <==> r.st.requests == [] || AllSound(cfg, rows, vs))
            && (r.st.requests != [] ==> (Closed(Shapes(r.st.requests[0])) <==> AllSound(cfg, rows, vs)))
  {
    var after := Visited(cfg, rows, vs);
    var here := Arrived(after, last);
    var r := VisitRun(cfg, after, last);
    if AllSound(cfg, rows, vs) {
      SoundVisitsKeepClosed(cfg, rows, vs);
      VisitRequestsClosed(cfg, after, last);
    } else if r.st.requests != [] {
      VisitsOwe(cfg, rows, vs);
      ClosedOwesNothing(Shapes(History(rows)));
      if Closed(Shapes(History(after))) {
        ClosedOwesNothing(Shapes(History(after)));
      }
      ArrivedClosed(after, last);
      OpeningClosed(Some(here), last.userText);
      FirstRequest(cfg, last.w, Some(here), last.userText, here);
    }
  }

  /** The promise is not met after an unsound run: from a closed history, the next request that
      reaches the LLM on the context is closed if and only if the run before it was sound. */
  lemma NextRequestClosed(cfg: Config, rows: seq<Row>, first: Visit, second: Visit)
    requires Closed(Shapes(History(rows)))
    requires |VisitRun(cfg, VisitRun(cfg, rows, first).st.rows, second).st.requests| > 0
    ensures Closed(Shapes(VisitRun(cfg, VisitRun(cfg, rows, first).st.rows, second).st.requests[0]))
            <==> Sound(cfg, rows, first)
  {
    assert [first][1..] == [];
    assert Visited(cfg, rows, [first]) == Visited(cfg, VisitRun(cfg, rows, first).st.rows, []);
    ConversationClosed(cfg, rows, [first], second);
  }

  lemma FirstRequest(cfg: Config, w: World, stored: Option<seq<Row>>, userText: string, rows: seq<Row>)
    ensures var r := Handled(cfg, w, stored, userText, State([], rows, [], [], []));
            |r.st.requests| > 0 ==> r.st.requests[0] == Opening(stored, userText)
  {
    RequestsGrow(cfg, w, 0, 0, State(Opening(stored, userText), rows, [] + [Working], [], []));
  }

  /** The first request of a run is the message list it starts with, and a run sends no more requests
      than either limit allows. */
  lemma {:induction false} RequestsGrow(cfg: Config, w: World, round: nat, turns: nat, st: State)
    ensures var q := Rounds(cfg, w, round, turns, st).st.requests;
            && st.requests <= q
            && (|q| > |st.requests| ==> q[|st.requests|] == st.messages)
            && (|q| > |st.requests| ==> |q| - |st.requests| <= MaxRounds(cfg) + 1 - round)
            && (|q| > |st.requests| ==> |q| - |st.requests| <= MaxTurns(cfg) - turns)
    decreases MaxRounds(cfg) + 1 - round
  {
    if round <= MaxRounds(cfg) && turns + 1 <= MaxTurns(cfg) && w.llm(round).Stream? {
      var t := Consumed(NO_TURN, w.llm(round).items);
      var heard := st.(requests := st.requests + [st.messages], events := st.events + t.events);
      if t.error.None? && t.calls != [] && round < MaxRounds(cfg) {
        var added := RoundAdds(cfg, w, round, t, heard);
        var s := RoundServed(cfg, w, round, t, heard);
        if s.fatal.None? {
          RequestsGrow(cfg, w, round + 1, turns + 1, s.st);
        }
      }
    }
  }

  // ---- An unsound visit

  /** A run that may ask at all asks at least once. */
  lemma AsksOnce(cfg: Config, w: World, st: State)
    requires MaxRounds(cfg) >= 0 && MaxTurns(cfg) >= 1
    ensures |Rounds(cfg, w, 0, 0, st).st.requests| > |st.requests|
  {
    if w.llm(0).Stream? {
      var t := Consumed(NO_TURN, w.llm(0).items);
      var heard := st.(requests := st.requests + [st.messages], events := st.events + t.events);
      if t.error.None? && t.calls != [] && 0 < MaxRounds(cfg) {
        var added := RoundAdds(cfg, w, 0, t, heard);
        var s := RoundServed(cfg, w, 0, t, heard);
        RequestsGrow(cfg, w, 1, 1, s.st);
      }
    }
  }

  const DEFAULTS := Config(0, 0, 0, s => s)

  /** An LLM that calls a tool which does not exist. */
  const MISTAKEN := World(round => Stream([Call(ToolCall("1", "nope", "")), Done]), (round, name) => false,
                          (round, i) => ToolRun([], Err("tool not found", true)), false,
                          (round, i) => NoSession, round => [])

  lemma MistakenTurn()
    ensures Consumed(NO_TURN, MISTAKEN.llm(0).items) == Turn("", "", [ToolCall("1", "nope", "")], [], None)
  {
    var c := ToolCall("1", "nope", "");
    var items := [Call(c), Done];
    assert items[1..] == [Done] && [Done][1..] == [];
    var t := Absorbed(NO_TURN, Call(c));
    assert t == Turn("", "", [c], [], None);
    assert Consumed(t, [Done]) == Consumed(Absorbed(t, Done), []) == t;
  }

  lemma MistakenRun(st: State)
    ensures Rounds(DEFAULTS, MISTAKEN, 0, 0, st).exit == ToolNotFound("tool not found")
  {
    MistakenTurn();
    var t := Turn("", "", [ToolCall("1", "nope", "")], [], None);
    var asked := st.(requests := st.requests + [st.messages]);
    var heard := asked.(events := asked.events + t.events);
    var p := PoolRun(MISTAKEN, 0, t.calls, EMPTY_POOL, MISTAKEN.schedule(0));
    assert p == EMPTY_POOL;
    var recorded := Recorded(DEFAULTS, 0, t, p, heard);
    assert ServedCall(DEFAULTS, MISTAKEN, 0, t.calls, p.results, 0, recorded).fatal == Some("tool not found");
    assert RoundServed(DEFAULTS, MISTAKEN, 0, t, heard).fatal == Some("tool not found");
  }

  /** So an unsound visit happens on a new context, and whatever is asked there next sends the LLM an
      unclosed transcript. */
  lemma UnknownToolBreaksTheNextRequest(userText: string, second: Visit)
    ensures var first := Visit(MISTAKEN, userText);
            var next := VisitRun(DEFAULTS, VisitRun(DEFAULTS, [], first).st.rows, second);
            !Sound(DEFAULTS, [], first) && |next.st.requests| > 0 && !Closed(Shapes(next.st.requests[0]))
  {
    var first := Visit(MISTAKEN, userText);
    var here := Arrived([], first);
    MistakenRun(State(Opening(Some(here), userText), here, [] + [Working], [], []));
    var rows := VisitRun(DEFAULTS, [], first).st.rows;
    var there := Arrived(rows, second);
    AsksOnce(DEFAULTS, second.w, State(Opening(Some(there), second.userText), there, [] + [Working], [], []));
    assert Shapes(History([])) == [];
    NextRequestClosed(DEFAULTS, [], first, second);
  }
}
