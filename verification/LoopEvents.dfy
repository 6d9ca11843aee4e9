/** The order of the events of one `HandleRequest`: a grammar, the proof that every run obeys it,
    and the relation between the completed text and the deltas. */
module LoopEvents {
  import opened GoStrings
  import opened Json
  import opened Transcript
  import opened ToolLoop

  /** Reader of the event stream.  `Waiting` is a call that has reported progress, `Inside` a call
      whose subagent runs, `Returned` one whose subagent is done, `Closing` one between its end and
      its result. */
  datatype Phase =
    | Silent
    | Streaming
    | Started(tool: ToolCall)
    | Waiting(tool: ToolCall)
    | Inside(tool: ToolCall, sub: string)
    | Returned(tool: ToolCall)
    | Closing(tool: ToolCall)
    | Over(unclosed: bool)
    | Wrong

  function Next(p: Phase, e: Event): Phase {
    match p
    case Silent => if e.Working? then Streaming else Wrong
    case Streaming =>
      (match e
       case TextDelta(_) => Streaming
       case ThinkingDelta(_) => Streaming
       case CallStart(tool) => Started(tool)
       case Failed(_) => Over(false)
       case Completed(_) => Over(false)
       case _ => Wrong)
    case Started(tool) =>
      (match e
       case CallProgress(t, _) => if t == tool then Waiting(tool) else Wrong
       case SubStarted(sub, id) => if id == tool.id then Inside(tool, sub) else Wrong
       case CallEnd(t) => if t == tool then Closing(tool) else Wrong
       case Failed(_) => Over(true)
       case _ => Wrong)
    case Waiting(tool) =>
      (match e
       case CallProgress(t, _) => if t == tool then Waiting(tool) else Wrong
       case CallEnd(t) => if t == tool then Closing(tool) else Wrong
       case Failed(_) => Over(true)
       case _ => Wrong)
    case Inside(tool, sub) =>
      (match e
       case SubCompleted(s, _, id) => if s == sub && id == tool.id then Returned(tool) else Wrong
       case SubFailed(s, _, id) => if s == sub && id == tool.id then Returned(tool) else Wrong
       case _ => Wrong)
    case Returned(tool) =>
      (match e case CallEnd(t) => if t == tool then Closing(tool) else Wrong case _ => Wrong)
    case Closing(tool) =>
      (match e
       case CallResult(id, name, _) => if id == tool.id && name == tool.name then Streaming else Wrong
       case _ => Wrong)
    case Over(_) => Wrong
    case Wrong => Wrong
  }

  function Read(p: Phase, es: seq<Event>): Phase
    decreases |es|
  {
    if es == [] then p else Read(Next(p, es[0]), es[1..])
  }

  lemma {:induction false} ReadAppend(p: Phase, a: seq<Event>, b: seq<Event>)
    ensures Read(p, a + b) == Read(Read(p, a), b)
    decreases |a|
  {
    if a == [] {
      assert a + b == b;
    } else {
      var s := a + b;
      assert s[0] == a[0] && s[1..] == a[1..] + b;
      ReadAppend(Next(p, a[0]), a[1..], b);
    }
  }

  lemma ReadOne(p: Phase, e: Event)
    ensures Read(p, [e]) == Next(p, e)
  {
  }

  lemma ReadTwo(p: Phase, a: Event, b: Event)
    ensures Read(p, [a, b]) == Next(Next(p, a), b)
  {
    assert [a, b][1..] == [b];
    ReadOne(Next(p, a), b);
  }

  // ---- What the grammar says

  predicate Terminal(e: Event) { e.Failed? || e.Completed? }

  lemma {:induction false} WrongStaysWrong(es: seq<Event>)
    ensures Read(Wrong, es) == Wrong
    ensures es != [] ==> forall u :: Read(Over(u), es) == Wrong
  {
    if es != [] {
      WrongStaysWrong(es[1..]);
    }
  }

  /** An accepted stream that has not started ends in its only terminal event. */
  lemma {:induction false} OneTerminalEvent(p: Phase, es: seq<Event>)
    requires Read(p, es).Over? && !p.Over?
    ensures es != [] && forall i :: 0 <= i < |es| ==> (Terminal(es[i]) <==> i == |es| - 1)
    decreases |es|
  {
    var q := Next(p, es[0]);
    if es[1..] == [] {
    } else {
      WrongStaysWrong(es[1..]);
      OneTerminalEvent(q, es[1..]);
      assert forall i :: 1 <= i < |es| ==> es[i] == es[1..][i - 1];
    }
  }

  /** An accepted stream starts with the status `working`, which never comes back, and ends in its
      only completed or failed status. */
  lemma AcceptedStream(es: seq<Event>)
    requires Read(Silent, es).Over?
    ensures |es| >= 2 && (forall i :: 0 <= i < |es| ==> (es[i].Working? <==> i == 0))
    ensures forall i :: 0 <= i < |es| ==> (Terminal(es[i]) <==> i == |es| - 1)
  {
    OneTerminalEvent(Silent, es);
    if !es[0].Working? {
      WrongStaysWrong(es[1..]);
      assert false;
    }
    OneTerminalEvent(Streaming, es[1..]);
    WorkingOnlyFirst(Streaming, es[1..]);
    assert forall i :: 1 <= i < |es| ==> es[i] == es[1..][i - 1];
  }

  lemma {:induction false} WorkingOnlyFirst(p: Phase, es: seq<Event>)
    requires Read(p, es).Over? && !p.Silent?
    ensures forall i :: 0 <= i < |es| ==> !es[i].Working?
    decreases |es|
  {
    if es != [] {
      if es[0].Working? {
        WrongStaysWrong(es[1..]);
        assert false;
      }
      WorkingOnlyFirst(Next(p, es[0]), es[1..]);
      assert forall i :: 1 <= i < |es| ==> es[i] == es[1..][i - 1];
    }
  }

  /** Once a call has started, nothing but its own events follows until its result, or until the
      stream fails. */
  lemma {:induction false} CallsDoNotInterleave(p: Phase, tool: ToolCall, es: seq<Event>) returns (n: nat)
    requires Read(p, es).Over?
    requires p == Started(tool) || p == Waiting(tool) || p == Returned(tool) || p == Closing(tool)
             || (p.Inside? && p.tool == tool)
    ensures n < |es| && ((es[n].CallResult? && es[n].id == tool.id) || (n == |es| - 1 && es[n].Failed?))
    ensures forall i :: 0 <= i < n ==>
      match es[i]
      case CallProgress(t, _) => t == tool
      case CallEnd(t) => t == tool
      case SubStarted(_, id) => id == tool.id
      case SubCompleted(_, _, id) => id == tool.id
      case SubFailed(_, _, id) => id == tool.id
      case _ => false
    decreases |es|
  {
    if es[0].CallResult? {
      n := 0;
      WrongStaysWrong(es[1..]);
    } else if es[0].Failed? {
      n := 0;
      WrongStaysWrong(es[1..]);
    } else {
      WrongStaysWrong(es[1..]);
      var m := CallsDoNotInterleave(Next(p, es[0]), tool, es[1..]);
      n := m + 1;
      assert forall i :: 1 <= i < |es| ==> es[i] == es[1..][i - 1];
    }
  }

  // ---- Every run obeys it

  lemma {:induction false} TurnStreams(t: Turn, items: seq<StreamItem>)
    requires Read(Streaming, t.events) == Streaming
    ensures Read(Streaming, Consumed(t, items).events) == Streaming
    decreases |items|
  {
    if items != [] && t.error.None? {
      match items[0] {
        case Text(s) => ReadAppend(Streaming, t.events, [TextDelta(s)]); ReadOne(Streaming, TextDelta(s));
        case Reasoning(s) => ReadAppend(Streaming, t.events, [ThinkingDelta(s)]); ReadOne(Streaming, ThinkingDelta(s));
        case _ =>
      }
      TurnStreams(Absorbed(t, items[0]), items[1..]);
    }
  }

  lemma {:induction false} TicksWait(tc: ToolCall, ticks: seq<nat>, p: Phase)
    requires p == Started(tc) || p == Waiting(tc)
    ensures Read(p, Ticks(tc, ticks)) == (if ticks == [] then p else Waiting(tc))
    decreases |ticks|
  {
    if ticks != [] {
      assert Ticks(tc, ticks)[1..] == Ticks(tc, ticks[1..]);
      TicksWait(tc, ticks[1..], Waiting(tc));
    }
  }

  lemma ResolvedReads(cfg: Config, w: World, round: nat, calls: seq<ToolCall>, ro: map<string, Outcome>, i: nat)
    requires i < |calls|
    ensures var r, tc := Resolved(cfg, w, round, calls, ro, i), Masked(cfg, calls[i]);
            var p := Read(Started(tc), r.events);
            p == Started(tc) || p == Waiting(tc) || (p == Returned(tc) && r.fatal.None?)
  {
    var tc := Masked(cfg, calls[i]);
    TicksWait(tc, w.tool(round, i).ticks, Started(tc));
    var r := Resolved(cfg, w, round, calls, ro, i);
    if calls[i].name == "spawn_agent" && w.subagents && w.spawn(round, i).Session? {
      ReadTwo(Started(tc), r.events[0], r.events[1]);
      assert r.events == [r.events[0], r.events[1]];
    }
  }

  /** The events of one served call, as a stretch of the stream. */
  lemma ServedCallReads(cfg: Config, w: World, round: nat, calls: seq<ToolCall>, ro: map<string, Outcome>, i: nat,
                        st: State)
    requires i < |calls| && Read(Silent, st.events) == Streaming
    ensures var s := ServedCall(cfg, w, round, calls, ro, i, st);
            var p := Read(Silent, s.st.events);
            if s.fatal.None? then p == Streaming else p.Started? || p.Waiting?
  {
    var tc, r := calls[i], Resolved(cfg, w, round, calls, ro, i);
    var masked := Masked(cfg, tc);
    var begun := st.events + [CallStart(masked)];
    ReadAppend(Silent, st.events, [CallStart(masked)]);
    ReadOne(Streaming, CallStart(masked));
    ReadAppend(Silent, begun, r.events);
    ResolvedReads(cfg, w, round, calls, ro, i);
    if r.fatal.None? {
      var end, result := CallEnd(masked), CallResult(tc.id, tc.name, Truncate(cfg.redact(Capped(cfg, r.text)), 2000));
      ReadAppend(Silent, begun + r.events, [end, result]);
      ReadTwo(Read(Started(masked), r.events), end, result);
    }
  }

  lemma {:induction false} ServedFromReads(cfg: Config, w: World, round: nat, calls: seq<ToolCall>,
                                           ro: map<string, Outcome>, i: nat, st: State)
    requires i <= |calls| && Read(Silent, st.events) == Streaming
    ensures var s := ServedFrom(cfg, w, round, calls, ro, i, st);
            var p := Read(Silent, s.st.events);
            if s.fatal.None? then p == Streaming else p.Started? || p.Waiting?
    decreases |calls| - i
  {
    if i < |calls| {
      ServedCallReads(cfg, w, round, calls, ro, i, st);
      var c := ServedCall(cfg, w, round, calls, ro, i, st);
      if c.fatal.None? {
        ServedFromReads(cfg, w, round, calls, ro, i + 1, c.st);
      }
    }
  }

  lemma {:induction false} RoundsRead(cfg: Config, w: World, round: nat, turns: nat, st: State)
    requires Read(Silent, st.events) == Streaming
    ensures var r := Rounds(cfg, w, round, turns, st);
            var p := Read(Silent, r.st.events);
            if r.exit.ToolNotFound? then p.Started? || p.Waiting? else p == Streaming
    decreases MaxRounds(cfg) + 1 - round
  {
    if round <= MaxRounds(cfg) && turns + 1 <= MaxTurns(cfg) && w.llm(round).Stream? {
      var t := Consumed(NO_TURN, w.llm(round).items);
      var heard := st.(requests := st.requests + [st.messages], events := st.events + t.events);
      TurnStreams(NO_TURN, w.llm(round).items);
      ReadAppend(Silent, st.events, t.events);
      if t.error.None? && t.calls != [] && round < MaxRounds(cfg) {
        var p := PoolRun(w, round, t.calls, EMPTY_POOL, w.schedule(round));
        var recorded := Recorded(cfg, round, t, p, heard);
        ServedFromReads(cfg, w, round, t.calls, p.results, 0, recorded);
        var s := RoundServed(cfg, w, round, t, heard);
        if s.fatal.None? {
          RoundsRead(cfg, w, round + 1, turns + 1, s.st);
        }
      }
    }
  }

  function LastEvent(exit: Exit): Event {
    if exit.Finished? then Completed(exit.text) else Failed(ExitError(exit))
  }

  lemma StreamEnds(es: seq<Event>, exit: Exit)
    requires var p := Read(Silent, es); if exit.ToolNotFound? then p.Started? || p.Waiting? else p == Streaming
    ensures Read(Silent, es + [LastEvent(exit)]) == Over(exit.ToolNotFound?)
  {
    ReadAppend(Silent, es, [LastEvent(exit)]);
    ReadOne(Read(Silent, es), LastEvent(exit));
  }

  /** Every stream of every run is accepted; it ends with an unclosed call exactly when the run ends
      at an unknown tool, and it ends with `completed` exactly when the run finishes. */
  lemma StreamIsGrammatical(cfg: Config, w: World, stored: Option<seq<Row>>, userText: string, rows: seq<Row>)
    ensures var r := Handled(cfg, w, stored, userText, State([], rows, [], [], []));
            && Read(Silent, r.st.events) == Over(r.exit.ToolNotFound?)
            && |r.st.events| > 0 && r.st.events[|r.st.events| - 1] == LastEvent(r.exit)
  {
    var history := (match stored case Some(rs) => History(rs) case None => [])
      + [ChatMessage("user", userText, "", [], "")];
    var start := State([], rows, [], [], []).(messages := history, events := [] + [Working]);
    assert [] + [Working] == [Working];
    ReadOne(Silent, Working);
    RoundsRead(cfg, w, 0, 0, start);
    var r := Rounds(cfg, w, 0, 0, start);
    StreamEnds(r.st.events, r.exit);
  }

  // ---- Texts

  function Texts(es: seq<Event>): string {
    if es == [] then "" else (if es[0].TextDelta? then es[0].text else "") + Texts(es[1..])
  }

  lemma {:induction false} TextsAppend(a: seq<Event>, b: seq<Event>)
    ensures Texts(a + b) == Texts(a) + Texts(b)
  {
    if a == [] {
      assert a + b == b;
      assert "" + Texts(b) == Texts(b);
    } else {
      var s := a + b;
      assert s[0] == a[0] && s[1..] == a[1..] + b;
      TextsAppend(a[1..], b);
      Assoc(if a[0].TextDelta? then a[0].text else "", Texts(a[1..]), Texts(b));
    }
  }

  lemma TextsOne(e: Event)
    ensures Texts([e]) == if e.TextDelta? then e.text else ""
  {
  }

  /** The text of a turn is what its deltas say. */
  lemma {:induction false} TurnTexts(t: Turn, items: seq<StreamItem>)
    requires Texts(t.events) == t.text
    ensures Texts(Consumed(t, items).events) == Consumed(t, items).text
    decreases |items|
  {
    if items != [] && t.error.None? {
      match items[0] {
        case Text(s) => TextsAppend(t.events, [TextDelta(s)]); TextsOne(TextDelta(s));
        case Reasoning(s) => TextsAppend(t.events, [ThinkingDelta(s)]); TextsOne(ThinkingDelta(s));
        case _ =>
      }
      TurnTexts(Absorbed(t, items[0]), items[1..]);
    }
  }

  lemma {:induction false} FinishedTextIsSuffix(cfg: Config, w: World, round: nat, turns: nat, st: State)
    ensures var r := Rounds(cfg, w, round, turns, st);
            r.exit.Finished? ==> HasSuffix(Texts(r.st.events), r.exit.text)
    decreases MaxRounds(cfg) + 1 - round
  {
    if round <= MaxRounds(cfg) && turns + 1 <= MaxTurns(cfg) && w.llm(round).Stream? {
      var t := Consumed(NO_TURN, w.llm(round).items);
      var heard := st.(requests := st.requests + [st.messages], events := st.events + t.events);
      TurnTexts(NO_TURN, w.llm(round).items);
      TextsAppend(st.events, t.events);
      if t.error.None? && t.calls != [] && round < MaxRounds(cfg) {
        var s := RoundServed(cfg, w, round, t, heard);
        if s.fatal.None? {
          FinishedTextIsSuffix(cfg, w, round + 1, turns + 1, s.st);
        }
      }
    }
  }

  /** The completed status repeats the end of what was streamed as deltas. */
  lemma CompletedTextWasStreamed(cfg: Config, w: World, stored: Option<seq<Row>>, userText: string, rows: seq<Row>)
    ensures var r := Handled(cfg, w, stored, userText, State([], rows, [], [], []));
            && |r.st.events| > 0
            && var last := r.st.events[|r.st.events| - 1];
               last.Completed? ==> HasSuffix(Texts(r.st.events), last.text)
  {
    var history := (match stored case Some(rs) => History(rs) case None => [])
      + [ChatMessage("user", userText, "", [], "")];
    var start := State([], rows, [], [], []).(messages := history, events := [] + [Working]);
    FinishedTextIsSuffix(cfg, w, 0, 0, start);
    var r := Rounds(cfg, w, 0, 0, start);
    var last := if r.exit.Finished? then Completed(r.exit.text) else Failed(ExitError(r.exit));
    TextsAppend(r.st.events, [last]);
    TextsOne(last);
    assert Texts(r.st.events) + "" == Texts(r.st.events);
  }
}
