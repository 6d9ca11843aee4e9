/** Subagents: the admission counter, the small tool loop of a subagent, and what its session keeps. */
module Subagents {
  import opened GoStrings
  import opened Json
  import opened Transcript
  import T = ToolLoop

  const MAX_ROUNDS := 10
  const MAX_ACTIVE := 3

  datatype World = World(llm: nat -> T.Reply, tool: (nat, nat) -> T.Outcome)

  datatype Logs = Logs(messages: seq<ChatMessage>, requests: seq<seq<ChatMessage>>, ran: seq<T.Invocation>)

  datatype Result = Answered(text: string) | Broke(error: string)

  datatype Ended = Ended(logs: Logs, result: Result)

  function ToolMessage(tc: ToolCall, o: T.Outcome): ChatMessage {
    ChatMessage("tool", T.ResultText(o), "", [], tc.id)
  }

  /** Every call is executed and answered, in order; an error becomes the answer. */
  function CalledFrom(w: World, round: nat, calls: seq<ToolCall>, i: nat, l: Logs): Logs
    requires i <= |calls|
    decreases |calls| - i
  {
    if i == |calls| then l
    else CalledFrom(w, round, calls, i + 1,
                    l.(messages := l.messages + [ToolMessage(calls[i], w.tool(round, i))],
                       ran := l.ran + [T.Invocation(round, i)]))
  }

  function Asked(l: Logs): Logs {
    l.(requests := l.requests + [l.messages])
  }

  /** The block of calls is recorded, then answered. */
  function RoundDone(w: World, round: nat, t: T.Turn, l: Logs): Logs {
    CalledFrom(w, round, t.calls, 0, l.(messages := l.messages + [ChatMessage("assistant", t.text, "", t.calls, "")]))
  }

  function Rounds(w: World, round: nat, l: Logs): Ended
    decreases MAX_ROUNDS - round
  {
    if round >= MAX_ROUNDS then Ended(l, Broke("max subagent rounds (10) exceeded"))
    else
      match w.llm(round)
      case Refused(e) => Ended(Asked(l), Broke("LLM call failed: " + e))
      case Stream(items) =>
        var t := T.Consumed(T.NO_TURN, items);
        if t.error.Some? then Ended(Asked(l), Broke(t.error.value))
        else if t.calls == [] then Ended(Asked(l), Answered(t.text))
        else Rounds(w, round + 1, RoundDone(w, round, t, Asked(l)))
  }

  function Initial(system: string, task: string): seq<ChatMessage> {
    [ChatMessage("system", system, "", [], ""), ChatMessage("user", task, "", [], "")]
  }

  function RedactedMessage(redact: string -> string, m: ChatMessage): ChatMessage {
    ChatMessage(m.role, redact(m.content), redact(m.reasoning),
                seq(|m.calls|, i requires 0 <= i < |m.calls| => m.calls[i].(arguments := redact(m.calls[i].arguments))),
                m.callId)
  }

  lemma NothingToRedact(redact: string -> string, m: ChatMessage)
    requires m.calls == []
    ensures RedactedMessage(redact, m) == ChatMessage(m.role, redact(m.content), redact(m.reasoning), [], m.callId)
  {
  }

  /** The stored session: its final messages once it has completed, or its error. */
  datatype Session = Open | Failed(error: string) | Completed(messages: seq<ChatMessage>, result: string)

  class SubagentEngine {
    const w: World
    const redact: string -> string
    var activeCount: nat
    var requests: seq<seq<ChatMessage>>
    var ran: seq<T.Invocation>

    constructor (w: World, redact: string -> string)
      ensures this.w == w && this.redact == redact && activeCount == 0 && requests == [] && ran == []
    {
      this.w, this.redact := w, redact;
      activeCount, requests, ran := 0, [], [];
    }

    method CallTools(round: nat, calls: seq<ToolCall>, before: seq<ChatMessage>) returns (messages: seq<ChatMessage>)
      modifies this`ran
      ensures Logs(messages, requests, ran) == CalledFrom(w, round, calls, 0, Logs(before, requests, old(ran)))
    {
      messages := before;
      for i := 0 to |calls|
        invariant CalledFrom(w, round, calls, i, Logs(messages, requests, ran)) ==
                  CalledFrom(w, round, calls, 0, Logs(before, requests, old(ran)))
      {
        ran := ran + [T.Invocation(round, i)];
        var outcome := w.tool(round, i);
        var result := match outcome case Ok(text) => text case Err(e, _) => "Error: " + e;
        messages := messages + [ChatMessage("tool", result, "", [], calls[i].id)];
      }
    }

    /** Text and calls of one stream; the first error ends it. */
    method ReadStream(items: seq<T.StreamItem>) returns (text: string, calls: seq<ToolCall>, error: Option<string>)
      ensures var t := T.Consumed(T.NO_TURN, items); text == t.text && calls == t.calls && error == t.error
    {
      ghost var t := T.NO_TURN;
      text, calls := "", [];
      for i := 0 to |items|
        invariant T.Consumed(t, items[i..]) == T.Consumed(T.NO_TURN, items)
        invariant t.text == text && t.calls == calls && t.error.None?
      {
        assert items[i..][0] == items[i] && items[i..][1..] == items[i + 1..];
        t := T.Absorbed(t, items[i]);
        match items[i] {
          case Text(s) => text := text + s;
          case Call(c) => calls := calls + [c];
          case Fail(e) => return text, calls, Some(e);
          case _ =>
        }
      }
      error := None;
    }

    method RunLLMLoop(initial: seq<ChatMessage>) returns (result: Result, messages: seq<ChatMessage>)
      modifies this`requests, this`ran
      ensures Ended(Logs(messages, requests, ran), result) == Rounds(w, 0, Logs(initial, old(requests), old(ran)))
    {
      messages := initial;
      for round := 0 to MAX_ROUNDS
        invariant Rounds(w, round, Logs(messages, requests, ran))
                  == Rounds(w, 0, Logs(initial, old(requests), old(ran)))
      {
        requests := requests + [messages];
        var reply := w.llm(round);
        if reply.Refused? {
          return Broke("LLM call failed: " + reply.error), messages;
        }
        var text, calls, error := ReadStream(reply.items);
        if error.Some? {
          return Broke(error.value), messages;
        }
        if |calls| == 0 {
          return Answered(text), messages;
        }
        messages := messages + [ChatMessage("assistant", text, "", calls, "")];
        messages := CallTools(round, calls, messages);
      }
      result := Broke("max subagent rounds (10) exceeded");
    }

    /** The whole run of a session.  The loop extends its own copy of the list, so a completed session
        stores the first two messages only. */
    method RunExisting(system: string, task: string) returns (session: Session)
      modifies this
      ensures activeCount == old(activeCount)
      ensures old(activeCount) >= MAX_ACTIVE ==>
                session == Failed("too many concurrent subagents (max 3)") && requests == old(requests)
      ensures old(activeCount) < MAX_ACTIVE ==>
                requests == Rounds(w, 0, Logs(Initial(system, task), old(requests), old(ran))).logs.requests
      ensures old(activeCount) < MAX_ACTIVE ==>
                session == match Rounds(w, 0, Logs(Initial(system, task), old(requests), old(ran))).result
                           case Broke(e) => Failed(redact(e))
                           case Answered(text) =>
                             Completed([ChatMessage("system", redact(system), redact(""), [], ""),
                                        ChatMessage("user", redact(task), redact(""), [], "")], redact(text))
    {
      if activeCount >= MAX_ACTIVE {
        return Failed("too many concurrent subagents (max 3)");
      }
      activeCount := activeCount + 1;
      var messages := Initial(system, task);
      var result, _ := RunLLMLoop(messages);
      match result {
        case Broke(e) => session := Failed(redact(e));
        case Answered(text) =>
          NothingToRedact(redact, messages[0]);
          NothingToRedact(redact, messages[1]);
          session := Completed([RedactedMessage(redact, messages[0]), RedactedMessage(redact, messages[1])],
                               redact(text));
      }
      activeCount := activeCount - 1;
    }
  }

  // ---- The subagent's transcript is closed at every request

  lemma {:induction false} CalledAnswers(w: World, round: nat, calls: seq<ToolCall>, i: nat, l: Logs)
    requires i <= |calls|
    ensures var r := CalledFrom(w, round, calls, i, l);
            && Shapes(r.messages) == Shapes(l.messages) + Answers(Ids(calls)[i..])
            && r.requests == l.requests
            && r.ran == l.ran + seq(|calls| - i, (k: nat) => T.Invocation(round, i + k))
    decreases |calls| - i
  {
    if i < |calls| {
      var m := ToolMessage(calls[i], w.tool(round, i));
      var next := l.(messages := l.messages + [m], ran := l.ran + [T.Invocation(round, i)]);
      CalledAnswers(w, round, calls, i + 1, next);
      ShapesAppend(l.messages, [m]);
      var ids := Ids(calls);
      assert Shapes([m]) == [Answer(ids[i])];
      assert Answers(ids[i..]) == [Answer(ids[i])] + Answers(ids[i + 1..]);
      Assoc(Shapes(l.messages), [Answer(ids[i])], Answers(ids[i + 1..]));
      var now := [T.Invocation(round, i)];
      var later := seq(|calls| - i - 1, (k: nat) => T.Invocation(round, i + 1 + k));
      assert seq(|calls| - i, (k: nat) => T.Invocation(round, i + k)) == now + later;
      Assoc(l.ran, now, later);
    }
  }

  lemma RoundStaysClosed(w: World, round: nat, t: T.Turn, l: Logs)
    requires Closed(Shapes(l.messages)) && t.calls != []
    ensures var r := RoundDone(w, round, t, l); Closed(Shapes(r.messages)) && r.requests == l.requests
  {
    var m := ChatMessage("assistant", t.text, "", t.calls, "");
    var block := l.(messages := l.messages + [m]);
    CalledAnswers(w, round, t.calls, 0, block);
    var ids := Ids(t.calls);
    ShapesAppend(l.messages, [m]);
    assert Shapes([m]) == [Block(ids)] && ids[0..] == ids;
    Assoc(Shapes(l.messages), [Block(ids)], Answers(ids));
    ClosedRound(ids);
    ClosedAppend(Shapes(l.messages), [Block(ids)] + Answers(ids));
  }

  predicate AllClosed(requests: seq<seq<ChatMessage>>) {
    forall i :: 0 <= i < |requests| ==> Closed(Shapes(requests[i]))
  }

  /** Every request carries a closed transcript, and there are at most as many as rounds are left. */
  lemma {:induction false} SubagentRequestsAreClosed(w: World, round: nat, l: Logs)
    requires Closed(Shapes(l.messages)) && AllClosed(l.requests)
    ensures var r := Rounds(w, round, l).logs;
            && AllClosed(r.requests) && Closed(Shapes(r.messages))
            && |l.requests| <= |r.requests| <= |l.requests| + (if round < MAX_ROUNDS then MAX_ROUNDS - round else 0)
    decreases MAX_ROUNDS - round
  {
    if round < MAX_ROUNDS {
      AskedStaysClosed(l);
      if w.llm(round).Stream? {
        var t := T.Consumed(T.NO_TURN, w.llm(round).items);
        if t.error.None? && t.calls != [] {
          RoundStaysClosed(w, round, t, Asked(l));
          SubagentRequestsAreClosed(w, round + 1, RoundDone(w, round, t, Asked(l)));
        }
      }
    }
  }

  lemma AskedStaysClosed(l: Logs)
    requires Closed(Shapes(l.messages)) && AllClosed(l.requests)
    ensures AllClosed(Asked(l).requests) && Asked(l).messages == l.messages && |Asked(l).requests| == |l.requests| + 1
  {
  }

  /** A whole session: its at most ten requests are closed. */
  lemma SessionRequestsAreClosed(w: World, system: string, task: string)
    ensures var r := Rounds(w, 0, Logs(Initial(system, task), [], [])).logs;
            |r.requests| <= MAX_ROUNDS && AllClosed(r.requests)
  {
    var s := Shapes(Initial(system, task));
    assert s == [Plain, Plain] && s[1..] == [Plain] && s[1..][1..] == [];
    SubagentRequestsAreClosed(w, 0, Logs(Initial(system, task), [], []));
  }

  // ---- What a session says

  /** The answer of one call: its result, or its error as a text. */
  function AnswerOf(w: World, round: nat, tc: ToolCall, i: nat): ChatMessage {
    ChatMessage("tool", match w.tool(round, i) case Ok(text) => text case Err(error, _) => "Error: " + error, "", [],
                tc.id)
  }

  function AnswersOf(w: World, round: nat, calls: seq<ToolCall>, i: nat): (r: seq<ChatMessage>)
    requires i <= |calls|
    ensures |r| == |calls| - i
  {
    seq(|calls| - i, k requires 0 <= k < |calls| - i => AnswerOf(w, round, calls[i + k], i + k))
  }

  lemma {:induction false} CalledSays(w: World, round: nat, calls: seq<ToolCall>, i: nat, l: Logs)
    requires i <= |calls|
    ensures CalledFrom(w, round, calls, i, l).messages == l.messages + AnswersOf(w, round, calls, i)
    decreases |calls| - i
  {
    if i < |calls| {
      var m := ToolMessage(calls[i], w.tool(round, i));
      CalledSays(w, round, calls, i + 1,
                 l.(messages := l.messages + [m], ran := l.ran + [T.Invocation(round, i)]));
      assert m == AnswerOf(w, round, calls[i], i);
      assert AnswersOf(w, round, calls, i) == [m] + AnswersOf(w, round, calls, i + 1);
      Assoc(l.messages, [m], AnswersOf(w, round, calls, i + 1));
    }
  }

  /** Round `k` leads from `a` to `b`: the messages so far are sent, and the block of calls is followed by the
      answer of each of them, in call order. */
  ghost predicate Continues(w: World, k: nat, a: Logs, b: Logs) {
    && k < 10 && w.llm(k).Stream?
    && var t := T.Consumed(T.NO_TURN, w.llm(k).items);
       && t.error.None? && t.calls != []
       && b.messages == a.messages + [ChatMessage("assistant", t.text, "", t.calls, "")] + AnswersOf(w, k, t.calls, 0)
       && b.requests == a.requests + [a.messages]
       && b.ran == a.ran + seq(|t.calls|, (i: nat) => T.Invocation(k, i))
  }

  /** The session ends in round `k`: with its answer, with the error of the LLM or its stream, or because ten
      rounds are over. */
  ghost predicate Ends(w: World, k: nat, a: Logs, r: Ended) {
    && r.logs.messages == a.messages && r.logs.ran == a.ran
    && if k >= 10 then r.logs.requests == a.requests && r.result == Broke("max subagent rounds (10) exceeded")
       else
         && r.logs.requests == a.requests + [a.messages]
         && match w.llm(k)
            case Refused(error) => r.result == Broke("LLM call failed: " + error)
            case Stream(items) =>
              var t := T.Consumed(T.NO_TURN, items);
              if t.error.Some? then r.result == Broke(t.error.value) else t.calls == [] && r.result == Answered(t.text)
  }

  ghost predicate Path(w: World, k: nat, logs: seq<Logs>) {
    logs != [] && forall i :: 0 <= i < |logs| - 1 ==> Continues(w, k + i, logs[i], logs[i + 1])
  }

  lemma PathCons(w: World, k: nat, a: Logs, rest: seq<Logs>)
    requires Path(w, k + 1, rest) && Continues(w, k, a, rest[0])
    ensures Path(w, k, [a] + rest)
  {
    var logs := [a] + rest;
    forall i | 0 <= i < |logs| - 1 ensures Continues(w, k + i, logs[i], logs[i + 1]) {
      if i > 0 {
        assert logs[i] == rest[i - 1] && logs[i + 1] == rest[i];
        assert Continues(w, k + 1 + (i - 1), rest[i - 1], rest[i - 1 + 1]);
      }
    }
  }

  lemma RoundContinues(w: World, k: nat, l: Logs)
    requires k < 10 && w.llm(k).Stream?
    requires var t := T.Consumed(T.NO_TURN, w.llm(k).items); t.error.None? && t.calls != []
    ensures Continues(w, k, l, RoundDone(w, k, T.Consumed(T.NO_TURN, w.llm(k).items), Asked(l)))
  {
    var t := T.Consumed(T.NO_TURN, w.llm(k).items);
    var block := Asked(l).(messages := l.messages + [ChatMessage("assistant", t.text, "", t.calls, "")]);
    CalledSays(w, k, t.calls, 0, block);
    CalledAnswers(w, k, t.calls, 0, block);
    assert seq(|t.calls| - 0, (i: nat) => T.Invocation(k, 0 + i)) == seq(|t.calls|, (i: nat) => T.Invocation(k, i));
  }

  /** A session is a path of such rounds, from its first two messages to the round that ends it. */
  lemma {:induction false} SessionUnrolls(w: World, k: nat, l: Logs) returns (logs: seq<Logs>)
    requires k <= 10
    ensures Path(w, k, logs) && logs[0] == l
    ensures Ends(w, k + |logs| - 1, logs[|logs| - 1], Rounds(w, k, l))
    decreases 10 - k
  {
    logs := [l];
    if k < 10 && w.llm(k).Stream? {
      var t := T.Consumed(T.NO_TURN, w.llm(k).items);
      if t.error.None? && t.calls != [] {
        var next := RoundDone(w, k, t, Asked(l));
        RoundContinues(w, k, l);
        var rest := SessionUnrolls(w, k + 1, next);
        PathCons(w, k, l, rest);
        logs := [l] + rest;
      }
    }
  }

  // ---- Admission

  /** Sessions that run at the same time: each is admitted or turned away, and leaves once. */
  datatype Gate = Gate(activeCount: nat, inside: set<nat>, turnedAway: set<nat>)
  datatype Move = Enter(session: nat) | Leave(session: nat)

  function Moved(g: Gate, m: Move): Gate {
    match m
    case Enter(s) =>
      if s in g.inside || s in g.turnedAway then g
      else if g.activeCount >= MAX_ACTIVE then g.(turnedAway := g.turnedAway + {s})
      else g.(activeCount := g.activeCount + 1, inside := g.inside + {s})
    case Leave(s) =>
      if s in g.inside && g.activeCount > 0 then g.(activeCount := g.activeCount - 1, inside := g.inside - {s})
      else g
  }

  /** A newcomer gets in exactly when fewer than three are inside; otherwise it is turned away, and nobody
      else is touched. */
  lemma NewcomerSays(g: Gate, s: nat)
    requires g.activeCount == |g.inside| && s !in g.inside && s !in g.turnedAway
    ensures var r := Moved(g, Enter(s));
            if |g.inside| < 3 then r.inside == g.inside + {s} && r.turnedAway == g.turnedAway
            else r.inside == g.inside && r.turnedAway == g.turnedAway + {s}
    ensures var r := Moved(g, Leave(s)); r == g
  {
  }

  function MovedAll(g: Gate, moves: seq<Move>): Gate
    decreases |moves|
  {
    if moves == [] then g else MovedAll(Moved(g, moves[0]), moves[1..])
  }

  /** The counter is always the number of sessions inside, and never more than three. */
  lemma {:induction false} AtMostThreeInside(g: Gate, moves: seq<Move>)
    requires g.activeCount == |g.inside| <= MAX_ACTIVE
    ensures var r := MovedAll(g, moves); r.activeCount == |r.inside| <= MAX_ACTIVE
    decreases |moves|
  {
    if moves != [] {
      AtMostThreeInside(Moved(g, moves[0]), moves[1..]);
    }
  }
}
