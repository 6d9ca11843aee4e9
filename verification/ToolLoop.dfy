/** The engine's tool loop: LLM turns alternate with batches of tool calls, read-only calls run in
    parallel goroutines, and three logs grow together (messages in memory, rows in the database,
    events on the wire).  The LLM, the tools, the subagents and the goroutine schedule are oracles. */
module ToolLoop {
  import opened GoStrings
  import opened Json
  import opened Transcript

  datatype StreamItem =
    | Text(text: string)
    | Reasoning(thought: string)
    | Call(call: ToolCall)
    | Fail(error: string)
    | Done

  datatype Reply = Refused(error: string) | Stream(items: seq<StreamItem>)

  /** How one execution of a tool ends; `notFound` says that the error names the tool as unknown. */
  datatype Outcome = Ok(text: string) | Err(error: string, notFound: bool)

  /** One execution under `callToolWithTimeout`: the progress ticks seen while waiting, and its end. */
  datatype ToolRun = ToolRun(ticks: seq<nat>, outcome: Outcome)

  datatype SpawnRun = NoSession | Session(id: string, outcome: Outcome)

  /** A step of the parallel phase: a goroutine starts its call, or stores its result under the lock. */
  datatype PoolStep = Begin(call: nat) | Finish(call: nat)

  datatype World = World(
    llm: nat -> Reply,
    readOnly: (nat, string) -> bool,
    tool: (nat, nat) -> ToolRun,
    subagents: bool,
    spawn: (nat, nat) -> SpawnRun,
    schedule: nat -> seq<PoolStep>)

  datatype Config = Config(maxToolRounds: int, maxTurns: int, maxToolResultSize: nat, redact: string -> string)

  datatype Event =
    | Working
    | TextDelta(text: string)
    | ThinkingDelta(thinking: string)
    | CallStart(tool: ToolCall)
    | CallProgress(tool: ToolCall, elapsed: nat)
    | SubStarted(sub: string, callId: string)
    | SubCompleted(sub: string, result: string, callId: string)
    | SubFailed(sub: string, error: string, callId: string)
    | CallEnd(tool: ToolCall)
    | CallResult(id: string, name: string, result: string)
    | Failed(error: string)
    | Completed(text: string)

  datatype Exit =
    | Finished(text: string)
    | LlmRefused(error: string)
    | StreamBroke(error: string)
    | TurnLimit(max: int)
    | RoundLimit(max: int)
    | ToolNotFound(error: string)

  datatype Invocation = Invocation(round: nat, call: nat)

  /** The logs: `requests` are the message lists sent to the LLM, `ran` the tool executions begun. */
  datatype State = State(messages: seq<ChatMessage>, rows: seq<Row>, events: seq<Event>,
                         requests: seq<seq<ChatMessage>>, ran: seq<Invocation>)

  // ---- Limits and texts

  function MaxRounds(cfg: Config): int { if cfg.maxToolRounds == 0 then 10 else cfg.maxToolRounds }
  function MaxTurns(cfg: Config): int { if cfg.maxTurns == 0 then 20 else cfg.maxTurns }
  function MaxResult(cfg: Config): nat { if cfg.maxToolResultSize == 0 then 10000 else cfg.maxToolResultSize }

  function Signed(n: int): string { if n < 0 then "-" + Decimal(-n) else Decimal(n) }

  function ExitError(e: Exit): string {
    match e
    case Finished(_) => ""
    case LlmRefused(m) => "LLM call failed: " + m
    case StreamBroke(m) => m
    case TurnLimit(n) => "max turns (" + Signed(n) + ") exceeded"
    case RoundLimit(n) => "max tool rounds (" + Signed(n) + ") exceeded"
    case ToolNotFound(m) => m
  }

  function ResultText(o: Outcome): string {
    match o case Ok(t) => t case Err(m, _) => "Error: " + m
  }

  function Capped(cfg: Config, result: string): string {
    var max := MaxResult(cfg);
    if |result| > max
    then result[..max] + ("\n... (truncated, " + Decimal(|result| - max) + " chars omitted)")
    else result
  }

  function Truncate(s: string, max: nat): string {
    if |s| <= max then s else s[..max] + "..."
  }

  function Masked(cfg: Config, tc: ToolCall): ToolCall {
    tc.(arguments := cfg.redact(tc.arguments))
  }

  function MaskedAll(cfg: Config, calls: seq<ToolCall>): (r: seq<ToolCall>)
    ensures |r| == |calls|
  {
    seq(|calls|, i requires 0 <= i < |calls| => Masked(cfg, calls[i]))
  }

  // ---- One LLM turn

  datatype Turn = Turn(text: string, reasoning: string, calls: seq<ToolCall>, events: seq<Event>, error: Option<string>)

  const NO_TURN := Turn("", "", [], [], None)

  function Absorbed(t: Turn, item: StreamItem): Turn {
    match item
    case Text(s) => t.(text := t.text + s, events := t.events + [TextDelta(s)])
    case Reasoning(s) => t.(reasoning := t.reasoning + s, events := t.events + [ThinkingDelta(s)])
    case Call(c) => t.(calls := t.calls + [c])
    case Fail(m) => t.(error := Some(m))
    case Done => t
  }

  /** Consumes the stream up to its end or its first error. */
  function Consumed(t: Turn, items: seq<StreamItem>): Turn
    decreases |items|
  {
    if items == [] || t.error.Some? then t else Consumed(Absorbed(t, items[0]), items[1..])
  }

  // ---- The parallel phase

  datatype Pool = Pool(begun: seq<nat>, finished: set<nat>, results: map<string, Outcome>)

  const EMPTY_POOL := Pool([], {}, map[])

  predicate InPool(w: World, round: nat, calls: seq<ToolCall>, i: nat) {
    i < |calls| && calls[i].name != "spawn_agent" && w.readOnly(round, calls[i].name)
  }

  predicate PoolEnabled(w: World, round: nat, calls: seq<ToolCall>, p: Pool, s: PoolStep) {
    match s
    case Begin(i) => InPool(w, round, calls, i) && i !in p.begun
    case Finish(i) => InPool(w, round, calls, i) && i in p.begun && i !in p.finished
  }

  function PoolStepped(w: World, round: nat, calls: seq<ToolCall>, p: Pool, s: PoolStep): Pool {
    match s
    case Begin(i) => p.(begun := p.begun + [i])
    case Finish(i) =>
      if i < |calls|
      then p.(finished := p.finished + {i}, results := p.results[calls[i].id := w.tool(round, i).outcome])
      else p
  }

  function PoolRun(w: World, round: nat, calls: seq<ToolCall>, p: Pool, steps: seq<PoolStep>): Pool
    decreases |steps|
  {
    if steps == [] then p else PoolRun(w, round, calls, PoolStepped(w, round, calls, p, steps[0]), steps[1..])
  }

  /** Every step is possible when it happens, and at the end (`roWg.Wait`) every read-only call is done. */
  ghost predicate PoolComplete(w: World, round: nat, calls: seq<ToolCall>, p: Pool, steps: seq<PoolStep>)
    decreases |steps|
  {
    if steps == [] then forall i :: 0 <= i < |calls| && InPool(w, round, calls, i) ==> i in p.finished
    else PoolEnabled(w, round, calls, p, steps[0])
         && PoolComplete(w, round, calls, PoolStepped(w, round, calls, p, steps[0]), steps[1..])
  }

  function Invocations(round: nat, calls: seq<nat>): (r: seq<Invocation>)
    ensures |r| == |calls|
  {
    seq(|calls|, i requires 0 <= i < |calls| => Invocation(round, calls[i]))
  }

  // ---- One tool call

  /** How call `i` is resolved: the events between its start and its end, the text it yields, whether
      it is executed now, and the error that ends the run when the tool is unknown. */
  datatype Resolution = Resolution(events: seq<Event>, text: string, ran: bool, fatal: Option<string>)

  function Ticks(tc: ToolCall, ticks: seq<nat>): (r: seq<Event>)
    ensures |r| == |ticks|
  {
    seq(|ticks|, i requires 0 <= i < |ticks| => CallProgress(tc, ticks[i]))
  }

  function Executed(cfg: Config, w: World, round: nat, calls: seq<ToolCall>, i: nat): Resolution
    requires i < |calls|
  {
    var run := w.tool(round, i);
    Resolution(Ticks(Masked(cfg, calls[i]), run.ticks), ResultText(run.outcome), true,
               if run.outcome.Err? && run.outcome.notFound then Some(run.outcome.error) else None)
  }

  function Resolved(cfg: Config, w: World, round: nat, calls: seq<ToolCall>, ro: map<string, Outcome>,
                    i: nat): Resolution
    requires i < |calls|
  {
    var tc := calls[i];
    if tc.name == "spawn_agent" && w.subagents then
      match w.spawn(round, i)
      case NoSession => Executed(cfg, w, round, calls, i)
      case Session(sub, outcome) =>
        var text := ResultText(outcome);
        Resolution([SubStarted(sub, tc.id),
                    if outcome.Err? then SubFailed(sub, cfg.redact(outcome.error), tc.id)
                    else SubCompleted(sub, Truncate(cfg.redact(text), 500), tc.id)], text, true, None)
    else if tc.id in ro then Resolution([], ResultText(ro[tc.id]), false, None)
    else Executed(cfg, w, round, calls, i)
  }

  datatype Served = Served(st: State, fatal: Option<string>)

  function ServedCall(cfg: Config, w: World, round: nat, calls: seq<ToolCall>, ro: map<string, Outcome>, i: nat,
                      st: State): Served
    requires i < |calls|
  {
    var tc, r := calls[i], Resolved(cfg, w, round, calls, ro, i);
    var started := st.(events := st.events + [CallStart(Masked(cfg, tc))] + r.events,
                      ran := st.ran + if r.ran then [Invocation(round, i)] else []);
    if r.fatal.Some? then Served(started, r.fatal)
    else
      var text := Capped(cfg, r.text);
      var masked := cfg.redact(text);
      Served(started.(events := started.events
                      + [CallEnd(Masked(cfg, tc)), CallResult(tc.id, tc.name, Truncate(masked, 2000))],
                     messages := started.messages + [ChatMessage("tool", text, "", [], tc.id)],
                     rows := started.rows + [Row("tool", masked, None, Blank, Some(tc.id))]),
             None)
  }

  /** The serial phase from call `i` on. */
  function ServedFrom(cfg: Config, w: World, round: nat, calls: seq<ToolCall>, ro: map<string, Outcome>, i: nat,
                      st: State): Served
    requires i <= |calls|
    decreases |calls| - i
  {
    if i == |calls| then Served(st, None)
    else
      var s := ServedCall(cfg, w, round, calls, ro, i, st);
      if s.fatal.Some? then s else ServedFrom(cfg, w, round, calls, ro, i + 1, s.st)
  }

  // ---- One round and the whole loop

  function TextRow(t: Turn, calls: CallColumn): Row {
    Row("agent", t.text, if t.reasoning != "" then Some(t.reasoning) else None, calls, None)
  }

  /** The logs when the serial phase starts. */
  function Recorded(cfg: Config, round: nat, t: Turn, p: Pool, st: State): State {
    st.(messages := st.messages + [ChatMessage("assistant", t.text, t.reasoning, t.calls, "")],
        rows := st.rows + [TextRow(t, Encoded(MaskedAll(cfg, t.calls)))],
        ran := st.ran + Invocations(round, p.begun))
  }

  /** Records the block of calls, runs the parallel phase, then the serial one. */
  function RoundServed(cfg: Config, w: World, round: nat, t: Turn, st: State): Served {
    var p := PoolRun(w, round, t.calls, EMPTY_POOL, w.schedule(round));
    ServedFrom(cfg, w, round, t.calls, p.results, 0, Recorded(cfg, round, t, p, st))
  }

  datatype Ended = Ended(st: State, exit: Exit)

  /** The loop from `round` on; `turns` counts the LLM turns taken so far. */
  function Rounds(cfg: Config, w: World, round: nat, turns: nat, st: State): Ended
    decreases MaxRounds(cfg) + 1 - round
  {
    if round > MaxRounds(cfg) then Ended(st, RoundLimit(MaxRounds(cfg)))
    else if turns + 1 > MaxTurns(cfg) then Ended(st, TurnLimit(MaxTurns(cfg)))
    else
      var asked := st.(requests := st.requests + [st.messages]);
      match w.llm(round)
      case Refused(m) => Ended(asked, LlmRefused(m))
      case Stream(items) =>
        var t := Consumed(NO_TURN, items);
        var heard := asked.(events := asked.events + t.events);
        if t.error.Some? then Ended(heard, StreamBroke(t.error.value))
        else if t.calls == [] then Ended(heard.(rows := heard.rows + [TextRow(t, Blank)]), Finished(t.text))
        else if round == MaxRounds(cfg) then Ended(heard, RoundLimit(MaxRounds(cfg)))
        else
          var s := RoundServed(cfg, w, round, t, heard);
          if s.fatal.Some? then Ended(s.st, ToolNotFound(s.fatal.value))
          else Rounds(cfg, w, round + 1, turns + 1, s.st)
  }

  /** `HandleRequest` once it streams: history from the stored rows, the user message, status events. */
  function Handled(cfg: Config, w: World, stored: Option<seq<Row>>, userText: string, st: State): Ended {
    var history := (match stored case Some(rows) => History(rows) case None => [])
                   + [ChatMessage("user", userText, "", [], "")];
    var r := Rounds(cfg, w, 0, 0, st.(messages := history, events := st.events + [Working]));
    Ended(r.st.(events := r.st.events + [if r.exit.Finished? then Completed(r.exit.text)
                                         else Failed(ExitError(r.exit))]), r.exit)
  }

  // ---- The loop as the program runs it

  class Session {
    const cfg: Config
    const w: World
    var messages: seq<ChatMessage>
    var rows: seq<Row>
    var events: seq<Event>
    var requests: seq<seq<ChatMessage>>
    var ran: seq<Invocation>

    function Log(): State
      reads this
    {
      State(messages, rows, events, requests, ran)
    }

    constructor (cfg: Config, w: World, rows: seq<Row>)
      ensures this.cfg == cfg && this.w == w && Log() == State([], rows, [], [], [])
    {
      this.cfg, this.w, this.rows := cfg, w, rows;
      messages, events, requests, ran := [], [], [], [];
    }

    /** Reads one stream, forwarding deltas as they come. */
    method ReadTurn(items: seq<StreamItem>) returns (t: Turn)
      modifies this`events
      ensures t == Consumed(NO_TURN, items)
      ensures events == old(events) + t.events
    {
      t := NO_TURN;
      var i := 0;
      while i < |items| && t.error.None?
        invariant 0 <= i <= |items|
        invariant Consumed(t, items[i..]) == Consumed(NO_TURN, items)
        invariant events == old(events) + t.events
      {
        var item := items[i];
        assert items[i..][0] == item && items[i..][1..] == items[i + 1..];
        t := Absorbed(t, item);
        match item {
          case Text(s) => events := events + [TextDelta(s)];
          case Reasoning(s) => events := events + [ThinkingDelta(s)];
          case _ =>
        }
        i := i + 1;
      }
    }

    /** Runs the goroutines in the order the schedule gives. */
    method RunPool(round: nat, calls: seq<ToolCall>) returns (ro: map<string, Outcome>)
      modifies this`ran
      ensures var p := PoolRun(w, round, calls, EMPTY_POOL, w.schedule(round));
              ro == p.results && ran == old(ran) + Invocations(round, p.begun)
    {
      var steps := w.schedule(round);
      var p := EMPTY_POOL;
      for i := 0 to |steps|
        invariant PoolRun(w, round, calls, p, steps[i..]) == PoolRun(w, round, calls, EMPTY_POOL, steps)
        invariant ran == old(ran) + Invocations(round, p.begun)
      {
        assert steps[i..][0] == steps[i] && steps[i..][1..] == steps[i + 1..];
        p := PoolStepped(w, round, calls, p, steps[i]);
        if steps[i].Begin? {
          ran := ran + [Invocation(round, steps[i].call)];
        }
      }
      ro := p.results;
    }

    /** Executes a tool here and now, reporting progress while it runs. */
    method Execute(round: nat, calls: seq<ToolCall>, i: nat) returns (text: string, fatal: Option<string>)
      requires i < |calls|
      modifies this`events, this`ran
      ensures var r := Executed(cfg, w, round, calls, i);
              text == r.text && fatal == r.fatal && events == old(events) + r.events
      ensures ran == old(ran) + [Invocation(round, i)]
    {
      ghost var r := Executed(cfg, w, round, calls, i);
      var run := w.tool(round, i);
      ran := ran + [Invocation(round, i)];
      var masked := Masked(cfg, calls[i]);
      for k := 0 to |run.ticks|
        invariant ran == old(ran) + [Invocation(round, i)]
        invariant events == old(events) + Ticks(masked, run.ticks)[..k]
      {
        events := events + [CallProgress(masked, run.ticks[k])];
      }
      assert r.events == Ticks(masked, run.ticks) == Ticks(masked, run.ticks)[..|run.ticks|];
      text := ResultText(run.outcome);
      fatal := None;
      if run.outcome.Err? && run.outcome.notFound {
        fatal := Some(run.outcome.error);
      }
    }

    /** Finds the result of one call: a subagent, a result of the parallel phase, or an execution. */
    method Resolve(round: nat, calls: seq<ToolCall>, ro: map<string, Outcome>, i: nat)
      returns (text: string, fatal: Option<string>)
      requires i < |calls|
      modifies this`events, this`ran
      ensures var r := Resolved(cfg, w, round, calls, ro, i);
              text == r.text && fatal == r.fatal && events == old(events) + r.events
              && ran == old(ran) + if r.ran then [Invocation(round, i)] else []
    {
      var tc := calls[i];
      fatal := None;
      if tc.name == "spawn_agent" && w.subagents {
        match w.spawn(round, i) {
          case NoSession =>
            text, fatal := Execute(round, calls, i);
          case Session(sub, outcome) =>
            events := events + [SubStarted(sub, tc.id)];
            ran := ran + [Invocation(round, i)];
            text := ResultText(outcome);
            if outcome.Err? {
              events := events + [SubFailed(sub, cfg.redact(outcome.error), tc.id)];
            } else {
              events := events + [SubCompleted(sub, Truncate(cfg.redact(text), 500), tc.id)];
            }
        }
      } else if tc.id in ro {
        text := ResultText(ro[tc.id]);
      } else {
        text, fatal := Execute(round, calls, i);
      }
    }

    method ServeCall(round: nat, calls: seq<ToolCall>, ro: map<string, Outcome>, i: nat) returns (fatal: Option<string>)
      requires i < |calls|
      modifies this
      ensures Served(Log(), fatal) == ServedCall(cfg, w, round, calls, ro, i, old(Log()))
    {
      var tc := calls[i];
      var masked := Masked(cfg, tc);
      events := events + [CallStart(masked)];
      var result;
      result, fatal := Resolve(round, calls, ro, i);
      if fatal.Some? {
        return;
      }
      var text := Capped(cfg, result);
      var redacted := cfg.redact(text);
      events := events + [CallEnd(masked), CallResult(tc.id, tc.name, Truncate(redacted, 2000))];
      messages := messages + [ChatMessage("tool", text, "", [], tc.id)];
      rows := rows + [Row("tool", redacted, None, Blank, Some(tc.id))];
    }

    method ServeCalls(round: nat, calls: seq<ToolCall>, ro: map<string, Outcome>) returns (fatal: Option<string>)
      modifies this
      ensures Served(Log(), fatal) == ServedFrom(cfg, w, round, calls, ro, 0, old(Log()))
    {
      fatal := None;
      for i := 0 to |calls|
        invariant fatal.None?
        invariant ServedFrom(cfg, w, round, calls, ro, i, Log()) == ServedFrom(cfg, w, round, calls, ro, 0, old(Log()))
      {
        fatal := ServeCall(round, calls, ro, i);
        if fatal.Some? {
          return;
        }
      }
    }

    method RunLoop() returns (exit: Exit)
      modifies this
      ensures Ended(Log(), exit) == Rounds(cfg, w, 0, 0, old(Log()))
    {
      var maxRounds, maxTurns := MaxRounds(cfg), MaxTurns(cfg);
      var turns: nat := 0;
      var round: nat := 0;
      while round <= maxRounds
        invariant Rounds(cfg, w, round, turns, Log()) == Rounds(cfg, w, 0, 0, old(Log()))
        decreases maxRounds + 1 - round
      {
        if turns + 1 > maxTurns {
          return TurnLimit(maxTurns);
        }
        requests := requests + [messages];
        var reply := w.llm(round);
        if reply.Refused? {
          return LlmRefused(reply.error);
        }
        var t := ReadTurn(reply.items);
        if t.error.Some? {
          return StreamBroke(t.error.value);
        }
        if |t.calls| == 0 {
          rows := rows + [TextRow(t, Blank)];
          return Finished(t.text);
        }
        if round == maxRounds {
          return RoundLimit(maxRounds);
        }
        messages := messages + [ChatMessage("assistant", t.text, t.reasoning, t.calls, "")];
        rows := rows + [TextRow(t, Encoded(MaskedAll(cfg, t.calls)))];
        var ro := RunPool(round, t.calls);
        var fatal := ServeCalls(round, t.calls, ro);
        if fatal.Some? {
          return ToolNotFound(fatal.value);
        }
        round, turns := round + 1, turns + 1;
      }
      exit := RoundLimit(maxRounds);
    }

    /** The streaming part of `HandleRequest`. */
    method HandleRequest(stored: Option<seq<Row>>, userText: string) returns (exit: Exit)
      modifies this
      ensures Ended(Log(), exit) == Handled(cfg, w, stored, userText, old(Log()))
    {
      messages := [];
      if stored.Some? {
        messages := BuildChatHistory(stored.value);
      }
      messages := messages + [ChatMessage("user", userText, "", [], "")];
      events := events + [Working];
      exit := RunLoop();
      if exit.Finished? {
        events := events + [Completed(exit.text)];
      } else {
        events := events + [Failed(ExitError(exit))];
      }
    }
  }
}
