/** What a round of tool calls says: the answer of every call in memory, in the database and on the wire,
    spelled out from the outcomes of the calls. */
module LoopAnswers {
  import opened GoStrings
  import opened Json
  import opened Transcript
  import opened ToolLoop
  import opened LoopParallel
  import opened Reassembly

  // ---- The answer of one call

  /** The call is handed to a session of a subagent. */
  predicate Delegated(w: World, round: nat, tc: ToolCall, i: nat) {
    tc.name == "spawn_agent" && w.subagents && w.spawn(round, i).Session?
  }

  /** How the call itself ends. */
  function OwnOutcome(w: World, round: nat, tc: ToolCall, i: nat): Outcome {
    if Delegated(w, round, tc, i) then w.spawn(round, i).outcome else w.tool(round, i).outcome
  }

  function OutcomeText(o: Outcome): string {
    match o case Ok(text) => text case Err(error, _) => "Error: " + error
  }

  /** The run stops at this call. */
  predicate Unknown(w: World, round: nat, calls: seq<ToolCall>, i: nat)
    requires i < |calls|
  {
    var o := OwnOutcome(w, round, calls[i], i);
    !Delegated(w, round, calls[i], i) && !InPool(w, round, calls, i) && o.Err? && o.notFound
  }

  /** A text of at most `max` bytes is kept; of a longer one the first `max` bytes and a note. */
  function Shortened(text: string, max: nat): string {
    if |text| <= max then text
    else text[..max] + ("\n... (truncated, " + Decimal(|text| - max) + " chars omitted)")
  }

  function Dotted(text: string, max: nat): string {
    if |text| <= max then text else text[..max] + "..."
  }

  function AnswerText(cfg: Config, w: World, round: nat, tc: ToolCall, i: nat): string {
    Shortened(OutcomeText(OwnOutcome(w, round, tc, i)),
              if cfg.maxToolResultSize == 0 then 10000 else cfg.maxToolResultSize)
  }

  /** The tool message and the row of call `i`. */
  function AnswerMessage(cfg: Config, w: World, round: nat, tc: ToolCall, i: nat): ChatMessage {
    ChatMessage("tool", AnswerText(cfg, w, round, tc, i), "", [], tc.id)
  }

  function AnswerRow(cfg: Config, w: World, round: nat, tc: ToolCall, i: nat): Row {
    Row("tool", cfg.redact(AnswerText(cfg, w, round, tc, i)), None, Blank, Some(tc.id))
  }

  /** What the client sees of a call: its arguments and its result only redacted. */
  function Shown(cfg: Config, tc: ToolCall): ToolCall {
    ToolCall(tc.id, tc.name, cfg.redact(tc.arguments))
  }

  function Progress(cfg: Config, w: World, round: nat, tc: ToolCall, i: nat): seq<Event> {
    var ticks := w.tool(round, i).ticks;
    seq(|ticks|, k requires 0 <= k < |ticks| => CallProgress(Shown(cfg, tc), ticks[k]))
  }

  /** The events between start and end: those of the subagent, the ticks of an execution, or nothing for a
      call that was run ahead. */
  function Between(cfg: Config, w: World, round: nat, calls: seq<ToolCall>, i: nat): seq<Event>
    requires i < |calls|
  {
    var tc := calls[i];
    if Delegated(w, round, tc, i) then
      var s := w.spawn(round, i);
      [SubStarted(s.id, tc.id),
       match s.outcome
       case Ok(text) => SubCompleted(s.id, Dotted(cfg.redact(text), 500), tc.id)
       case Err(error, _) => SubFailed(s.id, cfg.redact(error), tc.id)]
    else if InPool(w, round, calls, i) then []
    else Progress(cfg, w, round, tc, i)
  }

  function AnswerEvents(cfg: Config, w: World, round: nat, calls: seq<ToolCall>, i: nat): seq<Event>
    requires i < |calls|
  {
    var tc := calls[i];
    [CallStart(Shown(cfg, tc))] + Between(cfg, w, round, calls, i)
    + [CallEnd(Shown(cfg, tc)),
       CallResult(tc.id, tc.name, Dotted(cfg.redact(AnswerText(cfg, w, round, tc, i)), 2000))]
  }

  // ---- The answers of a round

  function Messages(cfg: Config, w: World, round: nat, calls: seq<ToolCall>, n: nat): (r: seq<ChatMessage>)
    requires n <= |calls|
    ensures |r| == n
  {
    seq(n, i requires 0 <= i < n => AnswerMessage(cfg, w, round, calls[i], i))
  }

  function AnswerRows(cfg: Config, w: World, round: nat, calls: seq<ToolCall>, n: nat): (r: seq<Row>)
    requires n <= |calls|
    ensures |r| == n
  {
    seq(n, i requires 0 <= i < n => AnswerRow(cfg, w, round, calls[i], i))
  }

  function Events(cfg: Config, w: World, round: nat, calls: seq<ToolCall>, n: nat): seq<Event>
    requires n <= |calls|
  {
    if n == 0 then [] else Events(cfg, w, round, calls, n - 1) + AnswerEvents(cfg, w, round, calls, n - 1)
  }

  /** The first unknown tool, if there is one. */
  predicate StopsAt(w: World, round: nat, calls: seq<ToolCall>, n: nat) {
    && n <= |calls|
    && (forall i :: 0 <= i < n ==> !Unknown(w, round, calls, i))
    && (n < |calls| ==> Unknown(w, round, calls, n))
  }

  /** State `b` comes from `a` by the answers of the first `n` calls. */
  ghost predicate AnsweredBy(cfg: Config, w: World, round: nat, calls: seq<ToolCall>, n: nat, a: State, b: State) {
    && n <= |calls|
    && b.messages == a.messages + Messages(cfg, w, round, calls, n)
    && b.rows == a.rows + AnswerRows(cfg, w, round, calls, n)
    && b.events == a.events + Events(cfg, w, round, calls, n)
  }

  lemma OwnResolution(cfg: Config, w: World, round: nat, calls: seq<ToolCall>, i: nat)
    requires i < |calls| && Complete(w, round, calls) && NoClash(w, round, calls)
    ensures var r := Resolved(cfg, w, round, calls, RoundPool(w, round, calls).results, i);
            && r.events == Between(cfg, w, round, calls, i)
            && r.text == OutcomeText(OwnOutcome(w, round, calls[i], i))
            && r.fatal == if Unknown(w, round, calls, i) then Some(OwnOutcome(w, round, calls[i], i).error) else None
  {
    RoundPoolFacts(w, round, calls);
    var p := RoundPool(w, round, calls);
    assert Masked(cfg, calls[i]) == Shown(cfg, calls[i]);
    assert Ticks(Masked(cfg, calls[i]), w.tool(round, i).ticks) == Progress(cfg, w, round, calls[i], i);
    if Consults(w, calls, i) && calls[i].id in p.results {
      var k :| k in p.finished && k < |calls| && calls[k].id == calls[i].id
               && p.results[calls[i].id] == w.tool(round, k).outcome;
      assert k == i;
    }
  }

  lemma OneAnswer(cfg: Config, w: World, round: nat, calls: seq<ToolCall>, i: nat, st: State)
    requires i < |calls| && Complete(w, round, calls) && NoClash(w, round, calls)
    ensures var s := ServedCall(cfg, w, round, calls, RoundPool(w, round, calls).results, i, st);
            if Unknown(w, round, calls, i) then
              && s.fatal == Some(OwnOutcome(w, round, calls[i], i).error)
              && s.st.messages == st.messages && s.st.rows == st.rows
              && s.st.events == st.events + [CallStart(Shown(cfg, calls[i]))] + Between(cfg, w, round, calls, i)
            else
              && s.fatal == None
              && s.st.messages == st.messages + [AnswerMessage(cfg, w, round, calls[i], i)]
              && s.st.rows == st.rows + [AnswerRow(cfg, w, round, calls[i], i)]
              && s.st.events == st.events + AnswerEvents(cfg, w, round, calls, i)
  {
    OwnResolution(cfg, w, round, calls, i);
  }

  lemma OneMore(cfg: Config, w: World, round: nat, calls: seq<ToolCall>, i: nat)
    requires i < |calls|
    ensures Messages(cfg, w, round, calls, i + 1) ==
            Messages(cfg, w, round, calls, i) + [AnswerMessage(cfg, w, round, calls[i], i)]
    ensures AnswerRows(cfg, w, round, calls, i + 1) ==
            AnswerRows(cfg, w, round, calls, i) + [AnswerRow(cfg, w, round, calls[i], i)]
  {
  }

  lemma AnsweredNext(cfg: Config, w: World, round: nat, calls: seq<ToolCall>, i: nat, a: State, b: State, c: State)
    requires i < |calls| && AnsweredBy(cfg, w, round, calls, i, a, b)
    requires c.messages == b.messages + [AnswerMessage(cfg, w, round, calls[i], i)]
    requires c.rows == b.rows + [AnswerRow(cfg, w, round, calls[i], i)]
    requires c.events == b.events + AnswerEvents(cfg, w, round, calls, i)
    ensures AnsweredBy(cfg, w, round, calls, i + 1, a, c)
  {
    OneMore(cfg, w, round, calls, i);
    Assoc(a.messages, Messages(cfg, w, round, calls, i), [AnswerMessage(cfg, w, round, calls[i], i)]);
    Assoc(a.rows, AnswerRows(cfg, w, round, calls, i), [AnswerRow(cfg, w, round, calls[i], i)]);
    Assoc(a.events, Events(cfg, w, round, calls, i), AnswerEvents(cfg, w, round, calls, i));
  }

  /** How the serial phase ends when it stops at call `n`. */
  ghost predicate EndsAt(cfg: Config, w: World, round: nat, calls: seq<ToolCall>, n: nat, a: State, s: Served) {
    && StopsAt(w, round, calls, n)
    && s.st.messages == a.messages + Messages(cfg, w, round, calls, n)
    && s.st.rows == a.rows + AnswerRows(cfg, w, round, calls, n)
    && (n == |calls| ==> s.fatal == None && s.st.events == a.events + Events(cfg, w, round, calls, n))
    && (n < |calls| ==>
          && s.fatal == Some(OwnOutcome(w, round, calls[n], n).error)
          && s.st.events == a.events + Events(cfg, w, round, calls, n)
                            + [CallStart(Shown(cfg, calls[n]))] + Between(cfg, w, round, calls, n))
  }

  lemma {:induction false} ServedFromSays(cfg: Config, w: World, round: nat, calls: seq<ToolCall>, i: nat, a: State,
                                          b: State)
    returns (n: nat)
    requires i <= |calls| && Complete(w, round, calls) && NoClash(w, round, calls)
    requires AnsweredBy(cfg, w, round, calls, i, a, b)
    requires forall k :: 0 <= k < i ==> !Unknown(w, round, calls, k)
    ensures EndsAt(cfg, w, round, calls, n, a,
                   ServedFrom(cfg, w, round, calls, RoundPool(w, round, calls).results, i, b))
    decreases |calls| - i
  {
    if i == |calls| {
      n := i;
    } else {
      OneAnswer(cfg, w, round, calls, i, b);
      var c := ServedCall(cfg, w, round, calls, RoundPool(w, round, calls).results, i, b);
      if c.fatal.Some? {
        n := i;
      } else {
        AnsweredNext(cfg, w, round, calls, i, a, b, c.st);
        n := ServedFromSays(cfg, w, round, calls, i + 1, a, c.st);
      }
    }
  }

  /** The row of the block: the texts as they are, the arguments redacted. */
  function BlockRow(cfg: Config, t: Turn): Row {
    Row("agent", t.text, if t.reasoning == "" then None else Some(t.reasoning),
        Encoded(seq(|t.calls|, i requires 0 <= i < |t.calls| => Shown(cfg, t.calls[i]))), None)
  }

  lemma BlockRowIs(cfg: Config, t: Turn)
    ensures TextRow(t, Encoded(MaskedAll(cfg, t.calls))) == BlockRow(cfg, t)
  {
    assert MaskedAll(cfg, t.calls) == seq(|t.calls|, i requires 0 <= i < |t.calls| => Shown(cfg, t.calls[i]));
  }

  /** A round without a clash, whatever the schedule: behind the block of calls stands, call by call up to
      the first unknown tool, the call's own result, cut at the limit; its row and its result event carry
      the redaction of that text, and its events stand together. */
  lemma RoundSays(cfg: Config, w: World, round: nat, t: Turn, st: State) returns (n: nat)
    requires Complete(w, round, t.calls) && NoClash(w, round, t.calls)
    ensures StopsAt(w, round, t.calls, n)
    ensures var s := RoundServed(cfg, w, round, t, st);
            && s.st.messages == st.messages + [ChatMessage("assistant", t.text, t.reasoning, t.calls, "")]
                                + Messages(cfg, w, round, t.calls, n)
            && s.st.rows == st.rows + [BlockRow(cfg, t)] + AnswerRows(cfg, w, round, t.calls, n)
            && (n == |t.calls| ==> s.fatal == None && s.st.events == st.events + Events(cfg, w, round, t.calls, n))
            && (n < |t.calls| ==>
                  && s.fatal == Some(OwnOutcome(w, round, t.calls[n], n).error)
                  && s.st.events == st.events + Events(cfg, w, round, t.calls, n)
                                    + [CallStart(Shown(cfg, t.calls[n]))] + Between(cfg, w, round, t.calls, n))
  {
    var p := RoundPool(w, round, t.calls);
    var a := Recorded(cfg, round, t, p, st);
    assert AnsweredBy(cfg, w, round, t.calls, 0, a, a) by {
      assert a.messages + [] == a.messages && a.rows + [] == a.rows && a.events + [] == a.events;
    }
    n := ServedFromSays(cfg, w, round, t.calls, 0, a, a);
    BlockRowIs(cfg, t);
  }

  // ---- Every call gets its own answer

  ghost predicate TextsFrom(cfg: Config, w: World, round: nat, calls: seq<ToolCall>, ro: map<string, Outcome>, i: nat,
                            added: seq<ChatMessage>)
  {
    && i + |added| == |calls|
    && forall k :: 0 <= k < |added| ==> added[k].content == Capped(cfg, Resolved(cfg, w, round, calls, ro, i + k).text)
  }

  lemma TextsCons(cfg: Config, w: World, round: nat, calls: seq<ToolCall>, ro: map<string, Outcome>, i: nat,
                  m: ChatMessage, rest: seq<ChatMessage>)
    requires i < |calls| && m.content == Capped(cfg, Resolved(cfg, w, round, calls, ro, i).text)
    requires TextsFrom(cfg, w, round, calls, ro, i + 1, rest)
    ensures TextsFrom(cfg, w, round, calls, ro, i, [m] + rest)
  {
    var added := [m] + rest;
    forall k | 0 <= k < |added|
      ensures added[k].content == Capped(cfg, Resolved(cfg, w, round, calls, ro, i + k).text)
    {
      if k > 0 {
        assert added[k] == rest[k - 1];
        assert rest[k - 1].content == Capped(cfg, Resolved(cfg, w, round, calls, ro, i + 1 + (k - 1)).text);
      }
    }
  }

  /** In every round, clash or not, the message of call `i` carries the text that its resolution yields. */
  lemma {:induction false} ServedFromTexts(cfg: Config, w: World, round: nat, calls: seq<ToolCall>,
                                           ro: map<string, Outcome>, i: nat, st: State)
    returns (added: seq<ChatMessage>)
    requires i <= |calls| && ServedFrom(cfg, w, round, calls, ro, i, st).fatal.None?
    ensures ServedFrom(cfg, w, round, calls, ro, i, st).st.messages == st.messages + added
    ensures TextsFrom(cfg, w, round, calls, ro, i, added)
    decreases |calls| - i
  {
    added := [];
    if i < |calls| {
      var c := ServedCall(cfg, w, round, calls, ro, i, st);
      var m := c.st.messages[|st.messages|];
      var rest := ServedFromTexts(cfg, w, round, calls, ro, i + 1, c.st);
      TextsCons(cfg, w, round, calls, ro, i, m, rest);
      Assoc(st.messages, [m], rest);
      added := [m] + rest;
    }
  }

  lemma RoundTexts(cfg: Config, w: World, round: nat, t: Turn, st: State)
    requires RoundServed(cfg, w, round, t, st).fatal.None?
    ensures var ms := RoundServed(cfg, w, round, t, st).st.messages;
            var ro := PoolRun(w, round, t.calls, EMPTY_POOL, w.schedule(round)).results;
            && |ms| == |st.messages| + 1 + |t.calls|
            && TextsFrom(cfg, w, round, t.calls, ro, 0, ms[|st.messages| + 1..])
  {
    var p := PoolRun(w, round, t.calls, EMPTY_POOL, w.schedule(round));
    var a := Recorded(cfg, round, t, p, st);
    var added := ServedFromTexts(cfg, w, round, t.calls, p.results, 0, a);
    assert (a.messages + added)[|a.messages|..] == added;
  }

  /** The tool message of call `i` in a round that has answered all its calls. */
  function Reply(cfg: Config, w: World, round: nat, t: Turn, st: State, i: nat): string
    requires i < |t.calls| && RoundServed(cfg, w, round, t, st).fatal.None?
  {
    RoundTexts(cfg, w, round, t, st);
    RoundServed(cfg, w, round, t, st).st.messages[|st.messages| + 1 + i].content
  }

  lemma ReplyIs(cfg: Config, w: World, round: nat, t: Turn, st: State, i: nat)
    requires i < |t.calls| && RoundServed(cfg, w, round, t, st).fatal.None?
    ensures Reply(cfg, w, round, t, st, i) ==
            Capped(cfg, Resolved(cfg, w, round, t.calls, RoundPool(w, round, t.calls).results, i).text)
  {
    RoundTexts(cfg, w, round, t, st);
    var ms := RoundServed(cfg, w, round, t, st).st.messages;
    assert ms[|st.messages| + 1..][i] == ms[|st.messages| + 1 + i];
  }

  lemma ClashRepeats(cfg: Config, w: World, round: nat, t: Turn, st: State, i: nat, j: nat)
    requires Complete(w, round, t.calls) && RoundServed(cfg, w, round, t, st).fatal.None?
    requires i < |t.calls| && InPool(w, round, t.calls, j) && Consults(w, t.calls, i) && t.calls[i].id == t.calls[j].id
    ensures Reply(cfg, w, round, t, st, i) == Reply(cfg, w, round, t, st, j)
  {
    RoundPoolFacts(w, round, t.calls);
    ReplyIs(cfg, w, round, t, st, i);
    ReplyIs(cfg, w, round, t, st, j);
    assert j in RoundPool(w, round, t.calls).finished;
  }

  lemma NoClashReplies(cfg: Config, w: World, round: nat, t: Turn, st: State, i: nat)
    requires Complete(w, round, t.calls) && RoundServed(cfg, w, round, t, st).fatal.None?
    requires i < |t.calls| && NoClash(w, round, t.calls)
    ensures Reply(cfg, w, round, t, st, i) == AnswerText(cfg, w, round, t.calls[i], i)
  {
    ReplyIs(cfg, w, round, t, st, i);
    OwnResolution(cfg, w, round, t.calls, i);
  }

  ghost predicate OwnReplies(cfg: Config, w: World, round: nat, t: Turn, st: State)
    requires RoundServed(cfg, w, round, t, st).fatal.None?
  {
    forall i :: 0 <= i < |t.calls| ==> Reply(cfg, w, round, t, st, i) == AnswerText(cfg, w, round, t.calls[i], i)
  }

  ghost predicate AnswersDiffer(cfg: Config, w: World, round: nat, calls: seq<ToolCall>) {
    forall i, j :: 0 <= i < |calls| && 0 <= j < |calls| && i != j ==>
      AnswerText(cfg, w, round, calls[i], i) != AnswerText(cfg, w, round, calls[j], j)
  }

  /** The last result that is stored under an id stands. */
  lemma {:induction false} LastStored(w: World, round: nat, calls: seq<ToolCall>, p: Pool, steps: seq<PoolStep>, k: nat)
    requires k < |steps| && steps[k].Finish? && steps[k].call < |calls|
    requires forall j :: k < j < |steps| && steps[j].Finish? && steps[j].call < |calls| ==>
               calls[steps[j].call].id != calls[steps[k].call].id
    ensures var r := PoolRun(w, round, calls, p, steps).results;
            var i := steps[k].call;
            calls[i].id in r && r[calls[i].id] == w.tool(round, i).outcome
    decreases |steps|
  {
    var rest, next := steps[1..], PoolStepped(w, round, calls, p, steps[0]);
    assert forall j :: 0 <= j < |rest| ==> rest[j] == steps[j + 1];
    if k == 0 {
      StoredStays(w, round, calls, next, rest, calls[steps[0].call].id);
    } else {
      LastStored(w, round, calls, next, rest, k - 1);
    }
  }

  lemma {:induction false} StoredStays(w: World, round: nat, calls: seq<ToolCall>, p: Pool, steps: seq<PoolStep>,
                                       id: string)
    requires id in p.results
    requires forall j :: 0 <= j < |steps| && steps[j].Finish? && steps[j].call < |calls| ==>
               calls[steps[j].call].id != id
    ensures var r := PoolRun(w, round, calls, p, steps).results; id in r && r[id] == p.results[id]
    decreases |steps|
  {
    if steps != [] {
      assert forall j :: 0 <= j < |steps[1..]| ==> steps[1..][j] == steps[j + 1];
      StoredStays(w, round, calls, PoolStepped(w, round, calls, p, steps[0]), steps[1..], id);
    }
  }

  /** In every round that answers all its calls: each call that looks into the shared map under an id is
      answered with the result of the read-only call of that id whose goroutine has finished last. */
  lemma SharedAnswerSays(cfg: Config, w: World, round: nat, t: Turn, st: State, k: nat, c: nat)
    requires RoundServed(cfg, w, round, t, st).fatal.None?
    requires var steps := w.schedule(round);
             && k < |steps| && steps[k].Finish? && steps[k].call < |t.calls|
             && forall j :: k < j < |steps| && steps[j].Finish? && steps[j].call < |t.calls| ==>
                  t.calls[steps[j].call].id != t.calls[steps[k].call].id
    requires c < |t.calls| && Consults(w, t.calls, c) && t.calls[c].id == t.calls[w.schedule(round)[k].call].id
    ensures Reply(cfg, w, round, t, st, c) ==
            Shortened(OutcomeText(w.tool(round, w.schedule(round)[k].call).outcome),
                      if cfg.maxToolResultSize == 0 then 10000 else cfg.maxToolResultSize)
  {
    LastStored(w, round, t.calls, EMPTY_POOL, w.schedule(round), k);
    ReplyIs(cfg, w, round, t, st, c);
  }

  /** When the answers of the calls differ, under any complete schedule: every tool message of the round
      carries the answer of its own call if and only if no call that looks into the shared map has the id
      of a different read-only call. */
  lemma OwnAnswerIffNoClash(cfg: Config, w: World, round: nat, t: Turn, st: State)
    requires Complete(w, round, t.calls) && RoundServed(cfg, w, round, t, st).fatal.None?
    requires AnswersDiffer(cfg, w, round, t.calls)
    ensures OwnReplies(cfg, w, round, t, st) <==> NoClash(w, round, t.calls)
  {
    if NoClash(w, round, t.calls) {
      forall i | 0 <= i < |t.calls|
        ensures Reply(cfg, w, round, t, st, i) == AnswerText(cfg, w, round, t.calls[i], i)
      {
        NoClashReplies(cfg, w, round, t, st, i);
      }
    } else {
      var i, j :| 0 <= i < |t.calls| && 0 <= j < |t.calls| && i != j && InPool(w, round, t.calls, j)
                  && Consults(w, t.calls, i) && t.calls[i].id == t.calls[j].id;
      ClashRepeats(cfg, w, round, t, st, i, j);
    }
  }

  lemma TwinsAreResolved(cfg: Config, round: nat, i: nat)
    requires i < 2
    ensures Resolved(cfg, TWIN_WORLD, round, TWINS, RoundPool(TWIN_WORLD, round, TWINS).results, i).fatal.None?
  {
    TwinScheduleIsComplete(round);
    RoundPoolFacts(TWIN_WORLD, round, TWINS);
    assert InPool(TWIN_WORLD, round, TWINS, i);
  }

  lemma TwinsAreServed(cfg: Config, round: nat, t: Turn, st: State)
    requires t.calls == TWINS
    ensures RoundServed(cfg, TWIN_WORLD, round, t, st).fatal.None?
  {
    var ro := RoundPool(TWIN_WORLD, round, TWINS).results;
    var a := Recorded(cfg, round, t, RoundPool(TWIN_WORLD, round, TWINS), st);
    TwinsAreResolved(cfg, round, 0);
    TwinsAreResolved(cfg, round, 1);
    var b := ServedCall(cfg, TWIN_WORLD, round, TWINS, ro, 0, a).st;
    var c := ServedCall(cfg, TWIN_WORLD, round, TWINS, ro, 1, b).st;
    assert ServedFrom(cfg, TWIN_WORLD, round, TWINS, ro, 2, c).fatal.None?;
    assert ServedFrom(cfg, TWIN_WORLD, round, TWINS, ro, 1, b).fatal.None?;
  }

  /** A clash happens: two calls with the results "A" and "B" under one id, both answered with the same. */
  lemma TwinsShareOneAnswer(cfg: Config, round: nat, t: Turn, st: State)
    requires t.calls == TWINS
    ensures OutcomeText(OwnOutcome(TWIN_WORLD, round, TWINS[0], 0)) == "A"
    ensures OutcomeText(OwnOutcome(TWIN_WORLD, round, TWINS[1], 1)) == "B"
    ensures RoundServed(cfg, TWIN_WORLD, round, t, st).fatal.None?
    ensures Reply(cfg, TWIN_WORLD, round, t, st, 0) == Reply(cfg, TWIN_WORLD, round, t, st, 1)
  {
    TwinsAreServed(cfg, round, t, st);
    TwinScheduleIsComplete(round);
    assert InPool(TWIN_WORLD, round, t.calls, 1) && Consults(TWIN_WORLD, t.calls, 0) && TWINS[0].id == TWINS[1].id;
    ClashRepeats(cfg, TWIN_WORLD, round, t, st, 0, 1);
  }

  // ---- One LLM turn

  /** The first error among the items of a stream, or its end. */
  predicate BreaksAt(items: seq<StreamItem>, k: nat) {
    && k <= |items|
    && (forall i :: 0 <= i < k ==> !items[i].Fail?)
    && (k < |items| ==> items[k].Fail?)
  }

  function Thoughts(items: seq<StreamItem>): string {
    if items == [] then "" else (if items[0].Reasoning? then items[0].thought else "") + Thoughts(items[1..])
  }

  function DeltaEvent(item: StreamItem): seq<Event> {
    match item
    case Text(s) => [TextDelta(s)]
    case Reasoning(s) => [ThinkingDelta(s)]
    case _ => []
  }

  function DeltaEvents(items: seq<StreamItem>): seq<Event> {
    if items == [] then [] else DeltaEvent(items[0]) + DeltaEvents(items[1..])
  }

  function Extended(t: Turn, items: seq<StreamItem>): Turn {
    Turn(t.text + TextsOf(items), t.reasoning + Thoughts(items), t.calls + Calls(items), t.events + DeltaEvents(items),
         t.error)
  }

  lemma ExtendedOne(t: Turn, item: StreamItem, rest: seq<StreamItem>)
    requires !item.Fail?
    ensures Extended(Absorbed(t, item), rest) == Extended(t, [item] + rest)
  {
    var items := [item] + rest;
    assert items[1..] == rest;
    assert t.text + "" == t.text && t.reasoning + "" == t.reasoning;
    assert t.calls + [] == t.calls && t.events + [] == t.events;
    Assoc(t.text, if item.Text? then item.text else "", TextsOf(rest));
    Assoc(t.reasoning, if item.Reasoning? then item.thought else "", Thoughts(rest));
    Assoc(t.calls, if item.Call? then [item.call] else [], Calls(rest));
    Assoc(t.events, DeltaEvent(item), DeltaEvents(rest));
  }

  lemma {:induction false} ConsumedSays(t: Turn, items: seq<StreamItem>, k: nat)
    requires t.error.None? && BreaksAt(items, k)
    ensures Consumed(t, items) ==
            Extended(t, items[..k]).(error := if k < |items| then Some(items[k].error) else None)
    decreases |items|
  {
    if k == 0 {
      assert items[..0] == [];
      assert t.text + "" == t.text && t.reasoning + "" == t.reasoning;
      assert t.calls + [] == t.calls && t.events + [] == t.events;
      if items != [] {
        assert Consumed(Absorbed(t, items[0]), items[1..]) == Absorbed(t, items[0]);
      }
    } else {
      var rest := items[1..];
      assert forall i :: 0 <= i < |rest| ==> rest[i] == items[i + 1];
      ConsumedSays(Absorbed(t, items[0]), rest, k - 1);
      assert items[..k] == [items[0]] + rest[..k - 1];
      ExtendedOne(t, items[0], rest[..k - 1]);
    }
  }

  /** What the loop hears of a stream, up to its end or its first error: the text, the reasoning and the
      calls in their order, each delta as an event of its own kind, and the error. */
  lemma TurnSays(items: seq<StreamItem>, k: nat)
    requires BreaksAt(items, k)
    ensures var t := Consumed(NO_TURN, items);
            && t.text == TextsOf(items[..k]) && t.reasoning == Thoughts(items[..k])
            && t.calls == Calls(items[..k]) && t.events == DeltaEvents(items[..k])
            && t.error == if k < |items| then Some(items[k].error) else None
  {
    ConsumedSays(NO_TURN, items, k);
    var s := items[..k];
    assert "" + TextsOf(s) == TextsOf(s) && "" + Thoughts(s) == Thoughts(s);
    assert [] + Calls(s) == Calls(s) && [] + DeltaEvents(s) == DeltaEvents(s);
  }

  // ---- How a run ends

  function RoundsAllowed(cfg: Config): int {
    if cfg.maxToolRounds == 0 then 10 else cfg.maxToolRounds
  }

  function TurnsAllowed(cfg: Config): int {
    if cfg.maxTurns == 0 then 20 else cfg.maxTurns
  }

  function Asking(a: State): State {
    a.(requests := a.requests + [a.messages])
  }

  /** Round `k` calls tools, all of them known, and leads from `a` to `b`. */
  ghost predicate Continues(cfg: Config, w: World, k: nat, a: State, b: State) {
    && k < RoundsAllowed(cfg) && k < TurnsAllowed(cfg) && w.llm(k).Stream?
    && var t := Consumed(NO_TURN, w.llm(k).items);
       && t.error.None? && t.calls != []
       && RoundServed(cfg, w, k, t, Asking(a).(events := a.events + t.events)) == Served(b, None)
  }

  /** The run ends in round `k`: at a limit, because the LLM refuses, because its stream breaks, with its
      answer, or at an unknown tool. */
  ghost predicate Ends(cfg: Config, w: World, k: nat, a: State, r: Ended) {
    if k > RoundsAllowed(cfg) then r == Ended(a, RoundLimit(RoundsAllowed(cfg)))
    else if k >= TurnsAllowed(cfg) then r == Ended(a, TurnLimit(TurnsAllowed(cfg)))
    else
      match w.llm(k)
      case Refused(error) => r == Ended(Asking(a), LlmRefused(error))
      case Stream(items) => EndsHearing(cfg, w, k, Asking(a), Consumed(NO_TURN, items), r)
  }

  ghost predicate EndsHearing(cfg: Config, w: World, k: nat, a: State, t: Turn, r: Ended) {
    var heard := a.(events := a.events + t.events);
    if t.error.Some? then r == Ended(heard, StreamBroke(t.error.value))
    else if t.calls == [] then
      r == Ended(heard.(rows := a.rows + [AnswerOfTurn(t)]), Finished(t.text))
    else if k == RoundsAllowed(cfg) then r == Ended(heard, RoundLimit(RoundsAllowed(cfg)))
    else
      var s := RoundServed(cfg, w, k, t, heard);
      s.fatal.Some? && r == Ended(s.st, ToolNotFound(s.fatal.value))
  }

  /** The row of an answer without calls. */
  function AnswerOfTurn(t: Turn): Row {
    Row("agent", t.text, if t.reasoning == "" then None else Some(t.reasoning), Blank, None)
  }

  ghost predicate Path(cfg: Config, w: World, k: nat, states: seq<State>) {
    states != [] && forall i :: 0 <= i < |states| - 1 ==> Continues(cfg, w, k + i, states[i], states[i + 1])
  }

  lemma PathCons(cfg: Config, w: World, k: nat, st: State, rest: seq<State>)
    requires Path(cfg, w, k + 1, rest) && Continues(cfg, w, k, st, rest[0])
    ensures Path(cfg, w, k, [st] + rest)
  {
    var states := [st] + rest;
    forall i | 0 <= i < |states| - 1 ensures Continues(cfg, w, k + i, states[i], states[i + 1]) {
      if i > 0 {
        assert states[i] == rest[i - 1] && states[i + 1] == rest[i];
        assert Continues(cfg, w, k + 1 + (i - 1), rest[i - 1], rest[i - 1 + 1]);
      }
    }
  }

  lemma OneRound(cfg: Config, w: World, k: nat, st: State) returns (next: Option<State>)
    ensures match next
            case None => Ends(cfg, w, k, st, Rounds(cfg, w, k, k, st))
            case Some(b) => Continues(cfg, w, k, st, b) && Rounds(cfg, w, k, k, st) == Rounds(cfg, w, k + 1, k + 1, b)
  {
    next := None;
    if k < RoundsAllowed(cfg) && k < TurnsAllowed(cfg) && w.llm(k).Stream? {
      var t := Consumed(NO_TURN, w.llm(k).items);
      if t.error.None? && t.calls != [] {
        var s := RoundServed(cfg, w, k, t, Asking(st).(events := st.events + t.events));
        if s.fatal.None? {
          next := Some(s.st);
        }
      }
    }
  }

  lemma {:induction false} RoundsUnroll(cfg: Config, w: World, k: nat, st: State) returns (states: seq<State>)
    ensures Path(cfg, w, k, states) && states[0] == st
    ensures Ends(cfg, w, k + |states| - 1, states[|states| - 1], Rounds(cfg, w, k, k, st))
    decreases RoundsAllowed(cfg) - k
  {
    var next := OneRound(cfg, w, k, st);
    if next.None? {
      states := [st];
    } else {
      var rest := RoundsUnroll(cfg, w, k + 1, next.value);
      PathCons(cfg, w, k, st, rest);
      states := [st] + rest;
    }
  }

  /** The error that a client is told. */
  function ErrorShown(e: Exit): string {
    match e
    case Finished(_) => ""
    case LlmRefused(error) => "LLM call failed: " + error
    case StreamBroke(error) => error
    case TurnLimit(max) => "max turns (" + Signed(max) + ") exceeded"
    case RoundLimit(max) => "max tool rounds (" + Signed(max) + ") exceeded"
    case ToolNotFound(error) => error
  }

  /** A whole request: history and user message, then rounds that each ask with what has been said so far
      and answer all their calls, then one round that ends the run, and the status that says so. */
  lemma RequestUnrolls(cfg: Config, w: World, rows: seq<Row>, userText: string) returns (states: seq<State>)
    ensures Path(cfg, w, 0, states)
    ensures states[0] == State(History(rows) + [ChatMessage("user", userText, "", [], "")], rows, [Working], [], [])
    ensures var r := Handled(cfg, w, Some(rows), userText, State([], rows, [], [], []));
            var last := if r.exit.Finished? then Completed(r.exit.text) else Failed(ErrorShown(r.exit));
            && r.st.events != [] && r.st.events[|r.st.events| - 1] == last
            && Ends(cfg, w, |states| - 1, states[|states| - 1],
                    Ended(r.st.(events := r.st.events[..|r.st.events| - 1]), r.exit))
  {
    var st := State(History(rows) + [ChatMessage("user", userText, "", [], "")], rows, [] + [Working], [], []);
    assert [] + [Working] == [Working];
    states := RoundsUnroll(cfg, w, 0, st);
    var r := Rounds(cfg, w, 0, 0, st);
    var h := Handled(cfg, w, Some(rows), userText, State([], rows, [], [], []));
    assert h.st.events[..|h.st.events| - 1] == r.st.events;
  }
}
