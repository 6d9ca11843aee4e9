/** The parallel phase of a round: results are kept in a map keyed by call id, so what each call gets
    depends on the ids being distinct, and on nothing else. */
module LoopParallel {
  import opened GoStrings
  import opened Transcript
  import opened ToolLoop

  /** The call looks its id up among the results of the parallel phase. */
  predicate Consults(w: World, calls: seq<ToolCall>, i: nat)
    requires i < |calls|
  {
    !(calls[i].name == "spawn_agent" && w.subagents)
  }

  /** No call shares its id with a different read-only call. */
  ghost predicate NoClash(w: World, round: nat, calls: seq<ToolCall>) {
    forall i, j ::
      0 <= i < |calls| && 0 <= j < |calls| && i != j && InPool(w, round, calls, j) && Consults(w, calls, i) ==>
      calls[i].id != calls[j].id
  }

  ghost predicate PoolInv(w: World, round: nat, calls: seq<ToolCall>, p: Pool) {
    && (forall a, b :: 0 <= a < b < |p.begun| ==> p.begun[a] != p.begun[b])
    && (forall i :: i in p.begun ==> InPool(w, round, calls, i))
    && (forall i :: i in p.finished ==> i in p.begun)
    && (forall i :: i in p.finished ==> i < |calls| && calls[i].id in p.results)
    && (forall id :: id in p.results ==>
          exists i :: i in p.finished && i < |calls| && calls[i].id == id && p.results[id] == w.tool(round, i).outcome)
  }

  lemma PoolStepKeepsInv(w: World, round: nat, calls: seq<ToolCall>, p: Pool, s: PoolStep)
    requires PoolInv(w, round, calls, p) && PoolEnabled(w, round, calls, p, s)
    ensures PoolInv(w, round, calls, PoolStepped(w, round, calls, p, s))
  {
  }

  /** Whatever the schedule, a completed parallel phase has begun every read-only call exactly once,
      and the entry under an id is the result of some read-only call with that id. */
  lemma {:induction false} PoolFinishes(w: World, round: nat, calls: seq<ToolCall>, p: Pool, steps: seq<PoolStep>)
    requires PoolInv(w, round, calls, p) && PoolComplete(w, round, calls, p, steps)
    ensures var q := PoolRun(w, round, calls, p, steps);
            && PoolInv(w, round, calls, q)
            && forall i :: 0 <= i < |calls| && InPool(w, round, calls, i) ==> i in q.finished
    decreases |steps|
  {
    if steps != [] {
      PoolStepKeepsInv(w, round, calls, p, steps[0]);
      PoolFinishes(w, round, calls, PoolStepped(w, round, calls, p, steps[0]), steps[1..]);
    }
  }

  ghost function RoundPool(w: World, round: nat, calls: seq<ToolCall>): Pool {
    PoolRun(w, round, calls, EMPTY_POOL, w.schedule(round))
  }

  ghost predicate Complete(w: World, round: nat, calls: seq<ToolCall>) {
    PoolComplete(w, round, calls, EMPTY_POOL, w.schedule(round))
  }

  lemma RoundPoolFacts(w: World, round: nat, calls: seq<ToolCall>)
    requires Complete(w, round, calls)
    ensures PoolInv(w, round, calls, RoundPool(w, round, calls))
    ensures forall i :: 0 <= i < |calls| && InPool(w, round, calls, i) ==> i in RoundPool(w, round, calls).finished
  {
    PoolFinishes(w, round, calls, EMPTY_POOL, w.schedule(round));
  }

  /** The text that executing call `i` itself yields. */
  function OwnText(w: World, round: nat, calls: seq<ToolCall>, i: nat): string
    requires i < |calls|
  {
    if !Consults(w, calls, i) && w.spawn(round, i).Session? then ResultText(w.spawn(round, i).outcome)
    else ResultText(w.tool(round, i).outcome)
  }

  /** Call `i` is executed exactly once, in one of the two phases, and resolved with its own result. */
  ghost predicate ServedCorrectly(cfg: Config, w: World, round: nat, calls: seq<ToolCall>, i: nat)
    requires i < |calls|
  {
    var p := RoundPool(w, round, calls);
    var r := Resolved(cfg, w, round, calls, p.results, i);
    (i in p.begun) != r.ran && r.text == OwnText(w, round, calls, i)
  }

  lemma NoClashServes(cfg: Config, w: World, round: nat, calls: seq<ToolCall>, i: nat)
    requires i < |calls| && Complete(w, round, calls) && NoClash(w, round, calls)
    ensures ServedCorrectly(cfg, w, round, calls, i)
    ensures Resolved(cfg, w, round, calls, RoundPool(w, round, calls).results, i).ran <==> !InPool(w, round, calls, i)
  {
    RoundPoolFacts(w, round, calls);
    var p := RoundPool(w, round, calls);
    var id := calls[i].id;
    if Consults(w, calls, i) && id in p.results {
      var k :| k in p.finished && k < |calls| && calls[k].id == id && p.results[id] == w.tool(round, k).outcome;
      assert InPool(w, round, calls, k);
      assert k == i;
    }
  }

  // ---- A clash

  /** Two read-only calls under one id, with different results. */
  const TWINS := [ToolCall("x", "read", "1"), ToolCall("x", "read", "2")]

  const TWIN_WORLD := World(round => Stream([Call(TWINS[0]), Call(TWINS[1]), Done]), (round, name) => true,
                            (round, i) => ToolRun([], Ok(if i == 0 then "A" else "B")), false, (round, i) => NoSession,
                            round => [Begin(0), Finish(0), Begin(1), Finish(1)])

  lemma TwinScheduleIsComplete(round: nat)
    ensures Complete(TWIN_WORLD, round, TWINS)
  {
    var w, steps := TWIN_WORLD, [Begin(0), Finish(0), Begin(1), Finish(1)];
    var p0 := EMPTY_POOL;
    var p1 := PoolStepped(w, round, TWINS, p0, steps[0]);
    var p2 := PoolStepped(w, round, TWINS, p1, steps[1]);
    var p3 := PoolStepped(w, round, TWINS, p2, steps[2]);
    var p4 := PoolStepped(w, round, TWINS, p3, steps[3]);
    assert PoolComplete(w, round, TWINS, p4, []);
    assert PoolComplete(w, round, TWINS, p3, steps[3..]);
    assert PoolComplete(w, round, TWINS, p2, steps[2..]);
    assert PoolComplete(w, round, TWINS, p1, steps[1..]);
  }

  // ---- Schedules do not show

  ghost predicate SameButSchedule(a: World, b: World) {
    && a.llm == b.llm && a.readOnly == b.readOnly && a.tool == b.tool
    && a.subagents == b.subagents && a.spawn == b.spawn
  }

  lemma ResultOf(w: World, round: nat, calls: seq<ToolCall>, i: nat)
    requires Complete(w, round, calls) && NoClash(w, round, calls) && InPool(w, round, calls, i)
    ensures var p := RoundPool(w, round, calls).results;
            calls[i].id in p && p[calls[i].id] == w.tool(round, i).outcome
  {
    RoundPoolFacts(w, round, calls);
    var p, id := RoundPool(w, round, calls), calls[i].id;
    assert i in p.finished;
    var k :| k in p.finished && k < |calls| && calls[k].id == id && p.results[id] == w.tool(round, k).outcome;
    assert InPool(w, round, calls, k) && Consults(w, calls, i);
  }

  lemma CallOf(w: World, round: nat, calls: seq<ToolCall>, id: string) returns (i: nat)
    requires Complete(w, round, calls) && id in RoundPool(w, round, calls).results
    ensures InPool(w, round, calls, i) && calls[i].id == id
  {
    RoundPoolFacts(w, round, calls);
    var p := RoundPool(w, round, calls);
    i :| i in p.finished && i < |calls| && calls[i].id == id && p.results[id] == w.tool(round, i).outcome;
  }

  lemma SubResults(a: World, b: World, round: nat, calls: seq<ToolCall>)
    requires SameButSchedule(a, b) && Complete(a, round, calls) && Complete(b, round, calls)
    requires NoClash(a, round, calls) && NoClash(b, round, calls)
    ensures var p, q := RoundPool(a, round, calls).results, RoundPool(b, round, calls).results;
            forall id :: id in p ==> id in q && q[id] == p[id]
  {
    var p, q := RoundPool(a, round, calls).results, RoundPool(b, round, calls).results;
    forall id | id in p
      ensures id in q && q[id] == p[id]
    {
      var i := CallOf(a, round, calls, id);
      ResultOf(a, round, calls, i);
      ResultOf(b, round, calls, i);
    }
  }

  lemma SameResults(a: World, b: World, round: nat, calls: seq<ToolCall>)
    requires SameButSchedule(a, b) && Complete(a, round, calls) && Complete(b, round, calls) && NoClash(a, round, calls)
    ensures RoundPool(a, round, calls).results == RoundPool(b, round, calls).results
  {
    assert forall i :: InPool(b, round, calls, i) <==> InPool(a, round, calls, i);
    assert NoClash(b, round, calls);
    SubResults(a, b, round, calls);
    SubResults(b, a, round, calls);
  }

  /** What a run shows, leaving out the order in which goroutines began. */
  function Visible(s: Served): Served { s.(st := s.st.(ran := [])) }

  lemma {:induction false} ServedFromSame(cfg: Config, a: World, b: World, round: nat, calls: seq<ToolCall>,
                                          ro: map<string, Outcome>, i: nat, x: State, y: State)
    requires i <= |calls| && SameButSchedule(a, b) && x.(ran := []) == y.(ran := [])
    ensures Visible(ServedFrom(cfg, a, round, calls, ro, i, x)) == Visible(ServedFrom(cfg, b, round, calls, ro, i, y))
    decreases |calls| - i
  {
    if i < |calls| {
      assert Resolved(cfg, a, round, calls, ro, i) == Resolved(cfg, b, round, calls, ro, i);
      var c, d := ServedCall(cfg, a, round, calls, ro, i, x), ServedCall(cfg, b, round, calls, ro, i, y);
      assert Visible(c) == Visible(d);
      if c.fatal.None? {
        ServedFromSame(cfg, a, b, round, calls, ro, i + 1, c.st, d.st);
      }
    }
  }

  /** A round without a clash leaves the same messages, rows and events under all schedules. */
  lemma ScheduleDoesNotShow(cfg: Config, a: World, b: World, round: nat, t: Turn, x: State, y: State)
    requires SameButSchedule(a, b) && Complete(a, round, t.calls) && Complete(b, round, t.calls)
             && NoClash(a, round, t.calls)
    requires x.(ran := []) == y.(ran := [])
    ensures Visible(RoundServed(cfg, a, round, t, x)) == Visible(RoundServed(cfg, b, round, t, y))
  {
    SameResults(a, b, round, t.calls);
    var p, q := RoundPool(a, round, t.calls), RoundPool(b, round, t.calls);
    ServedFromSame(cfg, a, b, round, t.calls, p.results, 0, Recorded(cfg, round, t, p, x),
                   Recorded(cfg, round, t, q, y));
  }

  function Heard(t: Turn, st: State): State {
    st.(requests := st.requests + [st.messages], events := st.events + t.events)
  }

  /** The rounds that serve calls from `round` on have complete schedules, in both worlds, and no clash;
      nothing is asked of rounds that the run does not reach. */
  ghost predicate CleanFrom(cfg: Config, a: World, b: World, round: nat, turns: nat, st: State)
    decreases MaxRounds(cfg) + 1 - round
  {
    round >= MaxRounds(cfg) || turns + 1 > MaxTurns(cfg) || a.llm(round).Refused? ||
    var t := Consumed(NO_TURN, a.llm(round).items);
    t.error.Some? || t.calls == [] ||
    (&& Complete(a, round, t.calls) && Complete(b, round, t.calls) && NoClash(a, round, t.calls)
     && var s := RoundServed(cfg, a, round, t, Heard(t, st));
        (s.fatal.None? ==> CleanFrom(cfg, a, b, round + 1, turns + 1, s.st)))
  }

  /** Hence two runs that differ in their goroutine schedules only show the same logs and the same exit. */
  lemma {:induction false} RunsAgree(cfg: Config, a: World, b: World, round: nat, turns: nat, x: State, y: State)
    requires SameButSchedule(a, b) && CleanFrom(cfg, a, b, round, turns, x) && x.(ran := []) == y.(ran := [])
    ensures var r, s := Rounds(cfg, a, round, turns, x), Rounds(cfg, b, round, turns, y);
            r.exit == s.exit && r.st.(ran := []) == s.st.(ran := [])
    decreases MaxRounds(cfg) + 1 - round
  {
    if round <= MaxRounds(cfg) && turns + 1 <= MaxTurns(cfg) && a.llm(round).Stream? {
      var t := Consumed(NO_TURN, a.llm(round).items);
      if t.error.None? && t.calls != [] && round < MaxRounds(cfg) {
        ScheduleDoesNotShow(cfg, a, b, round, t, Heard(t, x), Heard(t, y));
        var s, u := RoundServed(cfg, a, round, t, Heard(t, x)), RoundServed(cfg, b, round, t, Heard(t, y));
        if s.fatal.None? {
          RunsAgree(cfg, a, b, round + 1, turns + 1, s.st, u.st);
        }
      }
    }
  }

  // ---- The order of executions

  /** The calls that the serial phase executes from `i` on. */
  function SerialCalls(cfg: Config, w: World, round: nat, calls: seq<ToolCall>, ro: map<string, Outcome>,
                       i: nat): seq<nat>
    requires i <= |calls|
    decreases |calls| - i
  {
    if i == |calls| then []
    else (if Resolved(cfg, w, round, calls, ro, i).ran then [i] else []) + SerialCalls(cfg, w, round, calls, ro, i + 1)
  }

  lemma ServedCallRan(cfg: Config, w: World, round: nat, calls: seq<ToolCall>, ro: map<string, Outcome>, i: nat,
                      st: State)
    requires i < |calls|
    ensures ServedCall(cfg, w, round, calls, ro, i, st).st.ran ==
            st.ran + Invocations(round, if Resolved(cfg, w, round, calls, ro, i).ran then [i] else [])
  {
  }

  lemma InvocationsAppend(round: nat, a: seq<nat>, b: seq<nat>)
    ensures Invocations(round, a + b) == Invocations(round, a) + Invocations(round, b)
  {
  }

  lemma {:induction false} ServedFromRan(cfg: Config, w: World, round: nat, calls: seq<ToolCall>,
                                         ro: map<string, Outcome>, i: nat, st: State)
    requires i <= |calls|
    ensures var s := ServedFrom(cfg, w, round, calls, ro, i, st);
            s.fatal.None? ==> s.st.ran == st.ran + Invocations(round, SerialCalls(cfg, w, round, calls, ro, i))
    decreases |calls| - i
  {
    if i == |calls| {
      assert Invocations(round, []) == [];
    } else {
      var c := ServedCall(cfg, w, round, calls, ro, i, st);
      var rest := SerialCalls(cfg, w, round, calls, ro, i + 1);
      ServedCallRan(cfg, w, round, calls, ro, i, st);
      ServedFromRan(cfg, w, round, calls, ro, i + 1, c.st);
      var one := if Resolved(cfg, w, round, calls, ro, i).ran then [i] else [];
      InvocationsAppend(round, one, rest);
      Assoc(st.ran, Invocations(round, one), Invocations(round, rest));
    }
  }

  lemma {:induction false} SerialCallsAreTheOthers(cfg: Config, w: World, round: nat, calls: seq<ToolCall>, i: nat)
    requires i <= |calls| && Complete(w, round, calls) && NoClash(w, round, calls)
    ensures var s := SerialCalls(cfg, w, round, calls, RoundPool(w, round, calls).results, i);
            && (forall a :: 0 <= a < |s| ==> i <= s[a] < |calls| && !InPool(w, round, calls, s[a]))
            && (forall a, b :: 0 <= a < b < |s| ==> s[a] < s[b])
            && (forall k :: i <= k < |calls| && !InPool(w, round, calls, k) ==> k in s)
    decreases |calls| - i
  {
    if i < |calls| {
      NoClashServes(cfg, w, round, calls, i);
      SerialCallsAreTheOthers(cfg, w, round, calls, i + 1);
    }
  }

  /** A round without a clash that no unknown tool cuts short executes every call exactly once: first
      the read-only calls, in some order, then all others, in call order. */
  lemma EveryCallRunsOnce(cfg: Config, w: World, round: nat, t: Turn, st: State)
    returns (parallel: seq<nat>, serial: seq<nat>)
    requires Complete(w, round, t.calls) && NoClash(w, round, t.calls)
    requires RoundServed(cfg, w, round, t, st).fatal.None?
    ensures RoundServed(cfg, w, round, t, st).st.ran ==
            st.ran + Invocations(round, parallel) + Invocations(round, serial)
    ensures forall i: nat :: i in parallel <==> InPool(w, round, t.calls, i)
    ensures forall i: nat :: i in serial <==> i < |t.calls| && !InPool(w, round, t.calls, i)
    ensures forall a, b :: 0 <= a < b < |parallel| ==> parallel[a] != parallel[b]
    ensures forall a, b :: 0 <= a < b < |serial| ==> serial[a] < serial[b]
  {
    RoundPoolFacts(w, round, t.calls);
    var p := RoundPool(w, round, t.calls);
    parallel := p.begun;
    serial := SerialCalls(cfg, w, round, t.calls, p.results, 0);
    SerialCallsAreTheOthers(cfg, w, round, t.calls, 0);
    ServedFromRan(cfg, w, round, t.calls, p.results, 0, Recorded(cfg, round, t, p, st));
  }
}
