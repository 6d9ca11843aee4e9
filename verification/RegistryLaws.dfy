/** The store and the live connections agree between operations, and who a health pass removes. */
module RegistryLaws {
  import opened GoStrings
  import opened Json
  import opened Registry

  predicate External(row: Row) {
    row.kind != "builtin" && row.url != ""
  }

  /** An external agent with a URL is stored as connected exactly when it has a live connection. */
  predicate AgreesOn(s: State, name: string) {
    name in s.rows && External(s.rows[name]) ==> (s.rows[name].status == "connected" <==> name in s.live)
  }

  ghost predicate Agree(s: State) {
    forall name :: AgreesOn(s, name)
  }

  predicate Known(s: State) {
    forall name :: name in s.live ==> name in s.rows && s.live[name].url == s.rows[name].url
  }

  /** Failures of an agent since its last success, reconnect or disconnect. */
  function Streak(history: seq<Observation>, name: string): nat {
    if history == [] then 0
    else
      var last := history[|history| - 1];
      var before := Streak(history[..|history| - 1], name);
      if last.name != name then before else if last.Failure? then before + 1 else 0
  }

  lemma StreakPush(history: seq<Observation>, e: Observation, name: string)
    ensures Streak(history + [e], name) ==
            if e.name != name then Streak(history, name) else if e.Failure? then Streak(history, name) + 1 else 0
  {
  }

  ghost predicate Counted(s: State) {
    forall name :: Count(s.fails, name) == Streak(s.history, name)
  }

  ghost predicate Inv(s: State) {
    Agree(s) && Known(s) && Counted(s)
  }

  // ---- Every operation keeps it

  lemma FailureKeeps(s: State, name: string, status: string)
    requires Inv(s) && status != "connected"
    ensures Inv(Failed(s, name, status))
  {
    var t := Failed(s, name, status);
    forall x ensures Count(t.fails, x) == Streak(t.history, x) {
      StreakPush(s.history, Failure(name), x);
    }
    forall x ensures AgreesOn(t, x) {
      assert AgreesOn(s, x);
    }
  }

  lemma SuccessKeeps(s: State, name: string)
    requires Inv(s)
    ensures Inv(Recovered(s, name))
  {
    var t := Recovered(s, name);
    forall x ensures Count(t.fails, x) == Streak(t.history, x) {
      StreakPush(s.history, Success(name), x);
    }
    forall x ensures AgreesOn(t, x) {
      assert AgreesOn(s, x);
    }
  }

  lemma DisconnectKeeps(s: State, name: string)
    requires Inv(s)
    ensures Inv(Disconnected(s, name)) && Inv(Deleted(s, name))
  {
    var t := Disconnected(s, name);
    forall x ensures Count(t.fails, x) == Streak(t.history, x) {
      StreakPush(s.history, Disconnect(name), x);
    }
    forall x ensures AgreesOn(t, x) && AgreesOn(Deleted(s, name), x) {
      assert AgreesOn(s, x);
    }
  }

  lemma ReconnectKeeps(s: State, name: string, conn: Conn)
    requires Inv(s) && name in s.rows && s.rows[name].url == conn.url
    ensures Inv(Reconnected(s, name, conn))
  {
    var t := Reconnected(s, name, conn);
    forall x ensures Count(t.fails, x) == Streak(t.history, x) {
      StreakPush(s.history, Reconnect(name), x);
    }
    forall x ensures AgreesOn(t, x) {
      assert AgreesOn(s, x);
    }
  }

  lemma StoringKeeps(s: State, name: string, row: Row, conn: Conn)
    requires Inv(s) && row.status == "connected" && row.url == conn.url
    ensures Inv(Stored(s, name, row, conn))
  {
    var t := Stored(s, name, row, conn);
    forall x ensures AgreesOn(t, x) {
      assert AgreesOn(s, x);
    }
  }

  lemma {:induction false} PhaseAKeeps(w: World, s: State, entries: seq<Entry>)
    requires Inv(s)
    ensures Inv(PhaseA(w, s, entries))
    decreases |entries|
  {
    if entries != [] {
      var e := entries[0];
      if e.conn.url != "" {
        match Ailment(w, e.conn) {
          case None => SuccessKeeps(s, e.name);
          case Some(status) => FailureKeeps(s, e.name, status);
        }
      }
      PhaseAKeeps(w, CheckedOne(w, s, e), entries[1..]);
    }
  }

  predicate StillStored(s: State, records: seq<Record>) {
    forall i :: 0 <= i < |records| ==> records[i].name in s.rows && s.rows[records[i].name].url == records[i].row.url
  }

  lemma {:induction false} PhaseBKeeps(w: World, s: State, records: seq<Record>)
    requires Inv(s) && StillStored(s, records)
    ensures Inv(PhaseB(w, s, records))
    decreases |records|
  {
    if records != [] {
      var r := records[0];
      var t := RetriedOne(w, s, r);
      if t != s {
        ReconnectKeeps(s, r.name, Revived(w, r.row).value);
      }
      assert StillStored(t, records[1..]) by {
        assert forall i :: 0 <= i < |records[1..]| ==> records[1..][i] == records[i + 1];
      }
      PhaseBKeeps(w, t, records[1..]);
    }
  }

  // ---- Startup

  /** Before the connections are restored, stored agents may count as connected without being live. */
  ghost predicate Half(s: State) {
    && (forall name :: name in s.rows && External(s.rows[name]) && name in s.live ==>
        s.rows[name].status == "connected")
    && Known(s) && Counted(s)
  }

  ghost predicate AgreeExcept(s: State, records: seq<Record>) {
    forall name :: (forall i :: 0 <= i < |records| ==> records[i].name != name) ==> AgreesOn(s, name)
  }

  /** The remaining records: distinct, stored as connected, and not live when they are external. */
  predicate ToRestore(s: State, records: seq<Record>) {
    && (forall i, j :: 0 <= i < j < |records| ==> records[i].name != records[j].name)
    && (forall i :: 0 <= i < |records| ==>
          && records[i].name in s.rows && s.rows[records[i].name] == records[i].row
             && records[i].row.status == "connected"
          && (External(records[i].row) ==> records[i].name !in s.live))
  }

  lemma RestoreOneKeeps(w: World, s: State, records: seq<Record>)
    requires records != [] && Half(s) && ToRestore(s, records) && AgreeExcept(s, records)
    ensures var t := RestoredOne(w, s, records[0]);
            Half(t) && ToRestore(t, records[1..]) && AgreeExcept(t, records[1..])
  {
    var r := records[0];
    var rest := records[1..];
    var t := RestoredOne(w, s, r);
    assert forall i :: 0 <= i < |rest| ==> rest[i] == records[i + 1];
    assert AgreesOn(t, r.name);
    forall name | forall i :: 0 <= i < |rest| ==> rest[i].name != name ensures AgreesOn(t, name) {
      if name != r.name {
        OtherAgrees(s, records, name);
      }
    }
  }

  lemma OtherAgrees(s: State, records: seq<Record>, name: string)
    requires records != [] && AgreeExcept(s, records) && name != records[0].name
    requires forall i :: 0 <= i < |records[1..]| ==> records[1..][i].name != name
    ensures AgreesOn(s, name)
  {
    assert forall i :: 0 <= i < |records| ==> records[i] == if i == 0 then records[0] else records[1..][i - 1];
  }

  lemma {:induction false} RestoreAgrees(w: World, s: State, records: seq<Record>)
    requires Half(s) && ToRestore(s, records) && AgreeExcept(s, records)
    ensures Inv(Restored(w, s, records))
    decreases |records|
  {
    if records == [] {
      forall name ensures AgreesOn(s, name) {
      }
    } else {
      RestoreOneKeeps(w, s, records);
      RestoreAgrees(w, RestoredOne(w, s, records[0]), records[1..]);
    }
  }

  function ConnectedNames(s: State): set<string> {
    set name | name in s.rows && s.rows[name].status == "connected"
  }

  /** Restoring, over the connected rows in any order, establishes agreement, whatever is stored, when
      no external agent is live yet. */
  lemma RestoreEstablishesAgreement(w: World, s: State, order: seq<string>)
    requires Half(s) && IsListing(order, ConnectedNames(s))
    requires forall name :: name in s.live ==> !External(s.rows[name])
    ensures (forall i :: 0 <= i < |order| ==> order[i] in s.rows) && Inv(Restored(w, s, Records(s.rows, order)))
  {
    assert forall i :: 0 <= i < |order| ==> order[i] in ConnectedNames(s);
    var records := Records(s.rows, order);
    forall name | forall i :: 0 <= i < |records| ==> records[i].name != name ensures AgreesOn(s, name) {
      assert forall i :: 0 <= i < |order| ==> records[i].name == order[i];
      assert name !in ConnectedNames(s);
    }
    RestoreAgrees(w, s, records);
  }

  // ---- Runs

  datatype Op =
    | Register(w: World, r: Registration)
    | UpdateMetadata(w: World, name: string, url: string, provided: Option<Card>)
    | RegisterBuiltin(name: string)
    | Disconnecting(name: string)
    | Deleting(name: string)
    | HealthPass(a: World, b: World, o: Schedule)

  ghost predicate CanRun(s: State, op: Op) {
    op.HealthPass? ==> IsListing(op.o.connected, s.live.Keys) && IsListing(op.o.stored, s.rows.Keys)
  }

  function Applied(s: State, op: Op): State
    requires op.HealthPass? ==> forall i :: 0 <= i < |op.o.connected| ==> op.o.connected[i] in s.live
    requires op.HealthPass? ==> forall i :: 0 <= i < |op.o.stored| ==> op.o.stored[i] in s.rows
  {
    match op
    case Register(w, r) => Registered(w, s, r)
    case UpdateMetadata(w, name, url, provided) => MetadataUpdated(w, s, name, url, provided)
    case RegisterBuiltin(name) => BuiltinRegistered(s, name)
    case Disconnecting(name) => Disconnected(s, name)
    case Deleting(name) => Deleted(s, name)
    case HealthPass(a, b, o) => HealthChecked(a, b, s, o)
  }

  lemma HealthPassKeeps(a: World, b: World, s: State, o: Schedule)
    requires Inv(s)
    requires forall i :: 0 <= i < |o.connected| ==> o.connected[i] in s.live
    requires forall i :: 0 <= i < |o.stored| ==> o.stored[i] in s.rows
    ensures Inv(HealthChecked(a, b, s, o))
  {
    var n := |o.connected|;
    var entries := Entries(s.live, o.connected)[..Min(o.budget, n)];
    var t := PhaseA(a, s, entries);
    PhaseAKeeps(a, s, entries);
    PhaseAKeepsRows(a, s, entries);
    assert forall i :: 0 <= i < |o.stored| ==> o.stored[i] in t.rows.Keys;
    if o.budget > n {
      PhaseBKeeps(b, t, Records(t.rows, o.stored)[..Min(o.budget - n - 1, |o.stored|)]);
    }
  }

  lemma StepKeeps(s: State, op: Op)
    requires Inv(s) && CanRun(s, op)
    ensures Inv(Applied(s, op))
  {
    match op
    case Register(w, r) =>
      if MayRegister(s, r) && DiscoveredCard(w, r.url, r.provided).Some? {
        var c := DiscoveredCard(w, r.url, r.provided).value;
        StoringKeeps(s, r.name, Row(if r.kind == "" then "external" else r.kind, r.url, "connected", Some(c), r.secret),
                     Conn(c, r.url));
      }
    case UpdateMetadata(w, name, url, provided) =>
      if MayUpdate(w, s, name, provided) {
        var row := s.rows[name];
        var to := if TrimSpace(url) == "" then row.url else url;
        var c := UpdatedCard(row, provided);
        StoringKeeps(s, name, Row(row.kind, to, "connected", Some(c), row.secret), Conn(c, to));
      }
    case RegisterBuiltin(name) =>
      StoringKeeps(s, name, Row("builtin", "", "connected", Some(Card(false, "")), ""), Conn(Card(false, ""), ""));
    case Disconnecting(name) => DisconnectKeeps(s, name);
    case Deleting(name) => DisconnectKeeps(s, name);
    case HealthPass(a, b, o) => HealthPassKeeps(a, b, s, o);
  }

  ghost predicate IsRun(s: State, ops: seq<Op>)
    decreases |ops|
  {
    ops == [] || (CanRun(s, ops[0]) && IsRun(Applied(s, ops[0]), ops[1..]))
  }

  ghost function After(s: State, ops: seq<Op>): State
    requires IsRun(s, ops)
    decreases |ops|
  {
    if ops == [] then s else After(Applied(s, ops[0]), ops[1..])
  }

  lemma {:induction false} RunKeeps(s: State, ops: seq<Op>)
    requires Inv(s) && IsRun(s, ops)
    ensures Inv(After(s, ops))
    decreases |ops|
  {
    if ops != [] {
      StepKeeps(s, ops[0]);
      RunKeeps(Applied(s, ops[0]), ops[1..]);
    }
  }

  /** Registry agreement: whatever the store holds at startup, after the connections are restored and
      then between any operations, stored status and live connections agree, and the failure counters
      are the streaks since the last success, reconnect or disconnect. */
  lemma StoreAndConnectionsAgree(stored: map<string, Row>, w: World, order: seq<string>, ops: seq<Op>)
    requires IsListing(order, ConnectedNames(State(stored, map[], map[], [])))
    requires forall i :: 0 <= i < |order| ==> order[i] in stored
    requires IsRun(Restored(w, State(stored, map[], map[], []), Records(stored, order)), ops)
    ensures Inv(After(Restored(w, State(stored, map[], map[], []), Records(stored, order)), ops))
  {
    var s := State(stored, map[], map[], []);
    RestoreEstablishesAgreement(w, s, order);
    RunKeeps(Restored(w, s, Records(stored, order)), ops);
  }

  // ---- The counter of a registered agent

  /** Registering does not reset the counter: the first failed check after a registration removes the
      agent exactly when it had failed twice before it registered. */
  lemma RegistrationKeepsStreak(w: World, s: State, r: Registration, status: string)
    requires Inv(s) && MayRegister(s, r) && DiscoveredCard(w, r.url, r.provided).Some?
    ensures var t := Registered(w, s, r);
            && r.name in t.live && Streak(t.history, r.name) == Streak(s.history, r.name)
            && (r.name !in Failed(t, r.name, status).live <==> Streak(s.history, r.name) >= 2)
  {
  }

  // ---- A registration that does not help

  const AGENT := Row("external", "u", "connected", Some(Card(false, "")), "s")
  const UP := World(url => true, url => true, url => Some(Card(false, "")), url => true)
  const DOWN := World(url => false, url => false, url => None, url => false)
  const PASS := Schedule(["a"], ["a"], 9)
  const AGAIN := Registration("a", "external", "u", "s", None)

  /** The agent is live and has failed `n` checks in a row. */
  function FailedTimes(n: nat): State
    requires n <= 2
  {
    State(map["a" := AGENT], map["a" := Conn(Card(false, ""), "u")],
          if n == 0 then map[] else map["a" := n],
          if n == 0 then [] else if n == 1 then [Failure("a")] else [Failure("a"), Failure("a")])
  }

  lemma SinglePhases(w: World, s: State, e: Entry, r: Record)
    ensures PhaseA(w, s, [e]) == CheckedOne(w, s, e) && PhaseB(w, s, [r]) == RetriedOne(w, s, r)
    ensures Restored(w, s, [r]) == RestoredOne(w, s, r)
  {
    assert [e][1..] == [] && [r][1..] == [];
    assert PhaseA(w, CheckedOne(w, s, e), []) == CheckedOne(w, s, e);
    assert PhaseB(w, RetriedOne(w, s, r), []) == RetriedOne(w, s, r);
  }

  /** One pass over the only agent, while nothing answers. */
  lemma PassOver(n: nat)
    requires n <= 2
    ensures HealthChecked(DOWN, DOWN, FailedTimes(n), PASS) == Failed(FailedTimes(n), "a", "offline")
  {
    var s := FailedTimes(n);
    var e := Entry("a", Conn(Card(false, ""), "u"));
    var es := Entries(s.live, PASS.connected);
    assert es[..1] == [e];
    var t := Failed(s, "a", "offline");
    SinglePhases(DOWN, s, e, Record("a", AGENT));
    assert PhaseA(DOWN, s, es[..1]) == t;
    var rs := Records(t.rows, PASS.stored);
    assert rs[..1] == [Record("a", t.rows["a"])];
    SinglePhases(DOWN, t, e, rs[0]);
    assert Revived(DOWN, rs[0].row) == None;
  }

  lemma PassFails(n: nat)
    requires n < 2
    ensures HealthChecked(DOWN, DOWN, FailedTimes(n), PASS) == FailedTimes(n + 1)
  {
    PassOver(n);
    var s := FailedTimes(n);
    assert s.history + [Failure("a")] == FailedTimes(n + 1).history;
    assert s.fails["a" := n + 1] == FailedTimes(n + 1).fails;
  }

  /** The steps on the way: from a fresh start to a registration after two failures. */
  lemma RestoredThenRegistered()
    ensures Restored(UP, State(map["a" := AGENT], map[], map[], []), [Record("a", AGENT)]) == FailedTimes(0)
    ensures MayRegister(FailedTimes(2), AGAIN) && Registered(UP, FailedTimes(2), AGAIN) == FailedTimes(2)
  {
    var s := State(map["a" := AGENT], map[], map[], []);
    SinglePhases(UP, s, Entry("a", Conn(Card(false, ""), "u")), Record("a", AGENT));
    assert Revived(UP, AGENT) == Some(Conn(Card(false, ""), "u"));
    assert map[]["a" := Conn(Card(false, ""), "u")] == map["a" := Conn(Card(false, ""), "u")];
    assert DiscoveredCard(UP, "u", None) == Some(Card(false, ""));
    var t := FailedTimes(2);
    assert t.rows["a" := AGENT] == t.rows && t.live["a" := Conn(Card(false, ""), "u")] == t.live;
  }

  ghost predicate Reaches(s: State, ops: seq<Op>, t: State) {
    IsRun(s, ops) && After(s, ops) == t
  }

  lemma OneMore(s: State, op: Op, rest: seq<Op>, last: State)
    requires CanRun(s, op) && Reaches(Applied(s, op), rest, last)
    ensures Reaches(s, [op] + rest, last)
  {
    assert ([op] + rest)[1..] == rest;
  }

  /** Two failing passes and a registration, before whatever follows. */
  lemma TwoFailuresThenRegister(rest: seq<Op>, last: State)
    requires Reaches(FailedTimes(2), rest, last)
    ensures var pass := HealthPass(DOWN, DOWN, PASS);
            Reaches(FailedTimes(0), [pass] + ([pass] + ([Register(UP, AGAIN)] + rest)), last)
  {
    var pass, register := HealthPass(DOWN, DOWN, PASS), Register(UP, AGAIN);
    RestoredThenRegistered();
    OneMore(FailedTimes(2), register, rest, last);
    PassFails(1);
    PassIsPossible(1);
    OneMore(FailedTimes(1), pass, [register] + rest, last);
    PassFails(0);
    PassIsPossible(0);
    OneMore(FailedTimes(0), pass, [pass] + ([register] + rest), last);
  }

  lemma PassIsPossible(n: nat)
    requires n <= 2
    ensures CanRun(FailedTimes(n), HealthPass(DOWN, DOWN, PASS))
  {
    assert FailedTimes(n).live.Keys == {"a"} && FailedTimes(n).rows.Keys == {"a"};
  }

  lemma LastPass(last: State)
    requires last == Failed(FailedTimes(2), "a", "offline")
    ensures Reaches(FailedTimes(2), [HealthPass(DOWN, DOWN, PASS)], last) && "a" !in last.live
  {
    var pass := HealthPass(DOWN, DOWN, PASS);
    PassOver(2);
    PassIsPossible(2);
    OneMore(FailedTimes(2), pass, [], last);
    assert [pass] + [] == [pass];
  }

  /** It happens: after a fresh start, two failing passes and a successful registration, the agent is
      live, and the next failing pass removes it. */
  lemma RegisteredAgentIsRemoved()
    ensures var start := Restored(UP, State(map["a" := AGENT], map[], map[], []), [Record("a", AGENT)]);
            var pass := HealthPass(DOWN, DOWN, PASS);
            var run := [pass, pass, Register(UP, AGAIN)];
            && IsRun(start, run) && "a" in After(start, run).live
            && IsRun(start, run + [pass]) && "a" !in After(start, run + [pass]).live
  {
    RestoredThenRegistered();
    var pass, register := HealthPass(DOWN, DOWN, PASS), Register(UP, AGAIN);
    TwoFailuresThenRegister([], FailedTimes(2));
    assert [pass] + ([pass] + ([register] + [])) == [pass, pass, register];
    var last := Failed(FailedTimes(2), "a", "offline");
    LastPass(last);
    TwoFailuresThenRegister([pass], last);
    assert [pass] + ([pass] + ([register] + [pass])) == [pass, pass, register] + [pass];
  }
}
