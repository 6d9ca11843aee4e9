/** What the operations of the registry do to one agent: its row, its connection and its counter, told by
    what the agent answers. */
module RegistryAgents {
  import opened GoStrings
  import opened Json
  import opened Registry
  import opened RegistryLaws

  /** Everything that the registry holds about one name. */
  datatype Agent = Agent(row: Option<Row>, conn: Option<Conn>, fails: nat)

  function At(s: State, name: string): Agent {
    Agent(if name in s.rows then Some(s.rows[name]) else None,
          if name in s.live then Some(s.live[name]) else None,
          Count(s.fails, name))
  }

  // ---- What an agent answers

  /** The health URL of the card, if it has one, does not answer. */
  predicate Ill(w: World, card: Card) {
    card.healthUrl != "" && !w.healthOk(card.healthUrl)
  }

  /** A hosted agent fails when its health URL does not answer, any other one also when its card does not. */
  predicate FailsCheck(w: World, conn: Conn) {
    if conn.card.isStatic then Ill(w, conn.card) else !w.cardOk(conn.url) || Ill(w, conn.card)
  }

  function FailedStatus(w: World, conn: Conn): string {
    if !conn.card.isStatic && !w.cardOk(conn.url) then "offline" else "unreachable"
  }

  predicate Hosted(row: Row) {
    row.card.Some? && row.card.value.isStatic
  }

  /** A stored agent answers: a hosted one unless its health URL does not, any other one with its card. */
  predicate Answers(w: World, row: Row) {
    if Hosted(row) then !Ill(w, row.card.value) else w.fetch(row.url).Some?
  }

  function AnsweredConn(w: World, row: Row): Conn
    requires Answers(w, row)
  {
    Conn(if Hosted(row) then row.card.value else w.fetch(row.url).value, row.url)
  }

  lemma AilmentIs(w: World, conn: Conn)
    ensures Ailment(w, conn) == if FailsCheck(w, conn) then Some(FailedStatus(w, conn)) else None
  {
  }

  lemma RevivedIs(w: World, row: Row)
    ensures Revived(w, row) == if Answers(w, row) then Some(AnsweredConn(w, row)) else None
  {
  }

  // ---- The health pass

  /** The check of one agent: an answer clears the counter, a failure counts, and from the third on the
      connection goes and the row says why. */
  function Checked(w: World, g: Agent): Agent {
    if g.conn.None? || g.conn.value.url == "" then g
    else if !FailsCheck(w, g.conn.value) then g.(fails := 0)
    else if g.fails < 2 then g.(fails := g.fails + 1)
    else
      Agent(match g.row case None => None case Some(row) => Some(row.(status := FailedStatus(w, g.conn.value))),
            None, g.fails + 1)
  }

  /** The retry of one agent: one that is not connected, not built in, and answers, is connected again. */
  function Retried(w: World, g: Agent): Agent {
    match g.row
    case None => g
    case Some(row) =>
      if row.status == "connected" || row.status == "online" || row.kind == "builtin" || !Answers(w, row) then g
      else Agent(Some(row.(status := "connected")), Some(AnsweredConn(w, row)), 0)
  }

  lemma CheckedOneAt(w: World, s: State, e: Entry, name: string)
    requires e.name in s.live && s.live[e.name] == e.conn
    ensures At(CheckedOne(w, s, e), name) == if name == e.name then Checked(w, At(s, name)) else At(s, name)
  {
    AilmentIs(w, e.conn);
  }

  predicate EntriesOf(s: State, entries: seq<Entry>) {
    && (forall i :: 0 <= i < |entries| ==> entries[i].name in s.live && s.live[entries[i].name] == entries[i].conn)
    && (forall i, j :: 0 <= i < j < |entries| ==> entries[i].name != entries[j].name)
  }

  predicate Listed(names: seq<Entry>, name: string) {
    exists i :: 0 <= i < |names| && names[i].name == name
  }

  lemma EntriesRest(w: World, s: State, entries: seq<Entry>)
    requires entries != [] && EntriesOf(s, entries)
    ensures EntriesOf(CheckedOne(w, s, entries[0]), entries[1..]) && !Listed(entries[1..], entries[0].name)
    ensures forall name :: Listed(entries, name) <==> name == entries[0].name || Listed(entries[1..], name)
  {
    var t, rest := CheckedOne(w, s, entries[0]), entries[1..];
    forall i | 0 <= i < |rest| ensures rest[i].name in t.live && t.live[rest[i].name] == rest[i].conn {
      assert rest[i] == entries[i + 1];
      CheckedOneAt(w, s, entries[0], rest[i].name);
    }
    assert forall i :: 0 <= i < |rest| ==> rest[i] == entries[i + 1];
    forall name ensures Listed(entries, name) <==> name == entries[0].name || Listed(rest, name) {
      if Listed(entries, name) && name != entries[0].name {
        var i :| 0 <= i < |entries| && entries[i].name == name;
        assert rest[i - 1].name == name;
      }
    }
  }

  lemma {:induction false} PhaseAAt(w: World, s: State, entries: seq<Entry>, name: string)
    requires EntriesOf(s, entries)
    ensures At(PhaseA(w, s, entries), name) == if Listed(entries, name) then Checked(w, At(s, name)) else At(s, name)
    decreases |entries|
  {
    if entries != [] {
      EntriesRest(w, s, entries);
      CheckedOneAt(w, s, entries[0], name);
      PhaseAAt(w, CheckedOne(w, s, entries[0]), entries[1..], name);
    }
  }

  lemma RetriedOneAt(w: World, s: State, r: Record, name: string)
    requires r.name in s.rows && s.rows[r.name] == r.row
    ensures At(RetriedOne(w, s, r), name) == if name == r.name then Retried(w, At(s, name)) else At(s, name)
  {
    RevivedIs(w, r.row);
  }

  predicate RecordsOf(s: State, records: seq<Record>) {
    && (forall i :: 0 <= i < |records| ==> records[i].name in s.rows && s.rows[records[i].name] == records[i].row)
    && (forall i, j :: 0 <= i < j < |records| ==> records[i].name != records[j].name)
  }

  predicate Recorded(records: seq<Record>, name: string) {
    exists i :: 0 <= i < |records| && records[i].name == name
  }

  /** The rest of the records, once the first one has led from `s` to `t`. */
  lemma RecordsRest(s: State, t: State, records: seq<Record>)
    requires records != [] && RecordsOf(s, records)
    requires forall name :: name != records[0].name ==> At(t, name) == At(s, name)
    ensures RecordsOf(t, records[1..]) && !Recorded(records[1..], records[0].name)
    ensures forall name :: Recorded(records, name) <==> name == records[0].name || Recorded(records[1..], name)
  {
    var rest := records[1..];
    assert forall i :: 0 <= i < |rest| ==> rest[i] == records[i + 1];
    forall i | 0 <= i < |rest| ensures rest[i].name in t.rows && t.rows[rest[i].name] == rest[i].row {
      assert At(t, rest[i].name) == At(s, rest[i].name);
    }
    forall name ensures Recorded(records, name) <==> name == records[0].name || Recorded(rest, name) {
      if Recorded(records, name) && name != records[0].name {
        var i :| 0 <= i < |records| && records[i].name == name;
        assert rest[i - 1].name == name;
      }
    }
  }

  lemma {:induction false} PhaseBAt(w: World, s: State, records: seq<Record>, name: string)
    requires RecordsOf(s, records)
    ensures At(PhaseB(w, s, records), name) == if Recorded(records, name) then Retried(w, At(s, name)) else At(s, name)
    decreases |records|
  {
    if records != [] {
      var t := RetriedOne(w, s, records[0]);
      forall x ensures At(t, x) == if x == records[0].name then Retried(w, At(s, x)) else At(s, x) {
        RetriedOneAt(w, s, records[0], x);
      }
      RecordsRest(s, t, records);
      PhaseBAt(w, t, records[1..], name);
    }
  }

  /** The pass comes to the check of a live agent, and to the retry of a stored one, before it is cancelled. */
  predicate Checks(o: Schedule, name: string) {
    name in o.connected[..Min(o.budget, |o.connected|)]
  }

  predicate Retries(o: Schedule, name: string) {
    o.budget > |o.connected| && name in o.stored[..Min(o.budget - |o.connected| - 1, |o.stored|)]
  }

  function FirstPhase(a: World, s: State, o: Schedule): State
    requires forall i :: 0 <= i < |o.connected| ==> o.connected[i] in s.live
  {
    PhaseA(a, s, Entries(s.live, o.connected)[..Min(o.budget, |o.connected|)])
  }

  lemma FirstPhaseSays(a: World, s: State, o: Schedule, name: string)
    requires IsListing(o.connected, s.live.Keys)
    ensures At(FirstPhase(a, s, o), name) == if Checks(o, name) then Checked(a, At(s, name)) else At(s, name)
  {
    var m := Min(o.budget, |o.connected|);
    var entries, order := Entries(s.live, o.connected)[..m], o.connected[..m];
    assert forall i :: 0 <= i < m ==> entries[i] == Entry(order[i], s.live[order[i]]);
    assert forall i :: 0 <= i < m ==> order[i] == o.connected[i];
    PhaseAAt(a, s, entries, name);
    if Checks(o, name) {
      var k :| 0 <= k < m && order[k] == name;
      assert entries[k].name == name;
    }
    if Listed(entries, name) {
      var k :| 0 <= k < m && entries[k].name == name;
      assert order[k] in order;
    }
  }

  lemma SecondPhaseSays(b: World, t: State, o: Schedule, name: string)
    requires o.budget > |o.connected| && IsListing(o.stored, t.rows.Keys)
    ensures var r := PhaseB(b, t, Records(t.rows, o.stored)[..Min(o.budget - |o.connected| - 1, |o.stored|)]);
            At(r, name) == if Retries(o, name) then Retried(b, At(t, name)) else At(t, name)
  {
    var m := Min(o.budget - |o.connected| - 1, |o.stored|);
    var records, order := Records(t.rows, o.stored)[..m], o.stored[..m];
    assert forall i :: 0 <= i < m ==> records[i] == Record(order[i], t.rows[order[i]]);
    assert forall i :: 0 <= i < m ==> order[i] == o.stored[i];
    PhaseBAt(b, t, records, name);
    if Retries(o, name) {
      var k :| 0 <= k < m && order[k] == name;
      assert records[k].name == name;
    }
    if Recorded(records, name) {
      var k :| 0 <= k < m && records[k].name == name;
      assert order[k] in order;
    }
  }

  /** A whole health pass, in any order and cancelled at any point: each agent is checked by what it answers
      when the pass comes to its check, and then retried by what it answers when the pass comes to its
      retry; nothing else happens to it. */
  lemma HealthPassSays(a: World, b: World, s: State, o: Schedule, name: string)
    requires CanRun(s, HealthPass(a, b, o))
    ensures var once := if Checks(o, name) then Checked(a, At(s, name)) else At(s, name);
            At(HealthChecked(a, b, s, o), name) == if Retries(o, name) then Retried(b, once) else once
  {
    FirstPhaseSays(a, s, o, name);
    if o.budget > |o.connected| {
      PhaseAKeepsRows(a, s, Entries(s.live, o.connected)[..Min(o.budget, |o.connected|)]);
      SecondPhaseSays(b, FirstPhase(a, s, o), o, name);
    }
  }

  lemma HealthPassCounts(a: World, b: World, s: State, o: Schedule, name: string)
    requires Inv(s) && CanRun(s, HealthPass(a, b, o))
    ensures Count(s.fails, name) == Streak(s.history, name)
    ensures var t := HealthChecked(a, b, s, o); Count(t.fails, name) == Streak(t.history, name)
  {
    HealthPassKeeps(a, b, s, o);
  }

  /** A health pass, however far it gets, removes a live agent exactly when it comes to its check, the
      agent has a URL and does not answer, and had failed at least twice since its last success, reconnect
      or disconnect, and no retry of the same pass is answered.  Its row then says why, and its streak is at
      least 3; an agent with an empty URL always stays. */
  lemma RemovedIffThirdFailure(a: World, b: World, s: State, o: Schedule, name: string)
    requires Inv(s) && CanRun(s, HealthPass(a, b, o)) && name in s.live
    ensures var t := HealthChecked(a, b, s, o);
            var conn, row := s.live[name], s.rows[name];
            && (name !in t.live <==>
                  && Checks(o, name) && conn.url != "" && FailsCheck(a, conn) && Streak(s.history, name) >= 2
                  && !(Retries(o, name) && row.kind != "builtin" && Answers(b, row)))
            && (name !in t.live ==>
                  && name in t.rows && t.rows[name] == row.(status := FailedStatus(a, conn))
                  && Streak(t.history, name) >= 3)
  {
    HealthPassSays(a, b, s, o, name);
    HealthPassCounts(a, b, s, o, name);
    assert At(s, name) == Agent(Some(s.rows[name]), Some(s.live[name]), Count(s.fails, name));
    RemovalByParts(a, b, s.rows[name], s.live[name], Count(s.fails, name));
    assert At(HealthChecked(a, b, s, o), name).conn.None? <==> name !in HealthChecked(a, b, s, o).live;
  }

  /** The same for one agent: checked, then retried. */
  lemma RemovalByParts(a: World, b: World, row: Row, conn: Conn, fails: nat)
    ensures var once := Checked(a, Agent(Some(row), Some(conn), fails));
            var out := conn.url != "" && FailsCheck(a, conn) && fails >= 2;
            && (once.conn.None? <==> out)
            && (out ==> once.row == Some(row.(status := FailedStatus(a, conn))) && once.fails >= 3)
            && (Retried(b, once).conn.None? <==> out && (row.kind == "builtin" || !Answers(b, row)))
            && (Retried(b, once).conn.None? ==> Retried(b, once) == once)
            && !Retried(b, Agent(Some(row), Some(conn), fails)).conn.None?
  {
    assert Answers(b, row.(status := FailedStatus(a, conn))) == Answers(b, row);
  }

  // ---- Startup

  /** A stored agent at startup: connected again when it answers, else marked. */
  function Restarted(w: World, g: Agent): Agent {
    match g.row
    case None => g
    case Some(row) =>
      if row.kind == "builtin" || row.url == "" then g
      else if Answers(w, row) then g.(conn := Some(AnsweredConn(w, row)))
      else g.(row := Some(row.(status := "disconnected")))
  }

  lemma RestoredOneAt(w: World, s: State, r: Record, name: string)
    requires r.name in s.rows && s.rows[r.name] == r.row
    ensures At(RestoredOne(w, s, r), name) == if name == r.name then Restarted(w, At(s, name)) else At(s, name)
  {
    RevivedIs(w, r.row);
  }

  /** Restoring the connections, in any order, does that to every agent that is listed, and nothing to the
      others. */
  lemma {:induction false} RestoreSays(w: World, s: State, records: seq<Record>, name: string)
    requires RecordsOf(s, records)
    ensures At(Restored(w, s, records), name) ==
            if Recorded(records, name) then Restarted(w, At(s, name)) else At(s, name)
    decreases |records|
  {
    if records != [] {
      var t := RestoredOne(w, s, records[0]);
      forall x ensures At(t, x) == if x == records[0].name then Restarted(w, At(s, x)) else At(s, x) {
        RestoredOneAt(w, s, records[0], x);
      }
      RecordsRest(s, t, records);
      RestoreSays(w, t, records[1..], name);
    }
  }

  // ---- The other operations

  /** A registration is accepted for a new name, or with the secret that is stored under it, and only when
      the agent can be reached as it says. */
  predicate Accepted(w: World, s: State, r: Registration) {
    && (r.name in s.rows ==> r.secret != "" && s.rows[r.name].secret == r.secret) && r.url != ""
    && match r.provided
       case Some(card) => !Ill(w, card)
       case None => w.fetch(r.url).Some? && w.ping(r.url)
  }

  /** It leaves the registered agent stored and connected, with its counter as it was, and every other agent
      alone; a provided card makes the agent a hosted one. */
  lemma RegistrationSays(w: World, s: State, r: Registration, name: string)
    ensures var t := Registered(w, s, r);
            if !Accepted(w, s, r) then t == s
            else if name != r.name then At(t, name) == At(s, name)
            else
              var card := if r.provided.Some? then r.provided.value.(isStatic := true) else w.fetch(r.url).value;
              At(t, name) == Agent(Some(Row(if r.kind == "" then "external" else r.kind, r.url, "connected", Some(card),
                                            r.secret)),
                                   Some(Conn(card, r.url)), At(s, name).fails)
  {
  }

  /** An update reaches external agents only; it keeps kind, secret and counter, and a blank URL keeps the
      old one. */
  lemma UpdateSays(w: World, s: State, changed: string, url: string, provided: Option<Card>, name: string)
    ensures var t := MetadataUpdated(w, s, changed, url, provided);
            if name != changed || name !in s.rows || s.rows[name].kind == "builtin" then At(t, name) == At(s, name)
            else
              var row := s.rows[name];
              var card := (match provided
                           case Some(c) => c
                           case None => if row.card.Some? then row.card.value else Card(false, "")).(isStatic := true);
              var to := if TrimSpace(url) == "" then row.url else url;
              At(t, name) == if Ill(w, card) then At(s, name)
                             else Agent(Some(Row(row.kind, to, "connected", Some(card), row.secret)),
                                        Some(Conn(card, to)), At(s, name).fails)
  {
  }

  /** A built-in agent is stored and connected without a URL. */
  lemma BuiltinSays(s: State, added: string, name: string)
    ensures At(BuiltinRegistered(s, added), name) ==
            if name != added then At(s, name)
            else
              Agent(Some(Row("builtin", "", "connected", Some(Card(false, "")), "")), Some(Conn(Card(false, ""), "")),
                    At(s, name).fails)
  {
  }

  /** Disconnecting clears connection and counter of one agent and marks its row; deleting takes the row
      as well. */
  lemma DisconnectSays(s: State, gone: string, name: string)
    ensures At(Disconnected(s, gone), name) ==
            if name != gone then At(s, name)
            else
              Agent(match At(s, name).row case None => None case Some(row) => Some(row.(status := "disconnected")),
                    None, 0)
    ensures At(Deleted(s, gone), name) == if name != gone then At(s, name) else Agent(None, None, 0)
  {
  }
}
