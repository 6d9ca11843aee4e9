/** The agent registry: the stored agents, the live connections, the failure counters, and the two-phase
    health pass over them. */
module Registry {
  import opened GoStrings
  import opened Json

  datatype Card = Card(isStatic: bool, healthUrl: string)

  datatype Row = Row(kind: string, url: string, status: string, card: Option<Card>, secret: string)

  datatype Conn = Conn(card: Card, url: string)

  /** What the failure counters are about. */
  datatype Observation =
    | Failure(name: string)
    | Success(name: string)
    | Reconnect(name: string)
    | Disconnect(name: string)

  datatype State = State(rows: map<string, Row>, live: map<string, Conn>, fails: map<string, nat>,
                         history: seq<Observation>)

  /** How the outside answers during one operation: health URLs, agent-card URLs, and the fetched cards. */
  datatype World = World(healthOk: string -> bool, cardOk: string -> bool, fetch: string -> Option<Card>,
                         ping: string -> bool)

  datatype Entry = Entry(name: string, conn: Conn)
  datatype Record = Record(name: string, row: Row)

  function Count(fails: map<string, nat>, name: string): nat {
    if name in fails then fails[name] else 0
  }

  // ---- Single changes

  function Stored(s: State, name: string, row: Row, conn: Conn): State {
    s.(rows := s.rows[name := row], live := s.live[name := conn])
  }

  function WithStatus(rows: map<string, Row>, name: string, status: string): map<string, Row> {
    if name in rows then rows[name := rows[name].(status := status)] else rows
  }

  /** `recordFailure`: the third failure in a row removes the connection. */
  function Failed(s: State, name: string, status: string): State {
    var n := Count(s.fails, name) + 1;
    var counted := s.(fails := s.fails[name := n], history := s.history + [Failure(name)]);
    if n >= 3 then counted.(live := s.live - {name}, rows := WithStatus(s.rows, name, status)) else counted
  }

  function Recovered(s: State, name: string): State {
    s.(fails := s.fails - {name}, history := s.history + [Success(name)])
  }

  function Disconnected(s: State, name: string): State {
    State(WithStatus(s.rows, name, "disconnected"), s.live - {name}, s.fails - {name}, s.history + [Disconnect(name)])
  }

  function Deleted(s: State, name: string): State {
    Disconnected(s, name).(rows := WithStatus(s.rows, name, "disconnected") - {name})
  }

  function Reconnected(s: State, name: string, conn: Conn): State {
    State(WithStatus(s.rows, name, "connected"), s.live[name := conn], s.fails - {name}, s.history + [Reconnect(name)])
  }

  // ---- Registration and update

  datatype Registration = Registration(name: string, kind: string, url: string, secret: string, provided: Option<Card>)

  /** The card that is hosted for the agent, unless its checks fail. */
  function DiscoveredCard(w: World, url: string, provided: Option<Card>): Option<Card> {
    match provided
    case Some(c) => if c.healthUrl != "" && !w.healthOk(c.healthUrl) then None else Some(c.(isStatic := true))
    case None => if w.fetch(url).Some? && w.ping(url) then w.fetch(url) else None
  }

  predicate MayRegister(s: State, r: Registration) {
    (r.name in s.rows ==> r.secret != "" && s.rows[r.name].secret == r.secret) && r.url != ""
  }

  function Registered(w: World, s: State, r: Registration): State {
    if !MayRegister(s, r) then s
    else
      match DiscoveredCard(w, r.url, r.provided)
      case None => s
      case Some(c) =>
        Stored(s, r.name, Row(if r.kind == "" then "external" else r.kind, r.url, "connected", Some(c), r.secret),
               Conn(c, r.url))
  }

  function UpdatedCard(row: Row, provided: Option<Card>): Card {
    (if provided.Some? then provided.value else if row.card.Some? then row.card.value
     else Card(false, "")).(isStatic := true)
  }

  predicate MayUpdate(w: World, s: State, name: string, provided: Option<Card>) {
    name in s.rows && s.rows[name].kind != "builtin" &&
    var url := UpdatedCard(s.rows[name], provided).healthUrl; url == "" || w.healthOk(url)
  }

  function MetadataUpdated(w: World, s: State, name: string, url: string, provided: Option<Card>): State {
    if !MayUpdate(w, s, name, provided) then s
    else
      var row := s.rows[name];
      var to := if TrimSpace(url) == "" then row.url else url;
      var c := UpdatedCard(row, provided);
      Stored(s, name, Row(row.kind, to, "connected", Some(c), row.secret), Conn(c, to))
  }

  function BuiltinRegistered(s: State, name: string): State {
    Stored(s, name, Row("builtin", "", "connected", Some(Card(false, "")), ""), Conn(Card(false, ""), ""))
  }

  // ---- Restoring connections

  predicate IsStatic(row: Row) {
    row.card.Some? && row.card.value.isStatic
  }

  /** The connection that a stored agent gets back, if it answers. */
  function Revived(w: World, row: Row): Option<Conn> {
    if IsStatic(row) then
      if row.card.value.healthUrl != "" && !w.healthOk(row.card.value.healthUrl) then None
        else Some(Conn(row.card.value, row.url))
    else
      match w.fetch(row.url) case None => None case Some(c) => Some(Conn(c, row.url))
  }

  function RestoredOne(w: World, s: State, r: Record): State {
    if r.row.kind == "builtin" || r.row.url == "" then s
    else
      match Revived(w, r.row)
      case None => s.(rows := WithStatus(s.rows, r.name, "disconnected"))
      case Some(conn) => s.(live := s.live[r.name := conn])
  }

  function Restored(w: World, s: State, records: seq<Record>): State
    decreases |records|
  {
    if records == [] then s else Restored(w, RestoredOne(w, s, records[0]), records[1..])
  }

  // ---- The health pass

  /** Why a live agent fails its check; none when it passes. */
  function Ailment(w: World, conn: Conn): Option<string> {
    if conn.card.isStatic then
      if conn.card.healthUrl != "" && !w.healthOk(conn.card.healthUrl) then Some("unreachable") else None
    else if !w.cardOk(conn.url) then Some("offline")
    else if conn.card.healthUrl != "" && !w.healthOk(conn.card.healthUrl) then Some("unreachable")
    else None
  }

  function CheckedOne(w: World, s: State, e: Entry): State {
    if e.conn.url == "" then s
    else match Ailment(w, e.conn) case None => Recovered(s, e.name) case Some(status) => Failed(s, e.name, status)
  }

  function PhaseA(w: World, s: State, entries: seq<Entry>): State
    decreases |entries|
  {
    if entries == [] then s else PhaseA(w, CheckedOne(w, s, entries[0]), entries[1..])
  }

  function RetriedOne(w: World, s: State, r: Record): State {
    if r.row.status == "connected" || r.row.status == "online" || r.row.kind == "builtin" then s
    else match Revived(w, r.row) case None => s case Some(conn) => Reconnected(s, r.name, conn)
  }

  function PhaseB(w: World, s: State, records: seq<Record>): State
    decreases |records|
  {
    if records == [] then s else PhaseB(w, RetriedOne(w, s, records[0]), records[1..])
  }

  /** Each key once, in any order: Go's map iteration, and the rows of a query without ORDER BY. */
  ghost predicate IsListing(order: seq<string>, keys: set<string>) {
    && (forall i :: 0 <= i < |order| ==> order[i] in keys)
    && (forall k :: k in keys ==> k in order)
    && (forall i, j :: 0 <= i < j < |order| ==> order[i] != order[j])
  }

  function Entries(live: map<string, Conn>, order: seq<string>): (r: seq<Entry>)
    requires forall i :: 0 <= i < |order| ==> order[i] in live
    ensures |r| == |order| && forall i :: 0 <= i < |r| ==> r[i] == Entry(order[i], live[order[i]])
  {
    seq(|order|, i requires 0 <= i < |order| => Entry(order[i], live[order[i]]))
  }

  function Records(rows: map<string, Row>, order: seq<string>): (r: seq<Record>)
    requires forall i :: 0 <= i < |order| ==> order[i] in rows
    ensures |r| == |order| && forall i :: 0 <= i < |r| ==> r[i] == Record(order[i], rows[order[i]])
  {
    seq(|order|, i requires 0 <= i < |order| => Record(order[i], rows[order[i]]))
  }

  lemma {:induction false} PhaseAKeepsRows(w: World, s: State, entries: seq<Entry>)
    ensures PhaseA(w, s, entries).rows.Keys == s.rows.Keys
    decreases |entries|
  {
    if entries != [] {
      var t := CheckedOne(w, s, entries[0]);
      assert t.rows.Keys == s.rows.Keys;
      PhaseAKeepsRows(w, t, entries[1..]);
    }
  }

  /** Connections and rows in the orders in which the pass meets them, and how many it reaches before it
      is cancelled; the check between the phases is one more. */
  datatype Schedule = Schedule(connected: seq<string>, stored: seq<string>, budget: nat)

  function Min(a: nat, b: nat): nat {
    if a < b then a else b
  }

  function HealthChecked(a: World, b: World, s: State, o: Schedule): State
    requires forall i :: 0 <= i < |o.connected| ==> o.connected[i] in s.live
    requires forall i :: 0 <= i < |o.stored| ==> o.stored[i] in s.rows
  {
    var n := |o.connected|;
    var t := PhaseA(a, s, Entries(s.live, o.connected)[..Min(o.budget, n)]);
    PhaseAKeepsRows(a, s, Entries(s.live, o.connected)[..Min(o.budget, n)]);
    assert forall i :: 0 <= i < |o.stored| ==> o.stored[i] in t.rows.Keys;
    if o.budget <= n then t else PhaseB(b, t, Records(t.rows, o.stored)[..Min(o.budget - n - 1, |o.stored|)])
  }

  class AgentRegistry {
    var rows: map<string, Row>
    var live: map<string, Conn>
    var fails: map<string, nat>
    ghost var history: seq<Observation>

    ghost function Contents(): State
      reads this
    {
      State(rows, live, fails, history)
    }

    /** A registry over an existing store. */
    constructor (stored: map<string, Row>)
      ensures Contents() == State(stored, map[], map[], [])
    {
      rows, live, fails, history := stored, map[], map[], [];
    }

    method UpdateStatus(name: string, status: string)
      modifies this`rows
      ensures rows == WithStatus(old(rows), name, status)
    {
      if name in rows {
        rows := rows[name := rows[name].(status := status)];
      }
    }

    method RegisterAgent(w: World, r: Registration) returns (ok: bool)
      modifies this
      ensures Contents() == Registered(w, old(Contents()), r)
      ensures ok <==> MayRegister(old(Contents()), r) && DiscoveredCard(w, r.url, r.provided).Some?
    {
      if r.name in rows {
        if !(r.secret != "" && rows[r.name].secret == r.secret) {
          return false;
        }
      }
      if r.url == "" {
        return false;
      }
      var kind := r.kind;
      if kind == "" {
        kind := "external";
      }
      var card := Card(false, "");
      if r.provided.Some? {
        card := r.provided.value.(isStatic := true);
        if card.healthUrl != "" && !w.healthOk(card.healthUrl) {
          return false;
        }
      } else {
        var fetched := w.fetch(r.url);
        if fetched.None? {
          return false;
        }
        card := fetched.value;
        if !w.ping(r.url) {
          return false;
        }
      }
      rows := rows[r.name := Row(kind, r.url, "connected", Some(card), r.secret)];
      live := live[r.name := Conn(card, r.url)];
      ok := true;
    }

    method UpdateAgentMetadata(w: World, name: string, url: string, provided: Option<Card>) returns (ok: bool)
      modifies this
      ensures Contents() == MetadataUpdated(w, old(Contents()), name, url, provided)
      ensures ok <==> MayUpdate(w, old(Contents()), name, provided)
    {
      if name !in rows || rows[name].kind == "builtin" {
        return false;
      }
      var existing := rows[name];
      var to := url;
      if TrimSpace(url) == "" {
        to := existing.url;
      }
      var card := Card(false, "");
      if provided.Some? {
        card := provided.value;
      } else if existing.card.Some? {
        card := existing.card.value;
      }
      card := card.(isStatic := true);
      if card.healthUrl != "" && !w.healthOk(card.healthUrl) {
        return false;
      }
      rows := rows[name := Row(existing.kind, to, "connected", Some(card), existing.secret)];
      live := live[name := Conn(card, to)];
      ok := true;
    }

    method RegisterBuiltinAgent(name: string)
      modifies this
      ensures Contents() == BuiltinRegistered(old(Contents()), name)
    {
      rows := rows[name := Row("builtin", "", "connected", Some(Card(false, "")), "")];
      live := live[name := Conn(Card(false, ""), "")];
    }

    method DisconnectAgent(name: string)
      modifies this
      ensures Contents() == Disconnected(old(Contents()), name)
    {
      UpdateStatus(name, "disconnected");
      live := live - {name};
      fails := fails - {name};
      history := history + [Disconnect(name)];
    }

    /** The handlers' removal of an agent. */
    method DeleteAgent(name: string)
      modifies this
      ensures Contents() == Deleted(old(Contents()), name)
    {
      DisconnectAgent(name);
      rows := rows - {name};
    }

    method RecordFailure(name: string, status: string)
      modifies this
      ensures Contents() == Failed(old(Contents()), name, status)
    {
      fails := fails[name := Count(fails, name) + 1];
      history := history + [Failure(name)];
      if fails[name] >= 3 {
        live := live - {name};
        UpdateStatus(name, status);
      }
    }

    method RecordSuccess(name: string)
      modifies this
      ensures Contents() == Recovered(old(Contents()), name)
    {
      fails := fails - {name};
      history := history + [Success(name)];
    }

    /** `order` lists the rows with status connected. */
    method RestoreConnections(w: World, order: seq<string>)
      requires forall i :: 0 <= i < |order| ==> order[i] in rows
      modifies this
      ensures Contents() == Restored(w, old(Contents()), Records(old(rows), order))
    {
      var records := Records(rows, order);
      for i := 0 to |records|
        invariant Restored(w, Contents(), records[i..]) == Restored(w, old(Contents()), records)
      {
        assert records[i..][0] == records[i] && records[i..][1..] == records[i + 1..];
        var rec := records[i];
        if rec.row.kind == "builtin" || rec.row.url == "" {
          continue;
        }
        var conn := Revived(w, rec.row);
        if conn.None? {
          UpdateStatus(rec.name, "disconnected");
        } else {
          live := live[rec.name := conn.value];
        }
      }
    }

    method CheckAgent(w: World, e: Entry)
      modifies this
      ensures Contents() == CheckedOne(w, old(Contents()), e)
    {
      if e.conn.url == "" {
        return;
      }
      if e.conn.card.isStatic {
        if e.conn.card.healthUrl != "" && !w.healthOk(e.conn.card.healthUrl) {
          RecordFailure(e.name, "unreachable");
          return;
        }
        RecordSuccess(e.name);
        return;
      }
      if !w.cardOk(e.conn.url) {
        RecordFailure(e.name, "offline");
        return;
      }
      if e.conn.card.healthUrl != "" && !w.healthOk(e.conn.card.healthUrl) {
        RecordFailure(e.name, "unreachable");
        return;
      }
      RecordSuccess(e.name);
    }

    method RetryAgent(w: World, rec: Record)
      modifies this
      ensures Contents() == RetriedOne(w, old(Contents()), rec)
    {
      if rec.row.status == "connected" || rec.row.status == "online" {
        return;
      }
      if rec.row.kind == "builtin" {
        return;
      }
      var conn := Revived(w, rec.row);
      if conn.Some? {
        live := live[rec.name := conn.value];
        fails := fails - {rec.name};
        history := history + [Reconnect(rec.name)];
        UpdateStatus(rec.name, "connected");
      }
    }

    /** Phase A over the connections in some order; `budget` entries are reached before the pass is
        cancelled. */
    method CheckConnected(w: World, order: seq<string>, budget: nat) returns (cancelled: bool)
      requires forall i :: 0 <= i < |order| ==> order[i] in live
      modifies this
      ensures Contents() == PhaseA(w, old(Contents()), Entries(old(live), order)[..Min(budget, |order|)])
      ensures cancelled <==> budget < |order|
    {
      var entries := Entries(live, order);
      ghost var todo := entries[..Min(budget, |order|)];
      for i := 0 to |entries|
        invariant i <= |todo|
        invariant PhaseA(w, Contents(), todo[i..]) == PhaseA(w, old(Contents()), todo)
      {
        if i >= budget {
          return true;
        }
        assert todo[i..][0] == entries[i] && todo[i..][1..] == todo[i + 1..];
        CheckAgent(w, entries[i]);
      }
      cancelled := false;
    }

    /** Phase B over all rows in some order. */
    method RetryDisconnected(w: World, order: seq<string>, budget: nat)
      requires forall i :: 0 <= i < |order| ==> order[i] in rows
      modifies this
      ensures Contents() == PhaseB(w, old(Contents()), Records(old(rows), order)[..Min(budget, |order|)])
    {
      var records := Records(rows, order);
      ghost var todo := records[..Min(budget, |order|)];
      for i := 0 to |records|
        invariant i <= |todo|
        invariant PhaseB(w, Contents(), todo[i..]) == PhaseB(w, old(Contents()), todo)
      {
        if i >= budget {
          return;
        }
        assert todo[i..][0] == records[i] && todo[i..][1..] == todo[i + 1..];
        RetryAgent(w, records[i]);
      }
    }

    /** `runHealthCheck`. */
    method RunHealthCheck(a: World, b: World, o: Schedule)
      requires forall i :: 0 <= i < |o.connected| ==> o.connected[i] in live
      requires forall i :: 0 <= i < |o.stored| ==> o.stored[i] in rows
      modifies this
      ensures Contents() == HealthChecked(a, b, old(Contents()), o)
    {
      var n := |o.connected|;
      PhaseAKeepsRows(a, Contents(), Entries(live, o.connected)[..Min(o.budget, n)]);
      var cancelled := CheckConnected(a, o.connected, o.budget);
      assert forall i :: 0 <= i < |o.stored| ==> o.stored[i] in rows.Keys;
      if cancelled || o.budget <= n {
        return;
      }
      RetryDisconnected(b, o.stored, o.budget - n - 1);
    }
  }
}
