/** Turns of a group: who may speak, and the streaming and the recorded version of a free-chat turn and
    of a leader turn. */
module GroupTurns {
  import opened GoStrings
  import opened Json
  import Extractors

  datatype Member = Member(actorType: string, actorId: string, role: string)

  datatype GroupEvent = GroupEvent(kind: string, senderType: string, senderId: string, content: string)

  /** The answer of an invoked agent: its status and its body, as it was written. */
  datatype Response = Response(status: int, chunks: seq<string>)

  /** Who can be invoked, and what an agent answers in a role when it is asked after these group events. */
  datatype World = World(invocable: string -> bool, answer: (string, string, seq<GroupEvent>) -> Response)

  /** What a streaming turn sends on the side. */
  datatype Notice = AgentStart(agent: string) | AgentSkip(agent: string) | Announce(event: GroupEvent)

  // ---- Speakers

  predicate IsAgent(m: Member) {
    m.actorType == "agent"
  }

  function GroupSpeakers(members: seq<Member>, leadersOnly: bool): seq<string> {
    if members == [] then []
    else
      (if IsAgent(members[0]) && (leadersOnly ==> members[0].role == "leader") then [members[0].actorId] else [])
      + GroupSpeakers(members[1..], leadersOnly)
  }

  /** `groupSpeakers`: with no leader, all agents are eligible. */
  function EligibleSpeakers(members: seq<Member>, leadersOnly: bool): seq<string> {
    var speakers := GroupSpeakers(members, leadersOnly);
    if leadersOnly && speakers == [] then GroupSpeakers(members, false) else speakers
  }

  lemma GroupSpeakersPush(members: seq<Member>, leadersOnly: bool, i: nat, sofar: seq<string>)
    requires i < |members|
    ensures var m := members[i];
            sofar + GroupSpeakers(members[i..], leadersOnly) ==
            (if IsAgent(m) && (leadersOnly ==> m.role == "leader") then sofar + [m.actorId] else sofar)
            + GroupSpeakers(members[i + 1..], leadersOnly)
  {
  }

  method ListSpeakers(members: seq<Member>, leadersOnly: bool) returns (speakers: seq<string>)
    ensures speakers == EligibleSpeakers(members, leadersOnly)
    decreases leadersOnly
  {
    speakers := [];
    for i := 0 to |members|
      invariant speakers + GroupSpeakers(members[i..], leadersOnly) == GroupSpeakers(members, leadersOnly)
    {
      GroupSpeakersPush(members, leadersOnly, i, speakers);
      if !IsAgent(members[i]) {
        continue;
      }
      if leadersOnly && members[i].role != "leader" {
        continue;
      }
      speakers := speakers + [members[i].actorId];
    }
    if leadersOnly && |speakers| > 0 {
      return;
    }
    if leadersOnly {
      speakers := ListSpeakers(members, false);
    }
  }

  function Head(names: seq<string>): string {
    if names == [] then "" else names[0]
  }

  /** The chosen leader is the head of the leaders-first speaker list. */
  method SelectGroupLeader(members: seq<Member>) returns (leader: string)
    ensures leader == Head(EligibleSpeakers(members, true))
  {
    for i := 0 to |members|
      invariant GroupSpeakers(members[i..], true) == GroupSpeakers(members, true)
    {
      GroupSpeakersPush(members, true, i, []);
      if IsAgent(members[i]) && members[i].role == "leader" {
        return members[i].actorId;
      }
    }
    for i := 0 to |members|
      invariant GroupSpeakers(members, true) == []
      invariant GroupSpeakers(members[i..], false) == GroupSpeakers(members, false)
    {
      GroupSpeakersPush(members, false, i, []);
      if IsAgent(members[i]) {
        return members[i].actorId;
      }
    }
    return "";
  }

  // ---- Candidates of a free-chat turn

  predicate MaySpeak(m: Member, senderType: string, senderId: string) {
    IsAgent(m) && m.role != "observer" && !(senderType == "agent" && m.actorId == senderId)
  }

  function Candidates(members: seq<Member>, senderType: string, senderId: string): seq<string> {
    if members == [] then []
    else
      var before := Candidates(members[..|members| - 1], senderType, senderId);
      var m := members[|members| - 1];
      if MaySpeak(m, senderType, senderId) && m.actorId !in before then before + [m.actorId] else before
  }

  method FreeChatCandidates(members: seq<Member>, senderType: string, senderId: string)
    returns (candidates: seq<string>)
    ensures candidates == Candidates(members, senderType, senderId)
  {
    candidates := [];
    var seen: set<string> := {};
    for i := 0 to |members|
      invariant forall name :: name in seen <==> name in candidates
      invariant candidates == Candidates(members[..i], senderType, senderId)
    {
      assert members[..i + 1][..i] == members[..i];
      var m := members[i];
      if !IsAgent(m) || m.role == "observer" {
        continue;
      }
      if senderType == "agent" && m.actorId == senderId {
        continue;
      }
      if m.actorId in seen {
        continue;
      }
      seen := seen + {m.actorId};
      candidates := candidates + [m.actorId];
    }
    assert members[..|members|] == members;
  }

  /** Index of the first row that lets the agent speak; the number of rows when there is none. */
  function FirstRow(members: seq<Member>, senderType: string, senderId: string, name: string): (i: nat)
    ensures i <= |members|
    ensures i < |members| ==> MaySpeak(members[i], senderType, senderId) && members[i].actorId == name
    ensures forall k :: 0 <= k < i ==> !(MaySpeak(members[k], senderType, senderId) && members[k].actorId == name)
  {
    if members == [] then 0
    else
      var n := |members| - 1;
      var i := FirstRow(members[..n], senderType, senderId, name);
      if i < n || (MaySpeak(members[n], senderType, senderId) && members[n].actorId == name) then i else n + 1
  }

  /** The candidates are exactly the agents with a speaking row, so never the sending agent and no
      agent that only observes; each is listed once, in the order of those rows. */
  lemma {:induction false} CandidatesAreSpeakers(members: seq<Member>, st: string, sid: string)
    ensures var names := Candidates(members, st, sid);
            && (forall name :: name in names <==> FirstRow(members, st, sid, name) < |members|)
            && (forall i, j :: 0 <= i < j < |names| ==>
                FirstRow(members, st, sid, names[i]) < FirstRow(members, st, sid, names[j]))
  {
    if members != [] {
      CandidatesAreSpeakers(members[..|members| - 1], st, sid);
    }
  }

  // ---- Replies

  const NO_REPLY_CHINESE := "\U{E4}\U{B8}\U{8D}\U{E5}\U{9B}\U{9E}\U{E5}\U{A4}\U{8D}"

  /** Upper case of a byte; the three marker texts hold no letter with a case variant outside ASCII. */
  function Upper(c: char): char {
    if 'a' <= c <= 'z' then (c as int - 32) as char else c
  }

  predicate EqualFold(a: string, b: string) {
    |a| == |b| && forall i :: 0 <= i < |a| ==> Upper(a[i]) == Upper(b[i])
  }

  function TrimCutLeft(s: string, cut: string): string {
    if s != "" && s[0] in cut then TrimCutLeft(s[1..], cut) else s
  }

  function TrimCutRight(s: string, cut: string): string {
    if s != "" && s[|s| - 1] in cut then TrimCutRight(s[..|s| - 1], cut) else s
  }

  predicate IsNoReply(text: string) {
    var normalized := TrimSpace(TrimCutRight(TrimCutLeft(text, "`\"' "), "`\"' "));
    EqualFold(normalized, "NO_REPLY") || EqualFold(normalized, "NO REPLY") || EqualFold(normalized, NO_REPLY_CHINESE)
  }

  function Body(r: Response): string {
    Concat(r.chunks)
  }

  function Digits(n: int): string {
    if n < 0 then "-" + Decimal(-n) else Decimal(n)
  }

  function FailureText(who: string, name: string, status: int, body: string): string {
    if TrimSpace(body) == "" then who + name + " failed with status " + Digits(status) else TrimSpace(body)
  }

  function SystemEvent(text: string): GroupEvent {
    GroupEvent("orchestration_error", "system", "platform", text)
  }

  function AgentMessage(name: string, text: string): GroupEvent {
    GroupEvent("message", "agent", name, text)
  }

  /** What one free-chat candidate adds, with the text that was read from its answer. */
  function Reaction(name: string, r: Response, text: string): Option<GroupEvent> {
    if r.status >= 400 then Some(SystemEvent(FailureText("agent ", name, r.status, Body(r))))
    else
      var t := TrimSpace(text);
      if t == "" || IsNoReply(t) then None else Some(AgentMessage(name, t))
  }

  /** The two ways of reading an answer: frames first, or the recorded body only. */
  datatype Reader = Framewise | Recorded

  function Read(c: Codec, how: Reader, r: Response): string {
    if how.Framewise? then Extractors.FrameText(c, Body(r)) else Extractors.LineText(c, Body(r))
  }

  function MaxSpeakers(rule: int): (n: nat)
    ensures 1 <= n <= 8 && (1 <= rule <= 8 ==> n == rule) && (rule <= 0 ==> n == 3) && (rule > 8 ==> n == 8)
  {
    if rule <= 0 then 3 else if rule > 8 then 8 else rule
  }

  // ---- A free-chat turn

  datatype Turn = Turn(log: seq<GroupEvent>, triggered: seq<GroupEvent>, notices: seq<Notice>)

  function Pushed(notices: seq<Notice>, first: Notice, second: Notice): seq<Notice> {
    (notices + [first]) + [second]
  }

  function Asked(c: Codec, w: World, how: Reader, name: string, t: Turn): Turn {
    var r := w.answer(name, "free_chat", t.log);
    match Reaction(name, r, Read(c, how, r))
    case None => t.(notices := Pushed(t.notices, AgentStart(name), AgentSkip(name)))
    case Some(e) => Turn(t.log + [e], t.triggered + [e], Pushed(t.notices, AgentStart(name), Announce(e)))
  }

  function FreeChat(c: Codec, w: World, how: Reader, max: nat, names: seq<string>, t: Turn): Turn
    decreases |names|
  {
    if names == [] || |t.triggered| >= max then t
    else FreeChat(c, w, how, max, names[1..], if w.invocable(names[0]) then Asked(c, w, how, names[0], t) else t)
  }

  datatype Group = Group(mode: string, maxSpeakers: int, members: seq<Member>)

  predicate FreeChatRuns(trigger: GroupEvent) {
    trigger.kind == "message" && trigger.senderType != "system"
  }

  /** The events of a whole turn, after the triggering event is in the log. */
  function FreeChatTurn(c: Codec, w: World, how: Reader, g: Group, trigger: GroupEvent, log: seq<GroupEvent>): Turn {
    if !FreeChatRuns(trigger) then Turn(log, [], [])
    else FreeChat(c, w, how, MaxSpeakers(g.maxSpeakers), Candidates(g.members, trigger.senderType, trigger.senderId),
                  Turn(log, [], []))
  }

  predicate LeaderRuns(w: World, g: Group, trigger: GroupEvent) {
    g.mode == "leader_led" && trigger.kind == "message" && trigger.senderType != "agent" &&
    var leader := Head(EligibleSpeakers(g.members, true)); leader != "" && w.invocable(leader)
  }

  /** The leader's event; `trimmed` is the streaming version. */
  function LeaderReaction(c: Codec, w: World, how: Reader, g: Group, trigger: GroupEvent,
                          log: seq<GroupEvent>): Option<GroupEvent> {
    if !LeaderRuns(w, g, trigger) then None
    else
      var leader := Head(EligibleSpeakers(g.members, true));
      var r := w.answer(leader, "leader", log);
      if r.status >= 400 then Some(SystemEvent(FailureText("leader ", leader, r.status, Body(r))))
      else
        var text := Read(c, how, r);
        if TrimSpace(text) == "" then None
        else Some(AgentMessage(leader, if how.Framewise? then TrimSpace(text) else text))
  }

  function Listed(e: Option<GroupEvent>): seq<GroupEvent> {
    match e case None => [] case Some(x) => [x]
  }

  /** The room: the stored events of a group. */
  class GroupRoom {
    var log: seq<GroupEvent>

    constructor ()
      ensures log == []
    {
      log := [];
    }

    method Append(e: GroupEvent)
      modifies this
      ensures log == old(log) + [e]
    {
      log := log + [e];
    }

    /** `invokeGroupAgent`: the whole body is recorded, then read. */
    method InvokeRecorded(c: Codec, r: Response) returns (text: string, raw: string)
      ensures raw == Body(r) && text == Read(c, Recorded, r)
    {
      raw := Concat(r.chunks);
      text := Extractors.ExtractGroupAgentResponseText(c, raw);
    }

    /** `invokeGroupAgentStreaming`: the writer handles each frame as it arrives. */
    method InvokeFramewise(c: Codec, r: Response) returns (text: string, raw: string)
      ensures raw == Body(r) && text == Read(c, Framewise, r)
    {
      text, raw := Extractors.InvokeStreaming(c, r.chunks);
    }

    /** One candidate of a streaming turn. */
    method StreamCandidate(c: Codec, w: World, name: string, triggered: seq<GroupEvent>, notices: seq<Notice>)
      returns (triggered': seq<GroupEvent>, notices': seq<Notice>)
      modifies this
      ensures Turn(log, triggered', notices') == Asked(c, w, Framewise, name, Turn(old(log), triggered, notices))
    {
      notices' := notices + [AgentStart(name)];
      var r := w.answer(name, "free_chat", log);
      var text, raw := InvokeFramewise(c, r);
      if r.status >= 400 {
        var e := SystemEvent(FailureText("agent ", name, r.status, raw));
        Append(e);
        return triggered + [e], notices' + [Announce(e)];
      }
      text := TrimSpace(text);
      if text == "" || IsNoReply(text) {
        return triggered, notices' + [AgentSkip(name)];
      }
      var e := AgentMessage(name, text);
      Append(e);
      return triggered + [e], notices' + [Announce(e)];
    }

    method StreamFreeChatTurn(c: Codec, w: World, g: Group, trigger: GroupEvent)
      returns (triggered: seq<GroupEvent>, notices: seq<Notice>)
      modifies this
      ensures Turn(log, triggered, notices) == FreeChatTurn(c, w, Framewise, g, trigger, old(log))
    {
      triggered, notices := [], [];
      if trigger.kind != "message" || trigger.senderType == "system" {
        return;
      }
      var maxSpeakers := g.maxSpeakers;
      if maxSpeakers <= 0 {
        maxSpeakers := 3;
      }
      if maxSpeakers > 8 {
        maxSpeakers := 8;
      }
      var candidates := FreeChatCandidates(g.members, trigger.senderType, trigger.senderId);
      if |candidates| == 0 {
        return;
      }
      for i := 0 to |candidates|
        invariant FreeChat(c, w, Framewise, maxSpeakers, candidates[i..], Turn(log, triggered, notices)) ==
                  FreeChat(c, w, Framewise, maxSpeakers, candidates, Turn(old(log), [], []))
      {
        assert candidates[i..][0] == candidates[i] && candidates[i..][1..] == candidates[i + 1..];
        if |triggered| >= maxSpeakers {
          break;
        }
        if !w.invocable(candidates[i]) {
          continue;
        }
        triggered, notices := StreamCandidate(c, w, candidates[i], triggered, notices);
      }
    }

    /** One candidate of a recorded turn. */
    method AskCandidate(c: Codec, w: World, name: string, triggered: seq<GroupEvent>, ghost notices: seq<Notice>)
      returns (triggered': seq<GroupEvent>)
      modifies this
      ensures var t := Asked(c, w, Recorded, name, Turn(old(log), triggered, notices));
              log == t.log && triggered' == t.triggered
    {
      var r := w.answer(name, "free_chat", log);
      var text, raw := InvokeRecorded(c, r);
      if r.status >= 400 {
        var e := SystemEvent(FailureText("agent ", name, r.status, raw));
        Append(e);
        return triggered + [e];
      }
      text := TrimSpace(text);
      if text == "" || IsNoReply(text) {
        return triggered;
      }
      var e := AgentMessage(name, text);
      Append(e);
      return triggered + [e];
    }

    method MaybeRunFreeChatTurn(c: Codec, w: World, g: Group, trigger: GroupEvent) returns (triggered: seq<GroupEvent>)
      modifies this
      ensures log == FreeChatTurn(c, w, Recorded, g, trigger, old(log)).log
      ensures triggered == FreeChatTurn(c, w, Recorded, g, trigger, old(log)).triggered
    {
      triggered := [];
      if trigger.kind != "message" || trigger.senderType == "system" {
        return;
      }
      var maxSpeakers := g.maxSpeakers;
      if maxSpeakers <= 0 {
        maxSpeakers := 3;
      }
      if maxSpeakers > 8 {
        maxSpeakers := 8;
      }
      var candidates := FreeChatCandidates(g.members, trigger.senderType, trigger.senderId);
      if |candidates| == 0 {
        return;
      }
      ghost var notices: seq<Notice> := [];
      for i := 0 to |candidates|
        invariant FreeChat(c, w, Recorded, maxSpeakers, candidates[i..], Turn(log, triggered, notices)) ==
                  FreeChat(c, w, Recorded, maxSpeakers, candidates, Turn(old(log), [], []))
      {
        assert candidates[i..][0] == candidates[i] && candidates[i..][1..] == candidates[i + 1..];
        if |triggered| >= maxSpeakers {
          break;
        }
        if !w.invocable(candidates[i]) {
          continue;
        }
        ghost var t := Asked(c, w, Recorded, candidates[i], Turn(log, triggered, notices));
        triggered := AskCandidate(c, w, candidates[i], triggered, notices);
        notices := t.notices;
        assert Turn(log, triggered, notices) == t;
      }
    }

    method StreamLeaderTurn(c: Codec, w: World, g: Group, trigger: GroupEvent) returns (triggered: seq<GroupEvent>)
      modifies this
      ensures triggered == Listed(LeaderReaction(c, w, Framewise, g, trigger, old(log)))
      ensures log == old(log) + triggered
    {
      triggered := [];
      if g.mode != "leader_led" || trigger.kind != "message" || trigger.senderType == "agent" {
        return;
      }
      var leader := SelectGroupLeader(g.members);
      if leader == "" || !w.invocable(leader) {
        return;
      }
      var r := w.answer(leader, "leader", log);
      var text, raw := InvokeFramewise(c, r);
      if r.status >= 400 {
        var e := SystemEvent(FailureText("leader ", leader, r.status, raw));
        Append(e);
        return [e];
      }
      text := TrimSpace(text);
      if text == "" {
        return;
      }
      Append(AgentMessage(leader, text));
      triggered := [AgentMessage(leader, text)];
    }

    method MaybeRunLeaderTurn(c: Codec, w: World, g: Group, trigger: GroupEvent) returns (triggered: seq<GroupEvent>)
      modifies this
      ensures triggered == Listed(LeaderReaction(c, w, Recorded, g, trigger, old(log)))
      ensures log == old(log) + triggered
    {
      triggered := [];
      if g.mode != "leader_led" || trigger.kind != "message" || trigger.senderType == "agent" {
        return;
      }
      var leader := SelectGroupLeader(g.members);
      if leader == "" || !w.invocable(leader) {
        return;
      }
      var r := w.answer(leader, "leader", log);
      var text, raw := InvokeRecorded(c, r);
      if r.status >= 400 {
        var e := SystemEvent(FailureText("leader ", leader, r.status, raw));
        Append(e);
        return [e];
      }
      if TrimSpace(text) == "" {
        return;
      }
      Append(AgentMessage(leader, text));
      triggered := [AgentMessage(leader, text)];
    }
  }
}
