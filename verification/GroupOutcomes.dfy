/** When somebody speaks in a group turn and what is recorded: who leads, which answers become events, and the
    notices of a streaming turn. */
module GroupOutcomes {
  import opened GoStrings
  import opened Json
  import opened GroupTurns

  // ---- Who leads

  predicate IsLeader(m: Member) {
    m.actorType == "agent" && m.role == "leader"
  }

  /** The first agent with the role of a leader, or, when there is none, the first agent. */
  predicate Leads(members: seq<Member>, i: nat) {
    && i < |members| && members[i].actorType == "agent"
    && (if IsLeader(members[i]) then forall k :: 0 <= k < i ==> !IsLeader(members[k])
        else (forall k :: 0 <= k < |members| ==> !IsLeader(members[k]))
             && forall k :: 0 <= k < i ==> members[k].actorType != "agent")
  }

  lemma {:induction false} FirstSpeaker(members: seq<Member>, leadersOnly: bool) returns (i: nat)
    ensures i <= |members|
    ensures forall k :: 0 <= k < i ==> !(IsAgent(members[k]) && (leadersOnly ==> members[k].role == "leader"))
    ensures i < |members| ==> IsAgent(members[i]) && (leadersOnly ==> members[i].role == "leader")
    ensures var s := GroupSpeakers(members, leadersOnly);
            if i == |members| then s == [] else s != [] && s[0] == members[i].actorId
  {
    i := 0;
    if members != [] {
      if !(IsAgent(members[0]) && (leadersOnly ==> members[0].role == "leader")) {
        var j := FirstSpeaker(members[1..], leadersOnly);
        assert forall k :: 1 <= k < |members| ==> members[k] == members[1..][k - 1];
        i := j + 1;
      }
    }
  }

  /** The chosen leader is the one who leads, and nobody when there is no agent. */
  lemma LeaderIs(members: seq<Member>) returns (i: nat)
    ensures i < |members| ==> Leads(members, i) && Head(EligibleSpeakers(members, true)) == members[i].actorId
    ensures i >= |members| ==> (forall k :: 0 <= k < |members| ==> members[k].actorType != "agent")
                               && Head(EligibleSpeakers(members, true)) == ""
  {
    i := FirstSpeaker(members, true);
    if i == |members| {
      i := FirstSpeaker(members, false);
    }
  }

  // ---- Who may speak

  /** A row that lets an agent speak to a message of this sender: no observer, and not the sender itself. */
  predicate LetsSpeak(m: Member, senderType: string, senderId: string, name: string) {
    && m.actorType == "agent" && m.role != "observer" && m.actorId == name
    && (senderType != "agent" || name != senderId)
  }

  predicate FirstLets(members: seq<Member>, senderType: string, senderId: string, name: string, i: int) {
    && 0 <= i < |members| && LetsSpeak(members[i], senderType, senderId, name)
    && forall k :: 0 <= k < i ==> !LetsSpeak(members[k], senderType, senderId, name)
  }

  lemma FirstRowIs(members: seq<Member>, st: string, sid: string, name: string)
    ensures var i := FirstRow(members, st, sid, name);
            i < |members| ==> FirstLets(members, st, sid, name, i)
    ensures FirstRow(members, st, sid, name) == |members| ==>
            forall k :: 0 <= k < |members| ==> !LetsSpeak(members[k], st, sid, name)
  {
  }

  /** The candidates of a free-chat turn are exactly the agents that some row lets speak, each once, in the
      order of the first such rows. */
  lemma CandidatesSay(members: seq<Member>, st: string, sid: string)
    ensures var names := Candidates(members, st, sid);
            && (forall name :: name in names <==>
                  exists k :: 0 <= k < |members| && LetsSpeak(members[k], st, sid, name))
            && forall i, j, a, b ::
                 (0 <= i < j < |names| && FirstLets(members, st, sid, names[i], a)
                  && FirstLets(members, st, sid, names[j], b)) ==> a < b
  {
    CandidatesAreSpeakers(members, st, sid);
    forall name ensures (name in Candidates(members, st, sid)) <==>
                        exists k :: 0 <= k < |members| && LetsSpeak(members[k], st, sid, name)
    {
      FirstRowIs(members, st, sid, name);
    }
    var names := Candidates(members, st, sid);
    forall i, j, a, b |
      0 <= i < j < |names| && FirstLets(members, st, sid, names[i], a) && FirstLets(members, st, sid, names[j], b)
      ensures a < b
    {
      FirstRowIs(members, st, sid, names[i]);
      FirstRowIs(members, st, sid, names[j]);
    }
  }

  // ---- What is recorded of an answer

  /** A failed answer is reported by its trimmed body, or by its status when that is blank. */
  predicate Reports(who: string, name: string, r: Response, e: GroupEvent) {
    && e.kind == "orchestration_error" && e.senderType == "system" && e.senderId == "platform"
    && e.content == if TrimSpace(Body(r)) != "" then TrimSpace(Body(r))
                    else who + name + " failed with status " + (if r.status < 0 then "-" + Decimal(-r.status)
                                                                else Decimal(r.status))
  }

  predicate Says(name: string, text: string, e: GroupEvent) {
    e.kind == "message" && e.senderType == "agent" && e.senderId == name && e.content == text
  }

  /** The agent who leads answers exactly when the group is led, the message is one and not an agent's, and it
      can be invoked.  A failed answer is reported; another one is recorded, trimmed when it is streamed,
      unless it is blank. */
  lemma LeaderSays(c: Codec, w: World, how: Reader, g: Group, trigger: GroupEvent, log: seq<GroupEvent>, i: nat)
    requires Leads(g.members, i)
    ensures var e := LeaderReaction(c, w, how, g, trigger, log);
            var name := g.members[i].actorId;
            var r := w.answer(name, "leader", log);
            var text := Read(c, how, r);
            if g.mode == "leader_led" && trigger.kind == "message" && trigger.senderType != "agent"
               && name != "" && w.invocable(name)
            then
              if r.status >= 400 then e.Some? && Reports("leader ", name, r, e.value)
              else if TrimSpace(text) == "" then e == None
              else e.Some? && Says(name, if how == Framewise then TrimSpace(text) else text, e.value)
            else e == None
  {
    var k := LeaderIs(g.members);
    OneLeads(g.members, i, k);
  }

  lemma OneLeads(members: seq<Member>, i: nat, k: nat)
    requires Leads(members, i)
    requires k < |members| ==> Leads(members, k)
    requires k >= |members| ==> forall j :: 0 <= j < |members| ==> members[j].actorType != "agent"
    ensures i == k
  {
  }

  /** Without any agent nobody answers. */
  lemma NobodyLeads(c: Codec, w: World, how: Reader, g: Group, trigger: GroupEvent, log: seq<GroupEvent>)
    requires forall i :: 0 <= i < |g.members| ==> g.members[i].actorType != "agent"
    ensures LeaderReaction(c, w, how, g, trigger, log) == None
  {
    var i := LeaderIs(g.members);
  }

  /** What is made of the answer of one candidate. */
  predicate Heard(c: Codec, how: Reader, name: string, r: Response, e: Option<GroupEvent>) {
    var text := TrimSpace(Read(c, how, r));
    if r.status >= 400 then e.Some? && Reports("agent ", name, r, e.value)
    else if text == "" || IsNoReply(text) then e == None
    else e.Some? && Says(name, text, e.value)
  }

  const QUOTES := "`\"' "

  /** The same text, where small ASCII letters stand for capitals. */
  predicate Spells(a: string, b: string) {
    |a| == |b| && forall i :: 0 <= i < |a| ==>
                    a[i] == b[i] || ('a' <= a[i] <= 'z' && a[i] as int - 32 == b[i] as int)
  }

  predicate AllIn(s: string, cut: string) {
    forall i :: 0 <= i < |s| ==> s[i] in cut
  }

  predicate Bare(core: string, cut: string) {
    core != "" && core[0] !in cut && core[|core| - 1] !in cut
  }

  lemma {:induction false} CutsLeft(q: string, core: string, cut: string)
    requires AllIn(q, cut) && core != "" && core[0] !in cut
    ensures TrimCutLeft(q + core, cut) == core
  {
    if q == "" {
      assert q + core == core;
    } else {
      assert (q + core)[0] == q[0] && (q + core)[1..] == q[1..] + core;
      CutsLeft(q[1..], core, cut);
    }
  }

  lemma {:induction false} CutsRight(core: string, q: string, cut: string)
    requires AllIn(q, cut) && core != "" && core[|core| - 1] !in cut
    ensures TrimCutRight(core + q, cut) == core
  {
    if q == "" {
      assert core + q == core;
    } else {
      var n := |q| - 1;
      assert (core + q)[|core + q| - 1] == q[n] && (core + q)[..|core + q| - 1] == core + q[..n];
      CutsRight(core, q[..n], cut);
    }
  }

  lemma SpellsIsFold(core: string, marker: string)
    requires forall i :: 0 <= i < |marker| ==> !('a' <= marker[i] <= 'z')
    ensures EqualFold(core, marker) <==> Spells(core, marker)
  {
  }

  lemma MarkersHaveNoSmallLetters()
    ensures forall i :: 0 <= i < 8 ==> !('a' <= "NO_REPLY"[i] <= 'z') && !('a' <= "NO REPLY"[i] <= 'z')
    ensures forall i :: 0 <= i < |NO_REPLY_CHINESE| ==> !('a' <= NO_REPLY_CHINESE[i] <= 'z')
  {
  }

  /** A text says that there is no reply exactly when, without the quotes and spaces around it, it is one of
      the three markers in whatever case. */
  lemma NoReplySays(left: string, core: string, right: string)
    requires AllIn(left, QUOTES) && AllIn(right, QUOTES) && Bare(core, QUOTES) && Tight(core)
    ensures IsNoReply(left + core + right) <==>
            Spells(core, "NO_REPLY") || Spells(core, "NO REPLY") || Spells(core, NO_REPLY_CHINESE)
  {
    Assoc(left, core, right);
    assert (core + right)[0] == core[0];
    CutsLeft(left, core + right, QUOTES);
    CutsRight(core, right, QUOTES);
    TrimSpaceFixes(core);
    MarkersHaveNoSmallLetters();
    SpellsIsFold(core, "NO_REPLY");
    SpellsIsFold(core, "NO REPLY");
    SpellsIsFold(core, NO_REPLY_CHINESE);
  }

  datatype Hearing = Hearing(name: string, event: Option<GroupEvent>)

  function EventsOf(hs: seq<Hearing>): seq<GroupEvent> {
    if hs == [] then []
    else EventsOf(hs[..|hs| - 1]) + match hs[|hs| - 1].event case None => [] case Some(e) => [e]
  }

  function NoticesOf(hs: seq<Hearing>): seq<Notice> {
    if hs == [] then []
    else
      var h := hs[|hs| - 1];
      NoticesOf(hs[..|hs| - 1]) + [AgentStart(h.name)]
      + [match h.event case None => AgentSkip(h.name) case Some(e) => Announce(e)]
  }

  function NamesOf(hs: seq<Hearing>): (r: seq<string>)
    ensures |r| == |hs|
  {
    seq(|hs|, i requires 0 <= i < |hs| => hs[i].name)
  }

  function Invocable(w: World, names: seq<string>): seq<string> {
    if names == [] then [] else (if w.invocable(names[0]) then [names[0]] else []) + Invocable(w, names[1..])
  }

  /** A turn of at most `max` events in which exactly the invocable candidates are asked, in their order and up
      to that many events, each after what the ones before it have said. */
  ghost predicate IsTurn(c: Codec, w: World, how: Reader, max: nat, names: seq<string>, log: seq<GroupEvent>,
                         hs: seq<Hearing>)
  {
    && NamesOf(hs) <= Invocable(w, names)
    && (forall k :: 0 <= k < |hs| ==>
          && Heard(c, how, hs[k].name, w.answer(hs[k].name, "free_chat", log + EventsOf(hs[..k])), hs[k].event)
          && |EventsOf(hs[..k])| < max)
    && (NamesOf(hs) != Invocable(w, names) ==> |EventsOf(hs)| >= max)
  }

  lemma EventsPush(hs: seq<Hearing>, h: Hearing)
    ensures EventsOf(hs + [h]) == EventsOf(hs) + (match h.event case None => [] case Some(e) => [e])
    ensures NoticesOf(hs + [h]) == NoticesOf(hs) + [AgentStart(h.name)]
                                   + [match h.event case None => AgentSkip(h.name) case Some(e) => Announce(e)]
    ensures NamesOf(hs + [h]) == NamesOf(hs) + [h.name]
  {
    assert (hs + [h])[..|hs|] == hs;
  }

  lemma AskedHears(c: Codec, w: World, how: Reader, name: string, t: Turn) returns (h: Hearing)
    ensures h.name == name && Heard(c, how, name, w.answer(name, "free_chat", t.log), h.event)
    ensures var e := match h.event case None => [] case Some(e) => [e];
            Asked(c, w, how, name, t) ==
            Turn(t.log + e, t.triggered + e,
                 t.notices + [AgentStart(name)]
                 + [match h.event case None => AgentSkip(name) case Some(e) => Announce(e)])
  {
    var r := w.answer(name, "free_chat", t.log);
    h := Hearing(name, Reaction(name, r, Read(c, how, r)));
    assert t.log + [] == t.log && t.triggered + [] == t.triggered;
  }

  /** The turn so far: `done` are the hearings, `asked` the invocable names they stand for. */
  ghost predicate SoFar(c: Codec, w: World, how: Reader, max: nat, asked: seq<string>, log: seq<GroupEvent>,
                        hs: seq<Hearing>, t: Turn)
  {
    && t == Turn(log + EventsOf(hs), EventsOf(hs), NoticesOf(hs)) && NamesOf(hs) == asked
    && forall k :: 0 <= k < |hs| ==>
         && Heard(c, how, hs[k].name, w.answer(hs[k].name, "free_chat", log + EventsOf(hs[..k])), hs[k].event)
         && |EventsOf(hs[..k])| < max
  }

  lemma SoFarPush(c: Codec, w: World, how: Reader, max: nat, asked: seq<string>, log: seq<GroupEvent>,
                  hs: seq<Hearing>, t: Turn, name: string)
    returns (more: seq<Hearing>)
    requires SoFar(c, w, how, max, asked, log, hs, t) && |t.triggered| < max
    ensures SoFar(c, w, how, max, asked + [name], log, more, Asked(c, w, how, name, t))
  {
    var h := AskedHears(c, w, how, name, t);
    more := hs + [h];
    EventsPush(hs, h);
    Assoc(log, EventsOf(hs), match h.event case None => [] case Some(e) => [e]);
    forall k | 0 <= k < |more|
      ensures Heard(c, how, more[k].name, w.answer(more[k].name, "free_chat", log + EventsOf(more[..k])), more[k].event)
      ensures |EventsOf(more[..k])| < max
    {
      if k < |hs| {
        assert more[..k] == hs[..k] && more[k] == hs[k];
      } else {
        assert more[..k] == hs && more[k] == h;
      }
    }
  }

  /** The rest of a turn: the invocable names that are still asked, and all hearings. */
  ghost predicate Rest(c: Codec, w: World, how: Reader, max: nat, before: seq<string>, names: seq<string>,
                       log: seq<GroupEvent>, asked: seq<string>, all: seq<Hearing>, r: Turn)
  {
    && SoFar(c, w, how, max, before + asked, log, all, r) && asked <= Invocable(w, names)
    && (asked != Invocable(w, names) ==> |EventsOf(all)| >= max)
  }

  lemma RestAsked(c: Codec, w: World, how: Reader, max: nat, before: seq<string>, names: seq<string>,
                  log: seq<GroupEvent>, asked: seq<string>, all: seq<Hearing>, r: Turn)
    requires names != [] && w.invocable(names[0])
    requires Rest(c, w, how, max, before + [names[0]], names[1..], log, asked, all, r)
    ensures Rest(c, w, how, max, before, names, log, [names[0]] + asked, all, r)
  {
    Assoc(before, [names[0]], asked);
    PrefixCons(names[0], asked, Invocable(w, names[1..]));
    assert Invocable(w, names) == [names[0]] + Invocable(w, names[1..]);
    SoFarSame(c, w, how, max, before + [names[0]] + asked, before + ([names[0]] + asked), log, all, r);
  }

  lemma PrefixCons(x: string, a: seq<string>, b: seq<string>)
    requires a <= b
    ensures [x] + a <= [x] + b && ([x] + a != [x] + b ==> a != b)
  {
  }

  lemma SoFarSame(c: Codec, w: World, how: Reader, max: nat, a: seq<string>, b: seq<string>, log: seq<GroupEvent>,
                  hs: seq<Hearing>, t: Turn)
    requires SoFar(c, w, how, max, a, log, hs, t) && a == b
    ensures SoFar(c, w, how, max, b, log, hs, t)
  {
  }

  lemma RestSkipped(c: Codec, w: World, how: Reader, max: nat, before: seq<string>, names: seq<string>,
                    log: seq<GroupEvent>, asked: seq<string>, all: seq<Hearing>, r: Turn)
    requires names != [] && !w.invocable(names[0])
    requires Rest(c, w, how, max, before, names[1..], log, asked, all, r)
    ensures Rest(c, w, how, max, before, names, log, asked, all, r)
  {
    assert [] + Invocable(w, names[1..]) == Invocable(w, names[1..]);
  }

  lemma {:induction false} FreeChatHears(c: Codec, w: World, how: Reader, max: nat, before: seq<string>,
                                         names: seq<string>, log: seq<GroupEvent>, hs: seq<Hearing>, t: Turn)
    returns (asked: seq<string>, all: seq<Hearing>)
    requires SoFar(c, w, how, max, before, log, hs, t)
    ensures Rest(c, w, how, max, before, names, log, asked, all, FreeChat(c, w, how, max, names, t))
    decreases |names|
  {
    if names == [] || |t.triggered| >= max {
      asked, all := [], hs;
      assert before + [] == before;
    } else if w.invocable(names[0]) {
      var more := SoFarPush(c, w, how, max, before, log, hs, t, names[0]);
      var next := Asked(c, w, how, names[0], t);
      asked, all := FreeChatHears(c, w, how, max, before + [names[0]], names[1..], log, more, next);
      RestAsked(c, w, how, max, before, names, log, asked, all, FreeChat(c, w, how, max, names[1..], next));
      asked := [names[0]] + asked;
    } else {
      asked, all := FreeChatHears(c, w, how, max, before, names[1..], log, hs, t);
      RestSkipped(c, w, how, max, before, names, log, asked, all, FreeChat(c, w, how, max, names[1..], t));
    }
  }

  /** The number of speakers that a group allows: its own rule from 1 to 8, and 3 when it has none. */
  function Allowed(rule: int): nat {
    if rule <= 0 then 3 else if rule <= 8 then rule else 8
  }

  /** A free-chat turn, streaming or recorded: a message that is not the system's makes the candidates speak
      one after the other; the log, the returned list and the notices are those of their hearings. */
  lemma FreeChatSays(c: Codec, w: World, how: Reader, g: Group, trigger: GroupEvent, log: seq<GroupEvent>)
    returns (hs: seq<Hearing>)
    ensures FreeChatTurn(c, w, how, g, trigger, log) == Turn(log + EventsOf(hs), EventsOf(hs), NoticesOf(hs))
    ensures if trigger.kind == "message" && trigger.senderType != "system"
            then IsTurn(c, w, how, Allowed(g.maxSpeakers), Candidates(g.members, trigger.senderType, trigger.senderId),
                        log, hs)
            else hs == []
  {
    hs := [];
    assert log + [] == log;
    if FreeChatRuns(trigger) {
      var max, names := MaxSpeakers(g.maxSpeakers), Candidates(g.members, trigger.senderType, trigger.senderId);
      assert NamesOf([]) == [];
      var asked;
      asked, hs := FreeChatHears(c, w, how, max, [], names, log, [], Turn(log, [], []));
      assert [] + asked == asked;
    }
  }
}
