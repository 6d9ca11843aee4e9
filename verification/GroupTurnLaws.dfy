/** What the two versions of a group turn share, and whom a turn lets speak. */
module GroupTurnLaws {
  import opened GoStrings
  import opened Json
  import opened Printer
  import Extractors
  import opened BodyReaders
  import opened GroupTurns
  import L = ToolLoop

  // ---- Streaming and recorded turns agree

  /** The two readers take the same text from the bytes of an answer that is not an error. */
  ghost predicate Consistent(c: Codec, r: Response) {
    r.status < 400 ==> SameDeltas(c, Body(r))
  }

  /** The same of every answer that the streaming turn asks for. */
  ghost predicate AskedConsistent(c: Codec, w: World, max: nat, names: seq<string>, t: Turn)
    decreases |names|
  {
    names == [] || |t.triggered| >= max
    || (if w.invocable(names[0])
        then Consistent(c, w.answer(names[0], "free_chat", t.log)) &&
             AskedConsistent(c, w, max, names[1..], Asked(c, w, Framewise, names[0], t))
        else AskedConsistent(c, w, max, names[1..], t))
  }

  lemma SameReading(c: Codec, r: Response)
    requires Consistent(c, r) && r.status < 400
    ensures Read(c, Framewise, r) == Read(c, Recorded, r)
  {
    SameDeltasSameText(c, Body(r));
  }

  lemma AskedAgrees(c: Codec, w: World, name: string, t: Turn)
    requires Consistent(c, w.answer(name, "free_chat", t.log))
    ensures Asked(c, w, Framewise, name, t) == Asked(c, w, Recorded, name, t)
  {
    var r := w.answer(name, "free_chat", t.log);
    if r.status < 400 {
      SameReading(c, r);
    }
  }

  lemma {:induction false} FreeChatAgrees(c: Codec, w: World, max: nat, names: seq<string>, t: Turn)
    requires AskedConsistent(c, w, max, names, t)
    ensures FreeChat(c, w, Framewise, max, names, t) == FreeChat(c, w, Recorded, max, names, t)
    decreases |names|
  {
    if names != [] && |t.triggered| < max {
      if w.invocable(names[0]) {
        AskedAgrees(c, w, names[0], t);
        FreeChatAgrees(c, w, max, names[1..], Asked(c, w, Framewise, names[0], t));
      } else {
        FreeChatAgrees(c, w, max, names[1..], t);
      }
    }
  }

  function FirstTurn(log: seq<GroupEvent>): Turn {
    Turn(log, [], [])
  }

  ghost predicate TurnConsistent(c: Codec, w: World, g: Group, trigger: GroupEvent, log: seq<GroupEvent>) {
    FreeChatRuns(trigger) ==>
      AskedConsistent(c, w, MaxSpeakers(g.maxSpeakers), Candidates(g.members, trigger.senderType, trigger.senderId),
                      FirstTurn(log))
  }

  /** When every answer that the turn meets reads the same in its bytes, the two versions of a free-chat
      turn append the same events and return the same list. */
  lemma FreeChatTurnsAgree(c: Codec, w: World, g: Group, trigger: GroupEvent, log: seq<GroupEvent>)
    requires TurnConsistent(c, w, g, trigger, log)
    ensures FreeChatTurn(c, w, Framewise, g, trigger, log) == FreeChatTurn(c, w, Recorded, g, trigger, log)
  {
    if FreeChatRuns(trigger) {
      FreeChatAgrees(c, w, MaxSpeakers(g.maxSpeakers), Candidates(g.members, trigger.senderType, trigger.senderId),
                     FirstTurn(log));
    }
  }

  ghost predicate LeaderConsistent(c: Codec, w: World, g: Group, trigger: GroupEvent, log: seq<GroupEvent>) {
    LeaderRuns(w, g, trigger) ==> Consistent(c, w.answer(Head(EligibleSpeakers(g.members, true)), "leader", log))
  }

  /** Leader turns agree up to trimming: the recorded version keeps the spaces around the reply. */
  lemma LeaderTurnsAgree(c: Codec, w: World, g: Group, trigger: GroupEvent, log: seq<GroupEvent>)
    requires LeaderConsistent(c, w, g, trigger, log)
    ensures var streamed := LeaderReaction(c, w, Framewise, g, trigger, log);
            var recorded := LeaderReaction(c, w, Recorded, g, trigger, log);
            && (streamed.None? <==> recorded.None?)
            && (streamed.Some? ==> streamed.value == recorded.value.(content := TrimSpace(recorded.value.content)))
  {
    var leader := Head(EligibleSpeakers(g.members, true));
    var r := w.answer(leader, "leader", log);
    if LeaderRuns(w, g, trigger) {
      if r.status >= 400 {
        FailureTextIsTight("leader ", leader, r.status, Body(r));
      } else {
        SameReading(c, r);
      }
    }
  }

  // ---- Engine agents

  /** The answer of an engine agent: an error, or the event stream of one of its runs in any chunks. */
  ghost predicate EngineAnswer(c: Codec, r: Response) {
    r.status >= 400 ||
    exists taskId, contextId, es: seq<L.Event> ::
      Extractors.Sendable(c, taskId, contextId, es) && Body(r) == Extractors.Body(c, taskId, contextId, es)
  }

  ghost predicate EngineWorld(c: Codec, w: World) {
    forall name, role, log :: EngineAnswer(c, w.answer(name, role, log))
  }

  lemma EngineAnswerIsConsistent(c: Codec, r: Response)
    requires EngineAnswer(c, r)
    ensures Consistent(c, r)
  {
    if r.status < 400 {
      var taskId, contextId, es: seq<L.Event> :|
        Extractors.Sendable(c, taskId, contextId, es) && Body(r) == Extractors.Body(c, taskId, contextId, es);
      EngineStreamsReadTheSame(c, taskId, contextId, es);
    }
  }

  lemma {:induction false} EngineIsConsistent(c: Codec, w: World, max: nat, names: seq<string>, t: Turn)
    requires EngineWorld(c, w)
    ensures AskedConsistent(c, w, max, names, t)
    decreases |names|
  {
    if names != [] && |t.triggered| < max {
      EngineAnswerIsConsistent(c, w.answer(names[0], "free_chat", t.log));
      EngineIsConsistent(c, w, max, names[1..], Asked(c, w, Framewise, names[0], t));
      EngineIsConsistent(c, w, max, names[1..], t);
    }
  }

  /** In a world of engine agents both turns of a group agree, whatever the members, the trigger and the
      way the streams are cut into writes. */
  lemma EngineTurnsAgree(c: Codec, w: World, g: Group, trigger: GroupEvent, log: seq<GroupEvent>)
    requires EngineWorld(c, w)
    ensures FreeChatTurn(c, w, Framewise, g, trigger, log) == FreeChatTurn(c, w, Recorded, g, trigger, log)
    ensures var streamed := LeaderReaction(c, w, Framewise, g, trigger, log);
            var recorded := LeaderReaction(c, w, Recorded, g, trigger, log);
            && (streamed.None? <==> recorded.None?)
            && (streamed.Some? ==> streamed.value == recorded.value.(content := TrimSpace(recorded.value.content)))
  {
    EngineIsConsistent(c, w, MaxSpeakers(g.maxSpeakers), Candidates(g.members, trigger.senderType, trigger.senderId),
                       FirstTurn(log));
    FreeChatTurnsAgree(c, w, g, trigger, log);
    EngineAnswerIsConsistent(c, w.answer(Head(EligibleSpeakers(g.members, true)), "leader", log));
    LeaderTurnsAgree(c, w, g, trigger, log);
  }

  // ---- A turn in which the versions part

  const FIRST := Event("text.delta", map["text" := Str("A")])
  const SECOND := Event("text.delta", map["text" := Str("B")])
  const ALONE := Group("free_chat", 0, [Member("agent", "a", "member")])
  const ASKING := GroupEvent("message", "human", "h", "hello")

  /** Every agent answers with one closed event and a second one that no blank line closes. */
  function BrokenOffWorld(c: Codec): World {
    World(name => true, (name, role, log) => Response(200, [Printed(c, FIRST) + DataText(c, SECOND)]))
  }

  lemma NothingToCut(text: string, cut: string)
    requires text != "" && text[0] !in cut && text[|text| - 1] !in cut
    ensures TrimCutLeft(text, cut) == text && TrimCutRight(text, cut) == text
  {
  }

  lemma DifferentLength(a: string, b: string)
    requires |a| != |b|
    ensures !EqualFold(a, b)
  {
  }

  lemma LetterIsKept(x: char)
    requires 'A' <= x <= 'Z'
    ensures x !in "`\"' " && IsSolid(x)
  {
  }

  lemma ShortIsNoMarker(text: string)
    requires 0 < |text| < 8 && 'A' <= text[0] <= 'Z' && 'A' <= text[|text| - 1] <= 'Z'
    ensures TrimSpace(text) == text && !IsNoReply(text)
  {
    LetterIsKept(text[0]);
    LetterIsKept(text[|text| - 1]);
    SolidEnds(text);
    NothingToCut(text, "`\"' ");
    DifferentLength(text, "NO_REPLY");
    DifferentLength(text, "NO REPLY");
    DifferentLength(text, NO_REPLY_CHINESE);
  }

  /** A short word is a reply. */
  lemma ShortIsReply(r: Response, text: string)
    requires r.status < 400 && 0 < |text| < 8
    requires 'A' <= text[0] <= 'Z' && 'A' <= text[|text| - 1] <= 'Z'
    ensures Reaction("a", r, text) == Some(AgentMessage("a", text))
  {
    ShortIsNoMarker(text);
  }

  lemma OneIsAsked(c: Codec, w: World, how: Reader, log: seq<GroupEvent>)
    requires w.invocable("a")
    ensures FreeChatTurn(c, w, how, ALONE, ASKING, log) == Asked(c, w, how, "a", FirstTurn(log))
  {
    assert Candidates(ALONE.members, "human", "h") == ["a"] by {
      assert ALONE.members[..0] == [];
      assert Candidates(ALONE.members[..0], "human", "h") == [];
    }
    assert ["a"][1..] == [];
    var t := Asked(c, w, how, "a", FirstTurn(log));
    assert FreeChat(c, w, how, 3, [], t) == t;
  }

  lemma OneSpeaks(c: Codec, w: World, how: Reader, log: seq<GroupEvent>, text: string)
    requires w.invocable("a") && 0 < |text| < 8
    requires 'A' <= text[0] <= 'Z' && 'A' <= text[|text| - 1] <= 'Z'
    requires var r := w.answer("a", "free_chat", log); r.status < 400 && Read(c, how, r) == text
    ensures FreeChatTurn(c, w, how, ALONE, ASKING, log).triggered == [AgentMessage("a", text)]
  {
    OneIsAsked(c, w, how, log);
    ShortIsReply(w.answer("a", "free_chat", log), text);
    assert [] + [AgentMessage("a", text)] == [AgentMessage("a", text)];
  }

  lemma PartedAnswer(c: Codec, r: Response, e: Event, f: Event, a: string, b: string)
    requires Printable(c, e) && Printable(c, f) && Body(r) == Printed(c, e) + DataText(c, f)
    requires DeltaOf(Payload(e), "text.delta", "text") == a && DeltaOf(Payload(f), "text.delta", "text") == b
    requires TrimSpace(a) == a != "" && TrimSpace(a + b) == a + b != ""
    ensures Read(c, Framewise, r) == a && Read(c, Recorded, r) == a + b
  {
    UnclosedFrameParts(c, e, f);
  }

  lemma OneChunk(s: string)
    ensures Concat([s]) == s
  {
    assert [s][1..] == [] && s + "" == s;
  }

  lemma WitnessDeltas()
    ensures DeltaOf(Payload(FIRST), "text.delta", "text") == "A"
    ensures DeltaOf(Payload(SECOND), "text.delta", "text") == "B"
  {
  }

  lemma WitnessTrims()
    ensures TrimSpace("A") == "A" && TrimSpace("A" + "B") == "A" + "B"
  {
    SolidEnds("A");
    SolidEnds("A" + "B");
  }

  lemma BrokenOffTexts(c: Codec, r: Response)
    requires Printable(c, FIRST) && Printable(c, SECOND)
    requires r == Response(200, [Printed(c, FIRST) + DataText(c, SECOND)])
    ensures Read(c, Framewise, r) == "A" && Read(c, Recorded, r) == "A" + "B"
  {
    OneChunk(Printed(c, FIRST) + DataText(c, SECOND));
    WitnessDeltas();
    WitnessTrims();
    PartedAnswer(c, r, FIRST, SECOND, "A", "B");
  }

  /** On such an answer the streaming turn records what was closed, the recorded turn all of it. */
  lemma BrokenOffTurnsPart(c: Codec, log: seq<GroupEvent>)
    requires Printable(c, FIRST) && Printable(c, SECOND)
    ensures var w := BrokenOffWorld(c);
            && FreeChatTurn(c, w, Framewise, ALONE, ASKING, log).triggered == [AgentMessage("a", "A")]
            && FreeChatTurn(c, w, Recorded, ALONE, ASKING, log).triggered == [AgentMessage("a", "AB")]
  {
    var w := BrokenOffWorld(c);
    BrokenOffTexts(c, w.answer("a", "free_chat", log));
    OneSpeaks(c, w, Framewise, log, "A");
    OneSpeaks(c, w, Recorded, log, "AB");
  }

  lemma FailureTextIsTight(who: string, name: string, status: int, body: string)
    requires who != "" && IsSolid(who[0]) && status >= 0
    ensures var text := FailureText(who, name, status, body); text != "" && TrimSpace(text) == text
  {
    var text := FailureText(who, name, status, body);
    if TrimSpace(body) == "" {
      DecimalIsNumber(status);
      var d := Decimal(status);
      assert text[0] == who[0] && text[|text| - 1] == d[|d| - 1];
      SolidEnds(text);
    } else {
      TrimSpaceIsTight(body);
      TrimSpaceFixes(text);
    }
  }

  // ---- Who speaks

  /** The candidates whose answer became an event, in the order of the events. */
  function Speakers(c: Codec, w: World, how: Reader, max: nat, names: seq<string>, t: Turn): seq<string>
    decreases |names|
  {
    if names == [] || |t.triggered| >= max then []
    else if !w.invocable(names[0]) then Speakers(c, w, how, max, names[1..], t)
    else
      var next := Asked(c, w, how, names[0], t);
      (if |next.triggered| > |t.triggered| then [names[0]] else []) + Speakers(c, w, how, max, names[1..], next)
  }

  /** An error report of the platform, or a message of the agent that says something. */
  predicate SpokenBy(e: GroupEvent, name: string) {
    || e == SystemEvent(e.content)
    || (e == AgentMessage(name, e.content) && e.content != "" && Tight(e.content) && !IsNoReply(e.content))
  }

  predicate Ordered(members: seq<Member>, st: string, sid: string, names: seq<string>) {
    && (forall i :: 0 <= i < |names| ==> FirstRow(members, st, sid, names[i]) < |members|)
    && (forall i, j :: 0 <= i < j < |names| ==>
        FirstRow(members, st, sid, names[i]) < FirstRow(members, st, sid, names[j]))
  }

  lemma OrderedCons(members: seq<Member>, st: string, sid: string, names: seq<string>, who: seq<string>)
    requires names != [] && Ordered(members, st, sid, names) && Ordered(members, st, sid, who)
    requires forall k :: 0 <= k < |who| ==> who[k] in names[1..]
    ensures Ordered(members, st, sid, [names[0]] + who)
  {
  }

  lemma {:induction false} SpeakersAreAsked(c: Codec, w: World, how: Reader, max: nat, names: seq<string>, t: Turn,
                                            x: string)
    requires x in Speakers(c, w, how, max, names, t)
    ensures x in names && w.invocable(x)
    decreases |names|
  {
    var name := names[0];
    var next := if w.invocable(name) then Asked(c, w, how, name, t) else t;
    if x in Speakers(c, w, how, max, names[1..], next) {
      SpeakersAreAsked(c, w, how, max, names[1..], next, x);
    }
  }

  lemma {:induction false} SpeakersInOrder(c: Codec, w: World, how: Reader, max: nat, names: seq<string>, t: Turn,
                                           members: seq<Member>, st: string, sid: string)
    requires Ordered(members, st, sid, names)
    ensures Ordered(members, st, sid, Speakers(c, w, how, max, names, t))
    decreases |names|
  {
    if names != [] && |t.triggered| < max {
      var next := if w.invocable(names[0]) then Asked(c, w, how, names[0], t) else t;
      var who := Speakers(c, w, how, max, names[1..], next);
      SpeakersInOrder(c, w, how, max, names[1..], next, members, st, sid);
      forall k | 0 <= k < |who| ensures who[k] in names[1..] {
        SpeakersAreAsked(c, w, how, max, names[1..], next, who[k]);
      }
      OrderedCons(members, st, sid, names, who);
      assert [] + who == who;
    }
  }

  /** The events that a turn adds, one list per candidate. */
  function AddedBy(c: Codec, w: World, how: Reader, name: string, t: Turn): seq<GroupEvent> {
    var r := w.answer(name, "free_chat", t.log);
    Listed(Reaction(name, r, Read(c, how, r)))
  }

  function Added(c: Codec, w: World, how: Reader, max: nat, names: seq<string>, t: Turn): seq<GroupEvent>
    decreases |names|
  {
    if names == [] || |t.triggered| >= max then []
    else if !w.invocable(names[0]) then Added(c, w, how, max, names[1..], t)
    else AddedBy(c, w, how, names[0], t) + Added(c, w, how, max, names[1..], Asked(c, w, how, names[0], t))
  }

  lemma AskedAdds(c: Codec, w: World, how: Reader, name: string, t: Turn)
    ensures var next := Asked(c, w, how, name, t);
            var first := AddedBy(c, w, how, name, t);
            next.log == t.log + first && next.triggered == t.triggered + first && |first| <= 1
  {
  }

  ghost predicate Answered(c: Codec, w: World, how: Reader, e: GroupEvent, name: string) {
    exists t: Turn :: AddedBy(c, w, how, name, t) == [e]
  }

  lemma AnsweredIsSpoken(c: Codec, w: World, how: Reader, e: GroupEvent, name: string)
    requires Answered(c, w, how, e, name)
    ensures SpokenBy(e, name)
  {
    var t: Turn :| AddedBy(c, w, how, name, t) == [e];
    var r := w.answer(name, "free_chat", t.log);
    TrimSpaceIsTight(Read(c, how, r));
    assert Listed(Reaction(name, r, Read(c, how, r)))[0] == e;
  }

  /** The turn keeps earlier events and appends what it returns. */
  lemma {:induction false} FreeChatAppends(c: Codec, w: World, how: Reader, max: nat, names: seq<string>, t: Turn)
    requires |t.triggered| <= max
    ensures var r := FreeChat(c, w, how, max, names, t);
            var added := Added(c, w, how, max, names, t);
            r.log == t.log + added && r.triggered == t.triggered + added && |r.triggered| <= max
    decreases |names|
  {
    if names != [] && |t.triggered| < max {
      if w.invocable(names[0]) {
        AskedAdds(c, w, how, names[0], t);
        var next := Asked(c, w, how, names[0], t);
        FreeChatAppends(c, w, how, max, names[1..], next);
        Assoc(t.log, AddedBy(c, w, how, names[0], t), Added(c, w, how, max, names[1..], next));
        Assoc(t.triggered, AddedBy(c, w, how, names[0], t), Added(c, w, how, max, names[1..], next));
      } else {
        FreeChatAppends(c, w, how, max, names[1..], t);
      }
    }
  }

  predicate Paired<A, B>(ok: (A, B) -> bool, xs: seq<A>, ys: seq<B>) {
    |xs| == |ys| && forall k :: 0 <= k < |xs| ==> ok(xs[k], ys[k])
  }

  lemma PairedCons<A, B>(ok: (A, B) -> bool, first: seq<A>, name: B, xs: seq<A>, ys: seq<B>)
    requires Paired(ok, xs, ys)
    requires |first| <= 1 && (first != [] ==> ok(first[0], name))
    ensures Paired(ok, first + xs, (if first == [] then [] else [name]) + ys)
  {
  }

  ghost function Answers(c: Codec, w: World, how: Reader): (GroupEvent, string) -> bool {
    (e, name) => Answered(c, w, how, e, name)
  }

  /** One event per speaker. */
  lemma {:induction false} SpeakersSpoke(c: Codec, w: World, how: Reader, max: nat, names: seq<string>, t: Turn)
    ensures Paired(Answers(c, w, how), Added(c, w, how, max, names, t), Speakers(c, w, how, max, names, t))
    decreases |names|
  {
    if names != [] && |t.triggered| < max {
      if w.invocable(names[0]) {
        var next := Asked(c, w, how, names[0], t);
        var first := AddedBy(c, w, how, names[0], t);
        SpeakersSpoke(c, w, how, max, names[1..], next);
        AskedAdds(c, w, how, names[0], t);
        assert first != [] ==> first == [first[0]];
        PairedCons(Answers(c, w, how), first, names[0], Added(c, w, how, max, names[1..], next),
                   Speakers(c, w, how, max, names[1..], next));
      } else {
        SpeakersSpoke(c, w, how, max, names[1..], t);
      }
    }
  }

  /** The events that were announced on the stream. */
  function Announced(notices: seq<Notice>): seq<GroupEvent> {
    if notices == [] then []
    else
      var last := notices[|notices| - 1];
      Announced(notices[..|notices| - 1]) + if last.Announce? then [last.event] else []
  }

  lemma AnnouncedPush(notices: seq<Notice>, first: Notice, second: Notice)
    requires !first.Announce?
    ensures Announced(Pushed(notices, first, second)) ==
            Announced(notices) + if second.Announce? then [second.event] else []
  {
  }

  lemma {:induction false} FreeChatAnnounces(c: Codec, w: World, how: Reader, max: nat, names: seq<string>, t: Turn)
    requires Announced(t.notices) == t.triggered
    ensures var r := FreeChat(c, w, how, max, names, t); Announced(r.notices) == r.triggered
    decreases |names|
  {
    if names != [] && |t.triggered| < max {
      var name := names[0];
      if w.invocable(name) {
        var r := w.answer(name, "free_chat", t.log);
        match Reaction(name, r, Read(c, how, r)) {
          case None => AnnouncedPush(t.notices, AgentStart(name), AgentSkip(name));
          case Some(e) => AnnouncedPush(t.notices, AgentStart(name), Announce(e));
        }
        FreeChatAnnounces(c, w, how, max, names[1..], Asked(c, w, how, name, t));
      } else {
        FreeChatAnnounces(c, w, how, max, names[1..], t);
      }
    }
  }

  /** A free-chat turn appends exactly the events it returns and announces; there are at most 1 to 8 of
      them, one per speaker, and the speakers are distinct invocable agents with a speaking row, in the
      order of those rows: never the sender, never an observer. */
  lemma FreeChatTurnIsBounded(c: Codec, w: World, how: Reader, g: Group, trigger: GroupEvent, log: seq<GroupEvent>)
    ensures var t := FreeChatTurn(c, w, how, g, trigger, log);
            && t.log == log + t.triggered
            && Announced(t.notices) == t.triggered
            && |t.triggered| <= MaxSpeakers(g.maxSpeakers) <= 8
            && exists who: seq<string> ::
                 && |who| == |t.triggered|
                 && Ordered(g.members, trigger.senderType, trigger.senderId, who)
                 && (forall k :: 0 <= k < |who| ==> w.invocable(who[k]) && SpokenBy(t.triggered[k], who[k]))
  {
    var st, sid := trigger.senderType, trigger.senderId;
    var max := MaxSpeakers(g.maxSpeakers);
    var names := Candidates(g.members, st, sid);
    var start := Turn(log, [], []);
    if FreeChatRuns(trigger) {
      CandidatesAreSpeakers(g.members, st, sid);
      FreeChatAppends(c, w, how, max, names, start);
      SpeakersSpoke(c, w, how, max, names, start);
      var added := Added(c, w, how, max, names, start);
      assert [] + added == added;
      FreeChatAnnounces(c, w, how, max, names, start);
      SpeakersInOrder(c, w, how, max, names, start, g.members, st, sid);
      var who := Speakers(c, w, how, max, names, start);
      forall k | 0 <= k < |who| ensures w.invocable(who[k]) && SpokenBy(added[k], who[k]) {
        SpeakersAreAsked(c, w, how, max, names, start, who[k]);
        assert Answers(c, w, how)(added[k], who[k]);
        AnsweredIsSpoken(c, w, how, added[k], who[k]);
      }
      assert |who| == |added| && Ordered(g.members, st, sid, who);
    } else {
      var who: seq<string> := [];
      assert Ordered(g.members, st, sid, who);
    }
  }

  // ---- The leader

  lemma {:induction false} SpeakersAreLeaders(members: seq<Member>, name: string)
    ensures name in GroupSpeakers(members, true) <==>
            exists i :: 0 <= i < |members| && IsAgent(members[i]) && members[i].role == "leader"
              && members[i].actorId == name
  {
    if members != [] {
      SpeakersAreLeaders(members[1..], name);
      assert forall i :: 1 <= i < |members| ==> members[i] == members[1..][i - 1];
      if name in GroupSpeakers(members[1..], true) {
        var i :| 0 <= i < |members[1..]| && IsAgent(members[1..][i]) && members[1..][i].role == "leader"
          && members[1..][i].actorId == name;
        assert IsAgent(members[i + 1]) && members[i + 1].role == "leader" && members[i + 1].actorId == name;
      }
    }
  }

  /** When some agent is a leader, the one that is chosen is a leader. */
  lemma ChosenLeaderLeads(members: seq<Member>, k: nat)
    requires k < |members| && IsAgent(members[k]) && members[k].role == "leader"
    ensures exists i :: 0 <= i < |members| && IsAgent(members[i]) && members[i].role == "leader" &&
                        members[i].actorId == Head(EligibleSpeakers(members, true))
  {
    SpeakersAreLeaders(members, members[k].actorId);
    var names := GroupSpeakers(members, true);
    assert names != [];
    SpeakersAreLeaders(members, names[0]);
  }
}
