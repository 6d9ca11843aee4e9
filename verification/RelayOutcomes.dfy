/** What the proxy leaves behind after it has relayed a response, and where it finds the text of a response
    that does not stream: by the shapes of the events, apart from the loops that read them. */
module RelayOutcomes {
  import opened GoStrings
  import opened Json
  import opened Framing
  import opened Printer
  import opened Relay
  import opened Extractors
  import L = ToolLoop
  import opened LoopEvents

  // ---- The text of a message

  /** A part of a message: one with a text, or any other value. */
  predicate TextPart(v: Value, text: string) {
    v.Obj? && "text" in v.members && v.members["text"] == Str(text)
  }

  ghost predicate Silent(v: Value) {
    forall text :: !TextPart(v, text)
  }

  /** The texts of the parts that have one, in their order. */
  ghost predicate TextsIn(parts: seq<Value>, texts: seq<string>) {
    if parts == [] then texts == []
    else if Silent(parts[0]) then TextsIn(parts[1..], texts)
    else texts != [] && TextPart(parts[0], texts[0]) && TextsIn(parts[1..], texts[1..])
  }

  lemma {:induction false} PartTextsSay(parts: seq<Value>, texts: seq<string>)
    requires TextsIn(parts, texts)
    ensures PartTexts(parts) == texts
  {
    if parts != [] {
      var p := parts[0];
      if Silent(p) {
        PartTextsSay(parts[1..], texts);
        assert p.Obj? && "text" in p.members && p.members["text"].Str? ==> TextPart(p, p.members["text"].s);
      } else {
        PartTextsSay(parts[1..], texts[1..]);
        assert [texts[0]] + texts[1..] == texts;
      }
    }
  }

  predicate IsMessage(m: map<string, Value>, parts: seq<Value>) {
    "parts" in m && m["parts"] == Arr(parts)
  }

  /** The objects under a list of keys. */
  predicate Holds(m: map<string, Value>, path: seq<string>, inner: map<string, Value>)
    decreases |path|
  {
    if path == [] then m == inner
    else path[0] in m && m[path[0]].Obj? && Holds(m[path[0]].members, path[1..], inner)
  }

  ghost predicate HoldsNone(m: map<string, Value>, path: seq<string>) {
    forall inner :: !Holds(m, path, inner)
  }

  lemma {:induction false} HoldsIff(m: map<string, Value>, path: seq<string>, inner: map<string, Value>)
    ensures Holds(m, path, inner) <==> NestedObject(m, path) == Some(inner)
    decreases |path|
  {
    if path != [] && path[0] in m && m[path[0]].Obj? {
      HoldsIff(m[path[0]].members, path[1..], inner);
    }
  }

  lemma NestedIs(m: map<string, Value>, path: seq<string>)
    ensures forall inner :: Holds(m, path, inner) <==> NestedObject(m, path) == Some(inner)
    ensures HoldsNone(m, path) <==> NestedObject(m, path) == None
  {
    forall inner ensures Holds(m, path, inner) <==> NestedObject(m, path) == Some(inner) {
      HoldsIff(m, path, inner);
    }
    if NestedObject(m, path).Some? {
      assert Holds(m, path, NestedObject(m, path).value);
    }
  }

  /** The places where an event may carry a message, in the order in which they count. */
  const PLACES := [["message"], ["result", "message"], ["result", "artifactUpdate", "artifact"],
                   ["result", "statusUpdate", "status", "message"]]

  /** The message of an event is the object at the first of these places that there is. */
  ghost predicate MessageAt(evt: map<string, Value>, k: nat, msg: map<string, Value>) {
    && k < |PLACES| && Holds(evt, PLACES[k], msg)
    && forall i :: 0 <= i < k ==> HoldsNone(evt, PLACES[i])
  }

  lemma ObjectIs(m: map<string, Value>, key: string)
    ensures NestedObject(m, [key]) == ObjectAt(m, key)
  {
    assert [key][1..] == [];
  }

  lemma NestedTwice(m: map<string, Value>, key: string, rest: seq<string>)
    ensures NestedObject(m, [key] + rest) ==
            match ObjectAt(m, key) case None => None case Some(inner) => NestedObject(inner, rest)
  {
    assert ([key] + rest)[1..] == rest;
  }

  lemma PlacesAre(evt: map<string, Value>)
    ensures NestedObject(evt, PLACES[0]) == ObjectAt(evt, "message")
    ensures var r := ObjectAt(evt, "result");
            && (r.None? ==> forall i :: 1 <= i < 4 ==> NestedObject(evt, PLACES[i]) == None)
            && (r.Some? ==>
                  && NestedObject(evt, PLACES[1]) == ObjectAt(r.value, "message")
                  && NestedObject(evt, PLACES[2]) == NestedObject(r.value, ["artifactUpdate", "artifact"])
                  && NestedObject(evt, PLACES[3]) == NestedObject(r.value, ["statusUpdate", "status", "message"]))
  {
    ObjectIs(evt, "message");
    NestedTwice(evt, "result", ["message"]);
    NestedTwice(evt, "result", ["artifactUpdate", "artifact"]);
    NestedTwice(evt, "result", ["statusUpdate", "status", "message"]);
    assert PLACES[1] == ["result"] + ["message"];
    assert PLACES[2] == ["result"] + ["artifactUpdate", "artifact"];
    assert PLACES[3] == ["result"] + ["statusUpdate", "status", "message"];
    if ObjectAt(evt, "result").Some? {
      ObjectIs(ObjectAt(evt, "result").value, "message");
    }
  }

  lemma WrappedIs(evt: map<string, Value>, k: nat, msg: map<string, Value>)
    requires MessageAt(evt, k, msg)
    ensures WrappedText(evt) == PartsText(msg)
  {
    PlacesAre(evt);
    HoldsIff(evt, PLACES[k], msg);
    forall i | 0 <= i < k ensures NestedObject(evt, PLACES[i]) == None {
      NestedIs(evt, PLACES[i]);
    }
  }

  /** The text of an event: the texts of its message, one per line; an event without a message, or whose
      message has no parts, has none. */
  lemma WrappedSays(evt: map<string, Value>)
    ensures (forall i :: 0 <= i < |PLACES| ==> HoldsNone(evt, PLACES[i])) ==> WrappedText(evt) == ""
    ensures forall k, msg, parts, texts ::
              MessageAt(evt, k, msg) && IsMessage(msg, parts) && TextsIn(parts, texts) ==>
                WrappedText(evt) == Join(texts, "\n")
    ensures forall k, msg ::
              MessageAt(evt, k, msg) && (forall parts :: !IsMessage(msg, parts)) ==> WrappedText(evt) == ""
  {
    if forall i :: 0 <= i < |PLACES| ==> HoldsNone(evt, PLACES[i]) {
      NoMessage(evt);
    }
    forall k: nat, msg, parts, texts | MessageAt(evt, k, msg) && IsMessage(msg, parts) && TextsIn(parts, texts)
      ensures WrappedText(evt) == Join(texts, "\n")
    {
      WrappedIs(evt, k, msg);
      PartTextsSay(parts, texts);
    }
    forall k: nat, msg | MessageAt(evt, k, msg) && (forall parts :: !IsMessage(msg, parts))
      ensures WrappedText(evt) == ""
    {
      WrappedIs(evt, k, msg);
      NoParts(msg);
    }
  }

  lemma NoMessage(evt: map<string, Value>)
    requires forall i :: 0 <= i < |PLACES| ==> HoldsNone(evt, PLACES[i])
    ensures WrappedText(evt) == ""
  {
    PlacesAre(evt);
    assert |PLACES| == 4;
    forall i | 0 <= i < 4 ensures NestedObject(evt, PLACES[i]) == None {
      NestedIs(evt, PLACES[i]);
    }
  }

  lemma NoParts(msg: map<string, Value>)
    requires forall parts :: !IsMessage(msg, parts)
    ensures PartsText(msg) == ""
  {
    if "parts" in msg && msg["parts"].Arr? {
      assert IsMessage(msg, msg["parts"].items);
    }
  }

  /** The message of the result, or else its artifact. */
  ghost predicate ResultAt(resp: map<string, Value>, msg: map<string, Value>) {
    Holds(resp, PLACES[1], msg) || (HoldsNone(resp, PLACES[1]) && Holds(resp, PLACES[2], msg))
  }

  /** The text of a whole response: that of the message or else of the artifact in its result; a body that is
      no object, or has neither, is its own text. */
  lemma ResponseSays(c: Codec, body: string, resp: map<string, Value>)
    requires DecodeObject(c, body) == Some(resp)
    ensures HoldsNone(resp, PLACES[1]) && HoldsNone(resp, PLACES[2]) ==> ResponseText(c, body) == body
    ensures forall msg, parts, texts ::
              ResultAt(resp, msg) && IsMessage(msg, parts) && TextsIn(parts, texts) ==>
                ResponseText(c, body) == Join(texts, "\n")
  {
    PlacesAre(resp);
    NestedIs(resp, PLACES[1]);
    NestedIs(resp, PLACES[2]);
    forall msg, parts, texts | ResultAt(resp, msg) && IsMessage(msg, parts) && TextsIn(parts, texts)
      ensures ResponseText(c, body) == Join(texts, "\n")
    {
      PartTextsSay(parts, texts);
    }
  }

  // ---- What the relay records

  /** The payload of a frame: its data lines. */
  function DataOf(frame: string): string {
    Join(DataLines(Lines(frame)), "\n")
  }

  /** The payloads of the frames that have one. */
  function Traced(frames: seq<string>): seq<string> {
    if frames == [] then [] else (if DataOf(frames[0]) == "" then [] else [DataOf(frames[0])]) + Traced(frames[1..])
  }

  function DeltaIn(c: Codec, data: string): string {
    match DecodeObject(c, data) case None => "" case Some(evt) => DeltaOf(evt, "text.delta", "text")
  }

  function WrappedIn(c: Codec, data: string): string {
    match DecodeObject(c, data) case None => "" case Some(evt) => WrappedText(evt)
  }

  function DeltasIn(c: Codec, payloads: seq<string>): string {
    if payloads == [] then "" else DeltaIn(c, payloads[0]) + DeltasIn(c, payloads[1..])
  }

  /** The wrapped text of the last payload that has one and no delta. */
  function LastWrappedIn(c: Codec, payloads: seq<string>): string {
    if payloads == [] then ""
    else
      var later := LastWrappedIn(c, payloads[1..]);
      if later != "" then later else if DeltaIn(c, payloads[0]) != "" then "" else WrappedIn(c, payloads[0])
  }

  lemma RecordedOne(c: Codec, p: Progress, frame: string)
    ensures var data := DataOf(frame);
            Recorded(c, p, frame) ==
              if data == "" then p
              else Progress(p.traces + [data], p.delta + DeltaIn(c, data),
                            if DeltaIn(c, data) == "" && WrappedIn(c, data) != "" then WrappedIn(c, data) else p.last)
  {
    assert p.delta + "" == p.delta;
  }

  lemma TracedCons(c: Codec, data: string, rest: seq<string>)
    ensures DeltasIn(c, [data] + rest) == DeltaIn(c, data) + DeltasIn(c, rest)
    ensures LastWrappedIn(c, [data] + rest) ==
            if LastWrappedIn(c, rest) != "" then LastWrappedIn(c, rest)
            else if DeltaIn(c, data) != "" then "" else WrappedIn(c, data)
  {
    assert ([data] + rest)[1..] == rest;
  }

  lemma {:induction false} RecordedSay(c: Codec, p: Progress, frames: seq<string>)
    ensures var data := Traced(frames);
            var r := RecordedAll(c, p, frames);
            && r.traces == p.traces + data && r.delta == p.delta + DeltasIn(c, data)
            && r.last == if LastWrappedIn(c, data) != "" then LastWrappedIn(c, data) else p.last
    decreases |frames|
  {
    if frames == [] {
      assert p.traces + [] == p.traces && p.delta + "" == p.delta;
    } else {
      var data, rest := DataOf(frames[0]), Traced(frames[1..]);
      RecordedOne(c, p, frames[0]);
      RecordedSay(c, Recorded(c, p, frames[0]), frames[1..]);
      if data == "" {
        assert Traced(frames) == rest;
      } else {
        TracedCons(c, data, rest);
        Assoc(p.traces, [data], rest);
        Assoc(p.delta, DeltaIn(c, data), DeltasIn(c, rest));
      }
    }
  }

  /** After a relayed response: every byte was sent on; every payload of a closed frame is recorded, in order;
      the message that is saved is the text of the deltas, else the last wrapped text, else none; and the task
      is marked as responded once there is a text or the response has ended well, and then as failed when
      reading it failed. */
  lemma RelaySays(c: Codec, response: string, readFailed: bool)
    ensures var out := RelayOutcome(c, response, readFailed);
            var data := Traced(Frames(response).frames);
            var text := if DeltasIn(c, data) != "" then DeltasIn(c, data) else LastWrappedIn(c, data);
            && out.relayed == response && out.traces == data
            && (text == "" <==> out.message == None) && (text != "" ==> out.message == Some(text))
            && out.states == (if text != "" || !readFailed then ["RESPONDED"] else [])
                             + (if readFailed then ["ERROR"] else [])
  {
    RecordedSay(c, Progress([], "", ""), Frames(response).frames);
    var data := Traced(Frames(response).frames);
    assert [] + data == data && "" + DeltasIn(c, data) == DeltasIn(c, data);
  }

  // ---- Engine streams through the relay

  lemma StreamIsTraced(c: Codec, e: Event, es: seq<Event>)
    requires Framable(c, e)
    ensures Traced(Frames(Stream(c, [e] + es)).frames) ==
            [c.encode(Obj(Payload(e)))] + Traced(Frames(Stream(c, es)).frames)
  {
    FramesOfStream(c, e, es);
    FrameData(c, e);
    var j := c.encode(Obj(Payload(e)));
    assert Join([j], "\n") == j;
    var rest := Frames(Stream(c, es)).frames;
    assert ([Frame(c, e)] + rest)[1..] == rest;
  }

  function Encoded(c: Codec, taskId: string, contextId: string, es: seq<L.Event>): (r: seq<string>)
    ensures |r| == |es|
  {
    seq(|es|, i requires 0 <= i < |es| => c.encode(Obj(Payload(Wire(taskId, contextId, es[i])))))
  }

  lemma EventIsTraced(c: Codec, taskId: string, contextId: string, e: L.Event)
    requires EventReadable(c, taskId, contextId, e)
    ensures var j := c.encode(Obj(Payload(Wire(taskId, contextId, e))));
            DeltaIn(c, j) == TextOf(e) && WrappedIn(c, j) == ""
    ensures Framable(c, Wire(taskId, contextId, e))
  {
    WireFacts(taskId, contextId, e);
  }

  lemma FirstIsTraced(c: Codec, taskId: string, contextId: string, es: seq<L.Event>)
    requires es != [] && EventReadable(c, taskId, contextId, es[0])
    ensures Traced(Frames(Body(c, taskId, contextId, es)).frames) ==
            [c.encode(Obj(Payload(Wire(taskId, contextId, es[0]))))]
            + Traced(Frames(Body(c, taskId, contextId, es[1..])).frames)
  {
    var e := Wire(taskId, contextId, es[0]);
    EventIsTraced(c, taskId, contextId, es[0]);
    assert Wires(taskId, contextId, es) == [e] + Wires(taskId, contextId, es[1..]);
    StreamIsTraced(c, e, Wires(taskId, contextId, es[1..]));
  }

  lemma EncodedCons(c: Codec, taskId: string, contextId: string, es: seq<L.Event>)
    requires es != []
    ensures Encoded(c, taskId, contextId, es) ==
            [c.encode(Obj(Payload(Wire(taskId, contextId, es[0]))))] + Encoded(c, taskId, contextId, es[1..])
  {
  }

  lemma {:induction false} EncodedSays(c: Codec, taskId: string, contextId: string, es: seq<L.Event>)
    requires Readable(c, taskId, contextId, es)
    ensures DeltasIn(c, Encoded(c, taskId, contextId, es)) == Texts(es)
    ensures LastWrappedIn(c, Encoded(c, taskId, contextId, es)) == ""
  {
    if es != [] {
      assert EventReadable(c, taskId, contextId, es[0]);
      EventIsTraced(c, taskId, contextId, es[0]);
      EncodedSays(c, taskId, contextId, es[1..]);
      EncodedCons(c, taskId, contextId, es);
      TracedCons(c, c.encode(Obj(Payload(Wire(taskId, contextId, es[0])))), Encoded(c, taskId, contextId, es[1..]));
    }
  }

  lemma {:induction false} EngineStreamIsTraced(c: Codec, taskId: string, contextId: string, es: seq<L.Event>)
    requires Readable(c, taskId, contextId, es)
    ensures Traced(Frames(Body(c, taskId, contextId, es)).frames) == Encoded(c, taskId, contextId, es)
    decreases |es|
  {
    if es == [] {
      assert Frames("") == Framed([], "") && Body(c, taskId, contextId, es) == "";
    } else {
      assert EventReadable(c, taskId, contextId, es[0]);
      FirstIsTraced(c, taskId, contextId, es);
      EngineStreamIsTraced(c, taskId, contextId, es[1..]);
      EncodedCons(c, taskId, contextId, es);
    }
  }

  /** An engine stream that is relayed: its payloads are recorded one by one, and the message that is saved is
      the concatenation of its text deltas. */
  lemma RelaySaysOnEngineStreams(c: Codec, taskId: string, contextId: string, es: seq<L.Event>, readFailed: bool)
    requires Readable(c, taskId, contextId, es)
    ensures var out := RelayOutcome(c, Body(c, taskId, contextId, es), readFailed);
            && out.traces == Encoded(c, taskId, contextId, es)
            && out.message == if Texts(es) == "" then None else Some(Texts(es))
  {
    EngineStreamIsTraced(c, taskId, contextId, es);
    EncodedSays(c, taskId, contextId, es);
    RelaySays(c, Body(c, taskId, contextId, es), readFailed);
  }
}
