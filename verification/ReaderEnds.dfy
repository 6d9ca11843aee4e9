/** What each stream reader makes of the lines of a response: which lines count, what they add, and with
    which event the reader ends. */
module ReaderEnds {
  import opened GoStrings
  import opened Json
  import opened Transcript
  import opened ToolLoop
  import opened Readers
  import opened Reassembly
  import opened ReaderLaws

  // ---- Lines

  /** The line is `data:`, at most one space, and a payload that is not blank. */
  predicate Carries(line: string, data: string) {
    && (line == "data: " + data || (line == "data:" + data && (data == "" || data[0] != ' ')))
    && TrimSpace(data) != ""
  }

  ghost predicate IsBlankLine(line: string) {
    forall data :: !Carries(line, data)
  }

  lemma CarriesIff(line: string, data: string)
    ensures Carries(line, data) <==> SseData(line) == Some(data) && TrimSpace(data) != ""
  {
    if "data:" <= line {
      var rest := line[5..];
      assert line == "data:" + rest;
      if rest != "" && rest[0] == ' ' {
        assert line == "data: " + rest[1..];
        assert "data: " + data == line ==> data == line[6..];
        assert line[6..] == rest[1..];
      }
      assert "data:" + data == line ==> data == rest;
      assert "data: " + data == line ==> rest == " " + data && rest[0] == ' ' && rest[1..] == data;
    }
  }

  // ---- OpenAI

  predicate SaysDone(line: string) {
    Carries(line, "[DONE]")
  }

  ghost predicate Broken<C>(decode: string -> Option<C>, line: string) {
    exists data :: Carries(line, data) && data != "[DONE]" && decode(data).None?
  }

  /** The reader stops at line `n`: the first one that says `[DONE]` or is malformed, or the end. */
  ghost predicate OpenStops(decode: string -> Option<Chunk>, lines: seq<string>, n: nat) {
    && n <= |lines|
    && (forall i :: 0 <= i < n ==> !SaysDone(lines[i]) && !Broken(decode, lines[i]))
    && (n < |lines| ==> SaysDone(lines[n]) || Broken(decode, lines[n]))
  }

  /** The chunks that the lines carry. */
  function ChunksOf(decode: string -> Option<Chunk>, lines: seq<string>): seq<Chunk> {
    if lines == [] then []
    else
      var i := OpenInput(decode, lines[0]);
      (if i.Data? then [i.chunk] else []) + ChunksOf(decode, lines[1..])
  }

  /** How a single line is read. */
  lemma OpenLine(decode: string -> Option<Chunk>, line: string)
    ensures SaysDone(line) <==> OpenInput(decode, line) == DoneMark
    ensures Broken(decode, line) <==> OpenInput(decode, line) == Bad
    ensures IsBlankLine(line) <==> OpenInput(decode, line) == Skip
    ensures forall c :: OpenInput(decode, line) == Data(c) <==>
              exists data :: Carries(line, data) && data != "[DONE]" && decode(data) == Some(c)
  {
    CarriesIff(line, "[DONE]");
    forall data ensures Carries(line, data) <==> SseData(line) == Some(data) && TrimSpace(data) != "" {
      CarriesIff(line, data);
    }
    var s := SseData(line);
    if s.Some? && TrimSpace(s.value) != "" {
      assert Carries(line, s.value);
    }
  }

  function OpenLast(stopped: bool, broken: bool, scanFails: bool): StreamItem {
    if broken then Fail("openai stream malformed JSON")
    else if scanFails then Fail("openai stream read error")
    else if stopped then Done
    else Fail("openai stream ended before [DONE]")
  }

  lemma {:induction false} OpenReads(order: Order, st: Open, decode: string -> Option<Chunk>, lines: seq<string>,
                                     scanFails: bool, n: nat)
    requires OpenStops(decode, lines, n)
    ensures OpenSent(order, st, OpenInputs(decode, lines), scanFails) ==
            ThroughChunks(order, st, ChunksOf(decode, lines[..n])).sent
            + [OpenLast(n < |lines|, n < |lines| && Broken(decode, lines[n]), scanFails)]
    decreases |lines|
  {
    if n == 0 {
      assert lines[..0] == [];
      if lines != [] {
        OpenLine(decode, lines[0]);
      }
    } else {
      var rest := lines[1..];
      OpenReadsOn(order, st, decode, lines, scanFails);
      OpenStopsNext(decode, lines, n);
      Tail(lines, n);
      var i := OpenInput(decode, lines[0]);
      OpenReads(order, if i.Data? then OpenChunk(order, st, i.chunk) else st, decode, rest, scanFails, n - 1);
      OpenFirst(order, st, i, ChunksOf(decode, rest[..n - 1]));
    }
  }

  lemma OpenStopsNext(decode: string -> Option<Chunk>, lines: seq<string>, n: nat)
    requires OpenStops(decode, lines, n) && n > 0
    ensures OpenStops(decode, lines[1..], n - 1)
  {
    assert forall i :: 0 <= i < |lines[1..]| ==> lines[1..][i] == lines[i + 1];
  }

  lemma Tail(lines: seq<string>, n: nat)
    requires 0 < n <= |lines|
    ensures lines[..n][0] == lines[0] && lines[..n][1..] == lines[1..][..n - 1]
    ensures n < |lines| ==> lines[1..][n - 1] == lines[n]
  {
  }

  lemma OpenReadsOn(order: Order, st: Open, decode: string -> Option<Chunk>, lines: seq<string>, scanFails: bool)
    requires lines != [] && !SaysDone(lines[0]) && !Broken(decode, lines[0])
    ensures var i := OpenInput(decode, lines[0]);
            OpenSent(order, st, OpenInputs(decode, lines), scanFails) ==
            OpenSent(order, if i.Data? then OpenChunk(order, st, i.chunk) else st, OpenInputs(decode, lines[1..]),
                     scanFails)
  {
    OpenLine(decode, lines[0]);
    OpenSentNext(order, st, OpenInputs(decode, lines), scanFails);
    assert OpenInputs(decode, lines)[1..] == OpenInputs(decode, lines[1..]);
  }

  lemma OpenSentNext(order: Order, st: Open, inputs: seq<Input<Chunk>>, scanFails: bool)
    requires inputs != [] && inputs[0] != Bad && inputs[0] != DoneMark
    ensures OpenSent(order, st, inputs, scanFails) ==
            OpenSent(order, if inputs[0].Data? then OpenChunk(order, st, inputs[0].chunk) else st, inputs[1..],
                     scanFails)
  {
  }

  lemma OpenFirst(order: Order, st: Open, i: Input<Chunk>, rest: seq<Chunk>)
    ensures ThroughChunks(order, st, (if i.Data? then [i.chunk] else []) + rest) ==
            ThroughChunks(order, if i.Data? then OpenChunk(order, st, i.chunk) else st, rest)
  {
    if i.Data? {
      assert ([i.chunk] + rest)[1..] == rest;
    } else {
      assert [] + rest == rest;
    }
  }

  lemma OpenStopExists(decode: string -> Option<Chunk>, lines: seq<string>) returns (n: nat)
    ensures OpenStops(decode, lines, n)
  {
    n := 0;
    while n < |lines| && !SaysDone(lines[n]) && !Broken(decode, lines[n])
      invariant n <= |lines| && forall i :: 0 <= i < n ==> !SaysDone(lines[i]) && !Broken(decode, lines[i])
    {
      n := n + 1;
    }
  }

  /** For every response: the OpenAI reader ends with the done event if and only if a `[DONE]` line comes
      before any malformed payload and the scanner holds no error; in every other case it ends with an
      error event that names the cause. */
  lemma OpenEndsDoneIff(order: Order, decode: string -> Option<Chunk>, lines: seq<string>, scanFails: bool)
    ensures var sent := OpenSent(order, START, OpenInputs(decode, lines), scanFails);
            && sent != []
            && (sent[|sent| - 1] == Done <==>
                  !scanFails && exists n :: 0 <= n < |lines| && SaysDone(lines[n])
                                            && forall i :: 0 <= i < n ==> !Broken(decode, lines[i]))
            && (sent[|sent| - 1] != Done ==>
                  sent[|sent| - 1] == Fail(
                    if exists n :: 0 <= n < |lines| && Broken(decode, lines[n])
                                   && forall i :: 0 <= i < n ==> !SaysDone(lines[i])
                    then "openai stream malformed JSON"
                    else if scanFails then "openai stream read error"
                    else "openai stream ended before [DONE]"))
  {
    var n := OpenStopExists(decode, lines);
    OpenReads(order, START, decode, lines, scanFails, n);
    forall k | 0 <= k < |lines| ensures !(SaysDone(lines[k]) && Broken(decode, lines[k])) {
      OpenLine(decode, lines[k]);
    }
  }

  /** Text and reasoning among stream items, in their order. */
  function Spoken(items: seq<StreamItem>): seq<StreamItem> {
    if items == [] then []
    else (if items[0].Text? || items[0].Reasoning? then [items[0]] else []) + Spoken(items[1..])
  }

  function SpokenIn(c: Chunk): seq<StreamItem> {
    if c.choices == [] then []
    else
      (if c.choices[0].reasoning == "" then [] else [Reasoning(c.choices[0].reasoning)])
      + (if c.choices[0].content == "" then [] else [Text(c.choices[0].content)])
  }

  function AllSpoken(cs: seq<Chunk>): seq<StreamItem> {
    if cs == [] then [] else SpokenIn(cs[0]) + AllSpoken(cs[1..])
  }

  lemma {:induction false} SpokenAppend(a: seq<StreamItem>, b: seq<StreamItem>)
    ensures Spoken(a + b) == Spoken(a) + Spoken(b)
  {
    if a == [] {
      assert a + b == b;
    } else {
      var s := a + b;
      assert s[0] == a[0] && s[1..] == a[1..] + b;
      SpokenAppend(a[1..], b);
      Assoc(if a[0].Text? || a[0].Reasoning? then [a[0]] else [], Spoken(a[1..]), Spoken(b));
    }
  }

  lemma {:induction false} FlushedIsSilent(calls: map<int, ToolCall>, keys: seq<int>)
    ensures Spoken(Flushed(calls, keys)) == []
  {
    if keys != [] {
      FlushedIsSilent(calls, keys[1..]);
      SpokenAppend(if keys[0] in calls then [Call(calls[keys[0]])] else [], Flushed(calls, keys[1..]));
      assert keys[0] in calls ==> [Call(calls[keys[0]])][1..] == [];
    }
  }

  lemma SpokenInIsSpoken(c: Chunk)
    ensures Spoken(SpokenIn(c)) == SpokenIn(c)
  {
    if c.choices != [] {
      var d := c.choices[0];
      var x := if d.reasoning == "" then [] else [Reasoning(d.reasoning)];
      var y := if d.content == "" then [] else [Text(d.content)];
      assert [Reasoning(d.reasoning)][1..] == [] && [Text(d.content)][1..] == [];
      SpokenAppend(x, y);
    }
  }

  lemma ChunkSends(order: Order, st: Open, c: Chunk) returns (calls: map<int, ToolCall>, keys: seq<int>)
    ensures OpenChunk(order, st, c).sent == st.sent + SpokenIn(c) + Flushed(calls, keys)
  {
    calls, keys := map[], [];
    if c.choices != [] {
      var d := c.choices[0];
      Assoc(st.sent, if d.reasoning != "" then [Reasoning(d.reasoning)] else [],
            if d.content != "" then [Text(d.content)] else []);
      if d.finish == Some("tool_calls") {
        calls := MergedAll(st.calls, d.calls);
        keys := order(calls);
      }
    }
  }

  lemma ChunkSpeaks(order: Order, st: Open, c: Chunk)
    ensures Spoken(OpenChunk(order, st, c).sent) == Spoken(st.sent) + SpokenIn(c)
  {
    var calls, keys := ChunkSends(order, st, c);
    var silent := Flushed(calls, keys);
    FlushedIsSilent(calls, keys);
    SpokenInIsSpoken(c);
    SpokenAppend(st.sent, SpokenIn(c));
    SpokenAppend(st.sent + SpokenIn(c), silent);
    assert Spoken(st.sent + SpokenIn(c)) + [] == Spoken(st.sent + SpokenIn(c));
  }

  lemma {:induction false} ChunksSpeak(order: Order, st: Open, cs: seq<Chunk>)
    ensures Spoken(ThroughChunks(order, st, cs).sent) == Spoken(st.sent) + AllSpoken(cs)
    decreases |cs|
  {
    if cs == [] {
      assert Spoken(st.sent) + [] == Spoken(st.sent);
    } else {
      ChunkSpeaks(order, st, cs[0]);
      ChunksSpeak(order, OpenChunk(order, st, cs[0]), cs[1..]);
      Assoc(Spoken(st.sent), SpokenIn(cs[0]), AllSpoken(cs[1..]));
    }
  }

  /** For every response, up to the line at which the reader stops: the text and the reasoning of the
      chunks in their order, and the calls of the segments that a finish closes. */
  lemma OpenSays(order: Order, decode: string -> Option<Chunk>, lines: seq<string>, scanFails: bool, n: nat)
    requires IsOrder(order) && OpenStops(decode, lines, n)
    ensures var sent := OpenSent(order, START, OpenInputs(decode, lines), scanFails);
            var cs := ChunksOf(decode, lines[..n]);
            Spoken(sent) == AllSpoken(cs) && multiset(Calls(sent)) == multiset(SegmentsOf(cs).closed)
  {
    OpenReads(order, START, decode, lines, scanFails, n);
    var cs := ChunksOf(decode, lines[..n]);
    var r := ThroughChunks(order, START, cs).sent;
    var last := OpenLast(n < |lines|, n < |lines| && Broken(decode, lines[n]), scanFails);
    ChunksSpeak(order, START, cs);
    EveryRunMatches(order, cs);
    SpokenAppend(r, [last]);
    SentLast(r, last);
    assert [last][1..] == [] && Spoken(r) + [] == Spoken(r) && [] + AllSpoken(cs) == AllSpoken(cs);
  }

  // ---- Anthropic

  ghost predicate SaysStop(decode: string -> Option<Block>, line: string) {
    exists data :: Carries(line, data) && decode(data) == Some(MessageStop)
  }

  ghost predicate Undecodable(decode: string -> Option<Block>, line: string) {
    exists data :: Carries(line, data) && decode(data).None?
  }

  ghost predicate AnthStops(decode: string -> Option<Block>, lines: seq<string>, n: nat) {
    && n <= |lines|
    && (forall i :: 0 <= i < n ==> !SaysStop(decode, lines[i]) && !Undecodable(decode, lines[i]))
    && (n < |lines| ==> SaysStop(decode, lines[n]) || Undecodable(decode, lines[n]))
  }

  function BlocksOf(decode: string -> Option<Block>, lines: seq<string>): seq<Block> {
    if lines == [] then []
    else
      var i := BlockInput(decode, lines[0]);
      (if i.Data? then [i.chunk] else []) + BlocksOf(decode, lines[1..])
  }

  lemma AnthLine(decode: string -> Option<Block>, line: string)
    ensures SaysStop(decode, line) <==> BlockInput(decode, line) == Data(MessageStop)
    ensures Undecodable(decode, line) <==> BlockInput(decode, line) == Bad
    ensures IsBlankLine(line) <==> BlockInput(decode, line) == Skip
    ensures forall b :: BlockInput(decode, line) == Data(b) <==>
              exists data :: Carries(line, data) && decode(data) == Some(b)
    ensures BlockInput(decode, line) != DoneMark
  {
    forall data ensures Carries(line, data) <==> SseData(line) == Some(data) && TrimSpace(data) != "" {
      CarriesIff(line, data);
    }
    var s := SseData(line);
    if s.Some? && TrimSpace(s.value) != "" {
      assert Carries(line, s.value);
    }
  }

  function AnthLast(stopped: bool, broken: bool, scanFails: bool): StreamItem {
    if broken then Fail("anthropic stream malformed JSON")
    else if stopped then Done
    else if scanFails then Fail("anthropic stream read error")
    else Fail("anthropic stream ended before message_stop")
  }

  lemma {:induction false} AnthReads(st: Anth, decode: string -> Option<Block>, lines: seq<string>, scanFails: bool,
                                     n: nat)
    requires AnthStops(decode, lines, n)
    ensures AnthSent(st, BlockInputs(decode, lines), scanFails) ==
            ThroughBlocks(st, BlocksOf(decode, lines[..n])).sent
            + [AnthLast(n < |lines|, n < |lines| && Undecodable(decode, lines[n]), scanFails)]
    decreases |lines|
  {
    if n == 0 {
      assert lines[..0] == [];
      if lines != [] {
        AnthLine(decode, lines[0]);
      }
    } else {
      var rest := lines[1..];
      AnthReadsOn(st, decode, lines, scanFails);
      AnthStopsNext(decode, lines, n);
      Tail(lines, n);
      var i := BlockInput(decode, lines[0]);
      AnthReads(if i.Data? then AnthBlock(st, i.chunk) else st, decode, rest, scanFails, n - 1);
      AnthFirst(st, i, BlocksOf(decode, rest[..n - 1]));
    }
  }

  lemma AnthStopsNext(decode: string -> Option<Block>, lines: seq<string>, n: nat)
    requires AnthStops(decode, lines, n) && n > 0
    ensures AnthStops(decode, lines[1..], n - 1)
  {
    assert forall i :: 0 <= i < |lines[1..]| ==> lines[1..][i] == lines[i + 1];
  }

  lemma AnthReadsOn(st: Anth, decode: string -> Option<Block>, lines: seq<string>, scanFails: bool)
    requires lines != [] && !SaysStop(decode, lines[0]) && !Undecodable(decode, lines[0])
    ensures var i := BlockInput(decode, lines[0]);
            AnthSent(st, BlockInputs(decode, lines), scanFails) ==
            AnthSent(if i.Data? then AnthBlock(st, i.chunk) else st, BlockInputs(decode, lines[1..]), scanFails)
  {
    AnthLine(decode, lines[0]);
    AnthSentNext(st, BlockInputs(decode, lines), scanFails);
    assert BlockInputs(decode, lines)[1..] == BlockInputs(decode, lines[1..]);
  }

  lemma AnthSentNext(st: Anth, inputs: seq<Input<Block>>, scanFails: bool)
    requires inputs != [] && inputs[0] != Bad && inputs[0] != Data(MessageStop)
    ensures AnthSent(st, inputs, scanFails) ==
            AnthSent(if inputs[0].Data? then AnthBlock(st, inputs[0].chunk) else st, inputs[1..], scanFails)
  {
  }

  lemma AnthFirst(st: Anth, i: Input<Block>, rest: seq<Block>)
    ensures ThroughBlocks(st, (if i.Data? then [i.chunk] else []) + rest) ==
            ThroughBlocks(if i.Data? then AnthBlock(st, i.chunk) else st, rest)
  {
    if i.Data? {
      assert ([i.chunk] + rest)[1..] == rest;
    } else {
      assert [] + rest == rest;
    }
  }

  lemma AnthStopExists(decode: string -> Option<Block>, lines: seq<string>) returns (n: nat)
    ensures AnthStops(decode, lines, n)
  {
    n := 0;
    while n < |lines| && !SaysStop(decode, lines[n]) && !Undecodable(decode, lines[n])
      invariant n <= |lines|
      invariant forall i :: 0 <= i < n ==> !SaysStop(decode, lines[i]) && !Undecodable(decode, lines[i])
    {
      n := n + 1;
    }
  }

  /** For every response: the Anthropic reader ends with the done event if and only if a `message_stop`
      comes before any malformed payload; otherwise with an error event that names the cause. */
  lemma AnthEndsDoneIff(decode: string -> Option<Block>, lines: seq<string>, scanFails: bool)
    ensures var sent := AnthSent(Anth([], None), BlockInputs(decode, lines), scanFails);
            && sent != []
            && (sent[|sent| - 1] == Done <==>
                  exists n :: 0 <= n < |lines| && SaysStop(decode, lines[n])
                              && forall i :: 0 <= i < n ==> !Undecodable(decode, lines[i]))
            && (sent[|sent| - 1] != Done ==>
                  sent[|sent| - 1] == Fail(
                    if exists n :: 0 <= n < |lines| && Undecodable(decode, lines[n])
                    then "anthropic stream malformed JSON"
                    else if scanFails then "anthropic stream read error"
                    else "anthropic stream ended before message_stop"))
  {
    var n := AnthStopExists(decode, lines);
    AnthReads(Anth([], None), decode, lines, scanFails, n);
    forall k | 0 <= k < |lines| ensures !(SaysStop(decode, lines[k]) && Undecodable(decode, lines[k])) {
      AnthLine(decode, lines[k]);
    }
  }
}
