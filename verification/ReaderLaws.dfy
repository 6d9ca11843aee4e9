/** Laws of the two stream readers: every run ends in exactly one terminal event, and both readers
    decode the same reply to the same text and the same calls. */
module ReaderLaws {
  import opened GoStrings
  import opened Json
  import opened Transcript
  import opened ToolLoop
  import opened Channel
  import opened Readers
  import opened Reassembly

  // ---- One terminal event, at the end

  ghost predicate NoTerminal(items: seq<StreamItem>) {
    forall i :: 0 <= i < |items| ==> !items[i].Done? && !items[i].Fail?
  }

  lemma {:induction false} FlushedNoTerminal(calls: map<int, ToolCall>, keys: seq<int>)
    ensures NoTerminal(Flushed(calls, keys))
  {
    if keys != [] {
      FlushedNoTerminal(calls, keys[1..]);
    }
  }

  lemma OpenChunkNoTerminal(order: Order, st: Open, c: Chunk)
    requires NoTerminal(st.sent)
    ensures NoTerminal(OpenChunk(order, st, c).sent)
  {
    if c.choices != [] {
      var calls := MergedAll(st.calls, c.choices[0].calls);
      FlushedNoTerminal(calls, order(calls));
    }
  }

  /** Every run of the OpenAI reader ends in exactly one done or error event. */
  lemma {:induction false} OpenTerminates(order: Order, st: Open, inputs: seq<Input<Chunk>>, scanFails: bool)
    requires NoTerminal(st.sent)
    ensures Terminated(OpenSent(order, st, inputs, scanFails))
    decreases |inputs|
  {
    if inputs != [] {
      if inputs[0].Data? {
        OpenChunkNoTerminal(order, st, inputs[0].chunk);
        OpenTerminates(order, OpenChunk(order, st, inputs[0].chunk), inputs[1..], scanFails);
      } else if inputs[0].Skip? {
        OpenTerminates(order, st, inputs[1..], scanFails);
      }
    }
  }

  /** And so does every run of the Anthropic reader. */
  lemma {:induction false} AnthTerminates(st: Anth, inputs: seq<Input<Block>>, scanFails: bool)
    requires NoTerminal(st.sent)
    ensures Terminated(AnthSent(st, inputs, scanFails))
    decreases |inputs|
  {
    if inputs != [] && !inputs[0].Bad? && inputs[0] != Data(MessageStop) {
      AnthTerminates(if inputs[0].Data? then AnthBlock(st, inputs[0].chunk) else st, inputs[1..], scanFails);
    }
  }

  /** Hence neither reader is ever left blocked on its channel, whatever the interleaving with the
      consumer and whatever the response. */
  lemma ReadersAlwaysLeave(order: Order, opens: seq<Input<Chunk>>, blocks: seq<Input<Block>>, scanFails: bool,
                           steps: seq<Step>)
    ensures var evs := OpenSent(order, START, opens, scanFails);
            IsRun(Initial(evs), steps) && Stuck(Final(Initial(evs), steps)) ==>
              ReaderGone(Final(Initial(evs), steps)) && Final(Initial(evs), steps).got == evs
    ensures var evs := AnthSent(Anth([], None), blocks, scanFails);
            IsRun(Initial(evs), steps) && Stuck(Final(Initial(evs), steps)) ==>
              ReaderGone(Final(Initial(evs), steps)) && Final(Initial(evs), steps).got == evs
  {
    OpenTerminates(order, START, opens, scanFails);
    AnthTerminates(Anth([], None), blocks, scanFails);
    var a, b := OpenSent(order, START, opens, scanFails), AnthSent(Anth([], None), blocks, scanFails);
    if IsRun(Initial(a), steps) && Stuck(Final(Initial(a), steps)) {
      TerminatedReaderLeaves(a, steps);
    }
    if IsRun(Initial(b), steps) && Stuck(Final(Initial(b), steps)) {
      TerminatedReaderLeaves(b, steps);
    }
  }

  // ---- The Anthropic wire

  /** Whatever arguments the start of a call carries, `given`, do not count. */
  datatype Part =
    | TextPart(pieces: seq<string>)
    | CallPart(id: string, name: string, given: string, pieces: seq<string>)

  function Pieces(p: Part): (r: seq<Block>)
    ensures |r| == |p.pieces|
  {
    seq(|p.pieces|, i requires 0 <= i < |p.pieces| =>
      if p.TextPart? then TextPiece(p.pieces[i]) else JsonPiece(p.pieces[i]))
  }

  function PartBlocks(p: Part): seq<Block> {
    [BlockStart(if p.TextPart? then None else Some(ToolCall(p.id, p.name, p.given)))] + Pieces(p) + [BlockStop]
  }

  function Blocks(ps: seq<Part>): seq<Block> {
    if ps == [] then [] else PartBlocks(ps[0]) + Blocks(ps[1..])
  }

  function PartsText(ps: seq<Part>): string {
    if ps == [] then "" else (if ps[0].TextPart? then Concat(ps[0].pieces) else "") + PartsText(ps[1..])
  }

  function PartsCalls(ps: seq<Part>): seq<ToolCall> {
    if ps == [] then []
    else (if ps[0].CallPart? then [ToolCall(ps[0].id, ps[0].name, Concat(ps[0].pieces))] else []) + PartsCalls(ps[1..])
  }

  function ThroughBlocks(st: Anth, bs: seq<Block>): Anth
    decreases |bs|
  {
    if bs == [] then st else ThroughBlocks(AnthBlock(st, bs[0]), bs[1..])
  }

  lemma {:induction false} ThroughBlocksAppend(st: Anth, a: seq<Block>, b: seq<Block>)
    ensures ThroughBlocks(st, a + b) == ThroughBlocks(ThroughBlocks(st, a), b)
    decreases |a|
  {
    if a == [] {
      assert a + b == b;
    } else {
      var s := a + b;
      assert s[0] == a[0] && s[1..] == a[1..] + b;
      ThroughBlocksAppend(AnthBlock(st, a[0]), a[1..], b);
    }
  }

  lemma {:induction false} TextPieces(st: Anth, p: Part)
    requires p.TextPart?
    ensures var r := ThroughBlocks(st, Pieces(p));
            r.current == st.current && TextsOf(r.sent) == TextsOf(st.sent) + Concat(p.pieces)
              && Calls(r.sent) == Calls(st.sent)
    decreases |p.pieces|
  {
    if p.pieces == [] {
      assert TextsOf(st.sent) + "" == TextsOf(st.sent);
    } else {
      var q := TextPart(p.pieces[1..]);
      assert Pieces(p)[1..] == Pieces(q);
      var x := p.pieces[0];
      var next := AnthBlock(st, TextPiece(x));
      SentDelta(st.sent, "", x);
      assert st.sent + [] == st.sent;
      assert next.sent == st.sent + [] + (if x != "" then [Text(x)] else []);
      TextPieces(next, q);
      Assoc(TextsOf(st.sent), x, Concat(q.pieces));
    }
  }

  lemma {:induction false} JsonPieces(st: Anth, p: Part)
    requires p.CallPart? && st.current.Some?
    ensures ThroughBlocks(st, Pieces(p)) ==
            st.(current := Some(st.current.value.(arguments := st.current.value.arguments + Concat(p.pieces))))
    decreases |p.pieces|
  {
    if p.pieces == [] {
      assert st.current.value.arguments + "" == st.current.value.arguments;
    } else {
      var q := CallPart(p.id, p.name, p.given, p.pieces[1..]);
      assert Pieces(p)[1..] == Pieces(q);
      JsonPieces(AnthBlock(st, JsonPiece(p.pieces[0])), q);
      Assoc(st.current.value.arguments, p.pieces[0], Concat(q.pieces));
    }
  }

  lemma PartDecodes(st: Anth, p: Part)
    requires st.current == None
    ensures var r := ThroughBlocks(st, PartBlocks(p));
            && r.current == None
            && TextsOf(r.sent) == TextsOf(st.sent) + PartsText([p])
            && Calls(r.sent) == Calls(st.sent) + PartsCalls([p])
  {
    assert [p][1..] == [];
    var start := BlockStart(if p.TextPart? then None else Some(ToolCall(p.id, p.name, p.given)));
    var begun := AnthBlock(st, start);
    ThroughBlocksAppend(st, [start] + Pieces(p), [BlockStop]);
    ThroughBlocksAppend(st, [start], Pieces(p));
    assert [start][1..] == [] && [BlockStop][1..] == [];
    assert Concat(p.pieces) + "" == Concat(p.pieces);
    if p.TextPart? {
      TextPieces(begun, p);
      assert Calls(st.sent) + [] == Calls(st.sent);
    } else {
      JsonPieces(begun, p);
      var tc := ToolCall(p.id, p.name, Concat(p.pieces));
      assert "" + Concat(p.pieces) == Concat(p.pieces);
      CallsAppend(st.sent, [Call(tc)]);
      TextsOfAppend(st.sent, [Call(tc)]);
      assert [Call(tc)][1..] == [];
      assert Calls([Call(tc)]) == [tc] && TextsOf([Call(tc)]) == "" && PartsCalls([p]) == [tc];
      assert TextsOf(st.sent) + "" == TextsOf(st.sent);
    }
  }

  lemma {:induction false} BlocksDecode(st: Anth, ps: seq<Part>)
    requires st.current == None
    ensures var r := ThroughBlocks(st, Blocks(ps));
            && r.current == None
            && TextsOf(r.sent) == TextsOf(st.sent) + PartsText(ps)
            && Calls(r.sent) == Calls(st.sent) + PartsCalls(ps)
    decreases |ps|
  {
    if ps == [] {
      assert TextsOf(st.sent) + "" == TextsOf(st.sent) && Calls(st.sent) + [] == Calls(st.sent);
    } else {
      var first, rest := PartBlocks(ps[0]), Blocks(ps[1..]);
      PartDecodes(st, ps[0]);
      var mid := ThroughBlocks(st, first);
      BlocksDecode(mid, ps[1..]);
      ThroughBlocksAppend(st, first, rest);
      PartsOfOne(ps[0]);
      Assoc(TextsOf(st.sent), PartsText([ps[0]]), PartsText(ps[1..]));
      Assoc(Calls(st.sent), PartsCalls([ps[0]]), PartsCalls(ps[1..]));
    }
  }

  lemma PartsOfOne(p: Part)
    ensures PartsText([p]) == (if p.TextPart? then Concat(p.pieces) else "")
    ensures PartsCalls([p]) == (if p.CallPart? then [ToolCall(p.id, p.name, Concat(p.pieces))] else [])
  {
  }

  lemma {:induction false} AnthSentThrough(st: Anth, bs: seq<Block>, scanFails: bool)
    requires forall b :: b in bs ==> !b.MessageStop?
    ensures AnthSent(st, DataAll(bs) + [Data(MessageStop)], scanFails) == ThroughBlocks(st, bs).sent + [Done]
    decreases |bs|
  {
    var inputs := DataAll(bs) + [Data(MessageStop)];
    if bs != [] {
      assert bs[0] in bs;
      assert inputs[1..] == DataAll(bs[1..]) + [Data(MessageStop)];
      AnthSentThrough(AnthBlock(st, bs[0]), bs[1..], scanFails);
    }
  }

  lemma {:induction false} NoStopInside(ps: seq<Part>)
    ensures forall b :: b in Blocks(ps) ==> !b.MessageStop?
  {
    if ps != [] {
      NoStopInside(ps[1..]);
    }
  }

  /** What the Anthropic reader sends for the content blocks of a whole response. */
  function AnthItems(ps: seq<Part>, scanFails: bool): seq<StreamItem> {
    AnthSent(Anth([], None), DataAll(Blocks(ps)) + [Data(MessageStop)], scanFails)
  }

  lemma AnthDecodes(ps: seq<Part>, scanFails: bool)
    ensures var sent := AnthItems(ps, scanFails);
            TextsOf(sent) == PartsText(ps) && Calls(sent) == PartsCalls(ps) && sent != [] && sent[|sent| - 1] == Done
  {
    NoStopInside(ps);
    AnthSentThrough(Anth([], None), Blocks(ps), scanFails);
    BlocksDecode(Anth([], None), ps);
    SentLast(ThroughBlocks(Anth([], None), Blocks(ps)).sent, Done);
    assert "" + PartsText(ps) == PartsText(ps) && [] + PartsCalls(ps) == PartsCalls(ps);
  }

  // ---- Both readers, as the tool loop hears them

  /** What the tool loop makes of a stream that ends in its only terminal event. */
  lemma {:induction false} HeardTurn(t: Turn, items: seq<StreamItem>)
    requires t.error.None? && forall i :: 0 <= i < |items| - 1 ==> !items[i].Fail?
    ensures var r := Consumed(t, items);
            && r.text == t.text + TextsOf(items) && r.calls == t.calls + Calls(items)
            && (r.error.None? <==> items == [] || !items[|items| - 1].Fail?)
    decreases |items|
  {
    if items == [] {
      assert t.text + "" == t.text && t.calls + [] == t.calls;
    } else {
      var rest := items[1..];
      assert forall i :: 0 <= i < |rest| ==> rest[i] == items[i + 1];
      assert t.text + "" == t.text && t.calls + [] == t.calls;
      if items[0].Fail? {
        assert rest == [];
        assert Consumed(Absorbed(t, items[0]), rest) == Absorbed(t, items[0]);
        assert "" + "" == "";
      } else {
        HeardTurn(Absorbed(t, items[0]), rest);
        Assoc(t.text, if items[0].Text? then items[0].text else "", TextsOf(rest));
        Assoc(t.calls, if items[0].Call? then [items[0].call] else [], Calls(rest));
      }
    }
  }

  lemma HeardFresh(items: seq<StreamItem>)
    requires items != [] && forall i :: 0 <= i < |items| - 1 ==> !items[i].Fail?
    ensures var r := Consumed(NO_TURN, items);
            (r.error.None? <==> !items[|items| - 1].Fail?) && r.text == TextsOf(items) && r.calls == Calls(items)
  {
    HeardTurn(NO_TURN, items);
    assert "" + TextsOf(items) == TextsOf(items);
    assert [] + Calls(items) == Calls(items);
  }

  lemma OpenHeard(order: Order, cs: seq<Chunk>, scanFails: bool)
    requires IsOrder(order)
    ensures var t := Consumed(NO_TURN, OpenItems(order, cs, scanFails));
            && (t.error.None? <==> !scanFails)
            && t.text == AllContent(cs) && multiset(t.calls) == multiset(SegmentsOf(cs).closed)
  {
    OpenDecodes(order, cs, scanFails);
    OpenTerminates(order, START, DataAll(cs) + [DoneMark], scanFails);
    HeardFresh(OpenItems(order, cs, scanFails));
  }

  lemma AnthHeard(ps: seq<Part>, scanFails: bool)
    ensures var t := Consumed(NO_TURN, AnthItems(ps, scanFails));
            t.error == None && t.text == PartsText(ps) && t.calls == PartsCalls(ps)
  {
    AnthDecodes(ps, scanFails);
    AnthTerminates(Anth([], None), DataAll(Blocks(ps)) + [Data(MessageStop)], scanFails);
    HeardFresh(AnthItems(ps, scanFails));
  }

  /** The two wires spell the same reply: the same text, and the same calls in some order. */
  predicate SameReply(cs: seq<Chunk>, ps: seq<Part>) {
    AllContent(cs) == PartsText(ps) && multiset(Spelled(cs)) == multiset(PartsCalls(ps))
  }

  /** One reply, two wires: the tool loop hears the same text from both, and the same calls if and only
      if no fragment of the OpenAI response stands behind its last finish; whatever the interleaving of
      the deltas, the number of finishes and the map order. */
  lemma ReadersAgree(order: Order, cs: seq<Chunk>, ps: seq<Part>, openFails: bool, anthFails: bool)
    requires IsOrder(order) && SameReply(cs, ps)
    ensures var a := Consumed(NO_TURN, OpenItems(order, cs, openFails));
            var b := Consumed(NO_TURN, AnthItems(ps, anthFails));
            && (a.error.None? <==> !openFails) && b.error.None?
            && a.text == b.text
            && (multiset(a.calls) == multiset(b.calls) <==> AllFinished(cs))
  {
    OpenHeard(order, cs, openFails);
    OpenDecodes(order, cs, openFails);
    AllSentIffFinished(order, cs, openFails);
    AnthHeard(ps, anthFails);
  }

  function NoSkips<C>(inputs: seq<Input<C>>): seq<Input<C>> {
    if inputs == [] then [] else (if inputs[0].Skip? then [] else [inputs[0]]) + NoSkips(inputs[1..])
  }

  lemma {:induction false} OpenSkips(order: Order, st: Open, inputs: seq<Input<Chunk>>, scanFails: bool)
    ensures OpenSent(order, st, inputs, scanFails) == OpenSent(order, st, NoSkips(inputs), scanFails)
    decreases |inputs|
  {
    if inputs != [] {
      var rest := NoSkips(inputs[1..]);
      assert ([inputs[0]] + rest)[1..] == rest && [] + rest == rest;
      OpenSkips(order, if inputs[0].Data? then OpenChunk(order, st, inputs[0].chunk) else st, inputs[1..], scanFails);
    }
  }

  lemma {:induction false} AnthSkips(st: Anth, inputs: seq<Input<Block>>, scanFails: bool)
    ensures AnthSent(st, inputs, scanFails) == AnthSent(st, NoSkips(inputs), scanFails)
    decreases |inputs|
  {
    if inputs != [] {
      var rest := NoSkips(inputs[1..]);
      assert ([inputs[0]] + rest)[1..] == rest && [] + rest == rest;
      AnthSkips(if inputs[0].Data? then AnthBlock(st, inputs[0].chunk) else st, inputs[1..], scanFails);
    }
  }

  /** The same for the lines that the two methods read: blank lines, comments and event lines in
      between make no difference. */
  lemma ReadersAgreeOnLines(order: Order, asChunk: string -> Option<Chunk>, openLines: seq<string>, openFails: bool,
                            asBlock: string -> Option<Block>, anthLines: seq<string>, anthFails: bool,
                            cs: seq<Chunk>, ps: seq<Part>)
    requires IsOrder(order) && SameReply(cs, ps)
    requires NoSkips(OpenInputs(asChunk, openLines)) == DataAll(cs) + [DoneMark]
    requires NoSkips(BlockInputs(asBlock, anthLines)) == DataAll(Blocks(ps)) + [Data(MessageStop)]
    ensures var a := Consumed(NO_TURN, OpenSent(order, START, OpenInputs(asChunk, openLines), openFails));
            var b := Consumed(NO_TURN, AnthSent(Anth([], None), BlockInputs(asBlock, anthLines), anthFails));
            && (a.error.None? <==> !openFails) && b.error.None?
            && a.text == b.text
            && (multiset(a.calls) == multiset(b.calls) <==> AllFinished(cs))
  {
    OpenSkips(order, START, OpenInputs(asChunk, openLines), openFails);
    AnthSkips(Anth([], None), BlockInputs(asBlock, anthLines), anthFails);
    ReadersAgree(order, cs, ps, openFails, anthFails);
  }
}
