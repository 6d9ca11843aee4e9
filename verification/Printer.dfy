/** `writeSSE` and `writeGroupSSE`, and the law that the incremental parser inverts them under
    every way of cutting the printed bytes into writes. */
module Printer {
  import opened GoStrings
  import opened Json
  import opened Framing

  datatype Event = Event(name: string, fields: map<string, Value>)

  /** The map that is marshalled: the caller's fields with `type` set to the event name. */
  function Payload(e: Event): map<string, Value> {
    e.fields["type" := Str(e.name)]
  }

  /** The two lines of an event, without the blank line that closes it. */
  function Frame(c: Codec, e: Event): string {
    "event: " + e.name + "\n" + ("data: " + c.encode(Obj(Payload(e))))
  }

  function Printed(c: Codec, e: Event): string {
    Frame(c, e) + "\n\n"
  }

  function Stream(c: Codec, es: seq<Event>): string {
    if es == [] then "" else Printed(c, es[0]) + Stream(c, es[1..])
  }

  /** Name and encoded payload are on one line each. */
  predicate Framable(c: Codec, e: Event) {
    '\n' !in e.name && OnOneLine(c, Obj(Payload(e)))
  }

  predicate AllFramable(c: Codec, es: seq<Event>) {
    forall i :: 0 <= i < |es| ==> Framable(c, es[i])
  }

  /** The codec also reads the payload back. */
  predicate Printable(c: Codec, e: Event) {
    '\n' !in e.name && RoundTrips(c, Obj(Payload(e)))
  }

  predicate AllPrintable(c: Codec, es: seq<Event>) {
    forall i :: 0 <= i < |es| ==> Printable(c, es[i])
  }

  function Payloads(es: seq<Event>): seq<map<string, Value>> {
    if es == [] then [] else [Payload(es[0])] + Payloads(es[1..])
  }

  /** What the codec makes of a printed payload: text that is not valid UTF-8 comes back changed. */
  function Reading(c: Codec, e: Event): seq<map<string, Value>> {
    match DecodeObject(c, c.encode(Obj(Payload(e)))) case None => [] case Some(m) => [m]
  }

  function Readings(c: Codec, es: seq<Event>): seq<map<string, Value>> {
    if es == [] then [] else Reading(c, es[0]) + Readings(c, es[1..])
  }

  /** The concatenated `field` of the objects of one kind. */
  function Deltas(ms: seq<map<string, Value>>, kind: string, field: string): string {
    if ms == [] then "" else DeltaOf(ms[0], kind, field) + Deltas(ms[1..], kind, field)
  }

  lemma {:induction false} DeltasAppend(a: seq<map<string, Value>>, b: seq<map<string, Value>>, kind: string,
                                        field: string)
    ensures Deltas(a + b, kind, field) == Deltas(a, kind, field) + Deltas(b, kind, field)
  {
    if a == [] {
      assert a + b == b && "" + Deltas(b, kind, field) == Deltas(b, kind, field);
    } else {
      var s := a + b;
      assert s[0] == a[0] && s[1..] == a[1..] + b;
      DeltasAppend(a[1..], b, kind, field);
      Assoc(DeltaOf(a[0], kind, field), Deltas(a[1..], kind, field), Deltas(b, kind, field));
    }
  }

  lemma {:induction false} PrintableReadsBack(c: Codec, es: seq<Event>)
    requires AllPrintable(c, es)
    ensures Readings(c, es) == Payloads(es)
  {
    if es != [] {
      assert Printable(c, es[0]) && forall i :: 0 <= i < |es[1..]| ==> es[1..][i] == es[i + 1];
      PrintableReadsBack(c, es[1..]);
    }
  }

  lemma SolidHeadIsKept(s: string)
    requires s != "" && IsSolid(s[0])
    ensures SpaceEnd(s) < |s|
  {
    WideSpaceHoldsNoAscii(s, 0);
    assert s[0..] == s;
  }

  lemma {:induction false} SolidHeadStays(s: string)
    requires s != "" && IsSolid(s[0])
    ensures TrimRight(s) != "" && TrimRight(s)[0] == s[0]
  {
    if SpaceEnd(s) > 0 {
      SolidHeadIsKept(s);
      SolidHeadStays(s[..|s| - SpaceEnd(s)]);
    }
  }

  lemma HeadSurvivesTrim(s: string)
    requires s != "" && IsSolid(s[0])
    ensures TrimSpace(s) != "" && TrimSpace(s)[0] == s[0]
  {
    SolidStart(s);
    SolidHeadStays(s);
  }

  lemma EventLineHasNoData(name: string)
    ensures DataLine("event: " + name) == []
  {
    HeadSurvivesTrim("event: " + name);
  }

  lemma DataLineOf(j: string)
    requires j != "" && Tight(j)
    ensures DataLine("data: " + j) == [j]
  {
    var s := "data: " + j;
    SolidStart(s);
    EndBehindAscii("data: ", j);
    TrimSpaceFixes(s);
    SpaceBehindColon(j);
    assert s[5..] == " " + j;
  }

  /** One space in front of a tight text is trimmed off. */
  lemma SpaceBehindColon(j: string)
    requires j != "" && Tight(j)
    ensures TrimSpace(" " + j) == j
  {
    assert (" " + j)[1..] == j;
    assert TrimLeft(" " + j) == TrimLeft(j);
    TrimSpaceFixes(j);
  }

  lemma FrameData(c: Codec, e: Event)
    requires Framable(c, e)
    ensures DataLines(Lines(Frame(c, e))) == [c.encode(Obj(Payload(e)))]
  {
    var j := c.encode(Obj(Payload(e)));
    var first, second := "event: " + e.name, "data: " + j;
    LinesAppend(first, second);
    LinesSingle(second);
    EventLineHasNoData(e.name);
    DataLineOf(j);
    assert Lines(Frame(c, e)) == [first, second];
    assert DataLines([first, second]) == DataLine(first) + DataLines([second]);
    assert DataLines([second]) == DataLine(second) + DataLines([]);
  }

  /** A string with single newlines only, not ending in one, is the first frame of its closure. */
  lemma FirstFrame(f: string, rest: string)
    requires f != "" && f[|f| - 1] != '\n' && FrameEnd(f) < 0
    ensures FrameEnd(f + "\n\n" + rest) == |f|
  {
    var s := f + "\n\n" + rest;
    var k := FrameEnd(s);
    assert forall j :: 0 <= j < |f| ==> s[j] == f[j];
    assert s[|f|] == '\n' && s[|f| + 1] == '\n';
    assert !(k < 0 || |f| < k);
    assert forall j :: 0 <= j < |f| - 1 ==> !(f[j] == '\n' && f[j + 1] == '\n');
    assert !(k < |f| - 1);
  }

  lemma FrameIsOpen(c: Codec, e: Event)
    requires Framable(c, e)
    ensures var f := Frame(c, e); f != "" && f[|f| - 1] != '\n' && FrameEnd(f) < 0
  {
  }

  /** The objects are reported in order, and their deltas are added. */
  function Extended(v: View, ms: seq<map<string, Value>>): View {
    View(v.text + Deltas(ms, "text.delta", "text"), v.thinking + Deltas(ms, "thinking.delta", "thinking"), v.seen + ms)
  }

  lemma ExtendedTwice(v: View, a: seq<map<string, Value>>, b: seq<map<string, Value>>)
    ensures Extended(Extended(v, a), b) == Extended(v, a + b)
  {
    DeltasAppend(a, b, "text.delta", "text");
    DeltasAppend(a, b, "thinking.delta", "thinking");
    Assoc(v.text, Deltas(a, "text.delta", "text"), Deltas(b, "text.delta", "text"));
    Assoc(v.thinking, Deltas(a, "thinking.delta", "thinking"), Deltas(b, "thinking.delta", "thinking"));
    Assoc(v.seen, a, b);
  }

  lemma HandledPrinted(c: Codec, v: View, e: Event)
    requires Framable(c, e)
    ensures Handled(c, v, Frame(c, e)) ==
            Extended(v, Reading(c, e))
  {
    FrameData(c, e);
    var j := c.encode(Obj(Payload(e)));
    assert Join([j], "\n") == j;
    match DecodeObject(c, j)
    case None =>
      assert v.text + "" == v.text && v.thinking + "" == v.thinking && v.seen + [] == v.seen;
    case Some(m) =>
      DeltaOfOne(m, "text.delta", "text");
      DeltaOfOne(m, "thinking.delta", "thinking");
      assert v.text + "" == v.text && v.thinking + "" == v.thinking;
  }

  lemma DeltaOfOne(m: map<string, Value>, kind: string, field: string)
    ensures Deltas([m], kind, field) == DeltaOf(m, kind, field)
  {
    assert [m][1..] == [];
    assert DeltaOf(m, kind, field) + "" == DeltaOf(m, kind, field);
  }

  lemma FramesOfStream(c: Codec, e: Event, es: seq<Event>)
    requires Framable(c, e)
    ensures Frames(Stream(c, [e] + es)) ==
            Framed([Frame(c, e)] + Frames(Stream(c, es)).frames, Frames(Stream(c, es)).rest)
  {
    var f, rest := Frame(c, e), Stream(c, es);
    assert ([e] + es)[1..] == es;
    var s := f + "\n\n" + rest;
    assert Stream(c, [e] + es) == s;
    FrameIsOpen(c, e);
    FirstFrame(f, rest);
    assert s[..|f|] == f && s[|f| + 2..] == rest;
  }

  lemma {:induction false} HandledStream(c: Codec, v: View, es: seq<Event>)
    requires AllFramable(c, es)
    ensures Frames(Stream(c, es)).rest == ""
    ensures HandledAll(c, v, Frames(Stream(c, es)).frames) == Extended(v, Readings(c, es))
    decreases |es|
  {
    if es == [] {
      assert Stream(c, es) == "" && Frames("") == Framed([], "");
      assert v.text + "" == v.text && v.thinking + "" == v.thinking && v.seen + [] == v.seen;
    } else {
      var e, tail := es[0], es[1..];
      assert es == [e] + tail;
      FramesOfStream(c, e, tail);
      HandledPrinted(c, v, e);
      HandledStream(c, Handled(c, v, Frame(c, e)), tail);
      ExtendedTwice(v, Reading(c, e), Readings(c, tail));
      assert Frames(Stream(c, es)).frames[1..] == Frames(Stream(c, tail)).frames;
    }
  }

  lemma WrittenFresh(c: Codec, v: View, s: string)
    ensures Written(c, WriterState("", "", v), s) == WriterState(s, Frames(s).rest, HandledAll(c, v, Frames(s).frames))
  {
    assert "" + s == s;
  }

  lemma HandledStreamFresh(c: Codec, es: seq<Event>)
    requires AllFramable(c, es)
    ensures var ms := Readings(c, es);
            HandledAll(c, View("", "", []), Frames(Stream(c, es)).frames) ==
            View(Deltas(ms, "text.delta", "text"), Deltas(ms, "thinking.delta", "thinking"), ms)
  {
    HandledStream(c, View("", "", []), es);
    var ms := Readings(c, es);
    var text, thinking := Deltas(ms, "text.delta", "text"), Deltas(ms, "thinking.delta", "thinking");
    assert "" + text == text && "" + thinking == thinking && [] + ms == ms;
  }

  /** Print then parse: whatever the split into writes, the parser reports exactly what the codec reads
      back of the printed payloads, in order, accumulates exactly their deltas, and keeps nothing back.
      Payloads that the codec reads back unchanged come back themselves. */
  lemma PrintedEventsComeBack(c: Codec, es: seq<Event>, chunks: seq<string>)
    requires AllFramable(c, es) && Concat(chunks) == Stream(c, es)
    ensures var ms := Readings(c, es);
            WrittenAll(c, WriterState("", "", View("", "", [])), chunks) ==
            WriterState(Stream(c, es), "",
                        View(Deltas(ms, "text.delta", "text"), Deltas(ms, "thinking.delta", "thinking"), ms))
    ensures AllPrintable(c, es) ==> Readings(c, es) == Payloads(es)
  {
    var v := View("", "", []);
    ChunkingInvisible(c, WriterState("", "", v), chunks);
    WrittenFresh(c, v, Stream(c, es));
    HandledStream(c, v, es);
    HandledStreamFresh(c, es);
    if AllPrintable(c, es) {
      PrintableReadsBack(c, es);
    }
  }
}
