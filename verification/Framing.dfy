/** Server-sent-event framing and the incremental parser `groupStreamWriter`, in the LF-only subset of
    section 9.2 of the WHATWG HTML Living Standard. */
module Framing {
  import opened GoStrings
  import opened Json

  /** `strings.Index(s, "\n\n")`. */
  function FrameEnd(s: string): (i: int)
    ensures -1 <= i && (i >= 0 ==> i + 2 <= |s| && s[i] == '\n' && s[i + 1] == '\n')
    ensures forall j :: 0 <= j < |s| - 1 && (i < 0 || j < i) ==> !(s[j] == '\n' && s[j + 1] == '\n')
  {
    if |s| < 2 then -1
    else if s[0] == '\n' && s[1] == '\n' then 0
    else
      var r := FrameEnd(s[1..]);
      assert forall j :: 1 <= j < |s| ==> s[j] == s[1..][j - 1];
      if r < 0 then -1 else r + 1
  }

  datatype Framed = Framed(frames: seq<string>, rest: string)

  /** Cuts a stream at every blank line; `rest` is what no blank line has closed yet. */
  function Frames(s: string): Framed
    decreases |s|
  {
    var i := FrameEnd(s);
    if i < 0 then Framed([], s)
    else
      var tail := Frames(s[i + 2..]);
      Framed([s[..i]] + tail.frames, tail.rest)
  }

  lemma {:induction false} RestIsOpen(s: string)
    ensures FrameEnd(Frames(s).rest) < 0
    decreases |s|
  {
    var i := FrameEnd(s);
    if i >= 0 {
      RestIsOpen(s[i + 2..]);
    }
  }

  lemma FrameEndStays(a: string, b: string)
    requires FrameEnd(a) >= 0
    ensures FrameEnd(a + b) == FrameEnd(a)
  {
    var i, k := FrameEnd(a), FrameEnd(a + b);
    var s := a + b;
    assert forall j :: 0 <= j < |a| ==> s[j] == a[j];
    assert s[i] == '\n' && s[i + 1] == '\n';
    assert !(k < 0 || i < k);
  }

  /** Cutting a stream in two and carrying the remainder over loses and adds no frame. */
  lemma {:induction false} FramesSplit(a: string, b: string)
    ensures var x := Frames(a); var y := Frames(x.rest + b);
            Frames(a + b) == Framed(x.frames + y.frames, y.rest)
    decreases |a|
  {
    var i := FrameEnd(a);
    if i >= 0 {
      FrameEndStays(a, b);
      var s, tail := a + b, a[i + 2..];
      assert s[..i] == a[..i] && s[i + 2..] == tail + b;
      FramesSplit(tail, b);
      Assoc([a[..i]], Frames(tail).frames, Frames(Frames(tail).rest + b).frames);
    }
  }

  // ---- The data lines of a frame

  /** The payload of one line: what follows `data:`, trimmed on both sides. */
  function DataLine(line: string): seq<string> {
    var t := TrimSpace(line);
    if "data:" <= t then [TrimSpace(t[5..])] else []
  }

  function DataLines(lines: seq<string>): seq<string> {
    if lines == [] then [] else DataLine(lines[0]) + DataLines(lines[1..])
  }

  lemma {:induction false} DataLinesAppend(a: seq<string>, b: seq<string>)
    ensures DataLines(a + b) == DataLines(a) + DataLines(b)
  {
    if a == [] {
      assert a + b == b;
    } else {
      var s := a + b;
      assert s[0] == a[0] && s[1..] == a[1..] + b;
      DataLinesAppend(a[1..], b);
      Assoc(DataLine(a[0]), DataLines(a[1..]), DataLines(b));
    }
  }

  lemma LineAdds(lines: seq<string>, i: nat)
    requires i < |lines|
    ensures DataLines(lines[..i + 1]) == DataLines(lines[..i]) + DataLine(lines[i])
  {
    assert lines[..i + 1] == lines[..i] + [lines[i]];
    DataLinesAppend(lines[..i], [lines[i]]);
    assert DataLines([lines[i]]) == DataLine(lines[i]) + DataLines([]);
  }

  method CollectDataLines(frame: string) returns (data: seq<string>)
    ensures data == DataLines(Lines(frame))
  {
    var lines := Lines(frame);
    data := [];
    for i := 0 to |lines|
      invariant data == DataLines(lines[..i])
    {
      var line := TrimSpace(lines[i]);
      LineAdds(lines, i);
      if "data:" <= line {
        data := data + [TrimSpace(line[5..])];
      }
    }
    assert lines[..|lines|] == lines;
  }

  // ---- groupStreamWriter

  /** What the frames handled so far amount to; `seen` records the calls of `onFrame`. */
  datatype View = View(text: string, thinking: string, seen: seq<map<string, Value>>)

  datatype WriterState = WriterState(raw: string, buffer: string, view: View)

  /** The effect of one closed frame. */
  function Handled(c: Codec, v: View, frame: string): View {
    var data := DataLines(Lines(frame));
    if data == [] then v
    else
      match DecodeObject(c, Join(data, "\n"))
      case None => v
      case Some(evt) =>
        View(v.text + DeltaOf(evt, "text.delta", "text"),
             v.thinking + DeltaOf(evt, "thinking.delta", "thinking"),
             v.seen + [evt])
  }

  function HandledAll(c: Codec, v: View, frames: seq<string>): View
    decreases |frames|
  {
    if frames == [] then v else HandledAll(c, Handled(c, v, frames[0]), frames[1..])
  }

  lemma {:induction false} HandledAllAppend(c: Codec, v: View, a: seq<string>, b: seq<string>)
    ensures HandledAll(c, v, a + b) == HandledAll(c, HandledAll(c, v, a), b)
    decreases |a|
  {
    if a == [] {
      assert a + b == b;
    } else {
      var s := a + b;
      assert s[0] == a[0] && s[1..] == a[1..] + b;
      HandledAllAppend(c, Handled(c, v, a[0]), a[1..], b);
    }
  }

  /** One call of `Write`. */
  function Written(c: Codec, st: WriterState, p: string): WriterState {
    var f := Frames(st.buffer + p);
    WriterState(st.raw + p, f.rest, HandledAll(c, st.view, f.frames))
  }

  function WrittenAll(c: Codec, st: WriterState, chunks: seq<string>): WriterState
    decreases |chunks|
  {
    if chunks == [] then st else WrittenAll(c, Written(c, st, chunks[0]), chunks[1..])
  }

  lemma WriteTwice(c: Codec, st: WriterState, a: string, b: string)
    ensures Written(c, Written(c, st, a), b) == Written(c, st, a + b)
  {
    var s := st.buffer + a;
    assert s + b == st.buffer + (a + b) && st.raw + a + b == st.raw + (a + b);
    FramesSplit(s, b);
    var x := Frames(s);
    HandledAllAppend(c, st.view, x.frames, Frames(x.rest + b).frames);
  }

  /** Chunking is invisible: any sequence of writes leaves the writer (raw bytes, remainder, text,
      thinking and the sequence of callbacks) as one write of all the bytes does. */
  lemma {:induction false} ChunkingInvisible(c: Codec, st: WriterState, chunks: seq<string>)
    requires FrameEnd(st.buffer) < 0
    ensures WrittenAll(c, st, chunks) == Written(c, st, Concat(chunks))
    decreases |chunks|
  {
    if chunks == [] {
      assert st.buffer + "" == st.buffer && st.raw + "" == st.raw;
    } else {
      RestIsOpen(st.buffer + chunks[0]);
      ChunkingInvisible(c, Written(c, st, chunks[0]), chunks[1..]);
      WriteTwice(c, st, chunks[0], Concat(chunks[1..]));
    }
  }

  class GroupStreamWriter {
    const codec: Codec
    var raw: string
    var buffer: string
    var text: string
    var thinking: string
    var seen: seq<map<string, Value>>

    function State(): WriterState
      reads this
    {
      WriterState(raw, buffer, View(text, thinking, seen))
    }

    constructor (codec: Codec)
      ensures this.codec == codec && State() == WriterState("", "", View("", "", []))
    {
      this.codec := codec;
      raw, buffer, text, thinking, seen := "", "", "", "", [];
    }

    method HandleFrame(frame: string)
      modifies this
      ensures State() == old(State()).(view := Handled(codec, old(State()).view, frame))
    {
      var data := CollectDataLines(frame);
      if |data| == 0 {
        return;
      }
      var evt := DecodeObject(codec, Join(data, "\n"));
      if evt.None? {
        return;
      }
      var kind := StringAt(evt.value, "type");
      if kind == Some("text.delta") {
        var t := StringAt(evt.value, "text");
        if t.Some? {
          text := text + t.value;
        }
      } else if kind == Some("thinking.delta") {
        var t := StringAt(evt.value, "thinking");
        if t.Some? {
          thinking := thinking + t.value;
        }
      }
      seen := seen + [evt.value];
    }

    /** Consumes every frame that the new bytes close and keeps the remainder. */
    method Write(p: string) returns (n: nat)
      modifies this
      ensures n == |p|
      ensures State() == Written(codec, old(State()), p)
    {
      ghost var goal := Written(codec, State(), p);
      raw := raw + p;
      buffer := buffer + p;
      while true
        invariant raw == goal.raw && Frames(buffer).rest == goal.buffer
        invariant HandledAll(codec, State().view, Frames(buffer).frames) == goal.view
        decreases |buffer|
      {
        var idx := FrameEnd(buffer);
        if idx < 0 {
          break;
        }
        var frame := buffer[..idx];
        ghost var before := buffer;
        buffer := buffer[idx + 2..];
        HandleFrame(frame);
        assert Frames(before).frames[0] == frame && Frames(before).frames[1..] == Frames(buffer).frames;
      }
      n := |p|;
    }
  }
}
