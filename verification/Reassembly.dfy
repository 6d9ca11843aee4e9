/** The OpenAI reader reassembles tool calls: fragments are joined per index, and a `tool_calls` finish
    sends what has been joined since the finish before. */
module Reassembly {
  import opened GoStrings
  import opened Json
  import opened Transcript
  import opened ToolLoop
  import opened Readers

  // ---- Fragment reassembly

  /** The arguments of one index: its fragments in order. */
  function ArgumentsAt(fs: seq<Fragment>, k: int): string {
    if fs == [] then "" else (if fs[0].index == k then fs[0].arguments else "") + ArgumentsAt(fs[1..], k)
  }

  /** The last non-empty value a fragment of the index carries. */
  function IdAt(fs: seq<Fragment>, k: int): string {
    if fs == [] then ""
    else
      var later := IdAt(fs[1..], k);
      if later != "" then later else if fs[0].index == k then fs[0].id else ""
  }

  function NameAt(fs: seq<Fragment>, k: int): string {
    if fs == [] then ""
    else
      var later := NameAt(fs[1..], k);
      if later != "" then later else if fs[0].index == k then fs[0].name else ""
  }

  predicate Mentions(fs: seq<Fragment>, k: int) {
    exists i :: 0 <= i < |fs| && fs[i].index == k
  }

  /** What is in the map after the fragments `fs`, starting from what was there. */
  lemma {:induction false} MergedIsConcatenation(calls: map<int, ToolCall>, fs: seq<Fragment>, k: int)
    ensures var r := MergedAll(calls, fs);
            && (k in r <==> k in calls || Mentions(fs, k))
            && (k in r ==>
                  var was := if k in calls then calls[k] else ToolCall("", "", "");
                  r[k] == ToolCall(if IdAt(fs, k) != "" then IdAt(fs, k) else was.id,
                                   if NameAt(fs, k) != "" then NameAt(fs, k) else was.name,
                                   was.arguments + ArgumentsAt(fs, k)))
    decreases |fs|
  {
    if fs == [] {
      assert k in calls ==> calls[k].arguments + "" == calls[k].arguments;
    } else {
      var next := Merged(calls, fs[0]);
      MergedIsConcatenation(next, fs[1..], k);
      assert Mentions(fs, k) <==> fs[0].index == k || Mentions(fs[1..], k) by {
        assert forall i :: 1 <= i < |fs| ==> fs[i] == fs[1..][i - 1];
        if Mentions(fs[1..], k) {
          var i :| 0 <= i < |fs[1..]| && fs[1..][i].index == k;
          assert fs[i + 1].index == k;
        }
      }
      var was := if k in calls then calls[k] else ToolCall("", "", "");
      if fs[0].index == k {
        Assoc(was.arguments, fs[0].arguments, ArgumentsAt(fs[1..], k));
      } else {
        assert "" + ArgumentsAt(fs[1..], k) == ArgumentsAt(fs[1..], k);
      }
    }
  }

  /** The calls among stream items, in their order. */
  function Calls(items: seq<StreamItem>): seq<ToolCall> {
    if items == [] then [] else (if items[0].Call? then [items[0].call] else []) + Calls(items[1..])
  }

  function TextsOf(items: seq<StreamItem>): string {
    if items == [] then "" else (if items[0].Text? then items[0].text else "") + TextsOf(items[1..])
  }

  lemma {:induction false} CallsAppend(a: seq<StreamItem>, b: seq<StreamItem>)
    ensures Calls(a + b) == Calls(a) + Calls(b)
  {
    if a == [] {
      assert a + b == b;
    } else {
      var s := a + b;
      assert s[0] == a[0] && s[1..] == a[1..] + b;
      CallsAppend(a[1..], b);
      Assoc(if a[0].Call? then [a[0].call] else [], Calls(a[1..]), Calls(b));
    }
  }

  lemma {:induction false} TextsOfAppend(a: seq<StreamItem>, b: seq<StreamItem>)
    ensures TextsOf(a + b) == TextsOf(a) + TextsOf(b)
  {
    if a == [] {
      assert a + b == b;
      assert "" + TextsOf(b) == TextsOf(b);
    } else {
      var s := a + b;
      assert s[0] == a[0] && s[1..] == a[1..] + b;
      TextsOfAppend(a[1..], b);
      Assoc(if a[0].Text? then a[0].text else "", TextsOf(a[1..]), TextsOf(b));
    }
  }

  /** The calls under a list of keys. */
  function Picked(calls: map<int, ToolCall>, keys: seq<int>): (r: seq<ToolCall>)
    requires forall i :: 0 <= i < |keys| ==> keys[i] in calls
    ensures |r| == |keys|
  {
    seq(|keys|, i requires 0 <= i < |keys| => calls[keys[i]])
  }

  lemma {:induction false} FlushedCalls(calls: map<int, ToolCall>, keys: seq<int>)
    requires forall i :: 0 <= i < |keys| ==> keys[i] in calls
    ensures Calls(Flushed(calls, keys)) == Picked(calls, keys) && TextsOf(Flushed(calls, keys)) == ""
  {
    if keys != [] {
      FlushedCalls(calls, keys[1..]);
      var one, rest := Call(calls[keys[0]]), Flushed(calls, keys[1..]);
      assert Flushed(calls, keys) == [one] + rest && ([one] + rest)[1..] == rest;
      assert Picked(calls, keys) == [calls[keys[0]]] + Picked(calls, keys[1..]);
    }
  }

  lemma PickedSplit(calls: map<int, ToolCall>, a: seq<int>, k: int, b: seq<int>)
    requires forall i :: 0 <= i < |a + [k] + b| ==> (a + [k] + b)[i] in calls
    requires forall i :: 0 <= i < |a + b| ==> (a + b)[i] in calls
    requires k in calls
    ensures multiset(Picked(calls, a + [k] + b)) == multiset(Picked(calls, a + b)) + multiset{calls[k]}
  {
    forall i | 0 <= i < |a|
      ensures a[i] in calls
    {
      assert (a + b)[i] == a[i];
    }
    forall i | 0 <= i < |b|
      ensures b[i] in calls
    {
      assert (a + b)[|a| + i] == b[i];
    }
    assert Picked(calls, a + [k] + b) == Picked(calls, a) + [calls[k]] + Picked(calls, b);
    assert Picked(calls, a + b) == Picked(calls, a) + Picked(calls, b);
  }

  ghost predicate SameKeys(a: seq<int>, b: seq<int>) {
    Distinct(a) && Distinct(b) && forall k :: k in a <==> k in b
  }

  /** Two orders that end and contain the same key, and the orders without it. */
  lemma DropKey(a: seq<int>, b: seq<int>) returns (left: seq<int>, right: seq<int>)
    requires SameKeys(a, b) && a != []
    ensures var n := |a| - 1; b == left + [a[n]] + right && SameKeys(a[..n], left + right)
  {
    var n := |a| - 1;
    var k := a[n];
    assert k in a;
    assert k in b;
    var j :| 0 <= j < |b| && b[j] == k;
    left, right := b[..j], b[j + 1..];
    Without(a, n);
    Without(b, j);
    assert a[..n] + a[n + 1..] == a[..n];
  }

  /** In whatever order the keys are visited, the same calls come out. */
  lemma {:induction false} OrderDoesNotShow(calls: map<int, ToolCall>, a: seq<int>, b: seq<int>)
    requires SameKeys(a, b)
    requires (forall i :: 0 <= i < |a| ==> a[i] in calls) && (forall i :: 0 <= i < |b| ==> b[i] in calls)
    ensures multiset(Picked(calls, a)) == multiset(Picked(calls, b))
    decreases |a|
  {
    var first := (b + [0])[0];
    assert b != [] ==> first in b;
    if a != [] {
      var n := |a| - 1;
      var left, right := DropKey(a, b);
      assert a == a[..n] + [a[n]] + [] && a[..n] + [] == a[..n];
      forall i | 0 <= i < |left + right| ensures (left + right)[i] in calls {
        assert (left + right)[i] in left + right && (left + right)[i] in a[..n];
      }
      OrderDoesNotShow(calls, a[..n], left + right);
      PickedSplit(calls, left, a[n], right);
      PickedSplit(calls, a[..n], a[n], []);
    }
  }

  lemma Without(keys: seq<int>, j: nat)
    requires Distinct(keys) && j < |keys|
    ensures var rest := keys[..j] + keys[j + 1..];
            Distinct(rest) && forall k :: k in rest <==> k in keys && k != keys[j]
  {
  }

  // ---- Chunks and the segments between finishes

  /** The fragments and the text of one chunk: those of its first choice. */
  function FragmentsOf(c: Chunk): seq<Fragment> {
    if c.choices == [] then [] else c.choices[0].calls
  }

  function ContentOf(c: Chunk): string {
    if c.choices == [] then "" else c.choices[0].content
  }

  function AllContent(cs: seq<Chunk>): string {
    if cs == [] then "" else AllContent(cs[..|cs| - 1]) + ContentOf(cs[|cs| - 1])
  }

  predicate Finishes(c: Chunk) {
    c.choices != [] && c.choices[0].finish == Some("tool_calls")
  }

  /** The indices that fragments mention, in the order of their first mention. */
  function Indices(fs: seq<Fragment>): seq<int> {
    if fs == [] then []
    else
      var before := Indices(fs[..|fs| - 1]);
      if fs[|fs| - 1].index in before then before else before + [fs[|fs| - 1].index]
  }

  lemma {:induction false} IndicesAreMentions(fs: seq<Fragment>, k: int)
    ensures Distinct(Indices(fs)) && (k in Indices(fs) <==> Mentions(fs, k))
  {
    if fs != [] {
      var n := |fs| - 1;
      IndicesAreMentions(fs[..n], k);
      assert fs == fs[..n] + [fs[n]];
    }
  }

  /** The call that the fragments of one index spell, and those of all indices. */
  function CallAt(fs: seq<Fragment>, k: int): ToolCall {
    ToolCall(IdAt(fs, k), NameAt(fs, k), ArgumentsAt(fs, k))
  }

  function SegmentCalls(fs: seq<Fragment>): (r: seq<ToolCall>)
    ensures |r| == |Indices(fs)|
  {
    seq(|Indices(fs)|, i requires 0 <= i < |Indices(fs)| => CallAt(fs, Indices(fs)[i]))
  }

  /** A chunk list cut at its finishes: the calls of the segments that a finish closes, and the
      fragments behind the last finish. */
  datatype Segments = Segments(closed: seq<ToolCall>, open: seq<Fragment>)

  function Segmented(s: Segments, c: Chunk): Segments {
    var fs := s.open + FragmentsOf(c);
    if Finishes(c) then Segments(s.closed + SegmentCalls(fs), []) else s.(open := fs)
  }

  function SegmentsOf(cs: seq<Chunk>): Segments {
    if cs == [] then Segments([], []) else Segmented(SegmentsOf(cs[..|cs| - 1]), cs[|cs| - 1])
  }

  /** All calls that the chunks spell, whether a finish follows or not. */
  function Spelled(cs: seq<Chunk>): seq<ToolCall> {
    SegmentsOf(cs).closed + SegmentCalls(SegmentsOf(cs).open)
  }

  /** Every chunk that carries a fragment is, or is followed by, a finishing chunk. */
  ghost predicate AllFinished(cs: seq<Chunk>) {
    forall i :: 0 <= i < |cs| && FragmentsOf(cs[i]) != [] ==> exists j :: i <= j < |cs| && Finishes(cs[j])
  }

  lemma FinishedPush(before: seq<Chunk>, c: Chunk)
    ensures AllFinished(before + [c]) <==> Finishes(c) || (AllFinished(before) && FragmentsOf(c) == [])
  {
    var cs, n := before + [c], |before|;
    assert cs[n] == c && forall i :: 0 <= i < n ==> cs[i] == before[i];
    if Finishes(c) {
      assert Finishes(cs[n]);
    } else if AllFinished(cs) {
      forall i | 0 <= i < n && FragmentsOf(before[i]) != [] ensures exists j :: i <= j < n && Finishes(before[j]) {
        assert FragmentsOf(cs[i]) != [];
        var j :| i <= j < |cs| && Finishes(cs[j]);
        assert Finishes(before[j]);
      }
    } else if AllFinished(before) && FragmentsOf(c) == [] {
      forall i | 0 <= i < |cs| && FragmentsOf(cs[i]) != [] ensures exists j :: i <= j < |cs| && Finishes(cs[j]) {
        var j :| i <= j < n && Finishes(before[j]);
        assert Finishes(cs[j]);
      }
    }
  }

  lemma {:induction false} NothingOpenIffFinished(cs: seq<Chunk>)
    ensures SegmentsOf(cs).open == [] <==> AllFinished(cs)
  {
    if cs != [] {
      var n := |cs| - 1;
      NothingOpenIffFinished(cs[..n]);
      FinishedPush(cs[..n], cs[n]);
      assert cs == cs[..n] + [cs[n]];
    }
  }

  // ---- The reader against the segments

  /** The reader's map holds the open fragments, and it has sent the calls of the closed segments. */
  ghost predicate Matches(st: Open, s: Segments) {
    st.calls == MergedAll(map[], s.open) && multiset(Calls(st.sent)) == multiset(s.closed)
  }

  lemma MergedHolds(fs: seq<Fragment>, k: int)
    ensures var m := MergedAll(map[], fs);
            (k in m <==> k in Indices(fs)) && (k in m ==> m[k] == CallAt(fs, k))
  {
    MergedIsConcatenation(map[], fs, k);
    IndicesAreMentions(fs, k);
    assert "" + ArgumentsAt(fs, k) == ArgumentsAt(fs, k);
  }

  /** A flush sends exactly the calls that the fragments since the last flush spell. */
  lemma FlushIsSegment(order: Order, fs: seq<Fragment>)
    requires IsOrder(order)
    ensures var m := MergedAll(map[], fs);
            && multiset(Calls(Flushed(m, order(m)))) == multiset(SegmentCalls(fs))
            && TextsOf(Flushed(m, order(m))) == ""
  {
    var m := MergedAll(map[], fs);
    var keys, own := order(m), Indices(fs);
    forall k ensures (k in m <==> k in own) && (k in m ==> m[k] == CallAt(fs, k)) {
      MergedHolds(fs, k);
    }
    IndicesAreMentions(fs, 0);
    forall i | 0 <= i < |keys| ensures keys[i] in m {
      var k := keys[i];
      assert k in keys;
      assert k in m;
    }
    forall i | 0 <= i < |own| ensures own[i] in m {
      var k := own[i];
      assert k in own;
      assert k in m;
    }
    FlushedCalls(m, keys);
    OrderDoesNotShow(m, keys, own);
    assert Picked(m, own) == SegmentCalls(fs);
  }

  lemma SentDelta(sent: seq<StreamItem>, reasoning: string, content: string)
    ensures var r := sent + (if reasoning != "" then [Reasoning(reasoning)] else [])
            + (if content != "" then [Text(content)] else []);
            TextsOf(r) == TextsOf(sent) + content && Calls(r) == Calls(sent)
  {
    var x, y := if reasoning != "" then [Reasoning(reasoning)] else [], if content != "" then [Text(content)] else [];
    TextsOfAppend(sent + x, y);
    TextsOfAppend(sent, x);
    CallsAppend(sent + x, y);
    CallsAppend(sent, x);
    assert [Reasoning(reasoning)][1..] == [] && [Text(content)][1..] == [];
    assert TextsOf(x) == "" && Calls(x) == [] && Calls(y) == [];
    assert TextsOf(y) == content by {
      assert content + "" == content;
    }
    assert TextsOf(sent) + "" == TextsOf(sent);
    assert Calls(sent) + [] == Calls(sent);
  }

  lemma {:induction false} MergedAllAppend(calls: map<int, ToolCall>, a: seq<Fragment>, b: seq<Fragment>)
    ensures MergedAll(calls, a + b) == MergedAll(MergedAll(calls, a), b)
    decreases |a|
  {
    if a == [] {
      assert a + b == b;
    } else {
      var s := a + b;
      assert s[0] == a[0] && s[1..] == a[1..] + b;
      MergedAllAppend(Merged(calls, a[0]), a[1..], b);
    }
  }

  lemma ChunkMatches(order: Order, st: Open, s: Segments, c: Chunk)
    requires IsOrder(order) && Matches(st, s)
    ensures var r := OpenChunk(order, st, c);
            Matches(r, Segmented(s, c)) && TextsOf(r.sent) == TextsOf(st.sent) + ContentOf(c)
  {
    var fs := s.open + FragmentsOf(c);
    MergedAllAppend(map[], s.open, FragmentsOf(c));
    if c.choices == [] {
      assert fs == s.open && TextsOf(st.sent) + "" == TextsOf(st.sent);
    } else {
      var d := c.choices[0];
      var sent := st.sent + (if d.reasoning != "" then [Reasoning(d.reasoning)] else [])
        + (if d.content != "" then [Text(d.content)] else []);
      SentDelta(st.sent, d.reasoning, d.content);
      if Finishes(c) {
        var m := MergedAll(map[], fs);
        FlushIsSegment(order, fs);
        CallsAppend(sent, Flushed(m, order(m)));
        TextsOfAppend(sent, Flushed(m, order(m)));
        assert TextsOf(sent) + "" == TextsOf(sent);
      }
    }
  }

  function ThroughChunks(order: Order, st: Open, cs: seq<Chunk>): Open
    decreases |cs|
  {
    if cs == [] then st else ThroughChunks(order, OpenChunk(order, st, cs[0]), cs[1..])
  }

  lemma {:induction false} ThroughAppend(order: Order, st: Open, cs: seq<Chunk>, c: Chunk)
    ensures ThroughChunks(order, st, cs + [c]) == OpenChunk(order, ThroughChunks(order, st, cs), c)
    decreases |cs|
  {
    if cs == [] {
      assert cs + [c] == [c] && [c][1..] == [];
    } else {
      var s := cs + [c];
      assert s[0] == cs[0] && s[1..] == cs[1..] + [c];
      ThroughAppend(order, OpenChunk(order, st, cs[0]), cs[1..], c);
    }
  }

  const START := Open([], map[])

  ghost predicate RunMatches(order: Order, cs: seq<Chunk>) {
    var r := ThroughChunks(order, START, cs);
    Matches(r, SegmentsOf(cs)) && TextsOf(r.sent) == AllContent(cs)
  }

  lemma Pushed(order: Order, cs: seq<Chunk>, c: Chunk)
    ensures SegmentsOf(cs + [c]) == Segmented(SegmentsOf(cs), c)
    ensures AllContent(cs + [c]) == AllContent(cs) + ContentOf(c)
  {
    var s := cs + [c];
    assert s[..|s| - 1] == cs && s[|s| - 1] == c;
  }

  lemma RunMatchesPush(order: Order, cs: seq<Chunk>)
    requires IsOrder(order) && cs != [] && RunMatches(order, cs[..|cs| - 1])
    ensures RunMatches(order, cs)
  {
    var before, c := cs[..|cs| - 1], cs[|cs| - 1];
    assert cs == before + [c];
    ThroughAppend(order, START, before, c);
    Pushed(order, before, c);
    ChunkMatches(order, ThroughChunks(order, START, before), SegmentsOf(before), c);
  }

  /** Over a whole run, with any number of flushes. */
  lemma {:induction false} EveryRunMatches(order: Order, cs: seq<Chunk>)
    requires IsOrder(order)
    ensures RunMatches(order, cs)
  {
    if cs == [] {
      StartMatches(order, cs);
    } else {
      EveryRunMatches(order, cs[..|cs| - 1]);
      RunMatchesPush(order, cs);
    }
  }

  lemma StartMatches(order: Order, cs: seq<Chunk>)
    requires cs == []
    ensures RunMatches(order, cs)
  {
  }

  function DataAll<C>(cs: seq<C>): (r: seq<Input<C>>)
    ensures |r| == |cs|
  {
    seq(|cs|, i requires 0 <= i < |cs| => Data(cs[i]))
  }

  function LastItem(scanFails: bool): StreamItem {
    if scanFails then Fail("openai stream read error") else Done
  }

  lemma {:induction false} OpenSentThrough(order: Order, st: Open, cs: seq<Chunk>, scanFails: bool)
    ensures OpenSent(order, st, DataAll(cs) + [DoneMark], scanFails) ==
            ThroughChunks(order, st, cs).sent + [LastItem(scanFails)]
    decreases |cs|
  {
    var inputs := DataAll(cs) + [DoneMark];
    if cs != [] {
      assert inputs[1..] == DataAll(cs[1..]) + [DoneMark];
      OpenSentThrough(order, OpenChunk(order, st, cs[0]), cs[1..], scanFails);
    }
  }

  lemma SentLast(sent: seq<StreamItem>, last: StreamItem)
    requires last.Done? || last.Fail?
    ensures TextsOf(sent + [last]) == TextsOf(sent) && Calls(sent + [last]) == Calls(sent)
  {
    TextsOfAppend(sent, [last]);
    CallsAppend(sent, [last]);
    assert [last][1..] == [];
    assert TextsOf([last]) == "" && Calls([last]) == [];
    assert TextsOf(sent) + "" == TextsOf(sent) && Calls(sent) + [] == Calls(sent);
  }

  /** What the OpenAI reader sends for the chunks of a whole response. */
  function OpenItems(order: Order, cs: seq<Chunk>, scanFails: bool): seq<StreamItem> {
    OpenSent(order, START, DataAll(cs) + [DoneMark], scanFails)
  }

  /** For any chunks, with any number of finishes anywhere and in any map order, the reader sends the
      text in order and exactly the calls of the segments that a finish closes. */
  lemma OpenDecodes(order: Order, cs: seq<Chunk>, scanFails: bool)
    requires IsOrder(order)
    ensures var sent := OpenItems(order, cs, scanFails);
            && TextsOf(sent) == AllContent(cs)
            && multiset(Calls(sent)) == multiset(SegmentsOf(cs).closed)
            && sent != [] && sent[|sent| - 1] == LastItem(scanFails)
  {
    EveryRunMatches(order, cs);
    OpenSentThrough(order, START, cs, scanFails);
    SentLast(ThroughChunks(order, START, cs).sent, LastItem(scanFails));
  }

  // ---- Which calls are lost

  lemma FragmentsSpellCalls(fs: seq<Fragment>)
    ensures SegmentCalls(fs) == [] <==> fs == []
  {
    if fs != [] {
      IndicesAreMentions(fs, fs[0].index);
      assert Mentions(fs, fs[0].index);
    }
  }

  /** Every call that the chunks spell is sent if and only if no fragment stands behind the last
      finish. */
  lemma AllSentIffFinished(order: Order, cs: seq<Chunk>, scanFails: bool)
    requires IsOrder(order)
    ensures multiset(Calls(OpenItems(order, cs, scanFails))) == multiset(Spelled(cs)) <==> AllFinished(cs)
    ensures AllFinished(cs) <==> ThroughChunks(order, START, cs).calls == map[]
  {
    OpenDecodes(order, cs, scanFails);
    NothingOpenIffFinished(cs);
    var s := SegmentsOf(cs);
    FragmentsSpellCalls(s.open);
    assert s.closed + [] == s.closed;
    assert |multiset(s.closed + SegmentCalls(s.open))| == |s.closed| + |SegmentCalls(s.open)|;
    assert |multiset(s.closed)| == |s.closed|;
    EveryRunMatches(order, cs);
    if s.open != [] {
      MergedHolds(s.open, Indices(s.open)[0]);
    }
  }

  lemma OneFragment(f: Fragment)
    ensures SegmentCalls([f]) == [ToolCall(f.id, f.name, f.arguments)]
  {
    var fs := [f];
    assert fs[..0] == [] && fs[1..] == [];
    assert Indices(fs) == [] + [f.index] == [f.index];
    assert f.arguments + "" == f.arguments;
    assert IdAt([], f.index) == "" && NameAt([], f.index) == "" && ArgumentsAt([], f.index) == "";
    assert IdAt(fs, f.index) == f.id;
    assert NameAt(fs, f.index) == f.name;
    assert ArgumentsAt(fs, f.index) == f.arguments;
  }

  function OneCall(f: Fragment, finish: Option<string>): Chunk {
    Chunk([Choice("", "", [f], finish)])
  }

  lemma TwoSegments(f: Fragment, g: Fragment)
    ensures SegmentsOf([OneCall(f, Some("tool_calls")), OneCall(g, None)]) == Segments(SegmentCalls([f]), [g])
  {
    var first, second := OneCall(f, Some("tool_calls")), OneCall(g, None);
    var cs := [first, second];
    assert cs[..1] == [first] && [first][..0] == [];
    assert [] + [f] == [f] && [] + [g] == [g] && [] + SegmentCalls([f]) == SegmentCalls([f]);
    assert SegmentsOf([first]) == Segmented(Segments([], []), first);
  }

  /** A response in which the second call comes after the only finish: it is spelled and not sent. */
  lemma LaterCallIsLost(order: Order)
    requires IsOrder(order)
    ensures var cs := [OneCall(Fragment(0, "1", "f", "x"), Some("tool_calls")),
                       OneCall(Fragment(1, "2", "g", "y"), None)];
            && Spelled(cs) == [ToolCall("1", "f", "x"), ToolCall("2", "g", "y")]
            && multiset(Calls(OpenItems(order, cs, false))) == multiset{ToolCall("1", "f", "x")}
  {
    var f, g := Fragment(0, "1", "f", "x"), Fragment(1, "2", "g", "y");
    OneFragment(f);
    OneFragment(g);
    TwoSegments(f, g);
    OpenDecodes(order, [OneCall(f, Some("tool_calls")), OneCall(g, None)], false);
  }
}
