/** Redaction of JSON values and texts.  Texts are sequences of code points here: it is in code points
    that a string decoded out of a JSON text is shorter than the text. */
module Redaction {
  import opened Json
  import opened SensitiveKeys

  const MARKER := "[REDACTED]"

  /** Every string and key of the value is shorter than `n`. */
  ghost predicate Below(v: Value, n: nat)
    decreases v
  {
    match v
    case Str(s) => |s| < n
    case Arr(items) => forall i :: 0 <= i < |items| ==> Below(items[i], n)
    case Obj(m) => forall k :: k in m ==> |k| < n && Below(m[k], n)
    case _ => true
  }

  /** Every number of the value is one that the codec takes for a number, and at most `depth` arrays and
      objects are inside each other. */
  ghost predicate WellFormed(c: Codec, v: Value, depth: nat)
    decreases v
  {
    match v
    case Number(digits) => c.numeral(digits)
    case Arr(items) => depth > 0 && forall i :: 0 <= i < |items| ==> WellFormed(c, items[i], depth - 1)
    case Obj(m) => depth > 0 && forall k :: k in m ==> WellFormed(c, m[k], depth - 1)
    case _ => true
  }

  /** Decoding a text yields well-formed values with shorter strings: each loses at least its two quotes. */
  ghost predicate Shrinks(c: Codec) {
    forall s, v :: c.decode(s) == Some(v) ==> Below(v, |s|) && WellFormed(c, v, c.depth)
  }

  ghost predicate Inverts(c: Codec) {
    forall v :: WellFormed(c, v, c.depth) ==> c.decode(c.encode(v)) == Some(v)
  }

  /** The key test, and the regular expressions for plain text inside a value and for a whole text that
      is not JSON. */
  datatype Rules = Rules(sensitive: string -> bool, inner: string -> string, outer: string -> string)

  /** The rules of the gateway: `isSensitiveKey`, with its expressions for plain text. */
  ghost predicate Gateway(p: Rules, u: Unicode) {
    forall k :: p.sensitive(k) == IsSensitiveKey(u, k)
  }

  // ---- The specification

  /** `redactJSONText`: no answer when the text is not one JSON value. */
  function RedactJSONText(c: Codec, p: Rules, s: string): Option<string>
    requires Shrinks(c)
    decreases |s|, 1
  {
    match c.decode(s)
    case None => None
    case Some(v) => Some(c.encode(RedactValue(c, p, v, |s|)))
  }

  /** `redactJSONValue`; the bound only shows that the recursion through text ends. */
  function RedactValue(c: Codec, p: Rules, v: Value, bound: nat): Value
    requires Shrinks(c) && Below(v, bound)
    decreases bound, 0, v, 0
  {
    match v
    case Obj(m) => Obj(map k | k in m :: RedactMember(c, p, k, m[k], bound))
    case Arr(items) => Arr(seq(|items|, i requires 0 <= i < |items| => RedactValue(c, p, items[i], bound)))
    case Str(s) =>
      (match RedactJSONText(c, p, s)
       case Some(r) => Str(r)
       case None => Str(p.inner(s)))
    case _ => v
  }

  function RedactMember(c: Codec, p: Rules, key: string, nested: Value, bound: nat): Value
    requires Shrinks(c) && Below(nested, bound)
    decreases bound, 0, nested, 1
  {
    if p.sensitive(key) then Str(MARKER) else RedactValue(c, p, nested, bound)
  }

  /** `Text`. */
  function RedactText(c: Codec, p: Rules, input: string): string
    requires Shrinks(c)
  {
    if input == "" then ""
    else match RedactJSONText(c, p, input) case Some(r) => r case None => p.outer(input)
  }

  // ---- The methods

  method ReplaceJSONText(c: Codec, p: Rules, s: string) returns (r: Option<string>)
    requires Shrinks(c)
    ensures r == RedactJSONText(c, p, s)
    decreases |s|, 1
  {
    var data := c.decode(s);
    if data.None? {
      return None;
    }
    var v := ReplaceJSONValue(c, p, data.value, |s|);
    r := Some(c.encode(v));
  }

  method ReplaceJSONValue(c: Codec, p: Rules, v: Value, ghost bound: nat) returns (r: Value)
    requires Shrinks(c) && Below(v, bound)
    ensures r == RedactValue(c, p, v, bound)
    decreases bound, 0, v, 1
  {
    match v {
      case Obj(m) =>
        var typed := ReplaceMembers(c, p, m, bound);
        r := Obj(typed);
      case Arr(items) =>
        var typed := ReplaceItems(c, p, v, items, bound);
        r := Arr(typed);
      case Str(s) =>
        var out := ReplaceJSONText(c, p, s);
        r := if out.Some? then Str(out.value) else Str(p.inner(s));
      case _ => r := v;
    }
  }

  /** Members in `todo` are as they were, the others are redacted. */
  ghost predicate Halfway(c: Codec, p: Rules, m: map<string, Value>, bound: nat, typed: map<string, Value>,
                          todo: set<string>)
    requires Shrinks(c) && Below(Obj(m), bound)
  {
    && todo <= m.Keys && typed.Keys == m.Keys
    && (forall k :: k in m ==> typed[k] == if k in todo then m[k] else RedactMember(c, p, k, m[k], bound))
  }

  lemma HalfwayStep(c: Codec, p: Rules, m: map<string, Value>, bound: nat, typed: map<string, Value>, todo: set<string>,
                    key: string)
    requires Shrinks(c) && Below(Obj(m), bound) && Halfway(c, p, m, bound, typed, todo) && key in todo
    ensures Halfway(c, p, m, bound, typed[key := RedactMember(c, p, key, m[key], bound)], todo - {key})
  {
  }

  lemma MembersReplaced(c: Codec, p: Rules, m: map<string, Value>, bound: nat, typed: map<string, Value>)
    requires Shrinks(c) && Below(Obj(m), bound) && Halfway(c, p, m, bound, typed, {})
    ensures RedactValue(c, p, Obj(m), bound) == Obj(typed)
  {
  }

  method ReplaceMember(c: Codec, p: Rules, key: string, nested: Value, ghost bound: nat) returns (r: Value)
    requires Shrinks(c) && Below(nested, bound)
    ensures r == RedactMember(c, p, key, nested, bound)
    decreases bound, 0, nested, 2
  {
    if p.sensitive(key) {
      return Str(MARKER);
    }
    r := ReplaceJSONValue(c, p, nested, bound);
  }

  /** Members are overwritten one at a time, in any order. */
  method ReplaceMembers(c: Codec, p: Rules, m: map<string, Value>, ghost bound: nat) returns (typed: map<string, Value>)
    requires Shrinks(c) && Below(Obj(m), bound)
    ensures RedactValue(c, p, Obj(m), bound) == Obj(typed)
    decreases bound, 0, Obj(m), 0
  {
    typed := m;
    var todo := m.Keys;
    while todo != {}
      invariant Halfway(c, p, m, bound, typed, todo)
      decreases |todo|
    {
      var key :| key in todo;
      var nested := ReplaceMember(c, p, key, m[key], bound);
      HalfwayStep(c, p, m, bound, typed, todo, key);
      typed := typed[key := nested];
      todo := todo - {key};
    }
    MembersReplaced(c, p, m, bound, typed);
  }

  method ReplaceItems(c: Codec, p: Rules, v: Value, items: seq<Value>, ghost bound: nat) returns (typed: seq<Value>)
    requires Shrinks(c) && v == Arr(items) && Below(v, bound)
    ensures RedactValue(c, p, v, bound) == Arr(typed)
    decreases bound, 0, v, 0
  {
    typed := items;
    for i := 0 to |items|
      invariant |typed| == |items|
      invariant forall j :: 0 <= j < i ==> typed[j] == RedactValue(c, p, items[j], bound)
      invariant forall j :: i <= j < |items| ==> typed[j] == items[j]
    {
      var nested := ReplaceJSONValue(c, p, items[i], bound);
      typed := typed[i := nested];
    }
  }

  method Text(c: Codec, p: Rules, input: string) returns (out: string)
    requires Shrinks(c)
    ensures out == RedactText(c, p, input)
  {
    if input == "" {
      return "";
    }
    var r := ReplaceJSONText(c, p, input);
    out := if r.Some? then r.value else p.outer(input);
  }

  // ---- The bound does not matter

  lemma {:induction false} BelowGrows(v: Value, n: nat, m: nat)
    requires Below(v, n) && n <= m
    ensures Below(v, m)
    decreases v
  {
    match v
    case Arr(items) => forall i | 0 <= i < |items| ensures Below(items[i], m) { BelowGrows(items[i], n, m); }
    case Obj(o) => forall k | k in o ensures |k| < m && Below(o[k], m) { BelowGrows(o[k], n, m); }
    case _ =>
  }

  lemma {:induction false} BoundDoesNotMatter(c: Codec, p: Rules, v: Value, n: nat, m: nat)
    requires Shrinks(c) && Below(v, n) && Below(v, m)
    ensures RedactValue(c, p, v, n) == RedactValue(c, p, v, m)
    decreases v
  {
    match v
    case Arr(items) =>
      forall i | 0 <= i < |items| ensures RedactValue(c, p, items[i], n) == RedactValue(c, p, items[i], m) {
        BoundDoesNotMatter(c, p, items[i], n, m);
      }
    case Obj(o) =>
      forall k | k in o ensures RedactValue(c, p, o[k], n) == RedactValue(c, p, o[k], m) {
        BoundDoesNotMatter(c, p, o[k], n, m);
      }
    case _ =>
  }

  lemma {:induction false} RedactionIsWellFormed(c: Codec, p: Rules, v: Value, bound: nat, depth: nat)
    requires Shrinks(c) && Below(v, bound) && WellFormed(c, v, depth)
    ensures WellFormed(c, RedactValue(c, p, v, bound), depth)
    decreases v
  {
    match v
    case Arr(items) =>
      forall i | 0 <= i < |items| ensures WellFormed(c, RedactValue(c, p, items[i], bound), depth - 1) {
        RedactionIsWellFormed(c, p, items[i], bound, depth - 1);
      }
    case Obj(o) =>
      forall k | k in o ensures WellFormed(c, RedactMember(c, p, k, o[k], bound), depth - 1) {
        RedactionIsWellFormed(c, p, o[k], bound, depth - 1);
      }
    case _ =>
  }

  // ---- Redaction reaches every depth

  datatype Part = Member(key: string) | Item(index: nat) | Inside

  /** The value at the end of a path: into members and items, and into a string that is itself JSON. */
  function Lookup(c: Codec, v: Value, path: seq<Part>): Option<Value>
    decreases |path|
  {
    if path == [] then Some(v)
    else
      match path[0]
      case Member(k) => if v.Obj? && k in v.members then Lookup(c, v.members[k], path[1..]) else None
      case Item(i) => if v.Arr? && i < |v.items| then Lookup(c, v.items[i], path[1..]) else None
      case Inside => if v.Str? && c.decode(v.s).Some? then Lookup(c, c.decode(v.s).value, path[1..]) else None
  }

  predicate AvoidsSensitive(p: Rules, path: seq<Part>) {
    forall i :: 0 <= i < |path| ==> path[i].Member? ==> !p.sensitive(path[i].key)
  }

  /** A value that a path reaches is still below the bound. */
  lemma {:induction false} LookupBelow(c: Codec, v: Value, path: seq<Part>, bound: nat)
    requires Shrinks(c) && Below(v, bound) && Lookup(c, v, path).Some?
    ensures Below(Lookup(c, v, path).value, bound)
    decreases |path|
  {
    if path != [] {
      match path[0]
      case Member(k) => LookupBelow(c, v.members[k], path[1..], bound);
      case Item(i) => LookupBelow(c, v.items[i], path[1..], bound);
      case Inside =>
        var w := c.decode(v.s).value;
        BelowGrows(w, |v.s|, bound);
        LookupBelow(c, w, path[1..], bound);
    }
  }

  lemma InsideCommutes(c: Codec, p: Rules, s: string, bound: nat)
    requires Inverts(c) && Shrinks(c) && |s| < bound && c.decode(s).Some?
    ensures var w := c.decode(s).value;
            var r := RedactValue(c, p, Str(s), bound);
            Below(w, bound) && r.Str? && c.decode(r.s) == Some(RedactValue(c, p, w, bound))
  {
    var w := c.decode(s).value;
    BelowGrows(w, |s|, bound);
    BoundDoesNotMatter(c, p, w, |s|, bound);
    var done := RedactValue(c, p, w, |s|);
    RedactionIsWellFormed(c, p, w, |s|, c.depth);
    assert RedactJSONText(c, p, s) == Some(c.encode(done));
    assert RedactValue(c, p, Str(s), bound) == Str(c.encode(done));
  }

  lemma MemberCommutes(c: Codec, p: Rules, m: map<string, Value>, k: string, bound: nat)
    requires Shrinks(c) && Below(Obj(m), bound) && k in m && !p.sensitive(k)
    ensures var r := RedactValue(c, p, Obj(m), bound);
            r.Obj? && k in r.members && r.members[k] == RedactValue(c, p, m[k], bound)
  {
  }

  lemma LookupOne(c: Codec, v: Value, part: Part)
    ensures Lookup(c, v, [part]) ==
            match part
            case Member(k) => if v.Obj? && k in v.members then Some(v.members[k]) else None
            case Item(i) => if v.Arr? && i < |v.items| then Some(v.items[i]) else None
            case Inside => if v.Str? && c.decode(v.s).Some? then c.decode(v.s) else None
  {
  }

  /** The first step of a path leads from the redacted value to the redacted next value. */
  lemma StepCommutes(c: Codec, p: Rules, v: Value, part: Part, bound: nat)
    requires Inverts(c) && Shrinks(c) && Below(v, bound)
    requires AvoidsSensitive(p, [part]) && Lookup(c, v, [part]).Some?
    ensures Below(Lookup(c, v, [part]).value, bound)
    ensures Lookup(c, RedactValue(c, p, v, bound), [part]) == Some(RedactValue(c, p, Lookup(c, v, [part]).value, bound))
  {
    assert [part][0] == part;
    LookupOne(c, v, part);
    LookupOne(c, RedactValue(c, p, v, bound), part);
    match part
    case Member(k) => MemberCommutes(c, p, v.members, k, bound);
    case Item(i) =>
    case Inside => InsideCommutes(c, p, v.s, bound);
  }

  lemma LookupHead(c: Codec, v: Value, path: seq<Part>)
    requires path != []
    ensures Lookup(c, v, path) ==
            match Lookup(c, v, [path[0]]) case None => None case Some(w) => Lookup(c, w, path[1..])
  {
  }

  /** Redaction commutes with every path that goes through no sensitive key, also through strings that
      are themselves JSON, at any depth. */
  lemma {:induction false} RedactionCommutes(c: Codec, p: Rules, v: Value, path: seq<Part>, bound: nat)
    requires Inverts(c) && Shrinks(c) && Below(v, bound)
    requires AvoidsSensitive(p, path) && Lookup(c, v, path).Some?
    ensures Below(Lookup(c, v, path).value, bound)
    ensures Lookup(c, RedactValue(c, p, v, bound), path) == Some(RedactValue(c, p, Lookup(c, v, path).value, bound))
    decreases |path|
  {
    if path != [] {
      var rest := path[1..];
      assert AvoidsSensitive(p, rest) by {
        assert forall i :: 0 <= i < |rest| ==> rest[i] == path[i + 1];
      }
      LookupHead(c, v, path);
      LookupHead(c, RedactValue(c, p, v, bound), path);
      StepCommutes(c, p, v, path[0], bound);
      RedactionCommutes(c, p, Lookup(c, v, [path[0]]).value, rest, bound);
    }
  }

  /** What a redacted object and a redacted array look like. */
  lemma RedactedShape(c: Codec, p: Rules, v: Value, bound: nat)
    requires Shrinks(c) && Below(v, bound)
    ensures var r := RedactValue(c, p, v, bound);
            && (v.Obj? ==> r.Obj? && r.members.Keys == v.members.Keys &&
                           forall k :: k in v.members && p.sensitive(k) ==> r.members[k] == Str(MARKER))
            && (v.Arr? ==> r.Arr? && |r.items| == |v.items|)
  {
  }

  /** Every member with a sensitive key that is reached through no other sensitive key becomes exactly
      the marker, and the object around it keeps its keys; an array that is so reached keeps its length. */
  lemma SensitiveMembersAreMarked(c: Codec, p: Rules, v: Value, path: seq<Part>, bound: nat)
    requires Inverts(c) && Shrinks(c) && Below(v, bound)
    requires AvoidsSensitive(p, path) && Lookup(c, v, path).Some?
    ensures var at := Lookup(c, v, path).value;
            var now := Lookup(c, RedactValue(c, p, v, bound), path);
            && (at.Obj? ==> now.Some? && now.value.Obj? && now.value.members.Keys == at.members.Keys &&
                            forall k :: k in at.members && p.sensitive(k) ==> now.value.members[k] == Str(MARKER))
            && (at.Arr? ==> now.Some? && now.value.Arr? && |now.value.items| == |at.items|)
  {
    RedactionCommutes(c, p, v, path, bound);
    RedactedShape(c, p, Lookup(c, v, path).value, bound);
  }

  /** With the gateway's key test: case, separators and spaces never hide a sensitive key. */
  lemma DisguisedKeysAreMarked(c: Codec, p: Rules, u: Unicode, v: Value, path: seq<Part>, bound: nat, key: string)
    requires Inverts(c) && Shrinks(c) && Gateway(p, u) && Below(v, bound)
    requires AvoidsSensitive(p, path) && Lookup(c, v, path).Some? && Lookup(c, v, path).value.Obj?
    requires key in Lookup(c, v, path).value.members
    ensures LooksSensitive(Compact(Folded(u, key))) ==>
              Lookup(c, RedactValue(c, p, v, bound), path + [Member(key)]) == Some(Str(MARKER))
  {
    SensitiveMembersAreMarked(c, p, v, path, bound);
    SensitiveKeyShape(u, key);
    LookupAppend(c, RedactValue(c, p, v, bound), path, Member(key));
  }

  lemma {:induction false} LookupAppend(c: Codec, v: Value, path: seq<Part>, last: Part)
    requires Lookup(c, v, path).Some?
    ensures Lookup(c, v, path + [last]) == Lookup(c, Lookup(c, v, path).value, [last])
    decreases |path|
  {
    var whole := path + [last];
    if path == [] {
      assert whole == [last];
    } else {
      assert whole[0] == path[0] && whole[1..] == path[1..] + [last];
      match path[0]
      case Member(k) => LookupAppend(c, v.members[k], path[1..], last);
      case Item(i) => LookupAppend(c, v.items[i], path[1..], last);
      case Inside => LookupAppend(c, c.decode(v.s).value, path[1..], last);
    }
  }

  // ---- What the entry point returns

  /** A JSON text stays a JSON text, of the redacted value. */
  lemma JSONTextStaysJSON(c: Codec, p: Rules, input: string)
    requires Inverts(c) && Shrinks(c) && c.decode(input).Some?
    ensures var v := c.decode(input).value;
            var done := RedactValue(c, p, v, |input|);
            var out := RedactJSONText(c, p, input).value;
            out == c.encode(done) && c.decode(out) == Some(done) && WellFormed(c, done, c.depth)
  {
    RedactionIsWellFormed(c, p, c.decode(input).value, |input|, c.depth);
  }

  /** What stands where `at` stood: an object with the same keys and the marker under every sensitive one, an
      array of the same length, the same number, truth value or null, a plain text after the expressions,
      and a JSON text for a JSON text. */
  ghost predicate StandsFor(c: Codec, p: Rules, at: Value, now: Value) {
    match at
    case Obj(m) =>
      && now.Obj? && now.members.Keys == m.Keys
      && forall k :: k in m && p.sensitive(k) ==> now.members[k] == Str(MARKER)
    case Arr(items) => now.Arr? && |now.items| == |items|
    case Str(s) => now.Str? && if c.decode(s).None? then now.s == p.inner(s) else c.decode(now.s).Some?
    case _ => now == at
  }

  lemma RedactedStandsFor(c: Codec, p: Rules, v: Value, bound: nat)
    requires Inverts(c) && Shrinks(c) && Below(v, bound)
    ensures StandsFor(c, p, v, RedactValue(c, p, v, bound))
  {
    RedactedShape(c, p, v, bound);
    if v.Str? && c.decode(v.s).Some? {
      InsideCommutes(c, p, v.s, bound);
    }
  }

  /** The entry point.  An empty text stays empty; a text that is not JSON goes through the expressions for
      whole texts; and a JSON text becomes a JSON text in which, at every place that is reached through no
      sensitive key, also inside strings that are JSON, stands what the redaction allows there, and in
      which no place is missing or new. */
  lemma TextSays(c: Codec, p: Rules, input: string)
    requires Inverts(c) && Shrinks(c)
    ensures RedactText(c, p, "") == ""
    ensures input != "" && c.decode(input).None? ==> RedactText(c, p, input) == p.outer(input)
    ensures input != "" && c.decode(input).Some? ==>
              var v := c.decode(input).value;
              var w := c.decode(RedactText(c, p, input));
              && w.Some?
              && forall path :: AvoidsSensitive(p, path) && Lookup(c, v, path).Some? ==>
                   && Lookup(c, w.value, path).Some?
                   && StandsFor(c, p, Lookup(c, v, path).value, Lookup(c, w.value, path).value)
  {
    if input != "" && c.decode(input).Some? {
      JSONTextStaysJSON(c, p, input);
      var v := c.decode(input).value;
      forall path | AvoidsSensitive(p, path) && Lookup(c, v, path).Some?
        ensures Lookup(c, RedactValue(c, p, v, |input|), path).Some?
        ensures StandsFor(c, p, Lookup(c, v, path).value, Lookup(c, RedactValue(c, p, v, |input|), path).value)
      {
        RedactionCommutes(c, p, v, path, |input|);
        RedactedStandsFor(c, p, Lookup(c, v, path).value, |input|);
      }
    }
  }

  // ---- Redacting twice

  /** Redacting the text `t` inside a value changes nothing. */
  ghost predicate Settled(c: Codec, p: Rules, t: string)
    requires Shrinks(c)
  {
    match RedactJSONText(c, p, t) case Some(r) => r == t case None => p.inner(t) == t
  }

  /** The redaction reaches the plain text `s`, directly or inside strings that are JSON. */
  ghost predicate LeafAt(c: Codec, p: Rules, v: Value, path: seq<Part>, s: string) {
    AvoidsSensitive(p, path) && Lookup(c, v, path) == Some(Str(s)) && c.decode(s).None?
  }

  ghost predicate LeavesSettle(c: Codec, p: Rules, v: Value)
    requires Shrinks(c)
  {
    forall path, s :: LeafAt(c, p, v, path, s) ==> Settled(c, p, p.inner(s))
  }

  lemma PartLeavesSettle(c: Codec, p: Rules, v: Value, part: Part, w: Value)
    requires Shrinks(c) && LeavesSettle(c, p, v)
    requires AvoidsSensitive(p, [part]) && Lookup(c, v, [part]) == Some(w)
    ensures LeavesSettle(c, p, w)
  {
    assert [part][0] == part;
    forall path, s | LeafAt(c, p, w, path, s) ensures Settled(c, p, p.inner(s)) {
      var whole := [part] + path;
      assert whole[0] == part && whole[1..] == path;
      assert forall i :: 0 <= i < |whole| ==> whole[i] == if i == 0 then part else path[i - 1];
      LookupHead(c, v, whole);
      assert LeafAt(c, p, v, whole, s);
    }
  }

  lemma MembersStay(c: Codec, p: Rules, m: map<string, Value>, bound: nat)
    requires Shrinks(c) && Below(Obj(m), bound)
    requires forall k :: k in m ==> RedactMember(c, p, k, m[k], bound) == m[k]
    ensures RedactValue(c, p, Obj(m), bound) == Obj(m)
  {
  }

  lemma {:induction false} SettledLeavesStay(c: Codec, p: Rules, v: Value, bound: nat, again: nat)
    requires Inverts(c) && Shrinks(c) && Below(v, bound) && LeavesSettle(c, p, v)
    requires Below(RedactValue(c, p, v, bound), again)
    ensures RedactValue(c, p, RedactValue(c, p, v, bound), again) == RedactValue(c, p, v, bound)
    decreases bound, 0, v, 1
  {
    match v
    case Obj(m) =>
      var r := RedactValue(c, p, v, bound);
      forall k | k in m ensures RedactMember(c, p, k, r.members[k], again) == r.members[k] {
        MemberStays(c, p, m, bound, again, k);
      }
      MembersStay(c, p, r.members, again);
    case Arr(items) => ItemsStay(c, p, v, bound, again);
    case Str(s) => StringStays(c, p, s, bound, again);
    case _ =>
  }

  lemma {:induction false} MemberStays(c: Codec, p: Rules, m: map<string, Value>, bound: nat, again: nat, k: string)
    requires Inverts(c) && Shrinks(c) && Below(Obj(m), bound) && LeavesSettle(c, p, Obj(m)) && k in m
    requires Below(RedactMember(c, p, k, m[k], bound), again)
    ensures var r := RedactMember(c, p, k, m[k], bound); RedactMember(c, p, k, r, again) == r
    decreases bound, 0, Obj(m), 0
  {
    if !p.sensitive(k) {
      LookupOne(c, Obj(m), Member(k));
      PartLeavesSettle(c, p, Obj(m), Member(k), m[k]);
      SettledLeavesStay(c, p, m[k], bound, again);
    }
  }

  lemma {:induction false} ItemsStay(c: Codec, p: Rules, v: Value, bound: nat, again: nat)
    requires Inverts(c) && Shrinks(c) && v.Arr? && Below(v, bound) && LeavesSettle(c, p, v)
    requires Below(RedactValue(c, p, v, bound), again)
    ensures RedactValue(c, p, RedactValue(c, p, v, bound), again) == RedactValue(c, p, v, bound)
    decreases bound, 0, v, 0
  {
    var r := RedactValue(c, p, v, bound);
    forall i | 0 <= i < |v.items| ensures RedactValue(c, p, r.items[i], again) == r.items[i] {
      LookupOne(c, v, Item(i));
      PartLeavesSettle(c, p, v, Item(i), v.items[i]);
      assert r.items[i] == RedactValue(c, p, v.items[i], bound);
      SettledLeavesStay(c, p, v.items[i], bound, again);
    }
  }

  lemma StringStays(c: Codec, p: Rules, s: string, bound: nat, again: nat)
    requires Inverts(c) && Shrinks(c) && |s| < bound && LeavesSettle(c, p, Str(s))
    requires Below(RedactValue(c, p, Str(s), bound), again)
    ensures RedactValue(c, p, RedactValue(c, p, Str(s), bound), again) == RedactValue(c, p, Str(s), bound)
    decreases bound, 0, Str(s), 0
  {
    if c.decode(s).Some? {
      LookupOne(c, Str(s), Inside);
      PartLeavesSettle(c, p, Str(s), Inside, c.decode(s).value);
      InsideStays(c, p, s);
    } else {
      assert LeafAt(c, p, Str(s), [], s);
    }
  }

  lemma {:induction false} InsideStays(c: Codec, p: Rules, s: string)
    requires Inverts(c) && Shrinks(c) && c.decode(s).Some? && LeavesSettle(c, p, c.decode(s).value)
    ensures Settled(c, p, RedactJSONText(c, p, s).value)
    decreases |s|, 0
  {
    var w := c.decode(s).value;
    var done := RedactValue(c, p, w, |s|);
    RedactionIsWellFormed(c, p, w, |s|, c.depth);
    var r := c.encode(done);
    assert c.decode(r) == Some(done);
    SettledLeavesStay(c, p, w, |s|, |r|);
  }

  lemma LeafBecomes(c: Codec, p: Rules, v: Value, bound: nat, path: seq<Part>, s: string)
    requires Inverts(c) && Shrinks(c) && Below(v, bound) && LeafAt(c, p, v, path, s)
    ensures Lookup(c, RedactValue(c, p, v, bound), path) == Some(Str(p.inner(s)))
  {
    RedactionCommutes(c, p, v, path, bound);
  }

  /** Redacting twice is redacting once if and only if every plain text that the redaction reaches, also
      inside strings that are JSON, is rewritten to a text that stays as it is. */
  lemma RedactionIsIdempotentIff(c: Codec, p: Rules, v: Value, bound: nat, again: nat)
    requires Inverts(c) && Shrinks(c) && Below(v, bound) && Below(RedactValue(c, p, v, bound), again)
    ensures RedactValue(c, p, RedactValue(c, p, v, bound), again) == RedactValue(c, p, v, bound)
            <==> LeavesSettle(c, p, v)
  {
    var r := RedactValue(c, p, v, bound);
    if LeavesSettle(c, p, v) {
      SettledLeavesStay(c, p, v, bound, again);
    }
    if RedactValue(c, p, r, again) == r {
      forall path, s | LeafAt(c, p, v, path, s) ensures Settled(c, p, p.inner(s)) {
        LeafBecomes(c, p, v, bound, path, s);
        RedactionCommutes(c, p, r, path, again);
      }
    }
  }

  /** The same for a whole JSON text. */
  lemma RedactingTextTwiceIff(c: Codec, p: Rules, input: string)
    requires Inverts(c) && Shrinks(c) && c.decode(input).Some?
    ensures var out := RedactJSONText(c, p, input).value;
            RedactJSONText(c, p, out) == Some(out) <==> LeavesSettle(c, p, c.decode(input).value)
  {
    var v := c.decode(input).value;
    JSONTextStaysJSON(c, p, input);
    var done := RedactValue(c, p, v, |input|);
    var out := c.encode(done);
    JSONTextStaysJSON(c, p, out);
    RedactionIsIdempotentIff(c, p, v, |input|, |out|);
  }

  // A plain text that is rewritten to a JSON string: the quoted secret, the text after the first
  // redaction, what that decodes to, and how it is encoded again.
  const QUOTED := "\"token=a\"b &\""
  const SHOWN := "\"token=[REDACTED] &\""
  const PLAIN := "token=[REDACTED] &"
  const ESCAPED := "\"token=[REDACTED] \\u0026\""

  /** What the codec and the expressions of the gateway do with these texts. */
  predicate RewritesToJSON(c: Codec, p: Rules) {
    && c.decode(QUOTED) == None && p.inner(QUOTED) == SHOWN
    && c.decode(SHOWN) == Some(Str(PLAIN)) && c.encode(Str(PLAIN)) == ESCAPED
    && c.decode(PLAIN) == None && p.inner(PLAIN) == PLAIN
  }

  /** So the redaction of the gateway is not idempotent. */
  lemma QuotedSecretChangesAgain(c: Codec, p: Rules)
    requires Shrinks(c) && RewritesToJSON(c, p)
    ensures RedactValue(c, p, Str(QUOTED), 99) == Str(SHOWN)
    ensures RedactValue(c, p, Str(SHOWN), 99) == Str(ESCAPED) != Str(SHOWN)
    ensures !LeavesSettle(c, p, Str(QUOTED))
  {
    assert RedactJSONText(c, p, PLAIN) == None;
    assert RedactValue(c, p, Str(PLAIN), |SHOWN|) == Str(PLAIN);
    assert RedactJSONText(c, p, SHOWN) == Some(ESCAPED);
    assert |ESCAPED| != |SHOWN|;
    assert LeafAt(c, p, Str(QUOTED), [], QUOTED);
  }
}
