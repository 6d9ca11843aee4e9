/** Which JSON keys the redaction treats as sensitive. */
module SensitiveKeys {
  import opened GoStrings

  /** The tables of Go's `unicode` package, per code point: `unicode.IsSpace` and `unicode.ToLower`. */
  datatype Unicode = Unicode(isSpace: char -> bool, lower: char -> char)

  function TrimStart(u: Unicode, s: string): string {
    if s != "" && u.isSpace(s[0]) then TrimStart(u, s[1..]) else s
  }

  function TrimEnd(u: Unicode, s: string): string {
    if s != "" && u.isSpace(s[|s| - 1]) then TrimEnd(u, s[..|s| - 1]) else s
  }

  function Lower(u: Unicode, s: string): string {
    if s == "" then "" else [u.lower(s[0])] + Lower(u, s[1..])
  }

  /** `strings.ToLower(strings.TrimSpace(key))`. */
  function Folded(u: Unicode, key: string): string {
    Lower(u, TrimEnd(u, TrimStart(u, key)))
  }

  function Normalized(s: string): string {
    if s == "" then "" else [if s[0] == '-' || s[0] == ' ' then '_' else s[0]] + Normalized(s[1..])
  }

  function Compact(s: string): string {
    if s == "" then "" else (if s[0] == '_' || s[0] == '-' || s[0] == ' ' then "" else [s[0]]) + Compact(s[1..])
  }

  predicate Contains(s: string, t: string) {
    t <= s || (s != "" && Contains(s[1..], t))
  }

  predicate NamedToken(n: string) {
    n == "admin_token" || n == "session_token" || n == "default_access_token" || n == "access_token" ||
    n == "invite_token" || n == "token" || n == "x_admin_token" || n == "x_group_member_token"
  }

  predicate SqueezedToken(n: string) {
    n == "admintoken" || n == "sessiontoken" || n == "defaultaccesstoken" || n == "accesstoken" ||
    n == "invitetoken" || n == "token" || n == "xadmintoken" || n == "xgroupmembertoken"
  }

  predicate NamedOther(n: string) {
    n == "secret" || n == "authorization" || n == "password" || n == "key"
  }

  /** The two switch statements of `isSensitiveKey`. */
  predicate ListedNormalized(n: string) {
    NamedToken(n) || n == "api_key" || n == "x_api_key" || NamedOther(n)
  }

  predicate ListedCompact(n: string) {
    SqueezedToken(n) || n == "apikey" || n == "xapikey" || NamedOther(n)
  }

  predicate IsSensitiveKey(u: Unicode, key: string) {
    var lower := Folded(u, key);
    var normalized := Normalized(lower);
    var compact := Compact(lower);
    || ListedNormalized(normalized)
    || ListedCompact(compact)
    || HasSuffix(compact, "token")
    || HasSuffix(compact, "secret")
    || HasSuffix(compact, "password")
    || Contains(compact, "apikey")
    || Contains(compact, "authorization")
  }

  /** The shape that all the listed names have. */
  predicate LooksSensitive(compact: string) {
    || compact == "key"
    || HasSuffix(compact, "token") || HasSuffix(compact, "secret") || HasSuffix(compact, "password")
    || Contains(compact, "apikey") || Contains(compact, "authorization")
  }

  lemma {:induction false} CompactOfNormalized(s: string)
    ensures Compact(Normalized(s)) == Compact(s)
  {
    if s != "" {
      CompactOfNormalized(s[1..]);
      var n := Normalized(s);
      assert n[1..] == Normalized(s[1..]);
    }
  }

  predicate NoSeparator(s: string) {
    forall i :: 0 <= i < |s| ==> s[i] != '_' && s[i] != '-' && s[i] != ' '
  }

  lemma {:induction false} CompactAppend(a: string, b: string)
    ensures Compact(a + b) == Compact(a) + Compact(b)
  {
    if a == "" {
      assert a + b == b && Compact(a) + Compact(b) == Compact(b);
    } else {
      var s := a + b;
      assert s[0] == a[0] && s[1..] == a[1..] + b;
      CompactAppend(a[1..], b);
      var first := if a[0] == '_' || a[0] == '-' || a[0] == ' ' then "" else [a[0]];
      assert Compact(s) == first + (Compact(a[1..]) + Compact(b));
      Assoc(first, Compact(a[1..]), Compact(b));
    }
  }

  lemma {:induction false} CompactKeeps(s: string)
    requires NoSeparator(s)
    ensures Compact(s) == s
  {
    if s != "" {
      CompactKeeps(s[1..]);
    }
  }

  lemma SuffixSurvives(s: string, back: string)
    requires HasSuffix(s, back) && NoSeparator(back)
    ensures HasSuffix(Compact(s), back)
  {
    var front := s[..|s| - |back|];
    assert s == front + back;
    CompactAppend(front, back);
    CompactKeeps(back);
  }

  lemma {:induction false} SuffixIsContained(s: string, t: string)
    requires HasSuffix(s, t)
    ensures Contains(s, t)
    decreases |s|
  {
    if |s| == |t| {
      assert s == t;
    } else {
      SuffixIsContained(s[1..], t);
    }
  }

  lemma JoinedSurvives(front: string, a: string, b: string)
    requires NoSeparator(a) && NoSeparator(b)
    ensures HasSuffix(Compact(front + (a + ("_" + b))), a + b)
  {
    var tail := "_" + b;
    assert tail[0] == '_' && tail[1..] == b;
    CompactKeeps(a);
    CompactKeeps(b);
    assert Compact(tail) == "" + b == b;
    CompactAppend(a, tail);
    CompactAppend(front, a + tail);
  }

  lemma ApiKeyCompact(n: string)
    requires n == "api_key" || n == "x_api_key"
    ensures Contains(Compact(n), "apikey")
  {
    var front := if n == "api_key" then "" else "x_";
    JoinedSurvives(front, "api", "key");
    assert n == front + ("api" + ("_" + "key"));
    assert "api" + "key" == "apikey";
    SuffixIsContained(Compact(n), "apikey");
  }

  lemma NamedTokenEnds(n: string)
    requires NamedToken(n)
    ensures HasSuffix(n, "token")
  {
  }

  lemma SqueezedTokenEnds(n: string)
    requires SqueezedToken(n)
    ensures HasSuffix(n, "token")
  {
  }

  lemma NamedOtherLooksSensitive(n: string)
    requires NamedOther(n)
    ensures Compact(n) == n && LooksSensitive(n)
  {
    CompactKeeps(n);
    SuffixIsContained(n, n);
  }

  lemma NormalizedNames(n: string)
    requires ListedNormalized(n)
    ensures LooksSensitive(Compact(n))
  {
    if NamedToken(n) {
      NamedTokenEnds(n);
      SuffixSurvives(n, "token");
    } else if NamedOther(n) {
      NamedOtherLooksSensitive(n);
    } else {
      ApiKeyCompact(n);
    }
  }

  lemma CompactNames(n: string)
    requires ListedCompact(n)
    ensures LooksSensitive(n)
  {
    if SqueezedToken(n) {
      SqueezedTokenEnds(n);
    } else if NamedOther(n) {
      NamedOtherLooksSensitive(n);
    } else {
      SuffixIsContained(n, "apikey");
    }
  }

  /** The two lists add nothing but "key" to the tests on the squeezed name: case, spaces, hyphens and
      underscores never hide a sensitive key. */
  lemma SensitiveKeyShape(u: Unicode, key: string)
    ensures IsSensitiveKey(u, key) <==> LooksSensitive(Compact(Folded(u, key)))
  {
    var lower := Folded(u, key);
    CompactOfNormalized(lower);
    if ListedNormalized(Normalized(lower)) {
      NormalizedNames(Normalized(lower));
    }
    if ListedCompact(Compact(lower)) {
      CompactNames(Compact(lower));
    }
  }

  // ---- The test without its steps

  predicate AllBlank(u: Unicode, s: string) {
    forall i :: 0 <= i < |s| ==> u.isSpace(s[i])
  }

  /** A text with no space at its ends. */
  predicate Pressed(u: Unicode, s: string) {
    s == "" || (!u.isSpace(s[0]) && !u.isSpace(s[|s| - 1]))
  }

  /** The small letters of a text, without hyphens, underscores and spaces. */
  function Squeezed(u: Unicode, s: string): string {
    if s == "" then ""
    else
      var x := u.lower(s[0]);
      (if x == '-' || x == '_' || x == ' ' then "" else [x]) + Squeezed(u, s[1..])
  }

  predicate EndsIn(s: string, word: string) {
    |word| <= |s| && s[|s| - |word|..] == word
  }

  predicate StandsAt(s: string, word: string, i: int) {
    0 <= i <= |s| - |word| && s[i..i + |word|] == word
  }

  predicate HasInside(s: string, word: string) {
    exists i :: 0 <= i <= |s| && StandsAt(s, word, i)
  }

  lemma {:induction false} SqueezedIs(u: Unicode, s: string)
    ensures Compact(Lower(u, s)) == Squeezed(u, s)
  {
    if s != "" {
      SqueezedIs(u, s[1..]);
      assert Lower(u, s)[1..] == Lower(u, s[1..]);
    }
  }

  lemma {:induction false} BlankStart(u: Unicode, left: string, rest: string)
    requires AllBlank(u, left) && (rest != "" ==> !u.isSpace(rest[0]))
    ensures TrimStart(u, left + rest) == rest
  {
    if left == "" {
      assert left + rest == rest;
    } else {
      assert (left + rest)[0] == left[0] && (left + rest)[1..] == left[1..] + rest;
      BlankStart(u, left[1..], rest);
    }
  }

  lemma {:induction false} BlankEnd(u: Unicode, rest: string, right: string)
    requires AllBlank(u, right) && (rest != "" ==> !u.isSpace(rest[|rest| - 1]))
    ensures TrimEnd(u, rest + right) == rest
  {
    if right == "" {
      assert rest + right == rest;
    } else {
      var n := |right| - 1;
      var s := rest + right;
      assert s[|s| - 1] == right[n] && s[..|s| - 1] == rest + right[..n];
      BlankEnd(u, rest, right[..n]);
    }
  }

  lemma OnlyBlank(u: Unicode, s: string)
    requires AllBlank(u, s)
    ensures TrimStart(u, s) == ""
  {
    BlankStart(u, s, "");
    assert s + "" == s;
  }

  lemma FoldedIs(u: Unicode, left: string, middle: string, right: string)
    requires AllBlank(u, left) && AllBlank(u, right) && Pressed(u, middle)
    ensures Folded(u, left + middle + right) == Lower(u, middle)
  {
    Assoc(left, middle, right);
    if middle == "" {
      assert left + middle + right == left + right;
      OnlyBlank(u, left + right);
    } else {
      assert (middle + right)[0] == middle[0];
      BlankStart(u, left, middle + right);
      BlankEnd(u, middle, right);
    }
  }

  lemma {:induction false} ContainsIs(s: string, word: string)
    ensures Contains(s, word) <==> HasInside(s, word)
  {
    if word <= s {
      assert StandsAt(s, word, 0);
    } else if s != "" {
      ContainsIs(s[1..], word);
      if HasInside(s[1..], word) {
        var i :| 0 <= i <= |s[1..]| && StandsAt(s[1..], word, i);
        assert s[1..][i..i + |word|] == s[i + 1..i + 1 + |word|];
        assert StandsAt(s, word, i + 1);
      }
      if HasInside(s, word) {
        var i :| 0 <= i <= |s| && StandsAt(s, word, i);
        assert i > 0 && s[1..][i - 1..i - 1 + |word|] == s[i..i + |word|];
        assert StandsAt(s[1..], word, i - 1);
      }
    }
  }

  /** Whatever stands around a key and between its words, and in whatever case they are: it is sensitive
      exactly when its squeezed form is key, ends in token, secret or password, or has apikey or
      authorization inside. */
  lemma SensitiveKeySays(u: Unicode, left: string, middle: string, right: string)
    requires AllBlank(u, left) && AllBlank(u, right) && Pressed(u, middle)
    ensures var word := Squeezed(u, middle);
            IsSensitiveKey(u, left + middle + right) <==>
            || word == "key" || EndsIn(word, "token") || EndsIn(word, "secret") || EndsIn(word, "password")
            || HasInside(word, "apikey") || HasInside(word, "authorization")
  {
    FoldedIs(u, left, middle, right);
    SqueezedIs(u, middle);
    SensitiveKeyShape(u, left + middle + right);
    ContainsIs(Squeezed(u, middle), "apikey");
    ContainsIs(Squeezed(u, middle), "authorization");
  }
}
