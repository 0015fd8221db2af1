/** The prompt firewall: a recursive walk that refuses, and a sanitiser for what is left. */
module Firewall {
  import opened Text
  import opened JsonTree

  const BAD_KEYS := {"instructions", "system", "tool_description", "developer_message"}
  const IDPI_PHRASES := ["ignore previous", "ignore all previous", "you are now", "new instructions", "bypass",
      "exfiltrate"]
  const SOFT_HYPHEN := '\U{00AD}'
  const REFUSED_CHARS: set<char> := {
    '\U{061C}', '\U{180E}', '\U{200B}', '\U{200C}', '\U{200D}', '\U{200E}', '\U{200F}',
    '\U{202A}', '\U{202B}', '\U{202C}', '\U{202D}', '\U{202E}', '\U{2060}',
    '\U{2066}', '\U{2067}', '\U{2068}', '\U{2069}', '\U{FEFF}'}
  const INVISIBLE_CHARS := REFUSED_CHARS + {SOFT_HYPHEN}

  // ---------- strings ----------

  /** `str.translate` with a table that deletes. */
  function Without(s: string, chars: set<char>): string {
    if s == "" then ""
    else if s[0] in chars then Without(s[1..], chars)
    else [s[0]] + Without(s[1..], chars)
  }

  function Strip(s: string): string {
    Without(s, INVISIBLE_CHARS)
  }

  predicate HasInvisible(s: string) {
    exists c | c in s :: c in REFUSED_CHARS
  }

  predicate ContainsIdpi(lower: string -> string, s: string) {
    Contains(lower(s), "<!--") || exists p | p in IDPI_PHRASES :: Contains(lower(s), p)
  }

  predicate BadString(lower: string -> string, s: string) {
    HasInvisible(s) || ContainsIdpi(lower, Strip(s))
  }

  // ---------- trees ----------

  predicate Walk(lower: string -> string, t: Json) {
    match t
    case Obj(fields) => exists i | 0 <= i < |fields| :: fields[i].0 in BAD_KEYS || Walk(lower, fields[i].1)
    case Arr(items) => exists i | 0 <= i < |items| :: Walk(lower, items[i])
    case Str(s) => BadString(lower, s)
    case _ => false
  }

  function Clean(t: Json): Json {
    match t
    case Obj(fields) => Obj(CleanFields(fields))
    case Arr(items) => Arr(seq(|items|, i requires 0 <= i < |items| => Clean(items[i])))
    case Str(s) => Str(Strip(s))
    case _ => t
  }

  function CleanFields(fields: seq<(string, Json)>): seq<(string, Json)> {
    if fields == [] then []
    else
      var field := fields[0];
      assert field decreases to field.1;
      var rest := CleanFields(fields[1..]);
      if field.0 in BAD_KEYS then rest else [(field.0, Clean(field.1))] + rest
  }

  datatype Verdict = Safe(cleaned: Json) | Refused(reason: string)

  function Sanitize(lower: string -> string, payload: Json): Verdict {
    if !payload.Obj? || Walk(lower, payload) then Refused("idpi_detected") else Safe(Clean(payload))
  }

  // ---------- what is refused ----------

  /** The subtree at a path of positions. */
  function At(t: Json, path: seq<nat>): Option<Json> {
    if path == [] then Some(t)
    else match t
      case Obj(fields) => if path[0] < |fields| then At(fields[path[0]].1, path[1..]) else None
      case Arr(items) => if path[0] < |items| then At(items[path[0]], path[1..]) else None
      case _ => None
  }

  /** What the firewall objects to at one node. */
  predicate Offends(lower: string -> string, t: Json) {
    (t.Obj? && exists f | f in t.fields :: f.0 in BAD_KEYS) || (t.Str? && BadString(lower, t.s))
  }

  predicate OffendsAt(lower: string -> string, t: Json, path: seq<nat>) {
    At(t, path).Some? && Offends(lower, At(t, path).value)
  }

  /** The path that the walk stops at. */
  lemma {:induction false} WalkFindsOffence(lower: string -> string, t: Json) returns (path: seq<nat>)
    requires Walk(lower, t)
    ensures OffendsAt(lower, t, path)
  {
    path := [];
    if t.Arr? {
      var i :| 0 <= i < |t.items| && Walk(lower, t.items[i]);
      var rest := WalkFindsOffence(lower, t.items[i]);
      path := [i] + rest;
      assert path[1..] == rest;
    } else if t.Obj? && !Offends(lower, t) {
      var i :| 0 <= i < |t.fields| && (t.fields[i].0 in BAD_KEYS || Walk(lower, t.fields[i].1));
      assert t.fields[i] in t.fields;
      var rest := WalkFindsOffence(lower, t.fields[i].1);
      path := [i] + rest;
      assert path[1..] == rest;
    }
  }

  lemma {:induction false} OffenceStopsWalk(lower: string -> string, t: Json, path: seq<nat>)
    requires OffendsAt(lower, t, path)
    ensures Walk(lower, t)
    decreases path
  {
    if path == [] {
      if t.Obj? {
        var f :| f in t.fields && f.0 in BAD_KEYS;
        var i :| 0 <= i < |t.fields| && t.fields[i] == f;
      }
    } else if t.Arr? {
      OffenceStopsWalk(lower, t.items[path[0]], path[1..]);
    } else {
      OffenceStopsWalk(lower, t.fields[path[0]].1, path[1..]);
    }
  }

  /** A dict is refused if and only if some path leads to a listed key, a refused character or a listed phrase. */
  lemma RefusedIffOffence(lower: string -> string, payload: Json)
    requires payload.Obj?
    ensures Sanitize(lower, payload).Refused? <==> exists path :: OffendsAt(lower, payload, path)
  {
    if Walk(lower, payload) {
      var path := WalkFindsOffence(lower, payload);
    }
    if path :| OffendsAt(lower, payload, path) {
      OffenceStopsWalk(lower, payload, path);
    }
  }

  // ---------- soft hyphens ----------

  /** The same tree up to soft hyphens inside string values. */
  predicate SoftEqual(a: Json, b: Json) {
    match a
    case Obj(fields) =>
      && b.Obj? && |fields| == |b.fields|
      && forall i | 0 <= i < |fields| :: fields[i].0 == b.fields[i].0 && SoftEqual(fields[i].1, b.fields[i].1)
    case Arr(items) =>
      b.Arr? && |items| == |b.items| && forall i | 0 <= i < |items| :: SoftEqual(items[i], b.items[i])
    case Str(s) => b.Str? && Without(s, {SOFT_HYPHEN}) == Without(b.s, {SOFT_HYPHEN})
    case _ => a == b
  }

  lemma {:induction false} WithoutKeeps(s: string, chars: set<char>, c: char)
    ensures c in Without(s, chars) <==> c in s && c !in chars
  {
    if s == "" {
    } else {
      WithoutKeeps(s[1..], chars, c);
      assert s == [s[0]] + s[1..];
    }
  }

  /** Deleting some characters first makes no difference to deleting more. */
  lemma {:induction false} WithoutTwice(s: string, few: set<char>, many: set<char>)
    requires few <= many
    ensures Without(Without(s, few), many) == Without(s, many) == Without(Without(s, many), few)
  {
    if s == "" {
    } else {
      WithoutTwice(s[1..], few, many);
      var rest, rest' := Without(s[1..], few), Without(s[1..], many);
      assert ([s[0]] + rest)[1..] == rest && ([s[0]] + rest')[1..] == rest';
    }
  }

  /** Without refused characters, only soft hyphens are left to strip. */
  lemma {:induction false} StripIsSoft(s: string)
    requires !HasInvisible(s)
    ensures Strip(s) == Without(s, {SOFT_HYPHEN})
  {
    if s == "" {
    } else {
      assert s == [s[0]] + s[1..] && s[0] in s;
      assert forall c | c in s[1..] :: c in s;
      StripIsSoft(s[1..]);
    }
  }

  lemma {:induction false} CleanFieldsKeeps(fields: seq<(string, Json)>)
    requires forall i | 0 <= i < |fields| :: fields[i].0 !in BAD_KEYS
    ensures |CleanFields(fields)| == |fields|
    ensures forall i | 0 <= i < |fields| :: CleanFields(fields)[i] == (fields[i].0, Clean(fields[i].1))
  {
    if fields == [] {
    } else {
      CleanFieldsKeeps(fields[1..]);
    }
  }

  lemma SoftEqualStrings(lower: string -> string, a: string, b: string)
    requires Without(a, {SOFT_HYPHEN}) == Without(b, {SOFT_HYPHEN})
    ensures Strip(a) == Strip(b) && BadString(lower, a) == BadString(lower, b)
  {
    WithoutTwice(a, {SOFT_HYPHEN}, INVISIBLE_CHARS);
    WithoutTwice(b, {SOFT_HYPHEN}, INVISIBLE_CHARS);
    forall c | c in REFUSED_CHARS ensures c in a <==> c in b {
      assert c != SOFT_HYPHEN;
      WithoutKeeps(a, {SOFT_HYPHEN}, c);
      WithoutKeeps(b, {SOFT_HYPHEN}, c);
    }
  }

  lemma {:induction false} SoftEqualWalk(lower: string -> string, a: Json, b: Json)
    requires SoftEqual(a, b)
    ensures Walk(lower, a) == Walk(lower, b)
    ensures !Walk(lower, a) ==> Clean(a) == Clean(b)
  {
    match a
    case Obj(fields) =>
      forall i | 0 <= i < |fields|
        ensures Walk(lower, fields[i].1) == Walk(lower, b.fields[i].1)
        ensures !Walk(lower, fields[i].1) ==> Clean(fields[i].1) == Clean(b.fields[i].1)
      {
        SoftEqualWalk(lower, fields[i].1, b.fields[i].1);
      }
      if !Walk(lower, a) {
        CleanFieldsKeeps(fields);
        CleanFieldsKeeps(b.fields);
        assert CleanFields(fields) == CleanFields(b.fields);
      }
    case Arr(items) =>
      forall i | 0 <= i < |items|
        ensures Walk(lower, items[i]) == Walk(lower, b.items[i])
        ensures !Walk(lower, items[i]) ==> Clean(items[i]) == Clean(b.items[i])
      {
        SoftEqualWalk(lower, items[i], b.items[i]);
      }
      if !Walk(lower, a) { assert Clean(a).items == Clean(b).items; }
    case Str(s) => SoftEqualStrings(lower, s, b.s);
    case _ =>
  }

  /** Soft hyphens change neither the verdict nor the cleaned payload. */
  lemma SoftHyphenCongruence(lower: string -> string, a: Json, b: Json)
    requires SoftEqual(a, b)
    ensures Sanitize(lower, a) == Sanitize(lower, b)
  {
    SoftEqualWalk(lower, a, b);
  }

  // ---------- what is passed on ----------

  /** No invisible character in any string value. */
  predicate Visible(t: Json) {
    match t
    case Obj(fields) => forall i | 0 <= i < |fields| :: Visible(fields[i].1)
    case Arr(items) => forall i | 0 <= i < |items| :: Visible(items[i])
    case Str(s) => forall c | c in s :: c !in INVISIBLE_CHARS
    case _ => true
  }

  lemma {:induction false} CleanIsSoftEqual(lower: string -> string, t: Json)
    requires !Walk(lower, t)
    ensures SoftEqual(t, Clean(t)) && Visible(Clean(t))
  {
    match t
    case Obj(fields) =>
      forall i | 0 <= i < |fields|
        ensures SoftEqual(fields[i].1, Clean(fields[i].1)) && Visible(Clean(fields[i].1))
      {
        CleanIsSoftEqual(lower, fields[i].1);
      }
      CleanFieldsKeeps(fields);
    case Arr(items) =>
      forall i | 0 <= i < |items| ensures SoftEqual(items[i], Clean(items[i])) && Visible(Clean(items[i])) {
        CleanIsSoftEqual(lower, items[i]);
      }
    case Str(s) =>
      StripIsSoft(s);
      WithoutTwice(s, {SOFT_HYPHEN}, {SOFT_HYPHEN});
      forall c | c in Strip(s) ensures c !in INVISIBLE_CHARS { WithoutKeeps(s, INVISIBLE_CHARS, c); }
    case _ =>
  }

  /** An accepted payload leaves with its shape and keys, without invisible characters, changed by deleted soft
      hyphens alone; the firewall accepts it again and returns it as it is. */
  lemma AcceptedOutput(lower: string -> string, payload: Json)
    requires Sanitize(lower, payload).Safe?
    ensures var cleaned := Sanitize(lower, payload).cleaned;
            SoftEqual(payload, cleaned) && Visible(cleaned) && Sanitize(lower, cleaned) == Safe(cleaned)
  {
    CleanIsSoftEqual(lower, payload);
    SoftHyphenCongruence(lower, payload, Clean(payload));
  }

  // ---------- the objections without the tables ----------

  /** Zero-width, bidi-control and other invisible characters that no envelope may hold. */
  predicate Refusable(c: char) {
    || c == '\U{061C}' || c == '\U{180E}' || '\U{200B}' <= c <= '\U{200F}' || '\U{202A}' <= c <= '\U{202E}'
    || c == '\U{2060}' || '\U{2066}' <= c <= '\U{2069}' || c == '\U{FEFF}'
  }

  lemma RefusedCharsExactly(c: char)
    ensures c in REFUSED_CHARS <==> Refusable(c)
    ensures c in INVISIBLE_CHARS <==> Refusable(c) || c == '\U{00AD}'
  {
  }

  const INJECTIONS := [
    "<!--", "ignore previous", "ignore all previous", "you are now", "new instructions", "bypass", "exfiltrate"]

  lemma PhrasesExactly(phrase: string)
    ensures phrase in INJECTIONS <==> phrase == "<!--" || phrase in IDPI_PHRASES
  {
    assert INJECTIONS == ["<!--"] + IDPI_PHRASES;
  }

  lemma {:induction false} WithoutConcat(a: string, b: string, chars: set<char>)
    ensures Without(a + b, chars) == Without(a, chars) + Without(b, chars)
  {
    if a == "" {
      assert a + b == b;
    } else {
      assert (a + b)[1..] == a[1..] + b;
      WithoutConcat(a[1..], b, chars);
    }
  }

  lemma WithoutOne(c: char, chars: set<char>)
    ensures Without([c], chars) == if c in chars then "" else [c]
  {
    assert [c][1..] == "";
  }

  /** A string is bad exactly if it holds a refusable character, or without its soft hyphens contains a phrase of
      injected text in lower case. */
  lemma BadStringExactly(lower: string -> string, s: string)
    ensures BadString(lower, s) <==>
            || (exists c | c in s :: Refusable(c))
            || exists phrase | phrase in INJECTIONS :: Contains(lower(Without(s, {'\U{00AD}'})), phrase)
  {
    hide Contains, Without, REFUSED_CHARS, INVISIBLE_CHARS, INJECTIONS, IDPI_PHRASES;
    forall c: char { RefusedCharsExactly(c); }
    forall phrase: string { PhrasesExactly(phrase); }
    if !HasInvisible(s) { StripIsSoft(s); }
  }

  predicate ListedKey(key: string) {
    key == "instructions" || key == "system" || key == "tool_description" || key == "developer_message"
  }

  /** What is objected to at one node. */
  predicate Objection(lower: string -> string, t: Json) {
    match t
    case Obj(fields) => exists f | f in fields :: ListedKey(f.0)
    case Str(s) =>
      || (exists c | c in s :: Refusable(c))
      || exists phrase | phrase in INJECTIONS :: Contains(lower(Without(s, {'\U{00AD}'})), phrase)
    case _ => false
  }

  lemma OffendsExactly(lower: string -> string, t: Json)
    ensures Offends(lower, t) <==> Objection(lower, t)
  {
    hide BadString, Contains, Refusable, INJECTIONS;
    if t.Str? { BadStringExactly(lower, t.s); }
  }

  /** A payload that is no dict, or a dict with an objection at the end of some path. */
  ghost predicate Objectionable(lower: string -> string, payload: Json) {
    !payload.Obj? || exists path, t :: At(payload, path) == Some(t) && Objection(lower, t)
  }

  /** Exactly what the firewall refuses, and with which reason. */
  lemma RefusedExactly(lower: string -> string, payload: Json)
    ensures Sanitize(lower, payload)
         == if Objectionable(lower, payload) then Refused("idpi_detected") else Safe(Clean(payload))
  {
    hide Walk, Objection, Offends, At, Clean;
    if payload.Obj? {
      RefusedIffOffence(lower, payload);
      forall t { OffendsExactly(lower, t); }
      if path :| OffendsAt(lower, payload, path) { assert At(payload, path) == Some(At(payload, path).value); }
      if path, t :| At(payload, path) == Some(t) && Objection(lower, t) { assert OffendsAt(lower, payload, path); }
    }
  }
}
