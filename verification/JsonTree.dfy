/** JSON values as the program handles them after decoding, and the parts of Python it calls on them. */
module JsonTree {
  import opened Text

  datatype Json =
    | Null
    | Bool(b: bool)
    | Int(n: int)
    | Float(r: real)
    | Str(s: string)
    | Arr(items: seq<Json>)
    | Obj(fields: seq<(string, Json)>)

  type NonEmpty = s: string | s != "" witness "0"

  /** Microseconds of a timezone-aware UTC instant. */
  type Instant = int

  /** Library functions that are not modelled: only their types are known. */
  datatype Python = Python(
    lower: string -> string,            // str.lower
    show: Json -> NonEmpty,             // str() of a value that is not a string
    dumps: Json -> string,              // json.dumps of a value that is neither a string nor None
    number: Json -> Option<int>,        // int() of a value that is not an int, None where it raises
    coerceInt: Json -> Option<int>,     // pydantic's int field, given a value that is not an int
    fromIso: string -> Option<Instant>, // datetime.fromisoformat, naive times read as UTC
    coerceTime: Json -> Option<Instant> // pydantic's datetime field, given a value that is not a string
  )

  /** `dict.get(key)`, with Python's None for a missing key. */
  function Get(fields: seq<(string, Json)>, key: string): Json {
    GetOr(fields, key, Null)
  }

  function GetOr(fields: seq<(string, Json)>, key: string, default: Json): Json {
    if fields == [] then default
    else if fields[0].0 == key then fields[0].1
    else GetOr(fields[1..], key, default)
  }

  predicate Truthy(j: Json) {
    match j
    case Null => false
    case Bool(b) => b
    case Int(n) => n != 0
    case Float(r) => r != 0.0
    case Str(s) => s != ""
    case Arr(items) => items != []
    case Obj(fields) => fields != []
  }

  /** Python's `a or b`. */
  function Or(a: Json, b: Json): Json {
    if Truthy(a) then a else b
  }

  /** Python's `str(j)`. */
  function Show(py: Python, j: Json): string {
    if j.Str? then j.s else py.show(j)
  }

  /** What `str()` and an f-string print: a string as it is. */
  function Printed(py: Python, j: Json): string {
    match j
    case Str(s) => s
    case _ => py.show(j)
  }

  // ---------- looking keys up ----------

  predicate Lacks(fields: seq<(string, Json)>, key: string) {
    forall i | 0 <= i < |fields| :: fields[i].0 != key
  }

  /** The first member under the key holds the value. */
  predicate Maps(fields: seq<(string, Json)>, key: string, value: Json) {
    exists i | 0 <= i < |fields| :: fields[i] == (key, value) && Lacks(fields[..i], key)
  }

  /** The value under the key, or the default without the key. */
  predicate Reads(fields: seq<(string, Json)>, key: string, default: Json, value: Json) {
    Maps(fields, key, value) || (Lacks(fields, key) && value == default)
  }

  /** A lookup skips what lacks the key. */
  lemma {:induction false} GetAfter(fields: seq<(string, Json)>, key: string, default: Json, i: nat)
    requires i <= |fields| && Lacks(fields[..i], key)
    ensures GetOr(fields, key, default) == GetOr(fields[i..], key, default)
  {
    if i == 0 {
      assert fields[0..] == fields;
    } else {
      assert fields[..i][0] == fields[0];
      assert fields[1..][..i - 1] == fields[..i][1..] && fields[1..][i - 1..] == fields[i..];
      GetAfter(fields[1..], key, default, i - 1);
    }
  }

  /** Where the key first occurs, or the length. */
  lemma {:induction false} FirstWith(fields: seq<(string, Json)>, key: string) returns (i: nat)
    ensures i <= |fields| && Lacks(fields[..i], key) && (i < |fields| ==> fields[i].0 == key)
  {
    if fields == [] || fields[0].0 == key {
      i := 0;
    } else {
      var k := FirstWith(fields[1..], key);
      i := k + 1;
      assert fields[..i] == [fields[0]] + fields[1..][..k];
    }
  }

  /** A lookup gives what the key reads as, and nothing else. */
  lemma ReadsExactly(fields: seq<(string, Json)>, key: string, default: Json, value: Json)
    ensures Reads(fields, key, default, value) <==> GetOr(fields, key, default) == value
  {
    hide GetOr, Lacks;
    var i := FirstWith(fields, key);
    GetAfter(fields, key, default, i);
    GetStart(fields[i..], key, default);
    forall j | 0 <= j < |fields| && fields[j].0 == key && Lacks(fields[..j], key) ensures j == i {
      OneFirst(fields, key, i, j);
    }
    assert fields[..|fields|] == fields;
    LacksNone(fields, key);
  }

  lemma GetStart(fields: seq<(string, Json)>, key: string, default: Json)
    ensures fields == [] ==> GetOr(fields, key, default) == default
    ensures fields != [] && fields[0].0 == key ==> GetOr(fields, key, default) == fields[0].1
  {
  }

  lemma OneFirst(fields: seq<(string, Json)>, key: string, i: nat, j: nat)
    requires j < |fields| && fields[j].0 == key && Lacks(fields[..j], key)
    requires i <= |fields| && Lacks(fields[..i], key) && (i < |fields| ==> fields[i].0 == key)
    ensures i == j
  {
  }

  lemma LacksNone(fields: seq<(string, Json)>, key: string)
    ensures Lacks(fields, key) ==> forall i | 0 <= i < |fields| :: fields[i].0 != key
  {
  }

  /** Python's falsy values, and no others. */
  lemma FalsyExactly(j: Json)
    ensures !Truthy(j) <==>
            || j == Null || j == Bool(false) || j == Int(0) || j == Float(0.0)
            || j == Str("") || j == Arr([]) || j == Obj([])
  {
  }
}
