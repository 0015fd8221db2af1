/** `json.dumps` on an object whose values are strings or null, and a reader for it.
    Strings are escaped to ASCII as in section 7 of RFC 8259. */
module JsonText {
  import opened Text

  type Member = (string, Option<string>)

  // ---------- printing ----------

  function HexDigit(n: nat): char
    requires n < 16
  {
    if n < 10 then ('0' as int + n) as char else ('a' as int + n - 10) as char
  }

  function Hex4(n: nat): string
    requires n < 0x10000
  {
    [HexDigit(n / 4096), HexDigit(n / 256 % 16), HexDigit(n / 16 % 16), HexDigit(n % 16)]
  }

  function Unit(n: nat): string
    requires n < 0x10000
  {
    "\\u" + Hex4(n)
  }

  predicate IsShort(c: char) {
    ' ' <= c <= '~' || c == '\n' || c == '\r' || c == '\t' || c == '\U{000C}' || c == '\U{0008}'
  }

  function ShortEscape(c: char): string
    requires IsShort(c)
  {
    if c == '\"' then "\\\""
    else if c == '\\' then "\\\\"
    else if c == '\n' then "\\n"
    else if c == '\r' then "\\r"
    else if c == '\t' then "\\t"
    else if c == '\U{000C}' then "\\f"
    else if c == '\U{0008}' then "\\b"
    else [c]
  }

  function SurrogatePair(v: nat): string
    requires v < 0x100000
  {
    Unit(0xd800 + v / 1024) + Unit(0xdc00 + v % 1024)
  }

  /** Printable ASCII stands for itself; the rest is escaped, beyond U+FFFF as a surrogate pair. */
  function EscapeChar(c: char): string {
    if IsShort(c) then ShortEscape(c)
    else if c as int < 0x10000 then Unit(c as int)
    else SurrogatePair(c as int - 0x10000)
  }

  function Escape(s: string): string {
    if s == "" then "" else EscapeChar(s[0]) + Escape(s[1..])
  }

  function Quote(s: string): string {
    "\"" + Escape(s) + "\""
  }

  function DumpValue(v: Option<string>): string {
    if v.None? then "null" else Quote(v.value)
  }

  function DumpMember(m: Member): string {
    Quote(m.0) + ":" + DumpValue(m.1)
  }

  /** The members after the first, each with its comma, and the closing brace. */
  function DumpTail(ms: seq<Member>): string {
    if ms == [] then "}" else "," + (DumpMember(ms[0]) + DumpTail(ms[1..]))
  }

  function DumpObject(ms: seq<Member>): string {
    if ms == [] then "{}" else "{" + (DumpMember(ms[0]) + DumpTail(ms[1..]))
  }

  // ---------- reading ----------

  function HexValue(c: char): (v: int)
    ensures -1 <= v < 16
  {
    if '0' <= c <= '9' then c as int - '0' as int
    else if 'a' <= c <= 'f' then c as int - 'a' as int + 10
    else if 'A' <= c <= 'F' then c as int - 'A' as int + 10
    else -1
  }

  /** The code unit of a leading `\uXXXX`, or -1. */
  function ReadUnit(t: string): (v: int)
    ensures -1 <= v < 0x10000
    ensures v >= 0 ==> |t| >= 6
  {
    if |t| < 6 || t[0] != '\\' || t[1] != 'u' then -1
    else
      var a, b, c, d := HexValue(t[2]), HexValue(t[3]), HexValue(t[4]), HexValue(t[5]);
      if a < 0 || b < 0 || c < 0 || d < 0 then -1 else 4096 * a + 256 * b + 16 * c + d
  }

  /** One character of a JSON string and what follows it; None for malformed text. */
  function ReadChar(t: string): (r: Option<(char, string)>)
    ensures r.Some? ==> |r.value.1| < |t|
  {
    if t == "" || t[0] == '\"' || t[0] < ' ' then None
    else if t[0] != '\\' then Some((t[0], t[1..]))
    else if |t| < 2 then None
    else if t[1] == '\"' || t[1] == '\\' || t[1] == '/' then Some((t[1], t[2..]))
    else if t[1] == 'n' then Some(('\n', t[2..]))
    else if t[1] == 'r' then Some(('\r', t[2..]))
    else if t[1] == 't' then Some(('\t', t[2..]))
    else if t[1] == 'f' then Some(('\U{000C}', t[2..]))
    else if t[1] == 'b' then Some(('\U{0008}', t[2..]))
    else
      var u := ReadUnit(t);
      if u < 0 then None
      else if u < 0xd800 || 0xe000 <= u then Some((u as char, t[6..]))
      else
        var l := ReadUnit(t[6..]);
        if u < 0xdc00 && 0xdc00 <= l < 0xe000
        then Some(((0x10000 + 1024 * (u - 0xd800) + (l - 0xdc00)) as char, t[12..]))
        else None
  }

  /** Reads up to the closing quote. */
  function ReadString(t: string): (r: Option<(string, string)>)
    ensures r.Some? ==> |r.value.1| < |t|
    decreases |t|
  {
    if t == "" then None
    else if t[0] == '\"' then Some(("", t[1..]))
    else match ReadChar(t)
      case None => None
      case Some((c, rest)) =>
        match ReadString(rest)
        case None => None
        case Some((s, after)) => Some(([c] + s, after))
  }

  function ReadValue(t: string): (r: Option<(Option<string>, string)>)
    ensures r.Some? ==> |r.value.1| < |t|
  {
    if |t| >= 4 && t[..4] == "null" then Some((None, t[4..]))
    else if t == "" || t[0] != '\"' then None
    else match ReadString(t[1..])
      case None => None
      case Some((s, rest)) => Some((Some(s), rest))
  }

  function ReadMember(t: string): (r: Option<(Member, string)>)
    ensures r.Some? ==> |r.value.1| < |t|
  {
    if t == "" || t[0] != '\"' then None
    else match ReadString(t[1..])
      case None => None
      case Some((k, rest)) =>
        if rest == "" || rest[0] != ':' then None
        else match ReadValue(rest[1..])
          case None => None
          case Some((v, after)) => Some(((k, v), after))
  }

  /** One member or more, up to the end of the text. */
  function ReadMembers(t: string): Option<seq<Member>>
    decreases |t|, 1
  {
    match ReadMember(t)
    case None => None
    case Some((m, rest)) =>
      match ReadTail(rest)
      case None => None
      case Some(ms) => Some([m] + ms)
  }

  function ReadTail(t: string): Option<seq<Member>>
    decreases |t|, 0
  {
    if t == "}" then Some([])
    else if t == "" || t[0] != ',' then None
    else ReadMembers(t[1..])
  }

  function ReadObject(t: string): Option<seq<Member>> {
    if t == "" || t[0] != '{' then None
    else if t[1..] == "}" then Some([])
    else ReadMembers(t[1..])
  }

  // ---------- what is printed ----------

  predicate Printable(c: char) {
    ' ' <= c <= '~'
  }

  predicate LowerHex(c: char) {
    '0' <= c <= '9' || 'a' <= c <= 'f'
  }

  /** Printable ASCII stands for itself, but for the quote and the backslash; five control characters have a letter. */
  lemma ShortForm(c: char)
    ensures Printable(c) && c != '\"' && c != '\\' ==> EscapeChar(c) == [c]
    ensures c == '\"' || c == '\\' ==> EscapeChar(c) == ['\\', c]
    ensures c == '\n' ==> EscapeChar(c) == ['\\', 'n']
    ensures c == '\r' ==> EscapeChar(c) == ['\\', 'r']
    ensures c == '\t' ==> EscapeChar(c) == ['\\', 't']
    ensures c == '\U{000C}' ==> EscapeChar(c) == ['\\', 'f']
    ensures c == '\U{0008}' ==> EscapeChar(c) == ['\\', 'b']
  {
    hide Unit, SurrogatePair;
  }

  /** `\uXXXX` with lower hexadecimal digits. */
  predicate IsUnit(e: string) {
    && |e| == 6 && e[0] == '\\' && e[1] == 'u'
    && LowerHex(e[2]) && LowerHex(e[3]) && LowerHex(e[4]) && LowerHex(e[5])
  }

  lemma UnitForm(n: nat)
    requires n < 0x10000
    ensures IsUnit(Unit(n))
  {
    var e, h := Unit(n), Hex4(n);
    assert e[0] == '\\' && e[1] == 'u' && e[2] == h[0] && e[3] == h[1] && e[4] == h[2] && e[5] == h[3];
  }

  /** Every other character becomes one such unit, or two beyond U+FFFF. */
  lemma LongForm(c: char)
    requires !IsShort(c)
    ensures var e := EscapeChar(c);
            if c as int < 0x10000 then IsUnit(e) else |e| == 12 && IsUnit(e[..6]) && IsUnit(e[6..])
  {
    hide Unit, IsUnit;
    if c as int < 0x10000 {
      UnitForm(c as int);
    } else {
      var v := c as int - 0x10000;
      UnitForm(0xd800 + v / 1024);
      UnitForm(0xdc00 + v % 1024);
      PairForm(Unit(0xd800 + v / 1024), Unit(0xdc00 + v % 1024));
    }
  }

  lemma PairForm(a: string, b: string)
    requires IsUnit(a) && IsUnit(b)
    ensures |a + b| == 12 && (a + b)[..6] == a && (a + b)[6..] == b
  {
  }

  // ---------- the round trip ----------

  lemma ReadUnitUnit(n: nat, rest: string)
    requires n < 0x10000
    ensures ReadUnit(Unit(n) + rest) == n
    ensures (Unit(n) + rest)[6..] == rest
  {
    var h := Hex4(n);
    var t := Unit(n) + rest;
    assert t[0] == '\\' && t[1] == 'u' && t[2] == h[0] && t[3] == h[1] && t[4] == h[2] && t[5] == h[3];
    HexDigits(n);
  }

  lemma HexDigits(n: nat)
    requires n < 0x10000
    ensures 4096 * HexValue(Hex4(n)[0]) + 256 * HexValue(Hex4(n)[1]) + 16 * HexValue(Hex4(n)[2])
        + HexValue(Hex4(n)[3]) == n
    ensures forall i | 0 <= i < 4 :: HexValue(Hex4(n)[i]) >= 0
  {
    var a, b, c, d := n / 4096, n / 256 % 16, n / 16 % 16, n % 16;
    HexDigitValue(a); HexDigitValue(b); HexDigitValue(c); HexDigitValue(d);
    Positional(n);
  }

  lemma Positional(n: nat)
    ensures 4096 * (n / 4096) + 256 * (n / 256 % 16) + 16 * (n / 16 % 16) + n % 16 == n
  {
    assert n / 256 == 16 * (n / 4096) + n / 256 % 16;
    assert n / 16 == 16 * (n / 256) + n / 16 % 16;
  }

  lemma HexDigitValue(n: nat)
    requires n < 16
    ensures HexValue(HexDigit(n)) == n
  {
  }

  lemma ReadSurrogatePair(v: nat, rest: string)
    requires v < 0x100000
    ensures ReadChar(SurrogatePair(v) + rest) == Some(((0x10000 + v) as char, rest))
  {
    hide ReadUnit, HexDigit;
    var low := Unit(0xdc00 + v % 1024) + rest;
    var t := Unit(0xd800 + v / 1024) + low;
    assert SurrogatePair(v) + rest == t;
    ReadUnitUnit(0xd800 + v / 1024, low);
    ReadUnitUnit(0xdc00 + v % 1024, rest);
    assert t[12..] == t[6..][6..];
  }

  lemma ReadUnicodeEscape(c: char, rest: string)
    requires c as int < 0x10000
    ensures ReadChar(Unit(c as int) + rest) == Some((c, rest))
  {
    ReadUnitUnit(c as int, rest);
  }

  lemma ReadShortEscape(c: char, rest: string)
    requires IsShort(c)
    ensures ReadChar(ShortEscape(c) + rest) == Some((c, rest))
  {
    var e := ShortEscape(c);
    if |e| == 1 {
      assert ([c] + rest)[1..] == rest;
    } else {
      var t := e + rest;
      assert t[0] == '\\' && t[1] == e[1] && t[2..] == rest;
    }
  }

  lemma ReadCharEscapeChar(c: char, rest: string)
    ensures ReadChar(EscapeChar(c) + rest) == Some((c, rest))
    ensures EscapeChar(c)[0] != '\"'
  {
    if IsShort(c) {
      ReadShortEscape(c, rest);
    } else if c as int < 0x10000 {
      ReadUnicodeEscape(c, rest);
    } else {
      ReadSurrogatePair(c as int - 0x10000, rest);
    }
  }

  lemma {:induction false} ReadStringEscape(s: string, rest: string)
    ensures ReadString(Escape(s) + "\"" + rest) == Some((s, rest))
  {
    hide EscapeChar, ReadChar;
    if s == "" {
      assert Escape(s) + "\"" + rest == "\"" + rest;
    } else {
      var after := Escape(s[1..]) + "\"" + rest;
      assert Escape(s) + "\"" + rest == EscapeChar(s[0]) + after;
      ReadCharEscapeChar(s[0], after);
      ReadStringEscape(s[1..], rest);
      assert s == [s[0]] + s[1..];
    }
  }

  lemma ReadQuoted(s: string, rest: string)
    ensures (Quote(s) + rest)[0] == '\"'
    ensures ReadString((Quote(s) + rest)[1..]) == Some((s, rest))
  {
    assert (Quote(s) + rest)[1..] == Escape(s) + "\"" + rest;
    ReadStringEscape(s, rest);
  }

  lemma ReadValueDumpValue(v: Option<string>, rest: string)
    ensures ReadValue(DumpValue(v) + rest) == Some((v, rest))
  {
    if v.Some? {
      ReadQuoted(v.value, rest);
    } else {
      assert ("null" + rest)[..4] == "null";
    }
  }

  lemma ReadMemberStep(t: string, k: string, value: string, v: Option<string>, rest: string)
    requires t != "" && t[0] == '\"' && ReadString(t[1..]) == Some((k, ":" + value))
    requires ReadValue(value) == Some((v, rest))
    ensures ReadMember(t) == Some(((k, v), rest))
  {
    assert (":" + value)[1..] == value;
  }

  lemma ReadMemberDumpMember(m: Member, rest: string)
    ensures ReadMember(DumpMember(m) + rest) == Some((m, rest))
  {
    var value := DumpValue(m.1) + rest;
    assert DumpMember(m) + rest == Quote(m.0) + (":" + value);
    ReadQuoted(m.0, ":" + value);
    ReadValueDumpValue(m.1, rest);
    ReadMemberStep(DumpMember(m) + rest, m.0, value, m.1, rest);
  }

  lemma ReadMembersStep(t: string, m: Member, rest: string, ms: seq<Member>)
    requires ReadMember(t) == Some((m, rest)) && ReadTail(rest) == Some(ms)
    ensures ReadMembers(t) == Some([m] + ms)
    ensures t != "" && ReadTail("," + t) == ReadObject("{" + t) == ReadMembers(t)
  {
    assert ("," + t)[1..] == t && ("{" + t)[1..] == t;
    assert t[0] == '\"';
  }

  lemma {:induction false} ReadMembersDump(ms: seq<Member>)
    requires ms != []
    ensures ReadTail("," + (DumpMember(ms[0]) + DumpTail(ms[1..]))) == Some(ms)
    ensures ReadObject("{" + (DumpMember(ms[0]) + DumpTail(ms[1..]))) == Some(ms)
  {
    ReadMemberDumpMember(ms[0], DumpTail(ms[1..]));
    if ms[1..] != [] {
      ReadMembersDump(ms[1..]);
    }
    assert ms == [ms[0]] + ms[1..];
    ReadMembersStep(DumpMember(ms[0]) + DumpTail(ms[1..]), ms[0], DumpTail(ms[1..]), ms[1..]);
  }

  /** What is printed can be read back, member by member and in order. */
  lemma ReadObjectDumpObject(ms: seq<Member>)
    ensures ReadObject(DumpObject(ms)) == Some(ms)
  {
    if ms == [] {
      assert "{}"[1..] == "}";
    } else {
      ReadMembersDump(ms);
    }
  }
}
