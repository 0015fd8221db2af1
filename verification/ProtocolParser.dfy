/** Four wire formats, one Mandate. */
module ProtocolParser {
  import opened Text
  import opened JsonTree
  import opened Models

  /** Raised stands for every exception that is not a ProtocolParseError. */
  datatype Parse = Parsed(mandate: Mandate) | Refused(code: string) | Raised

  type Fields = seq<(string, Json)>

  // ---------- reading one field ----------

  /** `envelope.get(outer, {}).get("id")`; None where the outer value is no dict. */
  function NestedId(fields: Fields, outer: string): Option<Json> {
    var inner := GetOr(fields, outer, Obj([]));
    if inner.Obj? then Some(Get(inner.fields, "id")) else None
  }

  function MandateId(fields: Fields): Option<Json> {
    var flat := Or(Get(fields, "mandate_id"), Get(fields, "id"));
    if Truthy(flat) then Some(flat) else NestedId(fields, "mandate")
  }

  function AgentId(fields: Fields): Option<Json> {
    var flat := Get(fields, "agent_id");
    if Truthy(flat) then Some(flat) else NestedId(fields, "agent")
  }

  function MaxAmount(fields: Fields): Json {
    Or(Or(Get(fields, "max_amount_paise"), Get(fields, "maxAmount")), Int(0))
  }

  function Skus(fields: Fields): Json {
    Or(Or(Get(fields, "sku_allowlist"), Get(fields, "skus")), Arr([]))
  }

  function Expires(fields: Fields): Json {
    Or(Get(fields, "expires_at"), Get(fields, "expiresAt"))
  }

  function Currency(fields: Fields): Json {
    GetOr(fields, "currency", Str("INR"))
  }

  function Items(fields: Fields): Json {
    Or(Get(fields, "items"), Arr([]))
  }

  // ---------- converting one value ----------

  function StripZ(s: string): string {
    if s != "" && s[|s| - 1] == 'Z' then StripZ(s[..|s| - 1]) else s
  }

  /** A falsy value that is neither None nor a string makes the mandate expire now. */
  function Expiry(py: Python, now: Instant, exp: Json): Option<Instant> {
    if exp.Str? then py.fromIso(StripZ(exp.s) + if EndsWith(exp.s, "Z") then "+00:00" else "")
    else if Truthy(exp) then py.coerceTime(exp)
    else Some(now)
  }

  function Amount(py: Python, j: Json): Option<nat> {
    var n := if j.Int? then Some(j.n) else py.number(j);
    if n.Some? && n.value >= 0 then Some(n.value) else None
  }

  /** `list(skus)`: the elements of a list, the characters of a string, the keys of a dict. */
  function SkuList(skus: Json): Option<AllowList> {
    match skus
    case Arr(items) =>
      if items != [] && forall i | 0 <= i < |items| :: items[i].Str?
      then Some(seq(|items|, i requires 0 <= i < |items| && items[i].Str? => items[i].s)) else None
    case Str(s) => if s != "" then Some(seq(|s|, i requires 0 <= i < |s| => [s[i]])) else None
    case Obj(fields) =>
      if fields != [] then Some(seq(|fields|, i requires 0 <= i < |fields| => fields[i].0)) else None
    case _ => None
  }

  function IntField(py: Python, j: Json): Option<int> {
    if j.Int? then Some(j.n) else py.coerceInt(j)
  }

  /** None where reading or validating the item raises. */
  function ParseItem(py: Python, raw: Json): Option<OrderItem> {
    if !raw.Obj? then None
    else
      var sku, name := GetOr(raw.fields, "sku", Str("")), Get(raw.fields, "name");
      var quantity := IntField(py, GetOr(raw.fields, "quantity", Int(1)));
      var unit := IntField(py, GetOr(raw.fields, "unit_amount_paise", Int(0)));
      if sku.Str? && quantity.Some? && quantity.value > 0 && unit.Some? && unit.value >= 0 && (name.Null? || name.Str?)
      then Some(OrderItem(sku.s, quantity.value, unit.value, if name.Str? then Some(name.s) else None))
      else None
  }

  /** The items in input order. Anything but a list of well-formed items raises. */
  function ParseItems(py: Python, items: Json): Option<seq<OrderItem>> {
    if items.Arr? && forall i | 0 <= i < |items.items| :: ParseItem(py, items.items[i]).Some?
    then Some(seq(|items.items|, i requires 0 <= i < |items.items| && ParseItem(py, items.items[i]).Some?
                  => ParseItem(py, items.items[i]).value))
    else None
  }

  // ---------- the normaliser ----------

  /** The mandate that resolved values stand for. */
  function Build(py: Python, now: Instant, mid: Json, aid: Json, amount: Json, currency: Json, skus: Json,
                 exp: Json, items: Json, protocol: Protocol): Parse
  {
    if !Truthy(mid) || !Truthy(aid) then Refused("missing_required_field")
    else if exp.Null? then Refused("missing_expires_at")
    else
      var expiry, orders, max, allow := Expiry(py, now, exp), ParseItems(py, items), Amount(py, amount), SkuList(skus);
      if expiry.None? || orders.None? || max.None? || allow.None? then Raised
      else Parsed(Mandate(Show(py, mid), Show(py, aid), None, protocol, max.value, Show(py, currency), allow.value,
                          expiry.value, orders.value, None, None))
  }

  function Normalize(py: Python, now: Instant, fields: Fields, protocol: Protocol): Parse {
    var mid, aid := MandateId(fields), AgentId(fields);
    if mid.None? || aid.None? then Raised
    else Build(py, now, mid.value, aid.value, MaxAmount(fields), Currency(fields), Skus(fields),
               Expires(fields), Items(fields), protocol)
  }

  method NormalizeToMandate(py: Python, now: Instant, fields: Fields, protocol: Protocol) returns (r: Parse)
    ensures r == Normalize(py, now, fields, protocol)
  {
    var mid := MandateId(fields);
    if mid.None? { return Raised; }
    var aid := AgentId(fields);
    if aid.None? { return Raised; }
    var exp := Expires(fields);
    var raws := Items(fields);
    if !Truthy(mid.value) || !Truthy(aid.value) { return Refused("missing_required_field"); }
    if exp.Null? { return Refused("missing_expires_at"); }
    var expiry := Expiry(py, now, exp);
    if expiry.None? || !raws.Arr? { return Raised; }

    var items: seq<OrderItem> := [];
    for i := 0 to |raws.items|
      invariant |items| == i
      invariant forall k | 0 <= k < i :: ParseItem(py, raws.items[k]) == Some(items[k])
    {
      var item := ParseItem(py, raws.items[i]);
      if item.None? { return Raised; }
      items := items + [item.value];
    }
    assert items == ParseItems(py, raws).value;

    var max := Amount(py, MaxAmount(fields));
    var allow := SkuList(Skus(fields));
    if max.None? || allow.None? { return Raised; }
    return Parsed(Mandate(Show(py, mid.value), Show(py, aid.value), None, protocol, max.value,
                          Show(py, Currency(fields)), allow.value, expiry.value, items, None, None));
  }

  function ProtocolNamed(name: string): Option<Protocol> {
    if name == "ap2" then Some(AP2)
    else if name == "tap" then Some(TAP)
    else if name == "p3p" then Some(P3P)
    else if name == "uap" then Some(UAP)
    else None
  }

  function ParseEnvelope(py: Python, now: Instant, protocol: string, envelope: Json): Parse {
    var named := ProtocolNamed(py.lower(protocol));
    if named.None? then Refused("unknown_protocol")
    else if !envelope.Obj? then Refused("invalid_envelope")
    else Normalize(py, now, envelope.fields, named.value)
  }

  // ---------- what a parsed mandate guarantees ----------

  lemma ParsedIsWellFormed(py: Python, now: Instant, fields: Fields, protocol: Protocol)
    requires Normalize(py, now, fields, protocol).Parsed?
    ensures var m := Normalize(py, now, fields, protocol).mandate;
            && m.mandateId != "" && m.agentId != "" && m.protocol == protocol
            && m.userId.None? && m.paymentStatus.None? && m.lastPaymentId.None?
            && |m.skuAllowlist| > 0 && m.maxAmountPaise >= 0
            && Items(fields).Arr? && |m.items| == |Items(fields).items|
            && forall i | 0 <= i < |m.items| ::
                 && Some(m.items[i]) == ParseItem(py, Items(fields).items[i])
                 && m.items[i].quantity > 0 && m.items[i].unitAmountPaise >= 0
  {
  }

  /** Every refusal code the parser can produce. */
  lemma RefusalCodes(py: Python, now: Instant, protocol: string, envelope: Json)
    ensures var r := ParseEnvelope(py, now, protocol, envelope);
            r.Refused? ==> r.code in {"unknown_protocol", "invalid_envelope", "missing_required_field",
                "missing_expires_at"}
  {
  }

  // ---------- a parsed mandate by the envelope's fields ----------

  lemma NestedByField(fields: Fields, outer: string, inner: Fields, id: Json)
    requires Maps(fields, outer, Obj(inner)) && Reads(inner, "id", Null, id)
    ensures NestedId(fields, outer) == Some(id)
  {
    hide GetOr, Maps, Lacks;
    ReadsExactly(fields, outer, Obj([]), Obj(inner));
    ReadsExactly(inner, "id", Null, id);
  }

  /** The mandate's id is the first truthy one of `mandate_id`, `id` and the nested id; the agent's likewise. */
  lemma ParsedIds(py: Python, now: Instant, fields: Fields, protocol: Protocol, id: Json, other: Json, agent: Json)
    requires Normalize(py, now, fields, protocol).Parsed?
    requires Reads(fields, "mandate_id", Null, id) && Reads(fields, "id", Null, other)
    requires Reads(fields, "agent_id", Null, agent)
    ensures var m := Normalize(py, now, fields, protocol).mandate;
            && (Truthy(id) ==> m.mandateId == Printed(py, id))
            && (!Truthy(id) && Truthy(other) ==> m.mandateId == Printed(py, other))
            && (forall inner, nested | !Truthy(id) && !Truthy(other) && Maps(fields, "mandate", Obj(inner))
                                       && Reads(inner, "id", Null, nested) :: m.mandateId == Printed(py, nested))
            && (Truthy(agent) ==> m.agentId == Printed(py, agent))
            && (forall inner, nested | !Truthy(agent) && Maps(fields, "agent", Obj(inner))
                                       && Reads(inner, "id", Null, nested) :: m.agentId == Printed(py, nested))
  {
    hide GetOr, Reads, Maps, MaxAmount, Skus, Currency, Items, Expires, NestedId, Expiry, ParseItems, Amount, SkuList;
    ReadsExactly(fields, "mandate_id", Null, id);
    ReadsExactly(fields, "id", Null, other);
    ReadsExactly(fields, "agent_id", Null, agent);
    forall inner, nested | Maps(fields, "mandate", Obj(inner)) && Reads(inner, "id", Null, nested)
      ensures NestedId(fields, "mandate") == Some(nested)
    {
      NestedByField(fields, "mandate", inner, nested);
    }
    forall inner, nested | Maps(fields, "agent", Obj(inner)) && Reads(inner, "id", Null, nested)
      ensures NestedId(fields, "agent") == Some(nested)
    {
      NestedByField(fields, "agent", inner, nested);
    }
  }

  /** The number that an amount stands for: itself, what `int()` makes of it, or nothing at all for a falsy value. */
  predicate Amounts(py: Python, j: Json, n: int) {
    match j
    case Int(i) => n == i
    case _ => if Truthy(j) then py.number(j) == Some(n) else n == 0
  }

  /** The allow-list that a value stands for: its strings, its characters or its keys, in order. */
  predicate Lists(j: Json, list: seq<string>) {
    match j
    case Arr(items) => |list| == |items| && forall i | 0 <= i < |items| :: items[i] == Str(list[i])
    case Str(s) => |list| == |s| && forall i | 0 <= i < |s| :: list[i] == [s[i]]
    case Obj(fields) => |list| == |fields| && forall i | 0 <= i < |fields| :: list[i] == fields[i].0
    case _ => false
  }

  /** Amount, currency and allow-list by their fields; a falsy first name gives way to the second. */
  lemma ParsedTerms(py: Python, now: Instant, fields: Fields, protocol: Protocol,
                    amount: Json, camelAmount: Json, currency: Json, list: Json, skus: Json)
    requires Normalize(py, now, fields, protocol).Parsed?
    requires Reads(fields, "max_amount_paise", Null, amount) && Reads(fields, "maxAmount", Null, camelAmount)
    requires Reads(fields, "currency", Str("INR"), currency)
    requires Reads(fields, "sku_allowlist", Null, list) && Reads(fields, "skus", Null, skus)
    ensures var m := Normalize(py, now, fields, protocol).mandate;
            && Amounts(py, if Truthy(amount) then amount else camelAmount, m.maxAmountPaise)
            && m.currency == Printed(py, currency)
            && Lists(if Truthy(list) then list else skus, m.skuAllowlist)
  {
    hide GetOr, Reads, MandateId, AgentId, Items, Expires, NestedId, Expiry, ParseItems;
    ReadsExactly(fields, "max_amount_paise", Null, amount);
    ReadsExactly(fields, "maxAmount", Null, camelAmount);
    ReadsExactly(fields, "currency", Str("INR"), currency);
    ReadsExactly(fields, "sku_allowlist", Null, list);
    ReadsExactly(fields, "skus", Null, skus);
  }

  /** The text without its trailing Zs. */
  lemma {:induction false} StripZExactly(s: string)
    ensures StripZ(s) == "" || StripZ(s)[|StripZ(s)| - 1] != 'Z'
    ensures |StripZ(s)| <= |s| && s[..|StripZ(s)|] == StripZ(s)
    ensures forall i | |StripZ(s)| <= i < |s| :: s[i] == 'Z'
  {
    if s == "" || s[|s| - 1] != 'Z' {
      assert s[..|s|] == s;
    } else {
      StripZExactly(s[..|s| - 1]);
      var t := StripZ(s);
      assert s[..|s| - 1][..|t|] == s[..|t|];
    }
  }

  /** The expiry by its fields: the first name's value if it is truthy, else the second's. */
  lemma ParsedExpiry(py: Python, now: Instant, fields: Fields, protocol: Protocol, snake: Json, camel: Json)
    requires Normalize(py, now, fields, protocol).Parsed?
    requires Reads(fields, "expires_at", Null, snake) && Reads(fields, "expiresAt", Null, camel)
    ensures var exp, m := if Truthy(snake) then snake else camel, Normalize(py, now, fields, protocol).mandate;
            && exp != Null
            && (exp.Str? ==>
                  var zulu := exp.s != "" && exp.s[|exp.s| - 1] == 'Z';
                  Some(m.expiresAt) == py.fromIso(StripZ(exp.s) + if zulu then "+00:00" else ""))
            && (!exp.Str? && Truthy(exp) ==> Some(m.expiresAt) == py.coerceTime(exp))
            && (!exp.Str? && !Truthy(exp) ==> m.expiresAt == now)
  {
    hide GetOr, Reads, MandateId, AgentId, MaxAmount, Skus, Currency, Items, NestedId, ParseItems, Amount, SkuList,
         StripZ;
    ReadsExactly(fields, "expires_at", Null, snake);
    ReadsExactly(fields, "expiresAt", Null, camel);
  }

  /** A whole number, or what pydantic makes of the value. */
  predicate Counts(py: Python, j: Json, n: int) {
    match j
    case Int(i) => n == i
    case _ => py.coerceInt(j) == Some(n)
  }

  /** The item that a dict stands for, with its defaults. */
  ghost predicate ItemOf(py: Python, raw: Json, item: OrderItem) {
    raw.Obj?
    && Reads(raw.fields, "sku", Str(""), Str(item.sku))
    && (exists j :: Reads(raw.fields, "quantity", Int(1), j) && Counts(py, j, item.quantity))
    && (exists j :: Reads(raw.fields, "unit_amount_paise", Int(0), j) && Counts(py, j, item.unitAmountPaise))
    && Reads(raw.fields, "name", Null, if item.name.Some? then Str(item.name.value) else Null)
  }

  lemma ItemByFields(py: Python, raw: Json, item: OrderItem)
    requires ParseItem(py, raw) == Some(item)
    ensures ItemOf(py, raw, item)
  {
    hide GetOr, Reads;
    var quantity, unit := GetOr(raw.fields, "quantity", Int(1)), GetOr(raw.fields, "unit_amount_paise", Int(0));
    ReadsExactly(raw.fields, "sku", Str(""), Str(item.sku));
    ReadsExactly(raw.fields, "quantity", Int(1), quantity);
    ReadsExactly(raw.fields, "unit_amount_paise", Int(0), unit);
    ReadsExactly(raw.fields, "name", Null, if item.name.Some? then Str(item.name.value) else Null);
    assert Counts(py, quantity, item.quantity) && Counts(py, unit, item.unitAmountPaise);
  }

  lemma ItemParses(py: Python, raw: Json, item: OrderItem)
    requires ItemOf(py, raw, item)
    ensures ParseItem(py, raw) == Some(item)
  {
    hide GetOr, Reads;
    var q :| Reads(raw.fields, "quantity", Int(1), q) && Counts(py, q, item.quantity);
    var u :| Reads(raw.fields, "unit_amount_paise", Int(0), u) && Counts(py, u, item.unitAmountPaise);
    ReadsExactly(raw.fields, "sku", Str(""), Str(item.sku));
    ReadsExactly(raw.fields, "quantity", Int(1), q);
    ReadsExactly(raw.fields, "unit_amount_paise", Int(0), u);
    ReadsExactly(raw.fields, "name", Null, if item.name.Some? then Str(item.name.value) else Null);
  }

  /** An item parses exactly if it stands for something, and to that. */
  lemma ItemExactly(py: Python, raw: Json, item: OrderItem)
    ensures ParseItem(py, raw) == Some(item) <==> ItemOf(py, raw, item)
  {
    hide ParseItem, ItemOf;
    if ParseItem(py, raw) == Some(item) { ItemByFields(py, raw, item); }
    if ItemOf(py, raw, item) { ItemParses(py, raw, item); }
  }

  /** The items by their fields, in order; a falsy value stands for no items. */
  lemma ParsedItems(py: Python, now: Instant, fields: Fields, protocol: Protocol, items: Json)
    requires Normalize(py, now, fields, protocol).Parsed? && Reads(fields, "items", Null, items)
    ensures var m := Normalize(py, now, fields, protocol).mandate;
            if Truthy(items)
            then items.Arr? && |m.items| == |items.items|
                 && forall i | 0 <= i < |m.items| :: ItemOf(py, items.items[i], m.items[i])
            else m.items == []
  {
    hide GetOr, Reads, MandateId, AgentId, MaxAmount, Skus, Currency, Expires, NestedId, Expiry, Amount, SkuList,
         ParseItem, ItemOf;
    ReadsExactly(fields, "items", Null, items);
    var m := Normalize(py, now, fields, protocol).mandate;
    if Truthy(items) {
      forall i | 0 <= i < |m.items| ensures ItemOf(py, items.items[i], m.items[i]) {
        ItemByFields(py, items.items[i], m.items[i]);
      }
    }
  }

  /** The protocols by name, in any case that lowers to it. */
  lemma ProtocolsExactly(name: string)
    ensures ProtocolNamed(name) == Some(AP2) <==> name == "ap2"
    ensures ProtocolNamed(name) == Some(TAP) <==> name == "tap"
    ensures ProtocolNamed(name) == Some(P3P) <==> name == "p3p"
    ensures ProtocolNamed(name) == Some(UAP) <==> name == "uap"
    ensures ProtocolNamed(name).None? <==> name != "ap2" && name != "tap" && name != "p3p" && name != "uap"
  {
    assert "ap2"[0] == 'a' && "tap"[0] == 't' && "p3p"[0] == 'p' && "uap"[0] == 'u';
  }

  // ---------- envelopes that raise something else ----------

  /** The outer key is there and its value is no dict. */
  predicate NoDict(fields: Fields, outer: string) {
    !GetOr(fields, outer, Obj([])).Obj?
  }

  /** A dict under the outer key has a truthy id. */
  predicate HasNested(fields: Fields, outer: string) {
    var inner := GetOr(fields, outer, Obj([]));
    inner.Obj? && Truthy(Get(inner.fields, "id"))
  }

  /** An id that only the nested form could give is sought in something that is no dict. */
  predicate BrokenIds(fields: Fields) {
    || (!Truthy(Get(fields, "mandate_id")) && !Truthy(Get(fields, "id")) && NoDict(fields, "mandate"))
    || (!Truthy(Get(fields, "agent_id")) && NoDict(fields, "agent"))
  }

  predicate HasIds(fields: Fields) {
    && (Truthy(Get(fields, "mandate_id")) || Truthy(Get(fields, "id")) || HasNested(fields, "mandate"))
    && (Truthy(Get(fields, "agent_id")) || HasNested(fields, "agent"))
  }

  predicate HasExpiry(fields: Fields) {
    Truthy(Get(fields, "expires_at")) || Get(fields, "expiresAt") != Null
  }

  /** The first truthy value of two keys, or else the second one. */
  function First(fields: Fields, key: string, other: string): Json {
    if Truthy(Get(fields, key)) then Get(fields, key) else Get(fields, other)
  }

  predicate BadExpiry(py: Python, j: Json) {
    if j.Str? then py.fromIso(StripZ(j.s) + if EndsWith(j.s, "Z") then "+00:00" else "").None?
    else Truthy(j) && py.coerceTime(j).None?
  }

  predicate BadItems(py: Python, j: Json) {
    Truthy(j) && (!j.Arr? || exists i | 0 <= i < |j.items| :: ParseItem(py, j.items[i]).None?)
  }

  predicate BadAmount(py: Python, j: Json) {
    Truthy(j) && if j.Int? then j.n < 0 else py.number(j).None? || py.number(j).value < 0
  }

  predicate BadAllowList(j: Json) {
    || !Truthy(j) || j.Bool? || j.Int? || j.Float?
    || (j.Arr? && exists i | 0 <= i < |j.items| :: !j.items[i].Str?)
  }

  /** What makes an envelope raise an error other than a ProtocolParseError. */
  predicate RaisesOther(py: Python, fields: Fields) {
    || BrokenIds(fields)
    || (HasIds(fields) && HasExpiry(fields)
        && (|| BadExpiry(py, First(fields, "expires_at", "expiresAt"))
            || BadItems(py, Get(fields, "items"))
            || BadAmount(py, First(fields, "max_amount_paise", "maxAmount"))
            || BadAllowList(First(fields, "sku_allowlist", "skus"))))
  }

  lemma ReadsItems(py: Python, j: Json)
    ensures ParseItems(py, Or(j, Arr([]))).None? <==> BadItems(py, j)
  {
    hide ParseItem;
  }

  lemma ReadsAmount(py: Python, a: Json, b: Json)
    ensures Amount(py, Or(Or(a, b), Int(0))).None? <==> BadAmount(py, if Truthy(a) then a else b)
  {
  }

  lemma ReadsAllowList(a: Json, b: Json)
    ensures SkuList(Or(Or(a, b), Arr([]))).None? <==> BadAllowList(if Truthy(a) then a else b)
  {
  }

  lemma ReadsIds(fields: Fields)
    ensures MandateId(fields).None? || AgentId(fields).None? <==> BrokenIds(fields)
    ensures !BrokenIds(fields)
        ==> (Truthy(MandateId(fields).value) && Truthy(AgentId(fields).value) <==> HasIds(fields))
  {
    hide Get, GetOr;
  }

  /** Exactly the envelopes that raise something else than the parser's own error, told by their fields. */
  lemma RaisesExactly(py: Python, now: Instant, fields: Fields, protocol: Protocol)
    ensures Normalize(py, now, fields, protocol).Raised? <==> RaisesOther(py, fields)
  {
    hide MandateId, AgentId, BrokenIds, HasIds, Get, GetOr, ParseItems, BadItems, Amount, BadAmount, SkuList,
         BadAllowList, ParseItem, StripZ, Show;
    ReadsIds(fields);
    ReadsItems(py, Get(fields, "items"));
    ReadsAmount(py, Get(fields, "max_amount_paise"), Get(fields, "maxAmount"));
    ReadsAllowList(Get(fields, "sku_allowlist"), Get(fields, "skus"));
  }

  /** Exactly when the parser refuses with its own error. */
  lemma RefusesExactly(py: Python, now: Instant, fields: Fields, protocol: Protocol)
    ensures Normalize(py, now, fields, protocol) == Refused("missing_required_field") <==>
            !BrokenIds(fields) && !HasIds(fields)
    ensures Normalize(py, now, fields, protocol) == Refused("missing_expires_at") <==>
            !BrokenIds(fields) && HasIds(fields) && !HasExpiry(fields)
  {
    hide MandateId, AgentId, BrokenIds, HasIds, Get, GetOr, ParseItems, Amount, SkuList, Expiry, Show;
    ReadsIds(fields);
    assert "missing_required_field"[8] == 'r' && "missing_expires_at"[8] == 'e';
  }

  // ---------- key spellings ----------

  /** One value per field, whatever the field is called on the wire. */
  datatype Values = Values(mid: Json, aid: Json, amount: Json, skus: Json, exp: Json)

  predicate Absent(fields: Fields, key: string) {
    forall f | f in fields :: f.0 != key
  }

  predicate CarriesAs(fields: Fields, j: Json, key: string, other: string) {
    Get(fields, key) == j && Absent(fields, other)
  }

  predicate CarriesNested(fields: Fields, j: Json, outer: string) {
    var inner := Get(fields, outer);
    inner.Obj? && Get(inner.fields, "id") == j
  }

  /** Each field occurs under exactly one of its names; other keys may occur as they like. */
  predicate Carries(fields: Fields, v: Values) {
    && (|| (CarriesAs(fields, v.mid, "mandate_id", "id") && Absent(fields, "mandate"))
        || (CarriesAs(fields, v.mid, "id", "mandate_id") && Absent(fields, "mandate"))
        || (Absent(fields, "mandate_id") && Absent(fields, "id") && CarriesNested(fields, v.mid, "mandate")))
    && (CarriesAs(fields, v.aid, "agent_id", "agent")
        || (Absent(fields, "agent_id") && CarriesNested(fields, v.aid, "agent")))
    && (CarriesAs(fields, v.amount, "max_amount_paise", "maxAmount")
        || CarriesAs(fields, v.amount, "maxAmount", "max_amount_paise"))
    && (CarriesAs(fields, v.skus, "sku_allowlist", "skus") || CarriesAs(fields, v.skus, "skus", "sku_allowlist"))
    && (CarriesAs(fields, v.exp, "expires_at", "expiresAt") || CarriesAs(fields, v.exp, "expiresAt", "expires_at"))
  }

  predicate SameUpToProtocol(a: Parse, b: Parse) {
    if a.Parsed? && b.Parsed? then a.mandate.(protocol := b.mandate.protocol) == b.mandate else a == b
  }

  lemma {:induction false} AbsentGet(fields: Fields, key: string, default: Json)
    requires Absent(fields, key)
    ensures GetOr(fields, key, default) == default
  {
    if fields == [] {
    } else {
      AbsentGet(fields[1..], key, default);
    }
  }

  lemma {:induction false} PresentGet(fields: Fields, key: string, default: Json)
    requires Get(fields, key) != Null
    ensures GetOr(fields, key, default) == Get(fields, key)
  {
    if fields[0].0 == key {
    } else {
      PresentGet(fields[1..], key, default);
    }
  }

  lemma AllAbsent(fields: Fields)
    ensures forall k, d | Absent(fields, k) :: GetOr(fields, k, d) == d
  {
    forall k, d | Absent(fields, k) ensures GetOr(fields, k, d) == d { AbsentGet(fields, k, d); }
  }

  /** The values that the parser resolves. Falsy ones may resolve to another falsy one. */
  lemma ResolvedIds(fields: Fields, v: Values)
    requires Carries(fields, v)
    ensures MandateId(fields).Some? && AgentId(fields).Some?
    ensures Truthy(MandateId(fields).value) == Truthy(v.mid) && Truthy(AgentId(fields).value) == Truthy(v.aid)
    ensures Truthy(v.mid) ==> MandateId(fields).value == v.mid
    ensures Truthy(v.aid) ==> AgentId(fields).value == v.aid
  {
    AllAbsent(fields);
    if CarriesNested(fields, v.mid, "mandate") { PresentGet(fields, "mandate", Obj([])); }
    if CarriesNested(fields, v.aid, "agent") { PresentGet(fields, "agent", Obj([])); }
  }

  lemma ResolvedRest(fields: Fields, v: Values)
    requires Carries(fields, v)
    ensures MaxAmount(fields) == Or(v.amount, Int(0)) && Skus(fields) == Or(v.skus, Arr([]))
    ensures Truthy(v.exp) ==> Expires(fields) == v.exp
    ensures !Truthy(v.exp) ==> Expires(fields) == if CamelExpiry(fields) then v.exp else Null
  {
    AllAbsent(fields);
  }

  /** The expiry is spelled `expiresAt`. */
  predicate CamelExpiry(fields: Fields) {
    !Absent(fields, "expiresAt")
  }

  /** Exactly when the spelling of the keys is invisible: envelopes that carry the same values parse to the same
      mandate up to the protocol, however their keys are spelled and ordered, unless both ids are truthy and the
      expiry is falsy, not null and spelled differently. */
  lemma SpellingInvariance(py: Python, now: Instant, a: Fields, b: Fields, v: Values, p: Protocol, q: Protocol)
    requires Carries(a, v) && Carries(b, v) && Currency(a) == Currency(b) && Items(a) == Items(b)
    ensures SameUpToProtocol(Normalize(py, now, a, p), Normalize(py, now, b, q)) <==>
            || !Truthy(v.mid) || !Truthy(v.aid) || Truthy(v.exp) || v.exp == Null
            || CamelExpiry(a) == CamelExpiry(b)
  {
    hide Carries, CamelExpiry, MandateId, AgentId, MaxAmount, Skus, Items, Currency, Expires, ParseItems, Amount,
         SkuList, Expiry;
    ResolvedIds(a, v); ResolvedRest(a, v);
    ResolvedIds(b, v); ResolvedRest(b, v);
  }

  // ---------- envelopes for the exceptions to the rules ----------

  /** A complete envelope but for its expiry, zero, under the given name. */
  function ZeroExpiry(name: string): Fields {
    [("mandate_id", Str("m")), ("agent_id", Str("a")), ("skus", Arr([Str("s")])), (name, Int(0))]
  }

  lemma GetFour(a: (string, Json), b: (string, Json), c: (string, Json), d: (string, Json), key: string, default: Json)
    ensures GetOr([a, b, c, d], key, default)
         == if key == a.0 then a.1 else if key == b.0 then b.1 else if key == c.0 then c.1
            else if key == d.0 then d.1 else default
  {
    var all, three, two, one: Fields := [a, b, c, d], [b, c, d], [c, d], [d];
    assert all[1..] == three && three[1..] == two && two[1..] == one && one[1..] == [];
    assert GetOr(one, key, default) == if key == d.0 then d.1 else default;
    assert GetOr(two, key, default) == if key == c.0 then c.1 else GetOr(one, key, default);
    assert GetOr(three, key, default) == if key == b.0 then b.1 else GetOr(two, key, default);
  }

  /** What looking a key up in such an envelope gives. */
  function ZeroField(name: string, key: string, default: Json): Json {
    if key == "mandate_id" then Str("m") else if key == "agent_id" then Str("a")
    else if key == "skus" then Arr([Str("s")]) else if key == name then Int(0) else default
  }

  lemma ZeroExpiryFields(name: string)
    requires name in {"expires_at", "expiresAt"}
    ensures forall key, default :: GetOr(ZeroExpiry(name), key, default) == ZeroField(name, key, default)
  {
    forall key, default ensures GetOr(ZeroExpiry(name), key, default) == ZeroField(name, key, default) {
      GetFour(("mandate_id", Str("m")), ("agent_id", Str("a")), ("skus", Arr([Str("s")])), (name, Int(0)),
              key, default);
    }
  }

  lemma SingleSku(s: string)
    ensures SkuList(Arr([Str(s)])) == Some([s])
  {
    var items := [Str(s)];
    assert SkuList(Arr(items)).value == [s];
  }

  lemma NoItems(py: Python)
    ensures ParseItems(py, Arr([])) == Some([])
  {
    var items: seq<Json> := [];
    assert ParseItems(py, Arr(items)).value == [];
  }

  lemma ZeroExpiryIds(name: string)
    requires name in {"expires_at", "expiresAt"}
    ensures MandateId(ZeroExpiry(name)) == Some(Str("m")) && AgentId(ZeroExpiry(name)) == Some(Str("a"))
  {
    ZeroExpiryFields(name);
    hide ZeroExpiry, GetOr;
  }

  lemma ZeroExpiryOffers(name: string)
    requires name in {"expires_at", "expiresAt"}
    ensures MaxAmount(ZeroExpiry(name)) == Int(0) && Skus(ZeroExpiry(name)) == Arr([Str("s")])
  {
    ZeroExpiryFields(name);
    hide ZeroExpiry, GetOr;
  }

  lemma ZeroExpiryRest(name: string)
    requires name in {"expires_at", "expiresAt"}
    ensures Currency(ZeroExpiry(name)) == Str("INR") && Items(ZeroExpiry(name)) == Arr([])
    ensures Expires(ZeroExpiry(name)) == if name == "expires_at" then Null else Int(0)
  {
    ZeroExpiryFields(name);
    hide ZeroExpiry, GetOr;
  }

  /** Zero under `expires_at` is a missing expiry; under `expiresAt` the mandate expires now. */
  lemma ZeroExpirySpelling(py: Python, now: Instant, protocol: Protocol)
    ensures Normalize(py, now, ZeroExpiry("expires_at"), protocol) == Refused("missing_expires_at")
    ensures Normalize(py, now, ZeroExpiry("expiresAt"), protocol)
         == Parsed(Mandate("m", "a", None, protocol, 0, "INR", ["s"], now, [], None, None))
  {
    hide ZeroExpiry, MandateId, AgentId, MaxAmount, Skus, Currency, Items, Expires, SkuList, ParseItems;
    ZeroExpiryIds("expires_at"); ZeroExpiryOffers("expires_at"); ZeroExpiryRest("expires_at");
    ZeroExpiryIds("expiresAt"); ZeroExpiryOffers("expiresAt"); ZeroExpiryRest("expiresAt");
    SingleSku("s");
    NoItems(py);
  }
}
