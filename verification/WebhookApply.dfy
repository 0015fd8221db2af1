/** The webhook route: verify, claim the event key, then apply the payment event to its mandate and the audit log. */
module WebhookApply {
  import opened Text
  import opened JsonText
  import opened JsonTree
  import opened Models
  import opened Vaults
  import opened Audit
  import opened Idempotency
  import Policy

  type Payload = seq<(string, Json)>

  const CAPTURED := "payment.captured"
  const FAILED := "payment.failed"

  // ---------- reading the payload ----------

  function AsDict(j: Json): Payload {
    if j.Obj? then j.fields else []
  }

  function PaymentEntity(payload: Payload): Payload {
    AsDict(Get(AsDict(Get(AsDict(Get(payload, "payload")), "payment")), "entity"))
  }

  function EventType(payload: Payload): Json {
    Get(payload, "event")
  }

  /** The order id, or else the payment id. */
  function BaseId(payload: Payload): Json {
    Or(Get(PaymentEntity(payload), "order_id"), Get(PaymentEntity(payload), "id"))
  }

  function CreatedAt(payload: Payload): Json {
    GetOr(payload, "created_at", Str(""))
  }

  function EventKey(py: Python, payload: Payload): string {
    if Truthy(BaseId(payload)) then Show(py, EventType(payload)) + (":" + Show(py, BaseId(payload)))
    else Show(py, EventType(payload)) + ("_" + Show(py, CreatedAt(payload)))
  }

  function ResolveMandateId(py: Python, entity: Payload): Option<string> {
    var notes := Or(Get(entity, "notes"), Obj([]));
    if notes.Obj? && Truthy(Get(notes.fields, "mandate_id")) then Some(Show(py, Get(notes.fields, "mandate_id")))
    else if Truthy(Get(entity, "order_id")) then Some(Show(py, Get(entity, "order_id")))
    else None
  }

  predicate Applyable(payload: Payload) {
    EventType(payload) == Str(CAPTURED) || EventType(payload) == Str(FAILED)
  }

  // ---------- event keys ----------

  /** The two applyable types differ inside the shorter one, so a key determines its type. */
  lemma TypeSplits(s: string, x: string, t: string, y: string)
    requires s in {CAPTURED, FAILED} && t in {CAPTURED, FAILED}
    ensures s + x == t + y <==> s == t && x == y
  {
    if s == t {
      assert (s + x)[|s|..] == x && (t + y)[|t|..] == y;
    } else {
      assert (s + x)[8] == s[8] && (t + y)[8] == t[8];
    }
  }

  lemma SameTail(c: char, x: string, d: char, y: string)
    ensures [c] + x == [d] + y <==> c == d && x == y
  {
    assert ([c] + x)[0] == c && ([c] + x)[1..] == x && ([d] + y)[0] == d && ([d] + y)[1..] == y;
  }

  /** The dict at `payload.payment.entity`. */
  ghost predicate HasEntity(payload: Payload, entity: Payload) {
    exists outer, payment ::
      && Maps(payload, "payload", Obj(outer)) && Maps(outer, "payment", Obj(payment))
      && Maps(payment, "entity", Obj(entity))
  }

  /** That dict, or the empty one where some level is missing or no dict. */
  ghost predicate EntityIs(payload: Payload, entity: Payload) {
    HasEntity(payload, entity) || (entity == [] && forall e :: !HasEntity(payload, e))
  }

  lemma MapsExactly(fields: Payload, key: string, value: Json)
    requires value != Null
    ensures Maps(fields, key, value) <==> Get(fields, key) == value
  {
    hide GetOr, Maps, Lacks;
    ReadsExactly(fields, key, Null, value);
  }

  lemma EntityExactly(payload: Payload, entity: Payload)
    ensures EntityIs(payload, entity) ==> PaymentEntity(payload) == entity
  {
    if HasEntity(payload, entity) {
      EntityFound(payload, entity);
    } else if PaymentEntity(payload) != [] {
      EntityThere(payload);
    }
  }

  lemma EntityFound(payload: Payload, entity: Payload)
    requires HasEntity(payload, entity)
    ensures PaymentEntity(payload) == entity
  {
    hide GetOr, Maps;
    var o, p :| Maps(payload, "payload", Obj(o)) && Maps(o, "payment", Obj(p)) && Maps(p, "entity", Obj(entity));
    MapsExactly(payload, "payload", Obj(o));
    MapsExactly(o, "payment", Obj(p));
    MapsExactly(p, "entity", Obj(entity));
  }

  lemma EntityThere(payload: Payload)
    requires PaymentEntity(payload) != []
    ensures HasEntity(payload, PaymentEntity(payload))
  {
    hide GetOr, Maps;
    var outer := AsDict(Get(payload, "payload"));
    var payment := AsDict(Get(outer, "payment"));
    MapsIfNotEmpty(payment, "entity", PaymentEntity(payload));
    MapsIfNotEmpty(outer, "payment", payment);
    MapsIfNotEmpty(payload, "payload", outer);
    MapsExactly(payload, "payload", Obj(outer));
    MapsExactly(outer, "payment", Obj(payment));
    MapsExactly(payment, "entity", Obj(PaymentEntity(payload)));
  }

  lemma MapsIfNotEmpty(fields: Payload, key: string, dict: Payload)
    requires dict == AsDict(Get(fields, key))
    ensures fields == [] ==> dict == []
    ensures dict != [] ==> Get(fields, key) == Obj(dict)
  {
  }

  /** The key of an event by its fields: the type, then the order id; the payment id where the order id is falsy; the
      creation time where both are. */
  lemma KeyByFields(py: Python, payload: Payload, entity: Payload, kind: Json, order: Json, id: Json, created: Json)
    requires EntityIs(payload, entity) && Reads(payload, "event", Null, kind)
    requires Reads(entity, "order_id", Null, order) && Reads(entity, "id", Null, id)
    requires Reads(payload, "created_at", Str(""), created)
    ensures EventKey(py, payload) == Printed(py, kind) +
              if Truthy(order) then ":" + Printed(py, order)
              else if Truthy(id) then ":" + Printed(py, id)
              else "_" + Printed(py, created)
  {
    hide GetOr, Reads, EntityIs, PaymentEntity;
    EntityExactly(payload, entity);
    ReadsExactly(payload, "event", Null, kind);
    ReadsExactly(entity, "order_id", Null, order);
    ReadsExactly(entity, "id", Null, id);
    ReadsExactly(payload, "created_at", Str(""), created);
  }

  /** Applyable events whose ids are strings share a key exactly if they have one type and one base id, or one type, no
      base id and one rendering of created_at. */
  lemma SharedKey(py: Python, a: Payload, b: Payload)
    requires Applyable(a) && Applyable(b)
    requires Truthy(BaseId(a)) ==> BaseId(a).Str?
    requires Truthy(BaseId(b)) ==> BaseId(b).Str?
    ensures EventKey(py, a) == EventKey(py, b) <==>
            && EventType(a) == EventType(b)
            && Truthy(BaseId(a)) == Truthy(BaseId(b))
            && (if Truthy(BaseId(a)) then BaseId(a) == BaseId(b)
                else Show(py, CreatedAt(a)) == Show(py, CreatedAt(b)))
  {
    hide BaseId, CreatedAt;
    var c, d := if Truthy(BaseId(a)) then ':' else '_', if Truthy(BaseId(b)) then ':' else '_';
    var x := if Truthy(BaseId(a)) then Show(py, BaseId(a)) else Show(py, CreatedAt(a));
    var y := if Truthy(BaseId(b)) then Show(py, BaseId(b)) else Show(py, CreatedAt(b));
    TypeSplits(EventType(a).s, [c] + x, EventType(b).s, [d] + y);
    SameTail(c, x, d, y);
  }

  // ---------- what an event does ----------

  /** What a claimed event asks for, before any table is read. Unhashable: the type cannot be looked up,
      which raises. */
  datatype Target = Unhashable | Nothing(reason: string) | Lookup(mandateId: string)

  function TargetOf(py: Python, payload: Payload): Target {
    if EventType(payload).Arr? || EventType(payload).Obj? then Unhashable
    else if !Applyable(payload) then Nothing("unknown_event")
    else
      var id := ResolveMandateId(py, PaymentEntity(payload));
      if id.None? || id.value == "" then Nothing("mandate_not_found") else Lookup(id.value)
  }

  function StatusOf(payload: Payload): string {
    if EventType(payload) == Str(CAPTURED) then "captured" else "failed"
  }

  function PaymentId(payload: Payload): Json {
    Get(PaymentEntity(payload), "id")
  }

  function Updated(py: Python, payload: Payload, m: Mandate): Mandate {
    m.(paymentStatus := Some(StatusOf(payload)),
       lastPaymentId := if Truthy(PaymentId(payload)) then Some(Show(py, PaymentId(payload))) else None)
  }

  function DumpJson(py: Python, j: Json): string {
    match j
    case Null => DumpValue(None)
    case Str(s) => DumpValue(Some(s))
    case _ => py.dumps(j)
  }

  /** The compact `{"event_id": ..., "event_type": ..., "payment_id": ...}`. */
  function Metadata(py: Python, payload: Payload, eventId: string): string {
    "{" + (DumpMember(("event_id", Some(eventId)))
    + ("," + (Quote("event_type") + (":" + DumpJson(py, EventType(payload))))
    + ("," + (Quote("payment_id") + (":" + (DumpJson(py, PaymentId(payload)) + "}"))))))
  }

  function ApplyEntry(py: Python, payload: Payload, eventId: string, m: Mandate): LogRequest {
    LogRequest(None, None, Some(m.agentId), Some(m.mandateId), "webhook.apply", StatusOf(payload),
               None, None, Some(Metadata(py, payload, eventId)))
  }

  /** The event id that an audit row's metadata starts with. */
  function EventIdOf(q: LogRequest): Option<string> {
    if q.metadataJson.None? || q.metadataJson.value == "" then None
    else match ReadMember(q.metadataJson.value[1..])
      case None => None
      case Some((m, _)) => if m.0 == "event_id" then m.1 else None
  }

  /** A row names the event it belongs to, whatever characters the event id has, and the mandate with its agent. */
  lemma EntryNamesEvent(py: Python, payload: Payload, eventId: string, m: Mandate)
    ensures EventIdOf(ApplyEntry(py, payload, eventId, m)) == Some(eventId)
    ensures ApplyEntry(py, payload, eventId, m).mandateId == Some(m.mandateId)
    ensures ApplyEntry(py, payload, eventId, m).agentId == Some(m.agentId)
  {
    hide DumpMember, Quote, ReadMember, DumpJson, PaymentId, EventType, StatusOf;
    var member := ("event_id", Some(eventId));
    var rest := "," + (Quote("event_type") + (":" + DumpJson(py, EventType(payload))))
                + ("," + (Quote("payment_id") + (":" + (DumpJson(py, PaymentId(payload)) + "}"))));
    assert Metadata(py, payload, eventId)[1..] == DumpMember(member) + rest;
    ReadMemberDumpMember(member, rest);
  }

  /** For a payment id that is a string or missing, the metadata is a JSON object that reads back to its three parts. */
  lemma MetadataReadsBack(py: Python, payload: Payload, eventId: string)
    requires Applyable(payload) && (PaymentId(payload).Str? || PaymentId(payload).Null?)
    ensures ReadObject(Metadata(py, payload, eventId)) == Some([
              ("event_id", Some(eventId)),
              ("event_type", Some(EventType(payload).s)),
              ("payment_id", if PaymentId(payload).Str? then Some(PaymentId(payload).s) else None)])
  {
    hide Quote, PaymentId, EventType, ReadObject, DumpObject, DumpValue;
    var id: Member := ("event_id", Some(eventId));
    var kind: Member := ("event_type", Some(EventType(payload).s));
    var payment: Member := ("payment_id", if PaymentId(payload).Str? then Some(PaymentId(payload).s) else None);
    assert DumpJson(py, EventType(payload)) == DumpValue(kind.1);
    assert DumpJson(py, PaymentId(payload)) == DumpValue(payment.1);
    DumpThree(id, kind, payment);
    Regroup(DumpMember(id), Quote("event_type"), DumpValue(kind.1), Quote("payment_id"), DumpValue(payment.1));
    assert Metadata(py, payload, eventId) == DumpObject([id, kind, payment]);
    ReadObjectDumpObject([id, kind, payment]);
  }

  lemma Regroup(a: string, k: string, v: string, l: string, w: string)
    ensures "{" + (a + ("," + (k + (":" + v))) + ("," + (l + (":" + (w + "}")))))
         == "{" + (a + ("," + (k + ":" + v + ("," + (l + ":" + w + "}")))))
  {
    var x, y := k + (":" + v), l + (":" + (w + "}"));
    assert x == k + ":" + v && y == l + ":" + w + "}";
    assert a + ("," + x) + ("," + y) == a + ("," + (x + ("," + y)));
  }

  lemma DumpThree(a: Member, b: Member, c: Member)
    ensures DumpObject([a, b, c]) == "{" + (DumpMember(a) + ("," + (DumpMember(b) + ("," + (DumpMember(c) + "}")))))
  {
    hide DumpMember;
    var ms := [a, b, c];
    assert ms[1..] == [b, c] && [b, c][1..] == [c] && [c][1..] == [];
    assert DumpTail([]) == "}";
    assert DumpTail([c]) == "," + (DumpMember(c) + "}");
    assert DumpTail([b, c]) == "," + (DumpMember(b) + DumpTail([c]));
  }

  // ---------- spend authority ----------

  /** A mandate without what webhooks write. */
  function Unpaid(m: Mandate): Mandate {
    m.(paymentStatus := None, lastPaymentId := None)
  }

  function Authority(row: MandateRow): MandateRow {
    row.(payload := Unpaid(row.payload))
  }

  predicate SameAuthority(a: VaultState, b: VaultState) {
    && a.denylist == b.denylist && a.mandates.Keys == b.mandates.Keys
    && forall id | id in a.mandates :: Authority(a.mandates[id]) == Authority(b.mandates[id])
  }

  lemma AuthorityReflexive(v: VaultState)
    ensures SameAuthority(v, v)
  {
  }

  lemma UpdateKeepsId(py: Python, payload: Payload)
    ensures forall m :: Updated(py, payload, m).mandateId == m.mandateId
                        && Updated(py, payload, m).agentId == m.agentId
                        && Updated(py, payload, m).expiresAt == m.expiresAt
  {
  }

  /** Vaults of one authority answer every validation and every proposal alike. */
  lemma SameAuthorityDecides(a: VaultState, b: VaultState)
    requires SameAuthority(a, b)
    ensures forall id, now :: Usable(a, id, now) <==> Usable(b, id, now)
    ensures forall catalog, lower, p, now ::
              Policy.Evaluate(a, catalog, lower, p, now) == Policy.Evaluate(b, catalog, lower, p, now)
  {
    forall id | id in a.mandates
      ensures Unpaid(a.mandates[id].payload) == Unpaid(b.mandates[id].payload)
      ensures a.mandates[id].revoked == b.mandates[id].revoked
    {
      assert Authority(a.mandates[id]).payload == Authority(b.mandates[id]).payload;
    }
    hide Policy.PricesMatch, Policy.MaxDiscount, Policy.DarkPattern;
  }

  /** Exactly when storing an update of mandate m keeps the spend authority of a vault: the store is refused, or the row
      it replaces still has the authority of m. */
  lemma StoreKeepsAuthority(py: Python, v: VaultState, payload: Payload, m: Mandate)
    requires Consistent(v) && m.mandateId in v.mandates
    ensures SameAuthority(v, StoreMandate(v, Updated(py, payload, m))) <==>
            Revoked(v, m.mandateId) || Unpaid(v.mandates[m.mandateId].payload) == Unpaid(m)
  {
    hide StatusOf, PaymentId, Show;
    var w := StoreMandate(v, Updated(py, payload, m));
    assert Unpaid(Updated(py, payload, m)) == Unpaid(m);
    assert w.mandates.Keys == v.mandates.Keys;
    if !Revoked(v, m.mandateId) {
      assert Authority(w.mandates[m.mandateId]).payload == Unpaid(m);
      assert Authority(v.mandates[m.mandateId]).payload == Unpaid(v.mandates[m.mandateId].payload);
    }
  }

  // ---------- the route ----------

  datatype Response =
    | MissingSignature // 400
    | InvalidSignature // 401
    | MalformedJson
    | AlreadyProcessed
    | NotApplied(reason: string)
    | Applied
    | ServerError      // an exception left the route

  /** What a claimed event does to a vault that stands still, and the audit entry it asks for. */
  datatype Plan = Plan(vault: VaultState, entry: Option<LogRequest>, response: Response)

  function PlanOf(py: Python, v: VaultState, payload: Payload, eventId: string): Plan {
    match TargetOf(py, payload)
    case Unhashable => Plan(v, None, ServerError)
    case Nothing(reason) => Plan(v, None, NotApplied(reason))
    case Lookup(id) =>
      if id !in v.mandates then Plan(v, None, NotApplied("mandate_not_found"))
      else if Revoked(v, id) then Plan(v, None, ServerError)
      else
        var row := v.mandates[id];
        Plan(v.(mandates := v.mandates[id := row.(payload := Updated(py, payload, row.payload))]),
             Some(ApplyEntry(py, payload, eventId, row.payload)), Applied)
  }

  /** The plan is carried out; a taken row id raises after the store. */
  predicate Effect(py: Python, sha256: string -> Digest, payload: Payload, eventId: string, uuid: string, stamp: string,
                   v: VaultState, rows: seq<AuditRow>, v': VaultState, rows': seq<AuditRow>, r: Response)
  {
    var plan := PlanOf(py, v, payload, eventId);
    && v' == plan.vault
    && if plan.entry.None? then r == plan.response && rows' == rows
       else if Present(rows, uuid) then r == ServerError && rows' == rows
       else
         && r == plan.response
         && rows' == rows + [NewRow(EntryHash(sha256), plan.entry.value, uuid, stamp, Head(OrderBy(rows)))]
  }

  // ---------- the effect by the payload's fields ----------

  /** What an event that names a mandate does: the mandate's payment fields and nothing else change, and one row says
      so. */
  ghost predicate AppliedTo(py: Python, mandateId: string, eventId: string, kind: string, paymentId: Json,
                            uuid: string, stamp: string, v: VaultState, rows: seq<AuditRow>,
                            v': VaultState, rows': seq<AuditRow>, r: Response)
  {
    var status := if kind == "payment.captured" then "captured" else "failed";
    if mandateId !in v.mandates then r == NotApplied("mandate_not_found") && v' == v && rows' == rows
    else if v.mandates[mandateId].revoked then r == ServerError && v' == v && rows' == rows
    else
      var row := v.mandates[mandateId];
      && v'.denylist == v.denylist && v'.mandates.Keys == v.mandates.Keys
      && (forall id | id in v.mandates && id != mandateId :: v'.mandates[id] == v.mandates[id])
      && v'.mandates[mandateId] == row.(payload := row.payload.(
           paymentStatus := Some(status),
           lastPaymentId := if Truthy(paymentId) then Some(Printed(py, paymentId)) else None))
      && if Present(rows, uuid) then r == ServerError && rows' == rows
         else
           && r == Applied && |rows'| == |rows| + 1 && rows'[..|rows|] == rows
           && var record := rows'[|rows|].record;
              && record.entryId == uuid && record.timestamp == stamp
              && record.action == "webhook.apply" && record.outcome == status
              && record.mandateId == Some(row.payload.mandateId) && record.agentId == Some(row.payload.agentId)
              && record.requestHash.None? && record.responseHash.None?
              && record.previousHash == Head(OrderBy(rows)) && record.metadataJson.Some?
              && (paymentId.Str? || paymentId.Null? ==>
                    ReadObject(record.metadataJson.value) == Some([
                      ("event_id", Some(eventId)), ("event_type", Some(kind)),
                      ("payment_id", if paymentId.Str? then Some(paymentId.s) else None)]))
  }

  /** The value under `mandate_id` in notes that are a dict. */
  function NotedId(notes: Json): Json {
    if notes.Obj? then Get(notes.fields, "mandate_id") else Null
  }

  lemma NotedIdReads(notes: Payload, noted: Json)
    requires Reads(notes, "mandate_id", Null, noted)
    ensures NotedId(Obj(notes)) == noted
  {
    hide GetOr, Reads;
    ReadsExactly(notes, "mandate_id", Null, noted);
  }

  /** A truthy id in the notes names the mandate; otherwise a truthy order id does; otherwise nothing does. */
  lemma TargetByFields(py: Python, payload: Payload, entity: Payload, kind: Json, notes: Json, order: Json)
    requires EntityIs(payload, entity) && Reads(payload, "event", Null, kind)
    requires Reads(entity, "notes", Null, notes) && Reads(entity, "order_id", Null, order)
    ensures TargetOf(py, payload) ==
              if kind.Arr? || kind.Obj? then Unhashable
              else if kind != Str("payment.captured") && kind != Str("payment.failed") then Nothing("unknown_event")
              else if Truthy(NotedId(notes)) then Lookup(Printed(py, NotedId(notes)))
              else if Truthy(order) then Lookup(Printed(py, order))
              else Nothing("mandate_not_found")
  {
    hide GetOr, Reads, EntityIs, PaymentEntity;
    EntityExactly(payload, entity);
    ReadsExactly(payload, "event", Null, kind);
    ReadsExactly(entity, "notes", Null, notes);
    ReadsExactly(entity, "order_id", Null, order);
    EmptyHasNothing("mandate_id");
  }

  lemma EmptyHasNothing(key: string)
    ensures Get([], key) == Null
  {
  }

  lemma MetadataByFields(py: Python, payload: Payload, eventId: string, entity: Payload, kind: string, id: Json)
    requires EntityIs(payload, entity) && Reads(payload, "event", Null, Str(kind)) && Reads(entity, "id", Null, id)
    requires (kind == "payment.captured" || kind == "payment.failed") && (id.Str? || id.Null?)
    ensures ReadObject(Metadata(py, payload, eventId)) == Some([
              ("event_id", Some(eventId)), ("event_type", Some(kind)),
              ("payment_id", if id.Str? then Some(id.s) else None)])
  {
    hide GetOr, Reads, EntityIs, PaymentEntity, Metadata, ReadObject;
    EntityExactly(payload, entity);
    ReadsExactly(payload, "event", Null, Str(kind));
    ReadsExactly(entity, "id", Null, id);
    MetadataReadsBack(py, payload, eventId);
  }

  lemma LookupIsApplied(py: Python, sha256: string -> Digest, payload: Payload, eventId: string, uuid: string,
                        stamp: string, v: VaultState, rows: seq<AuditRow>, v': VaultState, rows': seq<AuditRow>,
                        r: Response, mandateId: string, kind: string, id: Json)
    requires Effect(py, sha256, payload, eventId, uuid, stamp, v, rows, v', rows', r)
    requires TargetOf(py, payload) == Lookup(mandateId) && EventType(payload) == Str(kind) && PaymentId(payload) == id
    requires kind == "payment.captured" || kind == "payment.failed"
    requires id.Str? || id.Null? ==>
               ReadObject(Metadata(py, payload, eventId)) == Some([
                 ("event_id", Some(eventId)), ("event_type", Some(kind)),
                 ("payment_id", if id.Str? then Some(id.s) else None)])
    ensures AppliedTo(py, mandateId, eventId, kind, id, uuid, stamp, v, rows, v', rows', r)
  {
    hide TargetOf, EventType, PaymentId, Metadata, EntryHash, Truthy, OrderBy, Head, ReadObject, Present;
  }

  /** An event whose type is applied and that names a mandate, by its notes or else by its order, has that effect. */
  lemma EffectByFields(py: Python, sha256: string -> Digest, payload: Payload, eventId: string, uuid: string,
                       stamp: string, v: VaultState, rows: seq<AuditRow>, v': VaultState, rows': seq<AuditRow>,
                       r: Response, entity: Payload, kind: string, notes: Json, order: Json, id: Json)
    requires Effect(py, sha256, payload, eventId, uuid, stamp, v, rows, v', rows', r)
    requires EntityIs(payload, entity) && Reads(payload, "event", Null, Str(kind))
    requires Reads(entity, "notes", Null, notes) && Reads(entity, "order_id", Null, order)
    requires Reads(entity, "id", Null, id)
    requires kind == "payment.captured" || kind == "payment.failed"
    ensures if Truthy(NotedId(notes))
            then AppliedTo(py, Printed(py, NotedId(notes)), eventId, kind, id, uuid, stamp, v, rows, v', rows', r)
            else if Truthy(order)
            then AppliedTo(py, Printed(py, order), eventId, kind, id, uuid, stamp, v, rows, v', rows', r)
            else r == NotApplied("mandate_not_found") && v' == v && rows' == rows
  {
    EntityExactly(payload, entity);
    hide GetOr, Reads, EntityIs, PaymentEntity, TargetOf, Metadata, Truthy, NotedId, ReadObject, AppliedTo;
    ReadsExactly(payload, "event", Null, Str(kind));
    ReadsExactly(entity, "id", Null, id);
    if id.Str? || id.Null? { MetadataByFields(py, payload, eventId, entity, kind, id); }
    TargetByFields(py, payload, entity, Str(kind), notes, order);
    if TargetOf(py, payload).Lookup? {
      LookupIsApplied(py, sha256, payload, eventId, uuid, stamp, v, rows, v', rows', r,
                      TargetOf(py, payload).mandateId, kind, id);
    }
  }

  /** Other types do nothing; a type that cannot be looked up raises. */
  lemma OtherEventsDoNothing(py: Python, sha256: string -> Digest, payload: Payload, eventId: string, uuid: string,
                             stamp: string, v: VaultState, rows: seq<AuditRow>, v': VaultState, rows': seq<AuditRow>,
                             r: Response, kind: Json)
    requires Effect(py, sha256, payload, eventId, uuid, stamp, v, rows, v', rows', r)
    requires Reads(payload, "event", Null, kind) && kind != Str("payment.captured") && kind != Str("payment.failed")
    ensures v' == v && rows' == rows
    ensures r == if kind.Arr? || kind.Obj? then ServerError else NotApplied("unknown_event")
  {
    hide GetOr, Reads, PaymentEntity, EntryHash, OrderBy, Head;
    ReadsExactly(payload, "event", Null, kind);
  }

  method ApplyVerifiedEvent(py: Python, vault: Vault, audit: AuditLogger, payload: Payload, eventId: string,
                            uuid: string, stamp: string)
    returns (r: Response)
    requires vault.Valid() && audit.Valid()
    modifies vault, audit`rows
    ensures vault.Valid() && audit.Valid()
    ensures Effect(py, audit.sha256, payload, eventId, uuid, stamp, old(vault.State()), old(audit.rows),
                   vault.State(), audit.rows, r)
    ensures SameAuthority(old(vault.State()), vault.State()) && old(audit.rows) <= audit.rows
    ensures r.NotApplied? || r.Applied? || r.ServerError?
  {
    hide Metadata, ResolveMandateId, PaymentEntity, StatusOf, PaymentId, Show, OrderBy, Head, NewRow, Present,
         EventType, SameAuthority, Unpaid, Updated;
    AuthorityReflexive(vault.State());
    UpdateKeepsId(py, payload);
    var eventType := EventType(payload);
    if eventType.Arr? || eventType.Obj? {
      return ServerError;
    }
    if !Applyable(payload) {
      return NotApplied("unknown_event");
    }
    var entity := PaymentEntity(payload);
    var mandateId := ResolveMandateId(py, entity);
    if mandateId.None? || mandateId.value == "" {
      return NotApplied("mandate_not_found");
    }
    var mandate := vault.GetMandate(mandateId.value);
    if mandate.None? {
      return NotApplied("mandate_not_found");
    }
    StoreKeepsAuthority(py, vault.State(), payload, mandate.value);
    var stored := vault.StoreMandate(Updated(py, payload, mandate.value));
    if !stored {
      return ServerError;
    }
    var id := audit.LogEntry(ApplyEntry(py, payload, eventId, mandate.value), uuid, stamp);
    if id.None? {
      return ServerError;
    }
    return Applied;
  }

  predicate Ascii(s: string) {
    forall c | c in s :: c < '\U{0080}'
  }

  /** genuine says whether a signature is the HMAC of a body, decode parses a body. Comparing a signature that is not
      ASCII raises. */
  method RazorpayWebhook(py: Python, genuine: (string, string) -> bool, decode: string -> Option<Json>,
                         store: IdempotencyStore, vault: Vault, audit: AuditLogger,
                         body: string, signature: Option<string>, now: string, turns: nat -> Turn,
                         uuid: string, stamp: string)
    returns (r: Response, claimed: bool, used: nat)
    requires vault.Valid() && audit.Valid()
    modifies store, vault, audit`rows
    ensures vault.Valid() && audit.Valid()
    ensures SameAuthority(old(vault.State()), vault.State())
    ensures old(audit.rows) <= audit.rows
    // nothing happens before the signature is checked and the body read
    ensures r == MissingSignature <==> signature.None? || signature.value == ""
    ensures used > 0 <==>
              && signature.Some? && signature.value != "" && Ascii(signature.value) && genuine(body, signature.value)
              && decode(body).Some? && decode(body).value.Obj?
    ensures r == InvalidSignature <==>
              signature.Some? && signature.value != "" && Ascii(signature.value) && !genuine(body, signature.value)
    ensures r == MalformedJson <==>
              && signature.Some? && signature.value != "" && Ascii(signature.value) && genuine(body, signature.value)
              && (decode(body).None? || !decode(body).value.Obj?)
    ensures used == 0 ==> store.keys == old(store.keys) && !claimed
    // the tables change only for the caller that claims the key
    ensures !claimed ==> vault.State() == old(vault.State()) && audit.rows == old(audit.rows)
    ensures used > 0 ==>
              var payload := decode(body).value.fields;
              var key, world := EventKey(py, payload), World(old(store.keys), turns, used);
              && (claimed <==> key !in world && key in store.keys)
              && store.keys == (if claimed then world[key := now] else world)
              && (claimed <==> Wins(old(store.keys), turns, key))
              && (r == AlreadyProcessed <==> Finds(old(store.keys), turns, key))
              && (r == AlreadyProcessed ==> key in world)
              && (GivesUp(old(store.keys), turns, key) ==> r == ServerError && !Undisturbed(turns, used))
              && (claimed ==> Effect(py, audit.sha256, payload, key, uuid, stamp, old(vault.State()), old(audit.rows),
                                     vault.State(), audit.rows, r))
  {
    hide EventKey, PlanOf, Effect, SameAuthority, World, Wins, Finds, GivesUp;
    AuthorityReflexive(vault.State());
    claimed, used := false, 0;
    if signature.None? || signature.value == "" {
      return MissingSignature, claimed, used;
    }
    if !Ascii(signature.value) {
      return ServerError, claimed, used;
    }
    if !genuine(body, signature.value) {
      return InvalidSignature, claimed, used;
    }
    var decoded := decode(body);
    if decoded.None? || !decoded.value.Obj? {
      return MalformedJson, claimed, used;
    }
    var payload := decoded.value.fields;
    var eventId := EventKey(py, payload);
    var marked;
    marked, used := store.Mark(eventId, now, turns);
    if marked == Raised {
      return ServerError, claimed, used;
    }
    if marked == AlreadyPresent {
      return AlreadyProcessed, claimed, used;
    }
    claimed := true;
    r := ApplyVerifiedEvent(py, vault, audit, payload, eventId, uuid, stamp);
  }
}
