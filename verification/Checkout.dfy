/** The gated money action: firewall, parser, policy, vault, executor with one retry, audit. */
module Checkout {
  import opened Text
  import opened JsonText
  import opened JsonTree
  import opened Models
  import opened Vaults
  import opened Executor
  import opened Audit
  import Firewall
  import ProtocolParser
  import Policy

  datatype CheckoutResult = CheckoutResult(
    mandateId: string, allowed: bool, reasonCode: Option<string>, violations: seq<string>, payment: Option<Payment>)

  function Refuse(mandateId: string, code: string): CheckoutResult {
    CheckoutResult(mandateId, false, Some(code), [code], None)
  }

  // ---------- audit entries ----------

  const EXECUTOR_FAILURE := "executor_failure"
  const MANDATE_INVALID := "mandate_invalid"

  const REASON_PREFIX := "{\"reason_code\": \""
  const RETRIED_ONLY := "{\"retried\": true}"
  const RETRIED_REST := ", \"retried\": true}"

  /** `json.dumps({"reason_code": code})`, with `"retried": true` behind it after a retry. */
  function RefusalMetadata(code: string, retried: bool): string {
    REASON_PREFIX + (Escape(code) + "\"" + if retried then RETRIED_REST else "}")
  }

  function Entry(p: Proposal, outcome: string, agentId: Option<string>, metadata: Option<string>): LogRequest {
    LogRequest(None, None, agentId, Some(p.mandateId), "checkout.execute", outcome, None, None, metadata)
  }

  function RefusalEntry(p: Proposal, code: string, agentId: Option<string>, retried: bool): LogRequest {
    Entry(p, "refusal", agentId, Some(RefusalMetadata(code, retried)))
  }

  function OkEntry(p: Proposal, agentId: string, retried: bool): LogRequest {
    Entry(p, "ok", Some(agentId), if retried then Some(RETRIED_ONLY) else None)
  }

  /** What a row's metadata says: its reason code and whether the payment was retried. */
  datatype Note = Note(code: Option<string>, retried: bool)

  function ReadNote(metadata: Option<string>): Note {
    if metadata.None? then Note(None, false)
    else if HasPrefix(metadata.value, REASON_PREFIX) then ReadReason(metadata.value[|REASON_PREFIX|..])
    else Note(None, metadata.value == RETRIED_ONLY)
  }

  function ReadReason(t: string): Note {
    match ReadString(t)
    case None => Note(None, false)
    case Some((code, rest)) => Note(Some(code), rest == RETRIED_REST)
  }

  predicate HasPrefix(s: string, prefix: string) {
    |prefix| <= |s| && s[..|prefix|] == prefix
  }

  /** A row that says the payment was tried. */
  predicate MoneyRow(e: LogRequest) {
    e.action == "checkout.execute" && (e.outcome == "ok" || ReadNote(e.metadataJson).code == Some(EXECUTOR_FAILURE))
  }

  /** A row that says the payment was tried twice. */
  predicate RetriedRow(e: LogRequest) {
    e.action == "checkout.execute" && ReadNote(e.metadataJson).retried
  }

  /** The executor attempts that a row accounts for. */
  function OnRecord(e: LogRequest): nat {
    (if MoneyRow(e) then 1 else 0) + (if RetriedRow(e) then 1 else 0)
  }

  /** The metadata of a refusal is `json.dumps` of its reason code, and after a retry of the flag behind it. */
  lemma RefusalMetadataText(code: string)
    ensures RETRIED_REST == ", \"retried\": true}" && RETRIED_ONLY == "{\"retried\": true}"
    ensures RefusalMetadata(code, false) == "{\"reason_code\": " + (Quote(code) + "}")
    ensures RefusalMetadata(code, true) == "{\"reason_code\": " + (Quote(code) + RETRIED_REST)
  {
    hide Escape;
    var start, e := "{\"reason_code\": ", Escape(code);
    assert REASON_PREFIX == start + "\"";
    Regroup(start, e, "}");
    Regroup(start, e, RETRIED_REST);
  }

  lemma Regroup(start: string, e: string, rest: string)
    ensures start + "\"" + (e + "\"" + rest) == start + ("\"" + e + "\"" + rest)
  {
  }

  lemma PrefixSplits(prefix: string, rest: string)
    ensures HasPrefix(prefix + rest, prefix) && (prefix + rest)[|prefix|..] == rest
  {
  }

  lemma ReasonReadsBack(code: string, rest: string)
    ensures ReadReason(Escape(code) + "\"" + rest) == Note(Some(code), rest == RETRIED_REST)
  {
    ReadStringEscape(code, rest);
  }

  lemma NoteOfRefusal(code: string, retried: bool)
    ensures ReadNote(Some(RefusalMetadata(code, retried))) == Note(Some(code), retried)
  {
    var rest := if retried then RETRIED_REST else "}";
    PrefixSplits(REASON_PREFIX, Escape(code) + "\"" + rest);
    ReasonReadsBack(code, rest);
  }

  lemma OkOnRecord(p: Proposal, agentId: string, retried: bool)
    ensures OnRecord(OkEntry(p, agentId, retried)) == if retried then 2 else 1
    ensures ReadNote(OkEntry(p, agentId, retried).metadataJson) == Note(None, retried)
  {
    if retried { assert RETRIED_ONLY[4] == 't' && REASON_PREFIX[4] == 'a'; }
  }

  // ---------- the envelope gate ----------

  datatype Gate = Pass(parsedId: string) | Stop(code: string) | Raise

  function EnvelopeGate(py: Python, now: Instant, p: Proposal, protocol: Option<string>, envelope: Option<Json>): Gate {
    if envelope.None? then Pass(p.mandateId)
    else match Firewall.Sanitize(py.lower, envelope.value)
      case Refused(reason) => Stop(if reason != "" then reason else "idpi_detected")
      case Safe(cleaned) =>
        if protocol.None? || protocol.value == "" then Stop("unknown_protocol")
        else match ProtocolParser.ParseEnvelope(py, now, protocol.value, Or(cleaned, envelope.value))
          case Refused(code) => Stop(code)
          case Raised => Raise
          case Parsed(m) => if m.mandateId != p.mandateId then Stop(MANDATE_INVALID) else Pass(m.mandateId)
  }

  lemma GateNeverBlamesExecutor(py: Python, now: Instant, p: Proposal, protocol: Option<string>, envelope: Option<Json>)
    ensures var g := EnvelopeGate(py, now, p, protocol, envelope);
            (g.Stop? ==> g.code != EXECUTOR_FAILURE) && (g.Pass? ==> g.parsedId == p.mandateId)
  {
    if envelope.Some? && protocol.Some? {
      var safe := Firewall.Sanitize(py.lower, envelope.value);
      if safe.Safe? { ProtocolParser.RefusalCodes(py, now, protocol.value, Or(safe.cleaned, envelope.value)); }
    }
  }

  /** Exactly when an envelope ends a run without a result and a row: the firewall lets it through, its protocol is
      known, and its cleaned fields make the parser raise something else than its own error. */
  lemma GateRaisesExactly(py: Python, now: Instant, p: Proposal, protocol: Option<string>, envelope: Option<Json>)
    ensures EnvelopeGate(py, now, p, protocol, envelope).Raise? <==>
            && envelope.Some? && Firewall.Sanitize(py.lower, envelope.value).Safe?
            && protocol.Some? && protocol.value != "" && ProtocolParser.ProtocolNamed(py.lower(protocol.value)).Some?
            && ProtocolParser.RaisesOther(py, Firewall.CleanFields(envelope.value.fields))
  {
    hide ProtocolParser.Normalize, ProtocolParser.RaisesOther, ProtocolParser.ProtocolNamed, Firewall.Walk;
    if envelope.Some? && Firewall.Sanitize(py.lower, envelope.value).Safe? {
      var fields := Firewall.CleanFields(envelope.value.fields);
      assert fields == [] ==> envelope.value.fields == [] by { CleanKeeps(py.lower, envelope.value); }
      if protocol.Some? && ProtocolParser.ProtocolNamed(py.lower(protocol.value)).Some? {
        ProtocolParser.RaisesExactly(py, now, fields, ProtocolParser.ProtocolNamed(py.lower(protocol.value)).value);
      }
    }
  }

  /** The protocol that is named, if it is. */
  predicate Names(lower: string -> string, protocol: Option<string>, named: Protocol) {
    && protocol.Some? && protocol.value != ""
    && match named
       case AP2 => lower(protocol.value) == "ap2"
       case TAP => lower(protocol.value) == "tap"
       case P3P => lower(protocol.value) == "p3p"
       case UAP => lower(protocol.value) == "uap"
  }

  /** What the cleaned fields of an envelope parse to under a protocol. */
  function Parsing(py: Python, now: Instant, envelope: Json, named: Protocol): ProtocolParser.Parse
    requires envelope.Obj?
  {
    ProtocolParser.Normalize(py, now, Firewall.CleanFields(envelope.fields), named)
  }

  /** The gate is open for no envelope at all, and for exactly those in which nothing is objected to, under a protocol
      it knows, whose cleaned fields give a mandate with the proposal's id. */
  lemma GatePassesExactly(py: Python, now: Instant, p: Proposal, protocol: Option<string>, envelope: Option<Json>)
    ensures EnvelopeGate(py, now, p, protocol, envelope) == Pass(p.mandateId) <==>
            || envelope.None?
            || (!Firewall.Objectionable(py.lower, envelope.value)
                && exists named ::
                     && Names(py.lower, protocol, named) && Parsing(py, now, envelope.value, named).Parsed?
                     && Parsing(py, now, envelope.value, named).mandate.mandateId == p.mandateId)
    ensures EnvelopeGate(py, now, p, protocol, envelope).Pass? ==>
            EnvelopeGate(py, now, p, protocol, envelope) == Pass(p.mandateId)
  {
    hide ProtocolParser.Normalize, ProtocolParser.ProtocolNamed, Firewall.Objectionable, Names, Firewall.Sanitize;
    if envelope.Some? {
      GateBySteps(py, now, p, protocol, envelope.value);
      forall named { NamesExactly(py.lower, protocol, named); }
    }
  }

  /** The code of every stop: the firewall's objection comes first, then the protocol, then the parser's own error,
      then the mandate. */
  lemma GateStopsExactly(py: Python, now: Instant, p: Proposal, protocol: Option<string>, envelope: Json)
    ensures var gate := EnvelopeGate(py, now, p, protocol, Some(envelope));
            && (Firewall.Objectionable(py.lower, envelope) ==> gate == Stop("idpi_detected"))
            && (!Firewall.Objectionable(py.lower, envelope) && (forall named :: !Names(py.lower, protocol, named)) ==>
                  gate == Stop("unknown_protocol"))
            && (forall named | !Firewall.Objectionable(py.lower, envelope) && Names(py.lower, protocol, named) ::
                  match Parsing(py, now, envelope, named)
                  case Refused(code) => gate == Stop(code)
                  case Raised => gate == Raise
                  case Parsed(m) => m.mandateId != p.mandateId ==> gate == Stop("mandate_invalid"))
  {
    hide ProtocolParser.Normalize, ProtocolParser.ProtocolNamed, Firewall.Objectionable, Names, Firewall.Sanitize;
    GateBySteps(py, now, p, protocol, envelope);
    forall named { NamesExactly(py.lower, protocol, named); }
  }

  lemma NamesExactly(lower: string -> string, protocol: Option<string>, named: Protocol)
    ensures Names(lower, protocol, named) <==>
            protocol.Some? && protocol.value != "" && ProtocolParser.ProtocolNamed(lower(protocol.value)) == Some(named)
  {
    hide ProtocolParser.ProtocolNamed;
    if protocol.Some? { ProtocolParser.ProtocolsExactly(lower(protocol.value)); }
  }

  /** The gate as a chain of steps over the named protocol and the cleaned fields. */
  lemma GateBySteps(py: Python, now: Instant, p: Proposal, protocol: Option<string>, envelope: Json)
    ensures Firewall.Objectionable(py.lower, envelope)
        ==> EnvelopeGate(py, now, p, protocol, Some(envelope)) == Stop("idpi_detected")
    ensures !Firewall.Objectionable(py.lower, envelope) ==>
              envelope.Obj? && EnvelopeGate(py, now, p, protocol, Some(envelope)) ==
                if protocol.None? || protocol.value == ""
                    || ProtocolParser.ProtocolNamed(py.lower(protocol.value)).None?
                then Stop("unknown_protocol")
                else match Parsing(py, now, envelope, ProtocolParser.ProtocolNamed(py.lower(protocol.value)).value)
                     case Refused(code) => Stop(code)
                     case Raised => Raise
                     case Parsed(m) => if m.mandateId == p.mandateId then Pass(m.mandateId) else Stop("mandate_invalid")
  {
    hide ProtocolParser.Normalize, ProtocolParser.ProtocolNamed, Firewall.Walk, Firewall.Objectionable;
    Firewall.RefusedExactly(py.lower, envelope);
    assert "idpi_detected"[0] == 'i';
    if Firewall.Sanitize(py.lower, envelope).Safe? { CleanKeeps(py.lower, envelope); }
  }

  lemma CleanKeeps(lower: string -> string, envelope: Json)
    requires Firewall.Sanitize(lower, envelope).Safe?
    ensures |Firewall.CleanFields(envelope.fields)| == |envelope.fields|
  {
    Firewall.AcceptedOutput(lower, envelope);
  }

  /** `{"mandate": 1}`. */
  function NumberedMandate(): Json {
    Obj([("mandate", Int(1))])
  }

  /** An envelope that raises: it names its mandate by something that is no dict. */
  lemma NumberedMandateRaises(py: Python, now: Instant, p: Proposal)
    requires py.lower("ap2") == "ap2"
    ensures EnvelopeGate(py, now, p, Some("ap2"), Some(NumberedMandate())) == Raise
  {
    var fields: seq<(string, Json)> := [("mandate", Int(1))];
    assert fields[1..] == [];
    assert !Firewall.Walk(py.lower, NumberedMandate());
    assert Firewall.CleanFields(fields[1..]) == [];
    assert Firewall.CleanFields(fields) == fields;
    assert GetOr(fields[1..], "mandate_id", Null) == Null && GetOr(fields[1..], "id", Null) == Null;
    assert ProtocolParser.BrokenIds(fields);
    GateRaisesExactly(py, now, p, Some("ap2"), Some(NumberedMandate()));
  }

  // ---------- what one run amounts to ----------

  /** Everything a run that returns leaves behind. */
  datatype Conclusion = Conclusion(result: CheckoutResult, entry: LogRequest, attempts: nat, orders: seq<OrderPayload>)

  function Refusal(p: Proposal, code: string): Conclusion {
    Conclusion(Refuse(p.mandateId, code), RefusalEntry(p, code, None, false), 0, [])
  }

  /** How the attempts of one payment went. */
  datatype Settlement = Settlement(reply: Reply, retried: bool, orders: seq<OrderPayload>) {
    function Attempts(): nat { if retried then 2 else 1 }
  }

  /** The payment with its one retry. */
  function Settle(order: OrderPayload, first: Attempt, second: Attempt): Settlement {
    if Outcome(first).Failed? && IsTransient(Outcome(first).fault)
    then Settlement(Outcome(second), true, Wire(first, order) + Wire(second, order))
    else Settlement(Outcome(first), false, Wire(first, order))
  }

  function Settled(p: Proposal, m: Mandate, s: Settlement): Conclusion {
    match s.reply
    case Created(payment) =>
      Conclusion(CheckoutResult(p.mandateId, true, None, [], Some(payment)),
                 OkEntry(p, m.agentId, s.retried), s.Attempts(), s.orders)
    case Failed(_) =>
      Conclusion(Refuse(p.mandateId, EXECUTOR_FAILURE),
                 RefusalEntry(p, EXECUTOR_FAILURE, Some(m.agentId), s.retried), s.Attempts(), s.orders)
  }

  function Pay(p: Proposal, m: Mandate, first: Attempt, second: Attempt): Conclusion {
    Settled(p, m, Settle(OrderFor(m, p), first, second))
  }

  /** What the gates decide: refuse with a code, or pay under a mandate. */
  datatype Decision = Stopped(code: string) | Cleared(mandate: Mandate)

  function Decide(catalog: Policy.Catalog, lower: string -> string, v: VaultState, now: Instant, gate: Gate,
                  p: Proposal)
    : Decision
    requires !gate.Raise?
  {
    if gate.Stop? then Stopped(gate.code)
    else
      var policy := Policy.Evaluate(v, catalog, lower, p, now);
      if !policy.allowed then Stopped(policy.reasonCode.value)
      else if gate.parsedId !in v.mandates then Stopped(MANDATE_INVALID)
      else Cleared(v.mandates[gate.parsedId].payload)
  }

  /** A run against a vault that stands still. */
  function Conclude(p: Proposal, d: Decision, first: Attempt, second: Attempt): Conclusion {
    match d
    case Stopped(code) => Refusal(p, code)
    case Cleared(m) => Pay(p, m, first, second)
  }

  /** Allowed, paid and recorded as ok are one; a refusal records its code; the record tells the attempts. */
  predicate Accounted(c: Conclusion) {
    && (c.result.allowed <==> c.result.payment.Some?)
    && (c.result.allowed <==> c.entry.outcome == "ok")
    && (c.result.allowed <==> c.result.reasonCode.None?)
    && (!c.result.allowed ==> c.entry.outcome == "refusal" && c.result.violations == [c.result.reasonCode.value]
                              && ReadNote(c.entry.metadataJson).code == c.result.reasonCode)
    && c.attempts == OnRecord(c.entry) <= 2
    && (c.attempts == 2 <==> ReadNote(c.entry.metadataJson).retried)
    && (c.attempts == 0 <==> !c.result.allowed && c.result.reasonCode != Some(EXECUTOR_FAILURE))
    && |c.orders| <= c.attempts
  }

  lemma SettledIsAccounted(p: Proposal, m: Mandate, s: Settlement)
    requires |s.orders| <= s.Attempts()
    ensures Accounted(Settled(p, m, s)) && Settled(p, m, s).attempts == s.Attempts()
  {
    OkOnRecord(p, m.agentId, s.retried);
    NoteOfRefusal(EXECUTOR_FAILURE, s.retried);
  }

  lemma RefusalIsAccounted(p: Proposal, code: string)
    requires code != EXECUTOR_FAILURE
    ensures Accounted(Refusal(p, code))
  {
    NoteOfRefusal(code, false);
  }

  /** Every run that returns is accounted for, pays only what the policy allowed, and tries a second time exactly when
      the first fault was transient. */
  lemma ConclusionIsAccounted(py: Python, catalog: Policy.Catalog, v: VaultState, now: Instant, p: Proposal,
                              protocol: Option<string>, envelope: Option<Json>, first: Attempt, second: Attempt)
    requires !EnvelopeGate(py, now, p, protocol, envelope).Raise?
    ensures var gate := EnvelopeGate(py, now, p, protocol, envelope);
            var c := Conclude(p, Decide(catalog, py.lower, v, now, gate, p), first, second);
            && Accounted(c)
            && (c.attempts > 0 <==> gate.Pass? && Policy.Evaluate(v, catalog, py.lower, p, now).allowed)
            && (c.attempts == 2 <==> c.attempts > 0 && Outcome(first).Failed? && IsTransient(Outcome(first).fault))
  {
    var d := Decide(catalog, py.lower, v, now, EnvelopeGate(py, now, p, protocol, envelope), p);
    GateNeverBlamesExecutor(py, now, p, protocol, envelope);
    match d
    case Stopped(code) => RefusalIsAccounted(p, code);
    case Cleared(m) => SettledIsAccounted(p, m, Settle(OrderFor(m, p), first, second));
  }

  /** The payment of a reply. */
  function PaymentOf(r: Reply): Option<Payment> {
    match r
    case Created(payment) => Some(payment)
    case Failed(_) => None
  }

  /** Row and result name the proposal's mandate; the row names the agent of the stored mandate exactly if a payment was
      tried; every order sent is for the quoted total in that mandate's currency, with its id as the receipt. */
  lemma ConclusionNamesMandate(py: Python, catalog: Policy.Catalog, v: VaultState, now: Instant, p: Proposal,
                               protocol: Option<string>, envelope: Option<Json>, first: Attempt, second: Attempt)
    requires !EnvelopeGate(py, now, p, protocol, envelope).Raise?
    ensures var gate := EnvelopeGate(py, now, p, protocol, envelope);
            var c := Conclude(p, Decide(catalog, py.lower, v, now, gate, p), first, second);
            && c.result.mandateId == p.mandateId && c.entry.mandateId == Some(p.mandateId)
            && c.entry.action == "checkout.execute"
            && c.entry.entryId.None? && c.entry.timestamp.None?
            && c.entry.requestHash.None? && c.entry.responseHash.None?
            && (c.attempts == 0 ==> c.entry.agentId.None? && c.orders == [] && c.result.payment.None?)
            && (c.attempts > 0 ==>
                  && p.mandateId in v.mandates
                  && var m := v.mandates[p.mandateId].payload;
                     && c.entry.agentId == Some(m.agentId)
                     && (!c.result.allowed ==> c.result.reasonCode == Some("executor_failure"))
                     && c.result.payment == PaymentOf(Outcome(if c.attempts == 2 then second else first))
                     && |c.orders| == (if first.Sent? then 1 else 0)
                                    + (if c.attempts == 2 && second.Sent? then 1 else 0)
                     && forall o | o in c.orders ::
                         o == OrderPayload(p.quotedTotalPaise, m.currency, Some(m.mandateId)))
  {
    hide EnvelopeGate, RefusalMetadata, Policy.Violation;
    GateNeverBlamesExecutor(py, now, p, protocol, envelope);
  }

  // ---------- the program ----------

  /** Runs the money action, and a second time after a transient fault. */
  method ExecuteOnceWithRetry(executor: PaymentExecutor, m: Mandate, p: Proposal) returns (r: Reply, retried: bool)
    modifies executor`calls, executor`attempts, executor.client`orders, executor.client`captures
    ensures var s := Settle(OrderFor(m, p), old(executor.Next()), old(executor.AfterNext()));
            && r == s.reply && retried == s.retried
            && executor.attempts == old(executor.attempts) + s.Attempts()
            && executor.client.orders == old(executor.client.orders) + s.orders
    ensures var first := old(executor.Next());
            retried <==>
              || first == Blocked || first == Sent(Failed(Timeout)) || first == Sent(Failed(Connection))
              || exists status | 500 <= status < 600 :: first == Sent(Failed(Http(status)))
  {
    TransientExactly(executor.Next());
    r := executor.Execute(m, p, None);
    retried := false;
    if r.Failed? && IsTransient(r.fault) {
      r := executor.Execute(m, p, None);
      retried := true;
    }
  }

  method DecideRun(vault: Vault, policy: Policy.PolicyEngine, gate: Gate, p: Proposal, now: Instant)
    returns (d: Decision)
    requires vault.Valid() && policy.vault == vault && !gate.Raise?
    ensures d == Decide(policy.catalog, policy.lower, vault.State(), now, gate, p)
  {
    if gate.Stop? {
      return Stopped(gate.code);
    }
    var verdict := policy.EvaluateProposal(p, now);
    if !verdict.allowed {
      var code := verdict.reasonCode;
      return Stopped(if code.Some? && code.value != "" then code.value else MANDATE_INVALID);
    }
    var mandate := vault.GetMandate(gate.parsedId);
    if mandate.None? {
      return Stopped(MANDATE_INVALID);
    }
    return Cleared(mandate.value);
  }

  /** One row for the conclusion and its result returned, unless the row's id was taken. */
  predicate Recorded(sha256: string -> Digest, before: seq<AuditRow>, rows: seq<AuditRow>, c: Conclusion,
                     r: Option<CheckoutResult>, stamp: string, uuid: string)
  {
    if Present(before, uuid) then r.None? && rows == before
    else
      && r == Some(c.result)
      && rows == before + [NewRow(EntryHash(sha256), c.entry, uuid, stamp, Head(OrderBy(before)))]
  }

  /** Writes the row of a conclusion, then returns its result. */
  method Record(audit: AuditLogger, c: Conclusion, stamp: string, uuid: string) returns (r: Option<CheckoutResult>)
    requires audit.Valid() && c.entry.entryId.None? && c.entry.timestamp.None?
    modifies audit`rows
    ensures audit.Valid()
    ensures Recorded(audit.sha256, old(audit.rows), audit.rows, c, r, stamp, uuid)
  {
    var id := audit.LogEntry(c.entry, uuid, stamp);
    r := if id.None? then None else Some(c.result);
  }

  /** The row tells the result: the mandate, whether it was allowed, and why not. */
  predicate Reports(record: AuditRecord, p: Proposal, result: CheckoutResult, stamp: string, uuid: string) {
    && record.entryId == uuid && record.timestamp == stamp && record.action == "checkout.execute"
    && record.mandateId == Some(p.mandateId) && result.mandateId == p.mandateId
    && record.outcome == (if result.allowed then "ok" else "refusal")
    && (!result.allowed ==> ReadNote(record.metadataJson).code == result.reasonCode && result.reasonCode.Some?)
  }

  lemma ConclusionIsReported(py: Python, catalog: Policy.Catalog, v: VaultState, now: Instant, p: Proposal,
                             protocol: Option<string>, envelope: Option<Json>, first: Attempt, second: Attempt,
                             sha256: string -> Digest, before: seq<AuditRow>, stamp: string, uuid: string)
    requires !EnvelopeGate(py, now, p, protocol, envelope).Raise?
    ensures var d := Decide(catalog, py.lower, v, now, EnvelopeGate(py, now, p, protocol, envelope), p);
            var c := Conclude(p, d, first, second);
            forall rows: seq<AuditRow>, r: Option<CheckoutResult>
              | Recorded(sha256, before, rows, c, r, stamp, uuid) && !Present(before, uuid) ::
              && r.Some? && |rows| == |before| + 1 && rows[..|before|] == before
              && Reports(rows[|before|].record, p, r.value, stamp, uuid)
  {
    hide EnvelopeGate, Decide, Conclude, OnRecord, ReadNote, EntryHash, OrderBy, Head, Policy.Evaluate;
    ConclusionIsAccounted(py, catalog, v, now, p, protocol, envelope, first, second);
    ConclusionNamesMandate(py, catalog, v, now, p, protocol, envelope, first, second);
  }

  /** None stands for an exception out of the call. */
  method RunExecute(py: Python, p: Proposal, protocol: Option<string>, envelope: Option<Json>,
                    vault: Vault, policy: Policy.PolicyEngine, executor: PaymentExecutor, audit: AuditLogger,
                    now: Instant, stamp: string, uuid: string)
    returns (r: Option<CheckoutResult>)
    requires vault.Valid() && audit.Valid() && policy.vault == vault && policy.lower == py.lower
    modifies executor`calls, executor`attempts, executor.client`orders, executor.client`captures, audit`rows
    ensures audit.Valid()
    ensures EnvelopeGate(py, now, p, protocol, envelope).Raise? ==>
              && r.None? && audit.rows == old(audit.rows)
              && executor.attempts == old(executor.attempts) && executor.client.orders == old(executor.client.orders)
    ensures !EnvelopeGate(py, now, p, protocol, envelope).Raise? ==>
              var d := Decide(policy.catalog, py.lower, vault.State(), now,
                  EnvelopeGate(py, now, p, protocol, envelope), p);
              var c := Conclude(p, d, old(executor.Next()), old(executor.AfterNext()));
              && executor.attempts == old(executor.attempts) + c.attempts
              && executor.client.orders == old(executor.client.orders) + c.orders
              && Recorded(audit.sha256, old(audit.rows), audit.rows, c, r, stamp, uuid)
    ensures !EnvelopeGate(py, now, p, protocol, envelope).Raise? && !Present(old(audit.rows), uuid) ==>
              && r.Some? && |audit.rows| == |old(audit.rows)| + 1 && audit.rows[..|old(audit.rows)|] == old(audit.rows)
              && Reports(audit.rows[|old(audit.rows)|].record, p, r.value, stamp, uuid)
  {
    hide EnvelopeGate, Decide, Conclude, Recorded;
    var gate := EnvelopeGate(py, now, p, protocol, envelope);
    if gate.Raise? {
      return None;
    }
    var d := DecideRun(vault, policy, gate, p, now);
    ConclusionIsReported(py, policy.catalog, vault.State(), now, p, protocol, envelope,
                         executor.Next(), executor.AfterNext(), audit.sha256, audit.rows, stamp, uuid);
    r := Finish(d, executor, audit, p, stamp, uuid);
  }

  /** Pays if the gates cleared the run, and records how it ended. */
  method Finish(d: Decision, executor: PaymentExecutor, audit: AuditLogger, p: Proposal, stamp: string, uuid: string)
    returns (r: Option<CheckoutResult>)
    requires audit.Valid()
    modifies executor`calls, executor`attempts, executor.client`orders, executor.client`captures, audit`rows
    ensures audit.Valid()
    ensures var c := Conclude(p, d, old(executor.Next()), old(executor.AfterNext()));
            && executor.attempts == old(executor.attempts) + c.attempts
            && executor.client.orders == old(executor.client.orders) + c.orders
            && Recorded(audit.sha256, old(audit.rows), audit.rows, c, r, stamp, uuid)
  {
    hide RefusalMetadata, Settle, NewRow, Present, OrderBy, Head;
    match d {
      case Stopped(code) =>
        r := Record(audit, Refusal(p, code), stamp, uuid);
      case Cleared(m) =>
        var reply, retried := ExecuteOnceWithRetry(executor, m, p);
        r := Record(audit, Settled(p, m, Settlement(reply, retried, [])), stamp, uuid);
    }
  }
}
