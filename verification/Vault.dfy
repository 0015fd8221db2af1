/** The mandate vault: a mandate table and a denylist. */
module Vaults {
  import opened Text
  import opened JsonTree
  import opened Models

  /** agent_id and expires_at are columns of their own beside the stored payload. */
  datatype MandateRow = MandateRow(agentId: string, payload: Mandate, expiresAt: Instant, revoked: bool)

  datatype VaultState = VaultState(mandates: map<string, MandateRow>, denylist: map<string, Instant>)

  const EMPTY := VaultState(map[], map[])

  // ---------- operations on the tables ----------

  predicate CanStore(v: VaultState, id: string) {
    id in v.mandates ==> !v.mandates[id].revoked
  }

  function StoreMandate(v: VaultState, m: Mandate): VaultState {
    if CanStore(v, m.mandateId)
    then v.(mandates := v.mandates[m.mandateId := MandateRow(m.agentId, m, m.expiresAt, false)])
    else v
  }

  function Revoke(v: VaultState, id: string): VaultState {
    if id in v.mandates then v.(mandates := v.mandates[id := v.mandates[id].(revoked := true)]) else v
  }

  function Deny(v: VaultState, agentId: string, now: Instant): VaultState {
    v.(denylist := v.denylist[agentId := now])
  }

  function GetMandate(v: VaultState, id: string): Option<Mandate> {
    if id in v.mandates then Some(v.mandates[id].payload) else None
  }

  /** A mandate may be spent under: it is stored, not revoked, its agent is not denied and it has not expired.
      Agent and expiry are those of the stored payload. */
  predicate Usable(v: VaultState, id: string, now: Instant) {
    && id in v.mandates && !v.mandates[id].revoked
    && v.mandates[id].payload.agentId !in v.denylist
    && now < v.mandates[id].payload.expiresAt
  }

  // ---------- the validation query ----------

  /** One row of `mandates LEFT OUTER JOIN denylist ON agent_id`. */
  datatype Joined = Joined(expiresAt: Instant, revoked: bool, denied: Option<string>)

  function JoinedRows(v: VaultState, id: string): set<Joined> {
    if id !in v.mandates then {}
    else
      var row := v.mandates[id];
      var matches := set a | a in v.denylist && a == row.agentId :: Joined(row.expiresAt, row.revoked, Some(a));
      if matches == {} then {Joined(row.expiresAt, row.revoked, None)} else matches
  }

  // ---------- every history of calls ----------

  datatype VaultOp = Store(mandate: Mandate) | RevokeId(id: string) | DenyAgent(agentId: string, now: Instant)

  function Apply(v: VaultState, op: VaultOp): VaultState {
    match op
    case Store(m) => StoreMandate(v, m)
    case RevokeId(id) => Revoke(v, id)
    case DenyAgent(agentId, now) => Deny(v, agentId, now)
  }

  function ApplyAll(v: VaultState, ops: seq<VaultOp>): VaultState {
    if ops == [] then v else Apply(ApplyAll(v, ops[..|ops| - 1]), ops[|ops| - 1])
  }

  /** Columns and payload agree, and a row holds the mandate of its own id. */
  predicate Consistent(v: VaultState) {
    forall id | id in v.mandates ::
      var row := v.mandates[id];
      row.agentId == row.payload.agentId && row.expiresAt == row.payload.expiresAt && row.payload.mandateId == id
  }

  lemma EmptyIsConsistent()
    ensures Consistent(EMPTY)
  {
  }

  lemma {:induction false} HistoriesKeepConsistent(v: VaultState, ops: seq<VaultOp>)
    requires Consistent(v)
    ensures Consistent(ApplyAll(v, ops))
  {
    if ops == [] {
    } else {
      HistoriesKeepConsistent(v, ops[..|ops| - 1]);
    }
  }

  predicate Revoked(v: VaultState, id: string) {
    id in v.mandates && v.mandates[id].revoked
  }

  /** Revocation is final: nothing that follows makes the id usable, storable or different. */
  lemma {:induction false} RevocationIsFinal(v: VaultState, ops: seq<VaultOp>, id: string)
    requires Revoked(v, id)
    ensures var w := ApplyAll(v, ops);
            && Revoked(w, id) && w.mandates[id] == v.mandates[id]
            && !CanStore(w, id) && forall now :: !Usable(w, id, now)
  {
    if ops == [] {
    } else {
      RevocationIsFinal(v, ops[..|ops| - 1], id);
    }
  }

  lemma {:induction false} DenylistGrows(v: VaultState, ops: seq<VaultOp>)
    ensures v.denylist.Keys <= ApplyAll(v, ops).denylist.Keys
    ensures v.mandates.Keys <= ApplyAll(v, ops).mandates.Keys
  {
    if ops == [] {
    } else {
      DenylistGrows(v, ops[..|ops| - 1]);
    }
  }

  // ---------- spend authority read off the calls themselves ----------

  /** The mandate of the latest store call for the id, accepted or not. */
  function LatestStore(ops: seq<VaultOp>, id: string): Option<Mandate> {
    if ops == [] then None
    else
      var last := ops[|ops| - 1];
      if last.Store? && last.mandate.mandateId == id then Some(last.mandate) else LatestStore(ops[..|ops| - 1], id)
  }

  /** Some call revokes the id after some call has stored it. Revoking an unknown id does nothing. */
  predicate RevokedIn(ops: seq<VaultOp>, id: string) {
    ops != [] &&
    (RevokedIn(ops[..|ops| - 1], id) || (ops[|ops| - 1] == RevokeId(id) && LatestStore(ops[..|ops| - 1], id).Some?))
  }

  predicate DeniedIn(ops: seq<VaultOp>, agentId: string) {
    exists op | op in ops :: op.DenyAgent? && op.agentId == agentId
  }

  lemma {:induction false} HistoryOfMandate(ops: seq<VaultOp>, id: string)
    ensures var v := ApplyAll(EMPTY, ops);
            && (id in v.mandates <==> LatestStore(ops, id).Some?)
            && (Revoked(v, id) <==> RevokedIn(ops, id))
            && (!RevokedIn(ops, id) ==> GetMandate(v, id) == LatestStore(ops, id))
  {
    if ops == [] {
    } else {
      HistoryOfMandate(ops[..|ops| - 1], id);
    }
  }

  lemma {:induction false} HistoryOfDenylist(ops: seq<VaultOp>, agentId: string)
    ensures agentId in ApplyAll(EMPTY, ops).denylist <==> DeniedIn(ops, agentId)
  {
    if ops == [] {
    } else {
      HistoryOfDenylist(ops[..|ops| - 1], agentId);
      assert ops == ops[..|ops| - 1] + [ops[|ops| - 1]];
    }
  }

  /** Exactly when a sequence of calls leaves a mandate usable: it was stored, never revoked after that, the agent it
      was last stored under was never denied, and that last version has not expired. */
  lemma UsableExactly(ops: seq<VaultOp>, id: string, now: Instant)
    ensures Usable(ApplyAll(EMPTY, ops), id, now) <==>
            && LatestStore(ops, id).Some? && !RevokedIn(ops, id)
            && !DeniedIn(ops, LatestStore(ops, id).value.agentId)
            && now < LatestStore(ops, id).value.expiresAt
  {
    HistoryOfMandate(ops, id);
    if LatestStore(ops, id).Some? { HistoryOfDenylist(ops, LatestStore(ops, id).value.agentId); }
  }

  /** The join returns one row for a stored id, so the first row decides what the payload decides. */
  lemma JoinDecides(v: VaultState, id: string, now: Instant)
    requires Consistent(v)
    ensures JoinedRows(v, id) == {} <==> id !in v.mandates
    ensures forall r | r in JoinedRows(v, id) ::
              !r.revoked && r.denied.None? && now < r.expiresAt <==> Usable(v, id, now)
  {
    if id in v.mandates && v.mandates[id].agentId in v.denylist {
      var row := v.mandates[id];
      assert Joined(row.expiresAt, row.revoked, Some(row.agentId)) in JoinedRows(v, id);
    }
  }

  // ---------- the vault ----------

  class Vault {
    var mandates: map<string, MandateRow>
    var denylist: map<string, Instant>

    function State(): VaultState
      reads this
    {
      VaultState(mandates, denylist)
    }

    ghost predicate Valid()
      reads this
    {
      Consistent(State())
    }

    /** Opens the vault with the tables it has. */
    constructor (stored: VaultState)
      requires Consistent(stored)
      ensures Valid() && State() == stored
    {
      mandates := stored.mandates;
      denylist := stored.denylist;
    }

    /** False: the id is revoked (`mandate_revoked`), nothing changes. */
    method StoreMandate(m: Mandate) returns (ok: bool)
      requires Valid()
      modifies this
      ensures Valid()
      ensures ok <==> !Revoked(old(State()), m.mandateId)
      ensures State() == Apply(old(State()), Store(m))
      ensures denylist == old(denylist)
      ensures mandates == if ok then old(mandates)[m.mandateId := MandateRow(m.agentId, m, m.expiresAt, false)]
                          else old(mandates)
    {
      if m.mandateId in mandates && mandates[m.mandateId].revoked {
        return false;
      }
      if m.mandateId in mandates {
        var row := mandates[m.mandateId];
        mandates := mandates[m.mandateId :=
          row.(agentId := m.agentId, payload := m, expiresAt := m.expiresAt, revoked := false)];
      } else {
        mandates := mandates[m.mandateId := MandateRow(m.agentId, m, m.expiresAt, false)];
      }
      return true;
    }

    method GetMandate(id: string) returns (m: Option<Mandate>)
      requires Valid()
      ensures m.Some? <==> id in mandates
      ensures m.Some? ==> m.value == mandates[id].payload && m.value.mandateId == id
    {
      m := if id in mandates then Some(mandates[id].payload) else None;
    }

    method ValidateMandate(id: string, now: Instant) returns (ok: bool)
      requires Valid()
      ensures ok <==> Usable(State(), id, now)
    {
      var rows := JoinedRows(State(), id);
      JoinDecides(State(), id, now);
      if rows == {} {
        return false;
      }
      var row :| row in rows;
      if row.revoked { return false; }
      if row.denied.Some? { return false; }
      return !(now >= row.expiresAt);
    }

    method RevokeMandate(id: string)
      requires Valid()
      modifies this`mandates
      ensures Valid()
      ensures State() == Apply(old(State()), RevokeId(id))
      ensures mandates.Keys == old(mandates).Keys
      ensures forall k | k in mandates ::
                mandates[k] == if k == id then old(mandates)[k].(revoked := true) else old(mandates)[k]
      ensures id in old(mandates) ==> Revoked(State(), id)
    {
      if id in mandates {
        mandates := mandates[id := mandates[id].(revoked := true)];
      }
    }

    method IsDenied(agentId: string) returns (denied: bool)
      ensures denied <==> agentId in denylist
    {
      denied := agentId in denylist;
    }

    method AddToDenylist(agentId: string, now: Instant)
      requires Valid()
      modifies this`denylist
      ensures Valid()
      ensures State() == Apply(old(State()), DenyAgent(agentId, now))
      ensures denylist == old(denylist)[agentId := now]
      ensures forall id, t :: id in mandates && mandates[id].payload.agentId == agentId ==> !Usable(State(), id, t)
    {
      denylist := denylist[agentId := now];
    }
  }
}
