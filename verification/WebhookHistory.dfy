/** Many webhook deliveries at once. Between any two database accesses of a delivery, other deliveries move, processes
    crash and restart, and clients change the vault. Every statement is about all histories of events. */
module WebhookHistory {
  import opened Text
  import opened JsonTree
  import opened Models
  import opened Vaults
  import opened Audit
  import opened Idempotency
  import opened WebhookApply
  import Policy

  /** Where a delivery stands between two database accesses. */
  datatype Stage =
    | Marking                   // about to insert the key
    | Looking                   // an insert was locked, about to look for the key
    | Reading                   // has claimed the key
    | Storing(mandate: Mandate) // has read the mandate
    | Logging(mandate: Mandate) // has stored the update
    | Ended(response: Response)
    | Crashed

  /** A delivery with a valid signature and a JSON object. locked counts its locked inserts; claimed says that mark
      returned True. */
  datatype Delivery = Delivery(payload: Payload, locked: nat, claimed: bool, stage: Stage)

  /** A restart is a crash of every delivery. */
  datatype Event =
    | Client(op: VaultOp)
    | Deliver(payload: Payload)
    | Go(delivery: nat, answer: Answer)
    | Crash(delivery: nat)

  datatype Row = Row(delivery: nat, entry: LogRequest)

  /** writes lists the deliveries that stored an update. */
  datatype System = System(keys: set<string>, vault: VaultState, deliveries: seq<Delivery>, writes: seq<nat>,
      log: seq<Row>)

  function Key(py: Python, d: Delivery): string {
    EventKey(py, d.payload)
  }

  // ---------- one delivery ----------

  function End(d: Delivery, r: Response): Delivery {
    d.(stage := Ended(r))
  }

  /** A claimed event up to the point where it holds the mandate. */
  function ReadMandate(py: Python, v: VaultState, d: Delivery, answer: Answer): Delivery {
    match TargetOf(py, d.payload)
    case Unhashable => End(d, ServerError)
    case Nothing(reason) => End(d, NotApplied(reason))
    case Lookup(id) =>
      if answer != Accepted then End(d, ServerError)
      else match GetMandate(v, id)
        case None => End(d, NotApplied("mandate_not_found"))
        case Some(m) => d.(stage := Storing(m))
  }

  function Advance(py: Python, keys: set<string>, v: VaultState, d: Delivery, answer: Answer): Delivery {
    match d.stage
    case Marking =>
      if answer == Accepted then
        if Key(py, d) in keys then End(d, AlreadyProcessed) else d.(claimed := true, stage := Reading)
      else if answer == Locked then d.(locked := d.locked + 1, stage := Looking)
      else End(d, ServerError)
    case Looking =>
      if answer != Accepted then End(d, ServerError)
      else if Key(py, d) in keys then End(d, AlreadyProcessed)
      else if d.locked >= 5 then End(d, ServerError)
      else d.(stage := Marking)
    case Reading => ReadMandate(py, v, d, answer)
    case Storing(m) =>
      if answer == Accepted && CanStore(v, m.mandateId) then d.(stage := Logging(m)) else End(d, ServerError)
    case Logging(m) => if answer == Accepted then End(d, Applied) else End(d, ServerError)
    case Ended(_) => d
    case Crashed => d
  }

  predicate Claims(py: Python, keys: set<string>, d: Delivery, answer: Answer) {
    d.stage.Marking? && answer == Accepted && Key(py, d) !in keys
  }

  predicate Stores(v: VaultState, d: Delivery, answer: Answer) {
    d.stage.Storing? && answer == Accepted && CanStore(v, d.stage.mandate.mandateId)
  }

  predicate Logs(d: Delivery, answer: Answer) {
    d.stage.Logging? && answer == Accepted
  }

  // ---------- the system ----------

  function Step(py: Python, s: System, e: Event): System {
    match e
    case Client(op) => s.(vault := Apply(s.vault, op))
    case Deliver(payload) => s.(deliveries := s.deliveries + [Delivery(payload, 0, false, Marking)])
    case Crash(w) =>
      if w >= |s.deliveries| || s.deliveries[w].stage.Ended? then s
      else s.(deliveries := s.deliveries[w := s.deliveries[w].(stage := Crashed)])
    case Go(w, answer) =>
      if w >= |s.deliveries| then s
      else
        var d := s.deliveries[w];
        System(if Claims(py, s.keys, d, answer) then s.keys + {Key(py, d)} else s.keys,
               if Stores(s.vault, d, answer) then StoreMandate(s.vault, Updated(py, d.payload, d.stage.mandate))
                   else s.vault,
               s.deliveries[w := Advance(py, s.keys, s.vault, d, answer)],
               if Stores(s.vault, d, answer) then s.writes + [w] else s.writes,
               if Logs(d, answer) then s.log + [Row(w, ApplyEntry(py, d.payload, Key(py, d), d.stage.mandate))]
                   else s.log)
  }

  function At(py: Python, es: seq<Event>, n: nat): System
    requires n <= |es|
  {
    if n == 0 then System({}, EMPTY, [], [], []) else Step(py, At(py, es, n - 1), es[n - 1])
  }

  lemma AtNext(py: Python, es: seq<Event>, n: nat)
    requires n < |es|
    ensures At(py, es, n + 1) == Step(py, At(py, es, n), es[n])
  {
    hide Step;
  }

  lemma AtFirst(py: Python, es: seq<Event>)
    ensures At(py, es, 0) == System({}, EMPTY, [], [], [])
  {
    hide Step;
  }

  // ---------- at most once ----------

  predicate Logged(s: System, w: nat) {
    exists r | r in s.log :: r.delivery == w
  }

  /** What a delivery's stage says about what it has done. */
  predicate Honest(py: Python, s: System, w: nat)
    requires w < |s.deliveries|
  {
    var d := s.deliveries[w];
    && (d.claimed ==> Key(py, d) in s.keys)
    && (d.stage.Marking? || d.stage.Looking? ==> !d.claimed)
    && (d.stage.Reading? || d.stage.Storing? || d.stage.Logging? ==> d.claimed)
    && (d.stage.Reading? || d.stage.Storing? ==> w !in s.writes)
    && (d.stage.Logging? || d.stage == Ended(Applied) ==> w in s.writes)
    && (w in s.writes ==> d.claimed)
    && (d.stage == Ended(Applied) <==> Logged(s, w))
    && (d.stage == Ended(AlreadyProcessed) ==> !d.claimed && Key(py, d) in s.keys)
  }

  predicate AllHonest(py: Python, s: System) {
    && (forall w | w in s.writes :: w < |s.deliveries|)
    && (forall r | r in s.log :: r.delivery < |s.deliveries|)
    && forall w | 0 <= w < |s.deliveries| :: Honest(py, s, w)
  }

  predicate Claimant(py: Python, s: System, w: nat, k: string) {
    w < |s.deliveries| && s.deliveries[w].claimed && Key(py, s.deliveries[w]) == k
  }

  /** Every key is claimed by exactly one delivery. */
  ghost predicate OneClaim(py: Python, s: System) {
    && (forall k | k in s.keys :: exists w :: Claimant(py, s, w, k))
    && forall k, a, b | Claimant(py, s, a, k) && Claimant(py, s, b, k) :: a == b
  }

  predicate RowNames(py: Python, s: System, r: Row) {
    r.delivery < |s.deliveries| && EventIdOf(r.entry) == Some(Key(py, s.deliveries[r.delivery]))
  }

  predicate OneRow(py: Python, s: System) {
    && (forall i, j | 0 <= i < j < |s.writes| :: s.writes[i] != s.writes[j])
    && (forall i, j | 0 <= i < j < |s.log| :: s.log[i].delivery != s.log[j].delivery)
    && (forall r | r in s.log :: RowNames(py, s, r))
  }

  /** A step of one delivery leaves the others' standing alone. */
  lemma OthersStayHonest(py: Python, s: System, w: nat, answer: Answer, o: nat)
    requires w < |s.deliveries| && o < |s.deliveries| && o != w && Honest(py, s, o)
    ensures Honest(py, Step(py, s, Go(w, answer)), o)
  {
    hide Advance, EventKey, ApplyEntry, Updated, StoreMandate, CanStore;
    var s' := Step(py, s, Go(w, answer));
    assert forall r | r in s.log :: r in s'.log;
    assert forall r | r in s'.log :: r in s.log || r.delivery == w;
  }

  lemma ReadMandateEnds(py: Python, v: VaultState, d: Delivery, answer: Answer)
    ensures var next := ReadMandate(py, v, d, answer);
            && next.payload == d.payload && next.claimed == d.claimed
            && (next.stage.Storing?
                || (next.stage.Ended? && next.stage.response != Applied && next.stage.response != AlreadyProcessed))
  {
    hide TargetOf;
  }

  lemma MoverStaysHonest(py: Python, s: System, w: nat, answer: Answer)
    requires w < |s.deliveries| && Honest(py, s, w)
    ensures Honest(py, Step(py, s, Go(w, answer)), w)
  {
    hide ReadMandate, EventKey, ApplyEntry, Updated, StoreMandate, CanStore;
    var s', d := Step(py, s, Go(w, answer)), s.deliveries[w];
    ReadMandateEnds(py, s.vault, d, answer);
    assert forall r | r in s.log :: r in s'.log;
    if Logs(d, answer) {
      assert s'.log[|s.log|].delivery == w;
      assert Logged(s', w);
    } else {
      assert s'.log == s.log;
    }
  }

  lemma StaysHonest(py: Python, s: System, e: Event)
    requires AllHonest(py, s)
    ensures AllHonest(py, Step(py, s, e))
  {
    hide Advance, EventKey, ApplyEntry, Updated, StoreMandate, CanStore, Apply;
    match e
    case Go(w, answer) =>
      if w < |s.deliveries| {
        hide Honest;
        MoverStaysHonest(py, s, w, answer);
        var s' := Step(py, s, e);
        forall o | 0 <= o < |s'.deliveries| ensures Honest(py, s', o) {
          if o != w { OthersStayHonest(py, s, w, answer, o); }
        }
        assert forall o | o in s'.writes :: o < |s'.deliveries|;
        assert forall r | r in s'.log :: r.delivery < |s'.deliveries|;
        assert AllHonest(py, s');
      }
    case _ =>
      var s' := Step(py, s, e);
      forall o | 0 <= o < |s'.deliveries| ensures Honest(py, s', o) {
        assert Logged(s', o) == Logged(s, o);
        if o < |s.deliveries| { assert Honest(py, s, o); }
      }
  }

  /** Who claims a key after a step: whoever did before, and the delivery whose insert was accepted. */
  lemma ClaimantsAfter(py: Python, s: System, e: Event, o: nat, k: string)
    requires AllHonest(py, s)
    ensures Claimant(py, Step(py, s, e), o, k) <==>
            Claimant(py, s, o, k)
            || (e.Go? && e.delivery == o < |s.deliveries| && Claims(py, s.keys, s.deliveries[o], e.answer)
                && Key(py, s.deliveries[o]) == k)
  {
    hide EventKey, ApplyEntry, Updated, StoreMandate, CanStore, Apply, ReadMandate;
    if e.Go? && e.delivery < |s.deliveries| { ReadMandateEnds(py, s.vault, s.deliveries[e.delivery], e.answer); }
    assert o < |s.deliveries| ==> Honest(py, s, o);
  }

  lemma KeysAfter(py: Python, s: System, e: Event, k: string)
    ensures k in Step(py, s, e).keys <==>
            k in s.keys || (e.Go? && e.delivery < |s.deliveries|
                && Claims(py, s.keys, s.deliveries[e.delivery], e.answer)
                            && Key(py, s.deliveries[e.delivery]) == k)
  {
    hide Advance, EventKey, ApplyEntry, Updated, StoreMandate, CanStore, Apply;
  }

  lemma StaysOneClaim(py: Python, s: System, e: Event)
    requires AllHonest(py, s) && OneClaim(py, s)
    ensures OneClaim(py, Step(py, s, e))
  {
    hide Step, EventKey, Claimant;
    var s' := Step(py, s, e);
    forall k | k in s'.keys ensures exists w :: Claimant(py, s', w, k) {
      KeysAfter(py, s, e, k);
      if k in s.keys {
        var w :| Claimant(py, s, w, k);
        ClaimantsAfter(py, s, e, w, k);
      } else {
        ClaimantsAfter(py, s, e, e.delivery, k);
      }
    }
    forall k, a, b | Claimant(py, s', a, k) && Claimant(py, s', b, k) ensures a == b {
      ClaimantsAfter(py, s, e, a, k);
      ClaimantsAfter(py, s, e, b, k);
      ClaimedIsPresent(py, s, a, k);
      ClaimedIsPresent(py, s, b, k);
    }
  }

  lemma ClaimedIsPresent(py: Python, s: System, w: nat, k: string)
    requires AllHonest(py, s)
    ensures Claimant(py, s, w, k) ==> k in s.keys
  {
    hide EventKey;
    assert w < |s.deliveries| ==> Honest(py, s, w);
  }

  lemma StaysOneRow(py: Python, s: System, e: Event)
    requires AllHonest(py, s) && OneRow(py, s)
    ensures OneRow(py, Step(py, s, e))
  {
    hide EventKey, ApplyEntry, Updated, StoreMandate, CanStore, Apply, ReadMandate, TargetOf, EventIdOf;
    var s' := Step(py, s, e);
    if e.Go? && e.delivery < |s.deliveries| {
      var d := s.deliveries[e.delivery];
      assert Honest(py, s, e.delivery);
      ReadMandateEnds(py, s.vault, d, e.answer);
      if Logs(d, e.answer) { EntryNamesEvent(py, d.payload, Key(py, d), d.stage.mandate); }
    }
  }

  ghost predicate Sound(py: Python, s: System) {
    AllHonest(py, s) && OneClaim(py, s) && OneRow(py, s)
  }

  lemma {:induction false} AlwaysSound(py: Python, es: seq<Event>, n: nat)
    requires n <= |es|
    ensures Sound(py, At(py, es, n))
  {
    if n == 0 {
    } else {
      hide Step, AllHonest, OneClaim, OneRow;
      AlwaysSound(py, es, n - 1);
      var s, e := At(py, es, n - 1), es[n - 1];
      StaysHonest(py, s, e);
      StaysOneClaim(py, s, e);
      StaysOneRow(py, s, e);
    }
  }

  /** At most once, over every history: each key in the table was claimed by exactly one delivery, each delivery stores
      at most one update and writes at most one row, only after a claim, and no two rows name one event. */
  lemma AtMostOnce(py: Python, es: seq<Event>)
    ensures var s := At(py, es, |es|);
            && (forall k | k in s.keys :: exists w :: Claimant(py, s, w, k))
            && (forall k, a, b | Claimant(py, s, a, k) && Claimant(py, s, b, k) :: a == b && k in s.keys)
            && (forall i, j | 0 <= i < j < |s.writes| :: KeyOf(py, s, s.writes[i]) != KeyOf(py, s, s.writes[j]))
            && (forall i, j | 0 <= i < j < |s.log| :: EventIdOf(s.log[i].entry) != EventIdOf(s.log[j].entry))
            && (forall r | r in s.log ::
                  EventIdOf(r.entry).Some? && EventIdOf(r.entry).value in s.keys && r.delivery in s.writes)
            && (forall w | 0 <= w < |s.deliveries| :: s.deliveries[w].stage == Ended(Applied) <==> Logged(s, w))
  {
    hide At, EventKey, EventIdOf;
    var s := At(py, es, |es|);
    AlwaysSound(py, es, |es|);
    forall w | 0 <= w < |s.deliveries| ensures s.deliveries[w].stage == Ended(Applied) <==> Logged(s, w) {
      assert Honest(py, s, w);
    }
    forall w | w in s.writes ensures Claimant(py, s, w, KeyOf(py, s, w)) { assert Honest(py, s, w); }
    forall r | r in s.log
      ensures r.delivery in s.writes && Claimant(py, s, r.delivery, KeyOf(py, s, r.delivery))
      ensures EventIdOf(r.entry) == Some(KeyOf(py, s, r.delivery)) && KeyOf(py, s, r.delivery) in s.keys
    {
      assert RowNames(py, s, r) && Honest(py, s, r.delivery) && Logged(s, r.delivery);
    }
    forall k, a | Claimant(py, s, a, k) ensures k in s.keys { ClaimedIsPresent(py, s, a, k); }
  }

  function KeyOf(py: Python, s: System, w: nat): string {
    if w < |s.deliveries| then Key(py, s.deliveries[w]) else ""
  }

  /** What mark answers: True at the one step that inserts the row, False only while the row is present. */
  lemma MarkAnswers(py: Python, es: seq<Event>, n: nat, w: nat)
    requires n < |es| && w < |At(py, es, n).deliveries|
    ensures var s, s' := At(py, es, n), At(py, es, n + 1);
            var d, d' := s.deliveries[w], s'.deliveries[w];
            && s.keys <= s'.keys
            && (!d.claimed && d'.claimed <==> es[n].Go? && es[n].delivery == w && Key(py, d) in s'.keys - s.keys)
            && (d'.stage == Ended(AlreadyProcessed) ==> !d'.claimed && Key(py, d) in s'.keys)
            && (d.claimed ==> d'.claimed)
  {
    hide At, EventKey, ApplyEntry, Updated, StoreMandate, CanStore, Apply, ReadMandate;
    AtNext(py, es, n);
    AlwaysSound(py, es, n);
    AlwaysSound(py, es, n + 1);
    var s, s' := At(py, es, n), At(py, es, n + 1);
    assert Honest(py, s, w) && Honest(py, s', w);
    if es[n].Go? { ReadMandateEnds(py, s.vault, s.deliveries[w], es[n].answer); }
  }

  // ---------- one order, many events ----------

  /** The payload reports this type for this order. */
  ghost predicate Reports(payload: Payload, kind: string, order: string) {
    exists entity :: HasEntity(payload, entity) && Maps(entity, "order_id", Str(order))
        && Maps(payload, "event", Str(kind))
  }

  lemma ReportsKey(py: Python, payload: Payload, kind: string, order: string)
    requires Reports(payload, kind, order) && order != ""
    ensures EventKey(py, payload) == kind + (":" + order)
  {
    hide HasEntity, Maps, GetOr;
    var entity :| HasEntity(payload, entity) && Maps(entity, "order_id", Str(order))
        && Maps(payload, "event", Str(kind));
    var id, created := Get(entity, "id"), GetOr(payload, "created_at", Str(""));
    ReadsExactly(entity, "id", Null, id);
    ReadsExactly(payload, "created_at", Str(""), created);
    KeyByFields(py, payload, entity, Str(kind), Str(order), id, created);
  }

  lemma OtherIsNoClaimant(py: Python, s: System, first: nat, other: nat, k: string)
    requires OneClaim(py, s) && Claimant(py, s, first, k) && first != other
    ensures !Claimant(py, s, other, k)
  {
  }

  /** Of two events of one type for one order, whatever their payment ids, only the first claims: the other never
      does, and its insert or look, once answered, ends it as already processed. */
  lemma OneClaimForAnOrder(py: Python, es: seq<Event>, n: nat, first: nat, other: nat, kind: string, order: string)
    requires n <= |es| && first != other && first < |At(py, es, n).deliveries| && other < |At(py, es, n).deliveries|
    requires Reports(At(py, es, n).deliveries[first].payload, kind, order) && order != ""
    requires Reports(At(py, es, n).deliveries[other].payload, kind, order)
    requires At(py, es, n).deliveries[first].claimed
    ensures !At(py, es, n).deliveries[other].claimed && kind + (":" + order) in At(py, es, n).keys
    ensures n < |es| && es[n] == Go(other, Accepted)
            && (At(py, es, n).deliveries[other].stage.Marking? || At(py, es, n).deliveries[other].stage.Looking?) ==>
              At(py, es, n + 1).deliveries[other].stage == Ended(AlreadyProcessed)
  {
    hide At, EventKey, ApplyEntry, Updated, StoreMandate, CanStore, Apply, ReadMandate, Reports;
    var s := At(py, es, n);
    ReportsKey(py, s.deliveries[first].payload, kind, order);
    ReportsKey(py, s.deliveries[other].payload, kind, order);
    AlwaysSound(py, es, n);
    assert Honest(py, s, first);
    assert Claimant(py, s, first, kind + (":" + order));
    OtherIsNoClaimant(py, s, first, other, kind + (":" + order));
    if n < |es| { AtNext(py, es, n); }
  }

  // ---------- spend authority ----------

  /** The clients' own calls among the first n events. */
  function ClientOps(es: seq<Event>, n: nat): seq<VaultOp>
    requires n <= |es|
  {
    if n == 0 then []
    else if es[n - 1].Client? then ClientOps(es, n - 1) + [es[n - 1].op]
    else ClientOps(es, n - 1)
  }

  /** The vault as it would be without any webhook. */
  function ClientVault(es: seq<Event>, n: nat): VaultState
    requires n <= |es|
  {
    ApplyAll(EMPTY, ClientOps(es, n))
  }

  lemma ClientVaultNext(es: seq<Event>, n: nat)
    requires n < |es|
    ensures ClientVault(es, n + 1) == if es[n].Client? then Apply(ClientVault(es, n), es[n].op) else ClientVault(es, n)
  {
    hide Apply;
    if es[n].Client? {
      var ops := ClientOps(es, n);
      assert (ops + [es[n].op])[..|ops|] == ops;
    }
  }

  ghost predicate StoresAt(py: Python, es: seq<Event>, n: nat)
    requires n < |es|
  {
    var s := At(py, es, n);
    es[n].Go? && es[n].delivery < |s.deliveries| && Stores(s.vault, s.deliveries[es[n].delivery], es[n].answer)
  }

  /** The mandate that the delivery moved by event n has read. */
  function HeldAt(py: Python, es: seq<Event>, n: nat): Mandate
    requires n < |es| && StoresAt(py, es, n)
  {
    At(py, es, n).deliveries[es[n].delivery].stage.mandate
  }

  /** If event n stores an update, the row still has the authority that the delivery read. */
  ghost predicate Faithful(py: Python, es: seq<Event>, n: nat)
    requires n < |es|
  {
    StoresAt(py, es, n) ==>
      var m := HeldAt(py, es, n);
      m.mandateId in At(py, es, n).vault.mandates
          && Unpaid(At(py, es, n).vault.mandates[m.mandateId].payload) == Unpaid(m)
  }

  /** Held mandates are stored, and the vault is consistent. */
  predicate Grounded(s: System) {
    && Consistent(s.vault)
    && forall d | d in s.deliveries && d.stage.Storing? :: d.stage.mandate.mandateId in s.vault.mandates
  }

  lemma ReadsStored(py: Python, v: VaultState, d: Delivery, answer: Answer)
    requires Consistent(v)
    ensures var next := ReadMandate(py, v, d, answer);
            next.stage.Storing? ==> && next.stage.mandate.mandateId in v.mandates
                                    && v.mandates[next.stage.mandate.mandateId].payload == next.stage.mandate
  {
    hide TargetOf;
  }

  /** The vault after an event. */
  lemma VaultAfter(py: Python, s: System, e: Event)
    requires Consistent(s.vault)
    ensures var s' := Step(py, s, e);
            && Consistent(s'.vault) && s.vault.mandates.Keys <= s'.vault.mandates.Keys
            && (forall id | id in s.vault.mandates && (e.Client? ==> !e.op.Store? || e.op.mandate.mandateId != id)
                            && (e.Go? && e.delivery < |s.deliveries|
                                && Stores(s.vault, s.deliveries[e.delivery], e.answer) ==>
                                  s.deliveries[e.delivery].stage.mandate.mandateId != id) ::
                  s'.vault.mandates[id].payload == s.vault.mandates[id].payload)
  {
    hide Advance, EventKey, ApplyEntry, StatusOf, PaymentId, Show;
  }

  /** The mandates that deliveries hold after an event: those held before and one just read. */
  lemma HeldAfter(py: Python, s: System, e: Event, d': Delivery)
    requires Consistent(s.vault) && d' in Step(py, s, e).deliveries && d'.stage.Storing?
    ensures d' in s.deliveries
            || (Step(py, s, e).vault == s.vault && d'.stage.mandate.mandateId in s.vault.mandates
                && s.vault.mandates[d'.stage.mandate.mandateId].payload == d'.stage.mandate)
  {
    hide EventKey, ApplyEntry, Updated, StoreMandate, CanStore, Apply, ReadMandate, Consistent;
    if e.Go? && e.delivery < |s.deliveries| { ReadsStored(py, s.vault, s.deliveries[e.delivery], e.answer); }
  }

  lemma {:induction false} AlwaysGrounded(py: Python, es: seq<Event>, n: nat)
    requires n <= |es|
    ensures Grounded(At(py, es, n))
  {
    if n > 0 {
      hide Step, Consistent;
      AlwaysGrounded(py, es, n - 1);
      var s, e := At(py, es, n - 1), es[n - 1];
      VaultAfter(py, s, e);
      forall d | d in At(py, es, n).deliveries && d.stage.Storing?
        ensures d.stage.mandate.mandateId in At(py, es, n).vault.mandates
      {
        HeldAfter(py, s, e, d);
      }
    } else {
      EmptyIsConsistent();
    }
  }

  lemma ApplyKeepsSame(a: VaultState, b: VaultState, op: VaultOp)
    requires SameAuthority(a, b)
    ensures SameAuthority(Apply(a, op), Apply(b, op))
  {
    hide Unpaid;
    forall id | id in a.mandates ensures a.mandates[id].revoked == b.mandates[id].revoked {
      assert Authority(a.mandates[id]) == Authority(b.mandates[id]);
    }
  }

  lemma SameToBoth(a: VaultState, b: VaultState, c: VaultState)
    requires SameAuthority(a, b)
    ensures SameAuthority(c, b) <==> SameAuthority(a, c)
  {
    hide Authority;
  }

  lemma VaultNext(py: Python, es: seq<Event>, n: nat)
    requires n < |es|
    ensures At(py, es, n + 1).vault ==
            if es[n].Client? then Apply(At(py, es, n).vault, es[n].op)
            else if StoresAt(py, es, n)
            then StoreMandate(At(py, es, n).vault,
                              Updated(py, At(py, es, n).deliveries[es[n].delivery].payload, HeldAt(py, es, n)))
            else At(py, es, n).vault
  {
    hide At, Advance, EventKey, ApplyEntry, Updated, StoreMandate, Stores, Apply;
    AtNext(py, es, n);
  }

  /** One event keeps webhooks out of the spend authority exactly if it is faithful. */
  lemma AuthorityNext(py: Python, es: seq<Event>, n: nat)
    requires n < |es| && SameAuthority(At(py, es, n).vault, ClientVault(es, n))
    ensures SameAuthority(At(py, es, n + 1).vault, ClientVault(es, n + 1)) <==> Faithful(py, es, n)
  {
    hide At, ClientVault, SameAuthority, Updated, StoreMandate, Apply, Unpaid, Consistent;
    VaultNext(py, es, n);
    ClientVaultNext(es, n);
    AlwaysGrounded(py, es, n);
    var s := At(py, es, n);
    if es[n].Client? {
      ApplyKeepsSame(s.vault, ClientVault(es, n), es[n].op);
    } else if StoresAt(py, es, n) {
      var d := s.deliveries[es[n].delivery];
      assert d in s.deliveries;
      StoreKeepsAuthority(py, s.vault, d.payload, d.stage.mandate);
      SameToBoth(s.vault, ClientVault(es, n), At(py, es, n + 1).vault);
    }
  }

  /** Exactly when webhooks never move spend authority: after every event the vault has the authority that the clients'
      calls alone give it, if and only if no delivery stored over a row whose authority had changed since it read it. */
  lemma AuthorityExactly(py: Python, es: seq<Event>)
    ensures (forall n | 0 <= n <= |es| :: SameAuthority(At(py, es, n).vault, ClientVault(es, n)))
       <==> forall n | 0 <= n < |es| :: Faithful(py, es, n)
  {
    hide At, ClientVault, SameAuthority, Faithful;
    if forall n | 0 <= n <= |es| :: SameAuthority(At(py, es, n).vault, ClientVault(es, n)) {
      forall n | 0 <= n < |es| ensures Faithful(py, es, n) { AuthorityNext(py, es, n); }
    } else if forall n | 0 <= n < |es| :: Faithful(py, es, n) {
      forall n | 0 <= n <= |es| ensures SameAuthority(At(py, es, n).vault, ClientVault(es, n)) {
        FaithfulKeepsAuthority(py, es, n);
      }
    }
  }

  lemma {:induction false} FaithfulKeepsAuthority(py: Python, es: seq<Event>, n: nat)
    requires n <= |es| && forall k | 0 <= k < n :: Faithful(py, es, k)
    ensures SameAuthority(At(py, es, n).vault, ClientVault(es, n))
  {
    if n == 0 {
      AuthorityReflexive(EMPTY);
    } else {
      hide Faithful, At, ClientVault, SameAuthority;
      FaithfulKeepsAuthority(py, es, n - 1);
      AuthorityNext(py, es, n - 1);
    }
  }

  /** No client stores a mandate that a delivery has read and not yet stored. */
  predicate Polite(py: Python, es: seq<Event>) {
    forall n | 0 <= n < |es| && es[n].Client? && es[n].op.Store? :: Unheld(At(py, es, n), es[n].op.mandate.mandateId)
  }

  predicate Unheld(s: System, id: string) {
    forall d | d in s.deliveries && d.stage.Storing? :: d.stage.mandate.mandateId != id
  }

  /** Every held mandate has the authority of its row. */
  predicate Current(s: System) {
    forall d | d in s.deliveries && d.stage.Storing? :: IsCurrent(s.vault, d.stage.mandate)
  }

  predicate IsCurrent(v: VaultState, m: Mandate) {
    m.mandateId in v.mandates && Unpaid(v.mandates[m.mandateId].payload) == Unpaid(m)
  }

  /** An event that stores no other authority over m leaves m current. */
  lemma StaysCurrent(py: Python, s: System, e: Event, m: Mandate)
    requires Consistent(s.vault) && Current(s) && IsCurrent(s.vault, m)
    requires e.Client? && e.op.Store? ==> e.op.mandate.mandateId != m.mandateId
    ensures IsCurrent(Step(py, s, e).vault, m)
  {
    hide Advance, EventKey, ApplyEntry, StatusOf, PaymentId, Show, Apply, Consistent;
    VaultAfter(py, s, e);
    if e.Go? && e.delivery < |s.deliveries| && Stores(s.vault, s.deliveries[e.delivery], e.answer) {
      assert s.deliveries[e.delivery] in s.deliveries;
      assert Unpaid(Updated(py, s.deliveries[e.delivery].payload, s.deliveries[e.delivery].stage.mandate))
          == Unpaid(s.deliveries[e.delivery].stage.mandate);
    }
  }

  lemma StepStaysCurrent(py: Python, s: System, e: Event)
    requires Consistent(s.vault) && Current(s)
    requires e.Client? && e.op.Store? ==> Unheld(s, e.op.mandate.mandateId)
    ensures Current(Step(py, s, e))
  {
    hide Step, Consistent, IsCurrent;
    var s' := Step(py, s, e);
    forall d | d in s'.deliveries && d.stage.Storing? ensures IsCurrent(s'.vault, d.stage.mandate) {
      HeldAfter(py, s, e, d);
      if d in s.deliveries {
        StaysCurrent(py, s, e, d.stage.mandate);
      } else {
        JustRead(s.vault, d.stage.mandate);
      }
    }
  }

  lemma JustRead(v: VaultState, m: Mandate)
    requires m.mandateId in v.mandates && v.mandates[m.mandateId].payload == m
    ensures IsCurrent(v, m)
  {
  }

  lemma NothingIsCurrent()
    ensures Current(System({}, EMPTY, [], [], []))
  {
  }

  lemma {:induction false} PoliteStaysCurrent(py: Python, es: seq<Event>, n: nat)
    requires n <= |es| && Polite(py, es)
    ensures Current(At(py, es, n))
  {
    hide At, Step, Current, Unheld, Grounded, Consistent;
    if n == 0 {
      AtFirst(py, es);
      NothingIsCurrent();
    } else {
      PoliteStaysCurrent(py, es, n - 1);
      AlwaysGrounded(py, es, n - 1);
      GroundedIsConsistent(At(py, es, n - 1));
      AtNext(py, es, n - 1);
      StepStaysCurrent(py, At(py, es, n - 1), es[n - 1]);
    }
  }

  /** Webhooks never move spend authority: if no client stores a mandate between a delivery's read and its store, then
      every validation and every proposal is decided as by a vault that only the clients' calls have reached. */
  lemma WebhooksNeverMoveAuthority(py: Python, es: seq<Event>)
    requires Polite(py, es)
    ensures var v, w := At(py, es, |es|).vault, ApplyAll(EMPTY, ClientOps(es, |es|));
            && (forall id, now :: Usable(v, id, now) <==> Usable(w, id, now))
            && forall catalog, lower, p, now ::
                 Policy.Evaluate(v, catalog, lower, p, now) == Policy.Evaluate(w, catalog, lower, p, now)
  {
    hide At, Current, IsCurrent, SameAuthority, ClientOps, ApplyAll, Polite;
    forall n | 0 <= n < |es| ensures Faithful(py, es, n) {
      PoliteStaysCurrent(py, es, n);
      CurrentIsFaithful(py, es, n);
    }
    FaithfulKeepsAuthority(py, es, |es|);
    SameAuthorityDecides(At(py, es, |es|).vault, ClientVault(es, |es|));
  }

  lemma CurrentIsFaithful(py: Python, es: seq<Event>, n: nat)
    requires n < |es| && Current(At(py, es, n))
    ensures Faithful(py, es, n)
  {
    hide At, CanStore, Unpaid;
    var s := At(py, es, n);
    if StoresAt(py, es, n) { assert s.deliveries[es[n].delivery] in s.deliveries; }
  }

  /** What holds however clients interfere: webhooks store no mandate, revoke nothing, deny nobody, and undo neither. */
  predicate SameStanding(a: VaultState, b: VaultState) {
    && a.denylist == b.denylist && a.mandates.Keys == b.mandates.Keys
    && forall id | id in a.mandates :: a.mandates[id].revoked == b.mandates[id].revoked
  }

  lemma StandingNext(py: Python, s: System, e: Event, b: VaultState)
    requires Grounded(s) && SameStanding(s.vault, b)
    ensures SameStanding(Step(py, s, e).vault, if e.Client? then Apply(b, e.op) else b)
  {
    hide Advance, EventKey, ApplyEntry, StatusOf, PaymentId, Show, Consistent;
    if e.Go? && e.delivery < |s.deliveries| && Stores(s.vault, s.deliveries[e.delivery], e.answer) {
      assert s.deliveries[e.delivery] in s.deliveries;
    }
  }

  lemma {:induction false} StandingStands(py: Python, es: seq<Event>, n: nat)
    requires n <= |es|
    ensures SameStanding(At(py, es, n).vault, ClientVault(es, n))
  {
    if n == 0 {
    } else {
      hide Step, ClientVault, Grounded, Apply, SameStanding;
      StandingStands(py, es, n - 1);
      AlwaysGrounded(py, es, n - 1);
      StandingNext(py, At(py, es, n - 1), es[n - 1], ClientVault(es, n - 1));
      ClientVaultNext(es, n - 1);
    }
  }

  /** In every history, whatever clients interleave: webhooks revoke, revive and create nothing, so what is revoked
      stays unusable. */
  lemma RevocationSurvivesWebhooks(py: Python, es: seq<Event>, id: string)
    ensures var v := At(py, es, |es|).vault;
            && (id in v.mandates <==> LatestStore(ClientOps(es, |es|), id).Some?)
            && (Revoked(v, id) <==> RevokedIn(ClientOps(es, |es|), id))
            && (RevokedIn(ClientOps(es, |es|), id) ==> forall now :: !Usable(v, id, now))
  {
    hide At, ClientOps, ApplyAll, RevokedIn, LatestStore;
    StandingStands(py, es, |es|);
    HistoryOfMandate(ClientOps(es, |es|), id);
  }

  /** A captured payment for the order of this id, without a payment id. */
  function CapturedFor(id: string): Payload {
    [("event", Str(CAPTURED)), ("payload", Obj([("payment", Obj([("entity", Obj([("order_id", Str(id))]))]))]))]
  }

  /** The interleaving that breaks it: a client replaces a mandate between a delivery's read and its store. */
  function LostUpdate(id: string, before: Mandate, after: Mandate): seq<Event> {
    [Client(Store(before)), Deliver(CapturedFor(id)), Go(0, Accepted), Go(0, Accepted),
     Client(Store(after)), Go(0, Accepted)]
  }

  lemma GetOne(key: string, value: Json, other: string)
    ensures Get([(key, value)], other) == if other == key then value else Null
  {
    var fields: Payload := [(key, value)];
    assert GetOr(fields[1..], other, Null) == Null;
  }

  lemma GetTwo(key: string, value: Json, key': string, value': Json)
    requires key != key'
    ensures Get([(key, value), (key', value')], key) == value && Get([(key, value), (key', value')], key') == value'
  {
    var fields: Payload := [(key, value), (key', value')];
    assert GetOr(fields[1..], key', Null) == value';
  }

  lemma CapturedTarget(py: Python, id: string)
    requires id != ""
    ensures TargetOf(py, CapturedFor(id)) == Lookup(id)
  {
    var entity: Payload := [("order_id", Str(id))];
    var payment: Payload := [("entity", Obj(entity))];
    var wrapper: Payload := [("payment", Obj(payment))];
    GetTwo("event", Str(CAPTURED), "payload", Obj(wrapper));
    GetOne("payment", Obj(payment), "payment");
    GetOne("entity", Obj(entity), "entity");
    GetOne("order_id", Str(id), "order_id");
    GetOne("order_id", Str(id), "notes");
    hide Get, GetOr;
    assert PaymentEntity(CapturedFor(id)) == entity;
  }

  lemma DifferentAuthority(a: VaultState, b: VaultState, id: string)
    requires id in a.mandates && id in b.mandates
    requires Unpaid(a.mandates[id].payload) != Unpaid(b.mandates[id].payload)
    ensures !SameAuthority(a, b)
  {
    hide Unpaid;
    assert Authority(a.mandates[id]).payload != Authority(b.mandates[id]).payload;
  }

  lemma LostUpdateRuns(py: Python, before: Mandate, after: Mandate)
    requires before.mandateId == after.mandateId != ""
    ensures At(py, LostUpdate(before.mandateId, before, after), 6).vault
         == StoreMandate(StoreMandate(StoreMandate(EMPTY, before), after),
             Updated(py, CapturedFor(before.mandateId), before))
  {
    hide CapturedFor, EventKey, Updated, TargetOf, ApplyEntry;
    var id := before.mandateId;
    var es := LostUpdate(id, before, after);
    CapturedTarget(py, id);
    UpdateKeepsId(py, CapturedFor(id));
    assert At(py, es, 1) == System({}, StoreMandate(EMPTY, before), [], [], []);
    assert At(py, es, 2).deliveries == [Delivery(CapturedFor(id), 0, false, Marking)];
    assert At(py, es, 3).deliveries == [Delivery(CapturedFor(id), 0, true, Reading)];
    assert At(py, es, 4).deliveries == [Delivery(CapturedFor(id), 0, true, Storing(before))];
  }

  lemma LostUpdateClients(before: Mandate, after: Mandate)
    ensures ClientVault(LostUpdate(before.mandateId, before, after), 6)
        == StoreMandate(StoreMandate(EMPTY, before), after)
  {
    hide CapturedFor, ClientVault;
    var es := LostUpdate(before.mandateId, before, after);
    assert ClientVault(es, 0) == EMPTY by { EmptyClients(es); }
    ClientVaultNext(es, 0);
    ClientVaultNext(es, 1);
    ClientVaultNext(es, 2);
    ClientVaultNext(es, 3);
    ClientVaultNext(es, 4);
    ClientVaultNext(es, 5);
  }

  lemma EmptyClients(es: seq<Event>)
    ensures ClientVault(es, 0) == EMPTY
  {
  }

  /** Without politeness webhooks do move authority: the replaced mandate comes back. */
  lemma UpdateIsLost(py: Python, before: Mandate, after: Mandate)
    requires before.mandateId == after.mandateId != "" && Unpaid(before) != Unpaid(after)
    ensures var es := LostUpdate(before.mandateId, before, after);
            && GetMandate(ClientVault(es, 6), before.mandateId) == Some(after)
            && GetMandate(At(py, es, 6).vault, before.mandateId)
                == Some(Updated(py, CapturedFor(before.mandateId), before))
            && !SameAuthority(At(py, es, 6).vault, ClientVault(es, 6))
  {
    hide CapturedFor, SameAuthority, At, ClientVault, StatusOf, PaymentId, Show;
    var es := LostUpdate(before.mandateId, before, after);
    LostUpdateRuns(py, before, after);
    LostUpdateClients(before, after);
    DifferentAuthority(At(py, es, 6).vault, ClientVault(es, 6), before.mandateId);
  }

  // ---------- payment fields ----------

  /** The payment status and last payment id that the events so far wrote to a mandate: a fold over the history. */
  ghost function LatestPayment(py: Python, es: seq<Event>, n: nat, id: string): Option<(Option<string>, Option<string>)>
    requires n <= |es|
  {
    if n == 0 then None
    else if es[n - 1].Client? && es[n - 1].op.Store? && es[n - 1].op.mandate.mandateId == id
            && CanStore(At(py, es, n - 1).vault, id)
    then Some((es[n - 1].op.mandate.paymentStatus, es[n - 1].op.mandate.lastPaymentId))
    else if StoresAt(py, es, n - 1) && HeldAt(py, es, n - 1).mandateId == id
    then
      var payload := At(py, es, n - 1).deliveries[es[n - 1].delivery].payload;
      Some((Some(if EventType(payload) == Str(CAPTURED) then "captured" else "failed"),
            if Truthy(PaymentId(payload)) then Some(Show(py, PaymentId(payload))) else None))
    else LatestPayment(py, es, n - 1, id)
  }

  function PaymentFields(m: Option<Mandate>): Option<(Option<string>, Option<string>)> {
    if m.None? then None else Some((m.value.paymentStatus, m.value.lastPaymentId))
  }

  /** In every history a mandate shows the payment that was written to it last. */
  lemma {:induction false} PaymentsAreTheFold(py: Python, es: seq<Event>, n: nat, id: string)
    requires n <= |es|
    ensures PaymentFields(GetMandate(At(py, es, n).vault, id)) == LatestPayment(py, es, n, id)
  {
    if n == 0 {
    } else {
      hide At, PaymentId, Show, EventType, Truthy;
      PaymentsAreTheFold(py, es, n - 1, id);
      VaultNext(py, es, n - 1);
      if StoresAt(py, es, n - 1) { UpdateKeepsId(py, At(py, es, n - 1).deliveries[es[n - 1].delivery].payload); }
    }
  }

  // ---------- what rows tell ----------

  /** The mandate that a delivery holds is the one its event names. */
  predicate HoldsTarget(py: Python, d: Delivery) {
    && (d.stage.Storing? ==> TargetOf(py, d.payload) == Lookup(d.stage.mandate.mandateId))
    && (d.stage.Logging? ==> TargetOf(py, d.payload) == Lookup(d.stage.mandate.mandateId))
  }

  /** The row names the mandate that its delivery's event names, and the outcome that the event reports. */
  predicate RowTells(py: Python, s: System, r: Row) {
    && r.delivery < |s.deliveries|
    && var payload := s.deliveries[r.delivery].payload;
       && r.entry.action == "webhook.apply" && r.entry.mandateId.Some?
       && TargetOf(py, payload) == Lookup(r.entry.mandateId.value)
       && r.entry.outcome == if EventType(payload) == Str(CAPTURED) then "captured" else "failed"
  }

  predicate Told(py: Python, s: System) {
    && (forall d | d in s.deliveries :: HoldsTarget(py, d))
    && forall r | r in s.log :: RowTells(py, s, r)
  }

  lemma ReadHoldsTarget(py: Python, v: VaultState, d: Delivery, answer: Answer)
    requires Consistent(v)
    ensures HoldsTarget(py, ReadMandate(py, v, d, answer))
  {
    hide TargetOf;
  }

  lemma AdvanceHoldsTarget(py: Python, keys: set<string>, v: VaultState, d: Delivery, answer: Answer)
    requires Consistent(v) && HoldsTarget(py, d)
    ensures HoldsTarget(py, Advance(py, keys, v, d, answer)) && Advance(py, keys, v, d, answer).payload == d.payload
  {
    hide TargetOf, EventKey, ReadMandate, CanStore;
    ReadMandateEnds(py, v, d, answer);
    ReadHoldsTarget(py, v, d, answer);
  }

  lemma StepTells(py: Python, s: System, e: Event)
    requires Consistent(s.vault) && Told(py, s)
    ensures Told(py, Step(py, s, e))
  {
    hide TargetOf, EventKey, Advance, Metadata, Updated, StoreMandate, CanStore, Apply, Consistent, EventType;
    if e.Go? && e.delivery < |s.deliveries| {
      assert s.deliveries[e.delivery] in s.deliveries;
      AdvanceHoldsTarget(py, s.keys, s.vault, s.deliveries[e.delivery], e.answer);
    }
    if e.Crash? && e.delivery < |s.deliveries| { assert s.deliveries[e.delivery] in s.deliveries; }
  }

  lemma {:induction false} RowsTell(py: Python, es: seq<Event>, n: nat)
    requires n <= |es|
    ensures Told(py, At(py, es, n))
  {
    if n == 0 {
    } else {
      hide Step, Told, Grounded;
      RowsTell(py, es, n - 1);
      AlwaysGrounded(py, es, n - 1);
      assert Consistent(At(py, es, n - 1).vault) by { GroundedIsConsistent(At(py, es, n - 1)); }
      StepTells(py, At(py, es, n - 1), es[n - 1]);
    }
  }

  lemma GroundedIsConsistent(s: System)
    requires Grounded(s)
    ensures Consistent(s.vault)
  {
    hide Consistent;
  }

  // ---------- events that are never applied ----------

  /** Some row names the event key. */
  predicate Recorded(s: System, k: string) {
    exists r | r in s.log :: EventIdOf(r.entry) == Some(k)
  }

  /** However the history goes on, no row ever names the key. */
  ghost predicate NeverRecorded(py: Python, es: seq<Event>, k: string) {
    forall more: seq<Event> :: !Recorded(At(py, es + more, |es + more|), k)
  }

  /** A claimed delivery that can write no row any more: it crashed or ended otherwise, or it is about to be stopped
      by a type that no mandate goes with or by a revocation. */
  predicate Doomed(py: Python, v: VaultState, d: Delivery) {
    match d.stage
    case Reading => !TargetOf(py, d.payload).Lookup? || Revoked(v, TargetOf(py, d.payload).mandateId)
    case Storing(m) => Revoked(v, m.mandateId)
    case Logging(_) => false
    case Ended(r) => r != Applied
    case Crashed => true
    case _ => false
  }

  lemma RevokedStays(py: Python, s: System, e: Event, id: string)
    requires Grounded(s) && Revoked(s.vault, id)
    ensures Revoked(Step(py, s, e).vault, id)
  {
    hide Advance, EventKey, ApplyEntry, Consistent, StatusOf, PaymentId, Show;
  }

  lemma AdvanceDoomed(py: Python, keys: set<string>, v: VaultState, w: VaultState, d: Delivery, answer: Answer)
    requires Consistent(v) && d.claimed && Doomed(py, v, d) && !d.stage.Marking? && !d.stage.Looking?
    requires forall id :: Revoked(v, id) ==> Revoked(w, id)
    ensures var next := Advance(py, keys, v, d, answer);
            Doomed(py, w, next) && next.claimed && !next.stage.Marking? && !next.stage.Looking?
  {
    hide TargetOf, EventKey;
  }

  lemma StaysDoomed(py: Python, s: System, e: Event, w: nat)
    requires Grounded(s) && w < |s.deliveries|
    requires var d := s.deliveries[w]; d.claimed && Doomed(py, s.vault, d) && !d.stage.Marking? && !d.stage.Looking?
    ensures var s' := Step(py, s, e);
            && w < |s'.deliveries| && s'.deliveries[w].payload == s.deliveries[w].payload
            && var d := s'.deliveries[w]; d.claimed && Doomed(py, s'.vault, d) && !d.stage.Marking? && !d.stage.Looking?
  {
    hide Advance, EventKey, ApplyEntry, TargetOf, Revoked, Updated, StoreMandate, CanStore, Apply, Consistent;
    var s' := Step(py, s, e);
    forall id | Revoked(s.vault, id) ensures Revoked(s'.vault, id) { RevokedStays(py, s, e, id); }
    if e.Go? && e.delivery == w {
      AdvanceDoomed(py, s.keys, s.vault, s'.vault, s.deliveries[w], e.answer);
      AdvanceKeepsPayload(py, s.keys, s.vault, s.deliveries[w], e.answer);
    }
  }

  lemma AdvanceKeepsPayload(py: Python, keys: set<string>, v: VaultState, d: Delivery, answer: Answer)
    ensures Advance(py, keys, v, d, answer).payload == d.payload
  {
    hide TargetOf, EventKey, CanStore;
  }

  lemma {:induction false} AtPrefix(py: Python, es: seq<Event>, more: seq<Event>, n: nat)
    requires n <= |es|
    ensures At(py, es + more, n) == At(py, es, n)
  {
    hide At;
    if n == 0 {
      AtFirst(py, es);
      AtFirst(py, es + more);
    } else {
      AtPrefix(py, es, more, n - 1);
      AtNext(py, es, n - 1);
      AtNext(py, es + more, n - 1);
    }
  }

  /** One more event. */
  lemma AtOneMore(py: Python, es: seq<Event>, e: Event)
    ensures At(py, es + [e], |es| + 1) == Step(py, At(py, es, |es|), e)
  {
    hide At, Step;
    AtPrefix(py, es, [e], |es|);
    AtNext(py, es + [e], |es|);
  }

  lemma {:induction false} DoomedForEver(py: Python, es: seq<Event>, more: seq<Event>, w: nat)
    requires w < |At(py, es, |es|).deliveries|
    requires var s := At(py, es, |es|);
             var d := s.deliveries[w];
             d.claimed && Doomed(py, s.vault, d) && !d.stage.Marking? && !d.stage.Looking?
    ensures var s, s' := At(py, es, |es|), At(py, es + more, |es + more|);
            && w < |s'.deliveries| && s'.deliveries[w].payload == s.deliveries[w].payload
            && var d := s'.deliveries[w]; d.claimed && Doomed(py, s'.vault, d) && !d.stage.Marking? && !d.stage.Looking?
  {
    hide At, Step, Doomed, Grounded;
    if more == [] {
      assert es + more == es;
    } else {
      var init, e := more[..|more| - 1], more[|more| - 1];
      DoomedForEver(py, es, init, w);
      assert es + more == es + init + [e];
      AtOneMore(py, es + init, e);
      AlwaysGrounded(py, es + init, |es + init|);
      StaysDoomed(py, At(py, es + init, |es + init|), e, w);
    }
  }

  /** A row for a key exists exactly if the key's claimant answered `applied`. */
  lemma RecordedIfApplied(py: Python, es: seq<Event>, w: nat, k: string)
    requires Claimant(py, At(py, es, |es|), w, k)
    ensures Recorded(At(py, es, |es|), k) <==> At(py, es, |es|).deliveries[w].stage == Ended(Applied)
  {
    hide At, EventKey, EventIdOf;
    var s := At(py, es, |es|);
    AlwaysSound(py, es, |es|);
    assert Honest(py, s, w);
    if r :| r in s.log && EventIdOf(r.entry) == Some(k) {
      assert RowNames(py, s, r) && Honest(py, s, r.delivery) && Logged(s, r.delivery);
      assert Claimant(py, s, r.delivery, k);
    }
    if s.deliveries[w].stage == Ended(Applied) {
      var r :| r in s.log && r.delivery == w;
      assert RowNames(py, s, r);
    }
  }

  function AnyMandate(id: string): Mandate {
    Mandate(id, "", None, AP2, 0, "INR", [""], 0, [], None, None)
  }

  /** How a delivery that is not doomed still comes to its row. */
  function Rescue(py: Python, d: Delivery, w: nat): seq<Event> {
    match d.stage
    case Reading =>
      if TargetOf(py, d.payload).Lookup?
      then [Client(Store(AnyMandate(TargetOf(py, d.payload).mandateId))),
            Go(w, Accepted), Go(w, Accepted), Go(w, Accepted)]
      else []
    case Storing(_) => [Go(w, Accepted), Go(w, Accepted)]
    case Logging(_) => [Go(w, Accepted)]
    case _ => []
  }

  lemma RescueFromLogging(py: Python, es: seq<Event>, w: nat)
    requires w < |At(py, es, |es|).deliveries| && At(py, es, |es|).deliveries[w].stage.Logging?
    ensures var s' := At(py, es + [Go(w, Accepted)], |es| + 1);
            && w < |s'.deliveries| && s'.deliveries[w].stage == Ended(Applied)
            && s'.deliveries[w].payload == At(py, es, |es|).deliveries[w].payload
            && s'.deliveries[w].claimed == At(py, es, |es|).deliveries[w].claimed
  {
    hide At, EventKey, ApplyEntry, ReadMandate;
    AtOneMore(py, es, Go(w, Accepted));
  }

  lemma RescueFromStoring(py: Python, es: seq<Event>, w: nat)
    requires w < |At(py, es, |es|).deliveries| && At(py, es, |es|).deliveries[w].stage.Storing?
    requires !Revoked(At(py, es, |es|).vault, At(py, es, |es|).deliveries[w].stage.mandate.mandateId)
    ensures var s' := At(py, es + [Go(w, Accepted), Go(w, Accepted)], |es| + 2);
            && w < |s'.deliveries| && s'.deliveries[w].stage == Ended(Applied)
            && s'.deliveries[w].payload == At(py, es, |es|).deliveries[w].payload
            && s'.deliveries[w].claimed == At(py, es, |es|).deliveries[w].claimed
  {
    hide At, EventKey, ApplyEntry, ReadMandate, Updated, StoreMandate;
    var next := es + [Go(w, Accepted)];
    AtOneMore(py, es, Go(w, Accepted));
    RescueFromLogging(py, next, w);
    assert next + [Go(w, Accepted)] == es + [Go(w, Accepted), Go(w, Accepted)];
  }

  lemma RescueFromReading(py: Python, es: seq<Event>, w: nat)
    requires w < |At(py, es, |es|).deliveries|
    requires var s := At(py, es, |es|); s.deliveries[w].stage.Reading? && !Doomed(py, s.vault, s.deliveries[w])
    ensures var more := Rescue(py, At(py, es, |es|).deliveries[w], w);
            var s' := At(py, es + more, |es + more|);
            && w < |s'.deliveries| && s'.deliveries[w].stage == Ended(Applied)
            && s'.deliveries[w].payload == At(py, es, |es|).deliveries[w].payload
            && s'.deliveries[w].claimed == At(py, es, |es|).deliveries[w].claimed
  {
    hide At, EventKey, ApplyEntry, TargetOf;
    var d := At(py, es, |es|).deliveries[w];
    var store := Client(Store(AnyMandate(TargetOf(py, d.payload).mandateId)));
    AtOneMore(py, es, store);
    AtOneMore(py, es + [store], Go(w, Accepted));
    var next := es + [store] + [Go(w, Accepted)];
    RescueFromStoring(py, next, w);
    assert next + [Go(w, Accepted), Go(w, Accepted)] == es + Rescue(py, d, w);
  }

  lemma Rescued(py: Python, es: seq<Event>, w: nat)
    requires w < |At(py, es, |es|).deliveries| && At(py, es, |es|).deliveries[w].claimed
    requires !Doomed(py, At(py, es, |es|).vault, At(py, es, |es|).deliveries[w])
    ensures var more := Rescue(py, At(py, es, |es|).deliveries[w], w);
            var s' := At(py, es + more, |es + more|);
            && w < |s'.deliveries| && s'.deliveries[w].stage == Ended(Applied)
            && s'.deliveries[w].payload == At(py, es, |es|).deliveries[w].payload && s'.deliveries[w].claimed
  {
    hide At, EventKey, TargetOf;
    var s := At(py, es, |es|);
    AlwaysSound(py, es, |es|);
    assert Honest(py, s, w) && es + [] == es;
    match s.deliveries[w].stage
    case Reading => RescueFromReading(py, es, w);
    case Storing(m) => RescueFromStoring(py, es, w);
    case Logging(_) => RescueFromLogging(py, es, w);
    case _ =>
  }

  /** Exactly when a claimed event is lost for good: no row names its key now or after any continuation if and only if
      its claimant is doomed. A redelivery cannot help, since the key stays claimed. */
  lemma LostExactly(py: Python, es: seq<Event>, w: nat, k: string)
    requires Claimant(py, At(py, es, |es|), w, k)
    ensures NeverRecorded(py, es, k) <==> Doomed(py, At(py, es, |es|).vault, At(py, es, |es|).deliveries[w])
  {
    hide At, EventKey, Doomed, Recorded;
    var s := At(py, es, |es|);
    if Doomed(py, s.vault, s.deliveries[w]) {
      ClaimedIsPast(py, es, w);
      forall more: seq<Event> ensures !Recorded(At(py, es + more, |es + more|), k) {
        DoomedForEver(py, es, more, w);
        DoomedIsNotApplied(py, At(py, es + more, |es + more|).vault, At(py, es + more, |es + more|).deliveries[w]);
        RecordedIfApplied(py, es + more, w, k);
      }
    } else {
      Rescued(py, es, w);
      RecordedIfApplied(py, es + Rescue(py, s.deliveries[w], w), w, k);
    }
  }

  lemma DoomedIsNotApplied(py: Python, v: VaultState, d: Delivery)
    requires Doomed(py, v, d)
    ensures d.stage != Ended(Applied)
  {
    hide TargetOf, Revoked;
  }

  lemma ClaimedIsPast(py: Python, es: seq<Event>, w: nat)
    requires w < |At(py, es, |es|).deliveries| && At(py, es, |es|).deliveries[w].claimed
    ensures !At(py, es, |es|).deliveries[w].stage.Marking? && !At(py, es, |es|).deliveries[w].stage.Looking?
  {
    hide At, EventKey;
    AlwaysSound(py, es, |es|);
    assert Honest(py, At(py, es, |es|), w);
  }

  /** A client revokes the mandate between a delivery's read and its store; the event is delivered again. */
  function RevokedBetween(id: string): seq<Event> {
    [Client(Store(AnyMandate(id))), Deliver(CapturedFor(id)), Go(0, Accepted), Go(0, Accepted),
     Client(RevokeId(id)), Go(0, Accepted), Deliver(CapturedFor(id)), Go(1, Accepted)]
  }

  lemma RevokedBetweenRuns(py: Python, id: string)
    requires id != ""
    ensures var s := At(py, RevokedBetween(id), 8);
            && s.deliveries == [Delivery(CapturedFor(id), 0, true, Ended(ServerError)),
                                Delivery(CapturedFor(id), 0, false, Ended(AlreadyProcessed))]
            && s.log == [] && s.keys == {EventKey(py, CapturedFor(id))}
            && GetMandate(s.vault, id) == Some(AnyMandate(id))
  {
    hide CapturedFor, EventKey, Updated, TargetOf, ApplyEntry, AnyMandate;
    var es, p, m := RevokedBetween(id), CapturedFor(id), AnyMandate(id);
    CapturedTarget(py, id);
    AnyMandateNames(id);
    assert At(py, es, 1) == System({}, StoreMandate(EMPTY, m), [], [], []);
    assert At(py, es, 2).deliveries == [Delivery(p, 0, false, Marking)];
    assert At(py, es, 3).deliveries == [Delivery(p, 0, true, Reading)] && At(py, es, 3).keys == {EventKey(py, p)};
    assert At(py, es, 4).deliveries == [Delivery(p, 0, true, Storing(m))];
    assert At(py, es, 5).vault == Revoke(StoreMandate(EMPTY, m), id);
    assert At(py, es, 6).deliveries == [Delivery(p, 0, true, Ended(ServerError))] && At(py, es, 6).log == [];
    assert At(py, es, 7).deliveries == [Delivery(p, 0, true, Ended(ServerError)), Delivery(p, 0, false, Marking)];
  }

  /** The store is refused, the redelivery is answered `already_processed`, and the payment is never recorded. */
  lemma RevokedBetweenIsLost(py: Python, id: string)
    requires id != ""
    ensures var s := At(py, RevokedBetween(id), 8);
            && |s.deliveries| == 2 && s.log == []
            && s.deliveries[0].stage == Ended(ServerError) && s.deliveries[1].stage == Ended(AlreadyProcessed)
            && GetMandate(s.vault, id) == Some(AnyMandate(id))
    ensures NeverRecorded(py, RevokedBetween(id), EventKey(py, CapturedFor(id)))
  {
    hide At, CapturedFor, EventKey, TargetOf, AnyMandate, NeverRecorded;
    RevokedBetweenRuns(py, id);
    LostExactly(py, RevokedBetween(id), 0, EventKey(py, CapturedFor(id)));
  }

  lemma AnyMandateNames(id: string)
    ensures AnyMandate(id).mandateId == id
  {
  }

  // ---------- a delivery that nothing disturbs ----------

  /** The next n accesses of a delivery, all accepted, with nothing in between. */
  function Alone(py: Python, s: System, w: nat, n: nat): (s': System)
    ensures |s'.deliveries| == |s.deliveries|
    decreases n
  {
    if n == 0 then s else Alone(py, Step(py, s, Go(w, Accepted)), w, n - 1)
  }

  function RowsFor(w: nat, entry: Option<LogRequest>): seq<Row> {
    if entry.None? then [] else [Row(w, entry.value)]
  }

  lemma {:induction false} EndedStays(py: Python, s: System, w: nat, n: nat)
    requires w < |s.deliveries| && s.deliveries[w].stage.Ended?
    ensures Alone(py, s, w, n) == s
    decreases n
  {
    hide EventKey, ApplyEntry, Updated, StoreMandate, ReadMandate;
    if n == 0 {
    } else {
      assert Step(py, s, Go(w, Accepted)).deliveries == s.deliveries;
      EndedStays(py, s, w, n - 1);
    }
  }

  lemma StoresThenLogs(py: Python, s: System, w: nat, m: Mandate)
    requires w < |s.deliveries| && s.deliveries[w].stage == Storing(m) && Consistent(s.vault)
    requires m.mandateId in s.vault.mandates && s.vault.mandates[m.mandateId].payload == m
    requires TargetOf(py, s.deliveries[w].payload) == Lookup(m.mandateId)
    ensures var d, s' := s.deliveries[w], Alone(py, s, w, 2);
            var plan := PlanOf(py, s.vault, d.payload, Key(py, d));
            && s'.vault == plan.vault && s'.log == s.log + RowsFor(w, plan.entry)
            && s'.keys == s.keys && s'.deliveries[w].stage == Ended(plan.response)
  {
    hide EventKey, TargetOf, Updated, ApplyEntry, ReadMandate;
    UpdateKeepsId(py, s.deliveries[w].payload);
    var s1 := Step(py, s, Go(w, Accepted));
    assert Alone(py, s1, w, 1) == Step(py, s1, Go(w, Accepted));
  }

  lemma ReadsThenFollowsPlan(py: Python, s: System, w: nat)
    requires w < |s.deliveries| && s.deliveries[w].stage.Reading? && Consistent(s.vault)
    ensures var d, s' := s.deliveries[w], Alone(py, s, w, 3);
            var plan := PlanOf(py, s.vault, d.payload, Key(py, d));
            && s'.vault == plan.vault && s'.log == s.log + RowsFor(w, plan.entry)
            && s'.keys == s.keys && s'.deliveries[w].stage == Ended(plan.response)
  {
    hide EventKey, TargetOf, Updated, ApplyEntry, StoreMandate;
    var s1 := Step(py, s, Go(w, Accepted));
    var d1 := s1.deliveries[w];
    if d1.stage.Storing? {
      StoresThenLogs(py, s1, w, d1.stage.mandate);
    } else {
      EndedStays(py, s1, w, 2);
    }
  }

  /** The four accesses of a delivery that nothing disturbs add up to what the program does in one go. */
  lemma AloneFollowsPlan(py: Python, s: System, payload: Payload)
    requires Consistent(s.vault)
    ensures var w := |s.deliveries|;
            var s' := Alone(py, Step(py, s, Deliver(payload)), w, 4);
            var plan := PlanOf(py, s.vault, payload, EventKey(py, payload));
            if EventKey(py, payload) in s.keys
            then s'.vault == s.vault && s'.log == s.log && s'.keys == s.keys
                && s'.deliveries[w].stage == Ended(AlreadyProcessed)
            else && s'.vault == plan.vault && s'.log == s.log + RowsFor(w, plan.entry)
                 && s'.keys == s.keys + {EventKey(py, payload)} && s'.deliveries[w].stage == Ended(plan.response)
  {
    hide EventKey, PlanOf, ApplyEntry, Updated, StoreMandate, ReadMandate;
    var w := |s.deliveries|;
    var s1 := Step(py, Step(py, s, Deliver(payload)), Go(w, Accepted));
    if EventKey(py, payload) in s.keys {
      EndedStays(py, s1, w, 3);
    } else {
      ReadsThenFollowsPlan(py, s1, w);
    }
  }

  // ---------- marking, access by access ----------

  /** A delivery's accesses from the k-th on while it marks or looks, with other workers' inserts in between. */
  function Marks(py: Python, keys: map<string, string>, turns: nat -> Turn, d: Delivery, k: nat, n: nat): Delivery
    decreases n
  {
    if n == 0 || !(d.stage.Marking? || d.stage.Looking?) then d
    else Marks(py, keys, turns, Advance(py, World(keys, turns, k + 1).Keys, EMPTY, d, turns(k).answer), k + 1, n - 1)
  }

  /** Where a delivery stands that mark has ended for. */
  predicate MarkedAs(d: Delivery, wins: bool, finds: bool, givesUp: bool) {
    && (d.claimed && d.stage.Reading? <==> wins)
    && (!d.claimed && d.stage == Ended(AlreadyProcessed) <==> finds)
    && (!d.claimed && d.stage == Ended(ServerError) <==> givesUp)
  }

  /** One round: an insert, and a look if it is locked. */
  lemma MarksRound(py: Python, keys: map<string, string>, turns: nat -> Turn, payload: Payload, i: nat)
    requires i < 5
    ensures var id := EventKey(py, payload);
            var d' := Marks(py, keys, turns, Delivery(payload, i, false, Marking), 2 * i, 10 - 2 * i);
            if GoesOnAt(keys, turns, id, i) then
              if i == 4 then d' == Delivery(payload, 5, false, Ended(ServerError))
              else d' == Marks(py, keys, turns, Delivery(payload, i + 1, false, Marking), 2 * i + 2, 8 - 2 * i)
            else MarkedAs(d', WinsAt(keys, turns, id, i), FindsAt(keys, turns, id, i), FailsAt(turns, i))
  {
    hide EventKey, World;
    var id, d := EventKey(py, payload), Delivery(payload, i, false, Marking);
    var d1 := Advance(py, World(keys, turns, 2 * i + 1).Keys, EMPTY, d, turns(2 * i).answer);
    var d2 := Advance(py, World(keys, turns, 2 * i + 2).Keys, EMPTY, d1, turns(2 * i + 1).answer);
    assert Marks(py, keys, turns, d, 2 * i, 10 - 2 * i) == Marks(py, keys, turns, d1, 2 * i + 1, 9 - 2 * i);
    if d1.stage.Looking? {
      assert Marks(py, keys, turns, d1, 2 * i + 1, 9 - 2 * i) == Marks(py, keys, turns, d2, 2 * i + 2, 8 - 2 * i);
    }
  }

  lemma {:induction false} MarksFrom(py: Python, keys: map<string, string>, turns: nat -> Turn, payload: Payload,
                                     i: nat)
    requires i < 5 && Reaches(keys, turns, EventKey(py, payload), i)
    ensures var id := EventKey(py, payload);
            MarkedAs(Marks(py, keys, turns, Delivery(payload, i, false, Marking), 2 * i, 10 - 2 * i),
                     Wins(keys, turns, id), Finds(keys, turns, id), GivesUp(keys, turns, id))
    decreases 5 - i
  {
    hide EventKey, World, Marks, Wins, Finds, GivesUp, WinsAt, FindsAt, FailsAt, GoesOnAt;
    var id := EventKey(py, payload);
    MarksRound(py, keys, turns, payload, i);
    if !GoesOnAt(keys, turns, id, i) {
      DecidedAt(keys, turns, id, i);
    } else if i == 4 {
      FiveGoOn(keys, turns, id);
    } else {
      MarksFrom(py, keys, turns, payload, i + 1);
    }
  }

  /** The marking stages of a delivery end as one call of mark does, whatever the database answers and whatever other
      workers insert before each access. */
  lemma MarkingIsMark(py: Python, keys: map<string, string>, turns: nat -> Turn, payload: Payload)
    ensures var id := EventKey(py, payload);
            MarkedAs(Marks(py, keys, turns, Delivery(payload, 0, false, Marking), 0, 10),
                     Wins(keys, turns, id), Finds(keys, turns, id), GivesUp(keys, turns, id))
  {
    hide EventKey, Marks, MarkedAs, Wins, Finds, GivesUp;
    MarksFrom(py, keys, turns, payload, 0);
  }
}
