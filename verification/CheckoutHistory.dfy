/** Many checkout runs at once. Between any two awaits of a run, other runs move, other clients change the vault, and
    the clock moves. Every statement is about all histories of events. */
module CheckoutHistory {
  import opened Text
  import opened JsonTree
  import opened Models
  import opened Vaults
  import opened Executor
  import opened Audit
  import opened Checkout
  import Firewall
  import Policy

  /** What never changes during a history. */
  datatype Config = Config(py: Python, catalog: Policy.Catalog)

  /** Where a run stands between two awaits. */
  datatype Stage =
    | Validating
    | Reading
    | Fetching
    | Paying(mandate: Mandate)
    | Retrying(mandate: Mandate)
    | Logging(entry: LogRequest, result: CheckoutResult)
    | Returned(result: CheckoutResult) // its row is committed
    | Escaped                          // an exception left the run

  /** The mandate a run pays under and how its first attempt went. */
  datatype Tried = Tried(mandate: Mandate, first: Attempt)

  /** bounds is the mandate that the policy step read; second is how the retry went. */
  datatype Run = Run(
    proposal: Proposal, parsedId: string, bounds: Option<Mandate>, tried: Option<Tried>, second: Option<Attempt>,
    attempts: nat, stage: Stage)

  /** Fault: what the run awaits raises, be it a read, the row's commit or a lost process. */
  datatype Event =
    | Client(op: VaultOp)
    | Clock(now: Instant)
    | Begin(proposal: Proposal, protocol: Option<string>, envelope: Option<Json>)
    | Go(run: nat, attempt: Attempt)
    | Fault(run: nat)

  datatype SentOrder = SentOrder(run: nat, order: OrderPayload)

  datatype Row = Row(run: nat, entry: LogRequest)

  datatype System = System(
    vault: VaultState, now: Instant, runs: seq<Run>, log: seq<Row>, attempts: nat, sent: seq<SentOrder>)

  // ---------- one run ----------

  function Close(run: Run, entry: LogRequest, result: CheckoutResult): Run {
    run.(stage := Logging(entry, result))
  }

  function Stop(run: Run, code: string): Run {
    Close(run, RefusalEntry(run.proposal, code, None, false), Refuse(run.proposal.mandateId, code))
  }

  /** The part of a run before its first await. */
  function Start(py: Python, now: Instant, p: Proposal, protocol: Option<string>, envelope: Option<Json>): Run {
    match EnvelopeGate(py, now, p, protocol, envelope)
    case Pass(parsedId) => Run(p, parsedId, None, None, None, 0, Validating)
    case Stop(code) => Stop(Run(p, p.mandateId, None, None, None, 0, Validating), code)
    case Raise => Run(p, p.mandateId, None, None, None, 0, Escaped)
  }

  /** The part of a run up to its next await. The attempt is used only by the two paying stages. */
  function Advance(cfg: Config, v: VaultState, now: Instant, run: Run, attempt: Attempt): Run {
    var p := run.proposal;
    match run.stage
    case Validating => if Usable(v, p.mandateId, now) then run.(stage := Reading) else Stop(run, MANDATE_INVALID)
    case Reading =>
      (match GetMandate(v, p.mandateId)
       case None => Stop(run, MANDATE_INVALID)
       case Some(m) =>
         var reason := Policy.Violation(cfg.catalog, cfg.py.lower, m, p);
         if reason.Some? then Stop(run, reason.value) else run.(bounds := Some(m), stage := Fetching))
    case Fetching =>
      (match GetMandate(v, run.parsedId)
       case None => Stop(run, MANDATE_INVALID)
       case Some(m) => run.(stage := Paying(m)))
    case Paying(m) =>
      var next := run.(tried := Some(Tried(m, attempt)), attempts := run.attempts + 1);
      if TransientFirst(attempt) then next.(stage := Retrying(m)) else CloseSettled(next, m, Outcome(attempt), false)
    case Retrying(m) =>
      CloseSettled(run.(second := Some(attempt), attempts := run.attempts + 1), m, Outcome(attempt), true)
    case Logging(_, result) => run.(stage := Returned(result))
    case Returned(_) => run
    case Escaped => run
  }

  predicate TransientFirst(first: Attempt) {
    Outcome(first).Failed? && IsTransient(Outcome(first).fault)
  }

  function CloseSettled(run: Run, m: Mandate, reply: Reply, retried: bool): Run {
    var c := Settled(run.proposal, m, Settlement(reply, retried, []));
    Close(run, c.entry, c.result)
  }

  predicate IsPaying(run: Run) {
    run.stage.Paying? || run.stage.Retrying?
  }

  function OrdersOf(run: Run, attempt: Attempt): seq<OrderPayload> {
    if IsPaying(run) then Wire(attempt, OrderFor(run.stage.mandate, run.proposal)) else []
  }

  // ---------- the system ----------

  function Step(cfg: Config, s: System, e: Event): System {
    match e
    case Client(op) => s.(vault := Apply(s.vault, op))
    case Clock(now) => s.(now := now)
    case Begin(p, protocol, envelope) => s.(runs := s.runs + [Start(cfg.py, s.now, p, protocol, envelope)])
    case Go(r, attempt) =>
      if r >= |s.runs| then s
      else
        var run := s.runs[r];
        var orders := OrdersOf(run, attempt);
        s.(runs := s.runs[r := Advance(cfg, s.vault, s.now, run, attempt)],
           log := if run.stage.Logging? then s.log + [Row(r, run.stage.entry)] else s.log,
           attempts := if IsPaying(run) then s.attempts + 1 else s.attempts,
           sent := s.sent + seq(|orders|, i requires 0 <= i < |orders| => SentOrder(r, orders[i])))
    case Fault(r) =>
      if r >= |s.runs| || s.runs[r].stage.Returned? then s
      else s.(runs := s.runs[r := s.runs[r].(stage := Escaped)])
  }

  function At(cfg: Config, es: seq<Event>, n: nat): System
    requires n <= |es|
  {
    if n == 0 then System(EMPTY, 0, [], [], 0, []) else Step(cfg, At(cfg, es, n - 1), es[n - 1])
  }

  lemma AtNext(cfg: Config, es: seq<Event>, n: nat)
    requires n < |es|
    ensures At(cfg, es, n + 1) == Step(cfg, At(cfg, es, n), es[n])
  {
    hide Step;
  }

  /** Nothing has happened at first. */
  lemma AtFirst(cfg: Config, es: seq<Event>)
    ensures At(cfg, es, 0) == System(EMPTY, 0, [], [], 0, [])
  {
    hide Step;
  }

  // ---------- sums over runs and rows ----------

  function Sum(f: Run -> nat, runs: seq<Run>): nat {
    if runs == [] then 0 else Sum(f, runs[..|runs| - 1]) + f(runs[|runs| - 1])
  }

  lemma {:induction false} SumUpdate(f: Run -> nat, runs: seq<Run>, r: nat, run: Run)
    requires r < |runs|
    ensures Sum(f, runs[r := run]) + f(runs[r]) == Sum(f, runs) + f(run)
  {
    var init := runs[..|runs| - 1];
    if r == |runs| - 1 {
      assert runs[r := run][..|runs| - 1] == init;
    } else {
      assert runs[r := run][..|runs| - 1] == init[r := run];
      SumUpdate(f, init, r, run);
    }
  }

  lemma SumAppend(f: Run -> nat, runs: seq<Run>, run: Run)
    ensures Sum(f, runs + [run]) == Sum(f, runs) + f(run)
  {
    assert (runs + [run])[..|runs|] == runs;
  }

  lemma {:induction false} SumAtMost(f: Run -> nat, g: Run -> nat, runs: seq<Run>)
    requires forall run | run in runs :: f(run) <= 2 * g(run)
    ensures Sum(f, runs) <= 2 * Sum(g, runs)
  {
    if runs == [] {
    } else {
      var last := runs[|runs| - 1];
      assert last in runs;
      SumAtMost(f, g, runs[..|runs| - 1]);
    }
  }

  /** How many rows have a property. */
  function Rows(log: seq<Row>, f: LogRequest -> bool): nat {
    if log == [] then 0 else Rows(log[..|log| - 1], f) + if f(log[|log| - 1].entry) then 1 else 0
  }

  lemma RowsAppend(log: seq<Row>, f: LogRequest -> bool, row: Row)
    ensures Rows(log + [row], f) == Rows(log, f) + if f(row.entry) then 1 else 0
  {
    assert (log + [row])[..|log|] == log;
  }

  // ---------- reconciliation ----------

  /** The attempts of a run that no audit row shows. */
  function Unrecorded(run: Run): nat {
    if run.stage.Returned? then 0 else run.attempts
  }

  /** A run that has not returned and may have attempts: in flight, or stopped by an exception after it paid. */
  function Open(run: Run): nat {
    if run.stage.Returned? || (run.stage.Escaped? && run.attempts == 0) then 0 else 1
  }

  function Ended(run: Run): nat {
    if run.stage.Returned? then 1 else 0
  }

  /** What the last attempt of a run brought. */
  function Brought(run: Run): Option<Payment> {
    if run.tried.None? then None
    else match Outcome(if run.second.Some? then run.second.value else run.tried.value.first)
      case Created(payment) => Some(payment)
      case Failed(_) => None
  }

  /** A result and a row give the same account of a run: they name its mandate, the row names the agent of the mandate
      it paid under if it paid, and attempts, outcome, reason and retry agree. */
  predicate Tells(run: Run, entry: LogRequest, result: CheckoutResult) {
    && Accounted(Conclusion(result, entry, run.attempts, []))
    && result.mandateId == run.proposal.mandateId && entry.mandateId == Some(run.proposal.mandateId)
    && entry.action == "checkout.execute"
    && entry.agentId == (if run.tried.Some? then Some(run.tried.value.mandate.agentId) else None)
    && entry.entryId.None? && entry.timestamp.None? && entry.requestHash.None? && entry.responseHash.None?
    && (run.attempts == 2 <==> run.tried.Some? && TransientFirst(run.tried.value.first))
    && (run.attempts == 2 <==> run.second.Some?) && result.payment == Brought(run)
  }

  /** A run tries at most twice, and what it is about to record says how often it tried. */
  predicate Honest(run: Run) {
    && run.parsedId == run.proposal.mandateId
    && (run.tried.Some? <==> run.attempts > 0) && (run.attempts < 2 ==> run.second.None?)
    && match run.stage
       case Retrying(m) =>
         run.attempts == 1 && run.tried.Some? && run.tried.value.mandate == m && TransientFirst(run.tried.value.first)
       case Logging(entry, result) => Tells(run, entry, result)
       case Returned(_) => run.attempts <= 2
       case Escaped => run.attempts <= 2
       case _ => run.attempts == 0
  }

  lemma StopTells(run: Run, code: string)
    requires run.attempts == 0 && run.tried.None? && run.second.None? && code != EXECUTOR_FAILURE
    ensures Tells(run, RefusalEntry(run.proposal, code, None, false), Refuse(run.proposal.mandateId, code))
  {
    hide OnRecord, RefusalMetadata, ReadNote, Accounted;
    RefusalIsAccounted(run.proposal, code);
  }

  lemma StopIsHonest(run: Run, code: string)
    requires run.parsedId == run.proposal.mandateId && run.attempts == 0 && run.tried.None? && run.second.None?
    requires code != EXECUTOR_FAILURE
    ensures Honest(Stop(run, code))
  {
    hide Accounted, RefusalEntry, Refuse;
    StopTells(run, code);
  }

  lemma StartIsHonest(py: Python, now: Instant, p: Proposal, protocol: Option<string>, envelope: Option<Json>)
    ensures Honest(Start(py, now, p, protocol, envelope))
    ensures Unrecorded(Start(py, now, p, protocol, envelope)) == Ended(Start(py, now, p, protocol, envelope)) == 0
  {
    hide EnvelopeGate, Tells, RefusalEntry, Refuse;
    var gate := EnvelopeGate(py, now, p, protocol, envelope);
    GateNeverBlamesExecutor(py, now, p, protocol, envelope);
    if gate.Stop? { StopIsHonest(Run(p, p.mandateId, None, None, None, 0, Validating), gate.code); }
  }

  lemma CloseSettledTells(run: Run, m: Mandate, reply: Reply, retried: bool)
    requires run.attempts == (if retried then 2 else 1) && run.tried.Some? && run.tried.value.mandate == m
    requires (retried <==> TransientFirst(run.tried.value.first)) && (retried <==> run.second.Some?)
    requires reply == Outcome(if retried then run.second.value else run.tried.value.first)
    ensures var c := Settled(run.proposal, m, Settlement(reply, retried, []));
            Tells(run, c.entry, c.result)
  {
    hide OnRecord, RefusalMetadata, ReadNote, Accounted, TransientFirst;
    SettledIsAccounted(run.proposal, m, Settlement(reply, retried, []));
  }

  lemma CloseSettledIsHonest(run: Run, m: Mandate, reply: Reply, retried: bool)
    requires run.parsedId == run.proposal.mandateId && run.attempts == if retried then 2 else 1
    requires run.tried.Some? && run.tried.value.mandate == m && (retried <==> TransientFirst(run.tried.value.first))
    requires retried <==> run.second.Some?
    requires reply == Outcome(if retried then run.second.value else run.tried.value.first)
    ensures Honest(CloseSettled(run, m, reply, retried))
  {
    hide Tells, Settled, TransientFirst;
    CloseSettledTells(run, m, reply, retried);
    TellsNeedsNoStage(run, CloseSettled(run, m, reply, retried));
  }

  /** What a row tells of a run does not depend on the run's stage. */
  lemma TellsNeedsNoStage(a: Run, b: Run)
    requires a.(stage := b.stage) == b
    ensures forall entry, result :: Tells(a, entry, result) == Tells(b, entry, result)
  {
    hide Accounted, TransientFirst;
  }

  lemma ViolationNeverBlamesExecutor(cfg: Config, m: Mandate, p: Proposal)
    ensures Policy.Violation(cfg.catalog, cfg.py.lower, m, p) != Some(EXECUTOR_FAILURE)
  {
    hide Policy.SkusAllowed, Policy.PricesMatch, Policy.MaxDiscount, Policy.DarkPattern;
  }

  lemma HonestTriesTwice(run: Run)
    requires Honest(run)
    ensures run.attempts <= 2
  {
    hide OnRecord, TransientFirst, ReadNote;
  }

  lemma AdvanceIsHonest(cfg: Config, v: VaultState, now: Instant, run: Run, attempt: Attempt)
    requires Honest(run)
    ensures var next := Advance(cfg, v, now, run, attempt);
            && Honest(next)
            && Unrecorded(next) == (if run.stage.Logging? then 0 else Unrecorded(run) + if IsPaying(run) then 1 else 0)
            && Ended(next) == Ended(run) + if run.stage.Logging? then 1 else 0
  {
    hide Tells, Settled, RefusalEntry, Refuse, Policy.Violation, TransientFirst;
    HonestTriesTwice(run);
    match run.stage
    case Paying(m) =>
      if !TransientFirst(attempt) {
        CloseSettledIsHonest(run.(tried := Some(Tried(m, attempt)), attempts := 1), m, Outcome(attempt), false);
      }
    case Retrying(m) =>
      CloseSettledIsHonest(run.(second := Some(attempt), attempts := 2), m, Outcome(attempt), true);
    case Validating => StopIsHonest(run, MANDATE_INVALID);
    case Reading =>
      StopIsHonest(run, MANDATE_INVALID);
      var m := GetMandate(v, run.proposal.mandateId);
      if m.Some? {
        ViolationNeverBlamesExecutor(cfg, m.value, run.proposal);
        var reason := Policy.Violation(cfg.catalog, cfg.py.lower, m.value, run.proposal);
        if reason.Some? { StopIsHonest(run, reason.value); }
      }
    case Fetching => StopIsHonest(run, MANDATE_INVALID);
    case _ =>
  }

  lemma OnRecordCounts(e: LogRequest)
    ensures OnRecord(e) == (if MoneyRow(e) then 1 else 0) + if RetriedRow(e) then 1 else 0
  {
  }

  predicate Balanced(s: System) {
    && (forall run | run in s.runs :: Honest(run))
    && s.attempts == Rows(s.log, MoneyRow) + Rows(s.log, RetriedRow) + Sum(Unrecorded, s.runs)
    && |s.log| == Sum(Ended, s.runs)
  }

  lemma LoggingOnRecord(run: Run)
    requires Honest(run) && run.stage.Logging?
    ensures run.attempts == OnRecord(run.stage.entry)
  {
    hide OnRecord, TransientFirst;
  }

  lemma BeginBalances(cfg: Config, s: System, p: Proposal, protocol: Option<string>, envelope: Option<Json>)
    requires Balanced(s)
    ensures Balanced(Step(cfg, s, Begin(p, protocol, envelope)))
  {
    hide Start, Honest, MoneyRow, RetriedRow, Unrecorded, Ended, Sum, Rows;
    StartIsHonest(cfg.py, s.now, p, protocol, envelope);
    SumAppend(Unrecorded, s.runs, Start(cfg.py, s.now, p, protocol, envelope));
    SumAppend(Ended, s.runs, Start(cfg.py, s.now, p, protocol, envelope));
  }

  lemma GoBalances(cfg: Config, s: System, r: nat, attempt: Attempt)
    requires Balanced(s) && r < |s.runs|
    ensures Balanced(Step(cfg, s, Go(r, attempt)))
  {
    hide Advance, OrdersOf, MoneyRow, RetriedRow, OnRecord, Honest, Sum, Rows;
    var run := s.runs[r];
    assert run in s.runs;
    AdvanceIsHonest(cfg, s.vault, s.now, run, attempt);
    SumUpdate(Unrecorded, s.runs, r, Advance(cfg, s.vault, s.now, run, attempt));
    SumUpdate(Ended, s.runs, r, Advance(cfg, s.vault, s.now, run, attempt));
    if run.stage.Logging? {
      RowsAppend(s.log, MoneyRow, Row(r, run.stage.entry));
      RowsAppend(s.log, RetriedRow, Row(r, run.stage.entry));
      LoggingOnRecord(run);
      OnRecordCounts(run.stage.entry);
    }
  }

  lemma FaultBalances(cfg: Config, s: System, r: nat)
    requires Balanced(s) && r < |s.runs|
    ensures Balanced(Step(cfg, s, Fault(r)))
  {
    hide MoneyRow, RetriedRow, OnRecord, Sum, Rows;
    var run := s.runs[r];
    assert run in s.runs;
    SumUpdate(Unrecorded, s.runs, r, run.(stage := Escaped));
    SumUpdate(Ended, s.runs, r, run.(stage := Escaped));
  }

  lemma StepBalances(cfg: Config, s: System, e: Event)
    requires Balanced(s)
    ensures Balanced(Step(cfg, s, e))
  {
    match e
    case Begin(p, protocol, envelope) => BeginBalances(cfg, s, p, protocol, envelope);
    case Go(r, attempt) => if r < |s.runs| { GoBalances(cfg, s, r, attempt); }
    case Fault(r) => if r < |s.runs| { FaultBalances(cfg, s, r); }
    case _ =>
  }

  lemma NothingBalances()
    ensures Balanced(System(EMPTY, 0, [], [], 0, []))
  {
    hide Honest, Unrecorded, Ended, MoneyRow, RetriedRow;
  }

  lemma {:induction false} AlwaysBalanced(cfg: Config, es: seq<Event>, n: nat)
    requires n <= |es|
    ensures Balanced(At(cfg, es, n))
  {
    hide At, Step, Balanced;
    if n == 0 {
      AtFirst(cfg, es);
      NothingBalances();
    } else {
      AlwaysBalanced(cfg, es, n - 1);
      AtNext(cfg, es, n - 1);
      StepBalances(cfg, At(cfg, es, n - 1), es[n - 1]);
    }
  }

  lemma UnrecordedAtMost(runs: seq<Run>)
    requires forall run | run in runs :: Honest(run)
    ensures Sum(Unrecorded, runs) <= 2 * Sum(Open, runs)
  {
    forall run | run in runs ensures Unrecorded(run) <= 2 * Open(run) { HonestTriesTwice(run); }
    SumAtMost(Unrecorded, Open, runs);
  }

  /** Over every history, the executor attempts are the rows that say a payment was tried, plus the rows that say it
      was retried, plus exactly the attempts of the runs that have not returned: at most two for each that is in
      flight or that an exception stopped after it had paid. */
  lemma Reconciliation(cfg: Config, es: seq<Event>)
    ensures var s := At(cfg, es, |es|);
            var recorded := Rows(s.log, MoneyRow) + Rows(s.log, RetriedRow);
            && s.attempts == recorded + Sum(Unrecorded, s.runs)
            && recorded <= s.attempts <= recorded + 2 * Sum(Open, s.runs)
            && |s.log| == Sum(Ended, s.runs)
  {
    hide At, MoneyRow, RetriedRow, Honest, Unrecorded, Open, Ended;
    AlwaysBalanced(cfg, es, |es|);
    UnrecordedAtMost(At(cfg, es, |es|).runs);
  }

  // ---------- gate soundness ----------

  /** Event i is run r, for proposal p, standing at a stage of this kind. */
  ghost predicate Moves(cfg: Config, es: seq<Event>, i: nat, r: nat, p: Proposal)
    requires i < |es|
  {
    es[i].Go? && es[i].run == r < |At(cfg, es, i).runs| && At(cfg, es, i).runs[r].proposal == p
  }

  /** Event i is run r passing the validate step: the mandate is usable at that moment. */
  ghost predicate ValidatesAt(cfg: Config, es: seq<Event>, i: nat, r: nat, p: Proposal)
    requires i < |es|
  {
    var s := At(cfg, es, i);
    Moves(cfg, es, i, r, p) && s.runs[r].stage.Validating? && Usable(s.vault, p.mandateId, s.now)
  }

  /** Event i is run r reading mandate m and finding no violation. */
  ghost predicate ChecksAt(cfg: Config, es: seq<Event>, i: nat, r: nat, p: Proposal, m: Mandate)
    requires i < |es|
  {
    var s := At(cfg, es, i);
    && Moves(cfg, es, i, r, p) && s.runs[r].stage.Reading?
    && GetMandate(s.vault, p.mandateId) == Some(m) && Policy.Violation(cfg.catalog, cfg.py.lower, m, p).None?
  }

  /** Event i is run r fetching the mandate it will pay under. */
  ghost predicate FetchesAt(cfg: Config, es: seq<Event>, i: nat, r: nat, p: Proposal, m: Mandate)
    requires i < |es|
  {
    var s := At(cfg, es, i);
    Moves(cfg, es, i, r, p) && s.runs[r].stage.Fetching? && GetMandate(s.vault, p.mandateId) == Some(m)
  }

  /** Event i is run r sending an order. */
  ghost predicate SendsAt(cfg: Config, es: seq<Event>, i: nat, r: nat, p: Proposal, order: OrderPayload)
    requires i < |es|
  {
    Moves(cfg, es, i, r, p) && order in OrdersOf(At(cfg, es, i).runs[r], es[i].attempt)
  }

  /** Event i is run r making its first attempt. */
  ghost predicate PaysAt(cfg: Config, es: seq<Event>, i: nat, r: nat, p: Proposal, tried: Tried)
    requires i < |es|
  {
    Moves(cfg, es, i, r, p) && At(cfg, es, i).runs[r].stage == Paying(tried.mandate) && es[i].attempt == tried.first
  }

  /** Before event n, run r has validated. */
  ghost predicate Validated(cfg: Config, es: seq<Event>, n: nat, r: nat, p: Proposal)
    requires n <= |es|
  {
    exists i | 0 <= i < n :: ValidatesAt(cfg, es, i, r, p)
  }

  /** ... and after that has checked the proposal against m. */
  ghost predicate Checked(cfg: Config, es: seq<Event>, n: nat, r: nat, p: Proposal, m: Mandate)
    requires n <= |es|
  {
    exists i | 0 <= i < n :: ChecksAt(cfg, es, i, r, p, m) && Validated(cfg, es, i, r, p)
  }

  /** ... and after that has fetched m'. */
  ghost predicate Fetched(cfg: Config, es: seq<Event>, n: nat, r: nat, p: Proposal, m: Mandate, m': Mandate)
    requires n <= |es|
  {
    exists i | 0 <= i < n :: FetchesAt(cfg, es, i, r, p, m') && Checked(cfg, es, i, r, p, m)
  }

  /** ... and after that has tried to pay under m'. */
  ghost predicate Paid(cfg: Config, es: seq<Event>, n: nat, r: nat, p: Proposal, m: Mandate, tried: Tried)
    requires n <= |es|
  {
    exists i | 0 <= i < n :: PaysAt(cfg, es, i, r, p, tried) && Fetched(cfg, es, i, r, p, m, tried.mandate)
  }

  /** ... and after that has sent the order, which stays within what was checked. */
  ghost predicate Justified(cfg: Config, es: seq<Event>, n: nat, r: nat, p: Proposal, m: Mandate, m': Mandate,
                            order: OrderPayload)
    requires n <= |es|
  {
    && (exists i | 0 <= i < n :: SendsAt(cfg, es, i, r, p, order) && Fetched(cfg, es, i, r, p, m, m'))
    && order == OrderPayload(p.quotedTotalPaise, m'.currency, Some(p.mandateId))
    && order.amount <= m.maxAmountPaise
    && forall line | line in p.items :: line.sku in m.skuAllowlist
  }

  /** What a run's stage says about its past. */
  ghost predicate Traced(cfg: Config, es: seq<Event>, n: nat, r: nat, run: Run)
    requires n <= |es|
  {
    && run.parsedId == run.proposal.mandateId
    && (run.attempts > 0 ==> run.bounds.Some?)
    && (run.bounds.Some? ==> Checked(cfg, es, n, r, run.proposal, run.bounds.value))
    && (run.tried.Some? ==> run.bounds.Some? && Paid(cfg, es, n, r, run.proposal, run.bounds.value, run.tried.value))
    && match run.stage
       case Validating => run.bounds.None?
       case Reading => run.bounds.None? && Validated(cfg, es, n, r, run.proposal)
       case Fetching => run.bounds.Some?
       case Paying(m) => run.bounds.Some? && Fetched(cfg, es, n, r, run.proposal, run.bounds.value, m)
                         && m.mandateId == run.proposal.mandateId
       case Retrying(m) => run.bounds.Some? && Fetched(cfg, es, n, r, run.proposal, run.bounds.value, m)
                           && m.mandateId == run.proposal.mandateId
       case _ => true
  }

  ghost predicate RunsTraced(cfg: Config, es: seq<Event>, n: nat)
    requires n <= |es|
  {
    forall r | 0 <= r < |At(cfg, es, n).runs| :: Traced(cfg, es, n, r, At(cfg, es, n).runs[r])
  }

  /** The run of an order has read its bounds, and the order is justified. */
  ghost predicate OrderJustified(cfg: Config, es: seq<Event>, n: nat, runs: seq<Run>, o: SentOrder)
    requires n <= |es|
  {
    o.run < |runs| && runs[o.run].bounds.Some?
    && exists m' :: Justified(cfg, es, n, o.run, runs[o.run].proposal, runs[o.run].bounds.value, m', o.order)
  }

  ghost predicate SentJustified(cfg: Config, es: seq<Event>, n: nat)
    requires n <= |es|
  {
    forall o | o in At(cfg, es, n).sent :: OrderJustified(cfg, es, n, At(cfg, es, n).runs, o)
  }

  /** The past only grows. */
  lemma PastGrows(cfg: Config, es: seq<Event>, n: nat, r: nat, p: Proposal)
    requires n < |es|
    ensures Validated(cfg, es, n, r, p) ==> Validated(cfg, es, n + 1, r, p)
    ensures forall m | Checked(cfg, es, n, r, p, m) :: Checked(cfg, es, n + 1, r, p, m)
    ensures forall m, m' | Fetched(cfg, es, n, r, p, m, m') :: Fetched(cfg, es, n + 1, r, p, m, m')
    ensures forall m, t | Paid(cfg, es, n, r, p, m, t) :: Paid(cfg, es, n + 1, r, p, m, t)
    ensures forall m, m', o | Justified(cfg, es, n, r, p, m, m', o) :: Justified(cfg, es, n + 1, r, p, m, m', o)
  {
    hide ValidatesAt, ChecksAt, FetchesAt, PaysAt, SendsAt, At, OrdersOf, Moves;
  }

  lemma StaysTraced(cfg: Config, es: seq<Event>, n: nat, r: nat, run: Run)
    requires n < |es| && Traced(cfg, es, n, r, run)
    ensures Traced(cfg, es, n + 1, r, run)
  {
    hide Validated, Checked, Fetched, Paid;
    PastGrows(cfg, es, n, r, run.proposal);
  }

  lemma ValidatesNow(cfg: Config, es: seq<Event>, n: nat, r: nat, p: Proposal)
    requires n < |es| && ValidatesAt(cfg, es, n, r, p)
    ensures Validated(cfg, es, n + 1, r, p)
  {
    hide ValidatesAt;
  }

  lemma ChecksNow(cfg: Config, es: seq<Event>, n: nat, r: nat, p: Proposal, m: Mandate)
    requires n < |es| && ChecksAt(cfg, es, n, r, p, m) && Validated(cfg, es, n, r, p)
    ensures Checked(cfg, es, n + 1, r, p, m)
  {
    hide ChecksAt, Validated;
  }

  lemma FetchesNow(cfg: Config, es: seq<Event>, n: nat, r: nat, p: Proposal, m: Mandate, m': Mandate)
    requires n < |es| && FetchesAt(cfg, es, n, r, p, m') && Checked(cfg, es, n, r, p, m)
    ensures Fetched(cfg, es, n + 1, r, p, m, m')
  {
    hide FetchesAt, Checked;
  }

  lemma PaysNow(cfg: Config, es: seq<Event>, n: nat, r: nat, p: Proposal, m: Mandate, tried: Tried)
    requires n < |es| && PaysAt(cfg, es, n, r, p, tried) && Fetched(cfg, es, n, r, p, m, tried.mandate)
    ensures Paid(cfg, es, n + 1, r, p, m, tried)
  {
    hide PaysAt, Fetched;
  }

  /** What one event adds to the past of the run it moves. */
  lemma AdvanceIsTraced(cfg: Config, es: seq<Event>, n: nat, r: nat)
    requires n < |es| && es[n].Go? && es[n].run == r < |At(cfg, es, n).runs|
    requires Traced(cfg, es, n, r, At(cfg, es, n).runs[r]) && Consistent(At(cfg, es, n).vault)
    ensures var s := At(cfg, es, n);
            var next := Advance(cfg, s.vault, s.now, s.runs[r], es[n].attempt);
            && Traced(cfg, es, n + 1, r, next)
            && next.proposal == s.runs[r].proposal && (s.runs[r].bounds.Some? ==> next.bounds == s.runs[r].bounds)
  {
    hide At, RefusalEntry, Refuse, Settled, Policy.Violation, Usable, TransientFirst, Validated, Checked, Fetched, Paid;
    var s := At(cfg, es, n);
    var run := s.runs[r];
    var p := run.proposal;
    StaysTraced(cfg, es, n, r, run);
    match run.stage
    case Validating =>
      if Usable(s.vault, p.mandateId, s.now) { ValidatesNow(cfg, es, n, r, p); }
    case Reading =>
      var m := GetMandate(s.vault, p.mandateId);
      if m.Some? && Policy.Violation(cfg.catalog, cfg.py.lower, m.value, p).None? {
        ChecksNow(cfg, es, n, r, p, m.value);
      }
    case Fetching =>
      var m := GetMandate(s.vault, p.mandateId);
      if m.Some? { FetchesNow(cfg, es, n, r, p, run.bounds.value, m.value); }
    case Paying(m) => PaysNow(cfg, es, n, r, p, run.bounds.value, Tried(m, es[n].attempt));
    case _ =>
  }

  lemma StepKeepsConsistent(cfg: Config, s: System, e: Event)
    requires Consistent(s.vault)
    ensures Consistent(Step(cfg, s, e).vault)
  {
    hide Advance, Start, OrdersOf;
  }

  lemma {:induction false} VaultStaysConsistent(cfg: Config, es: seq<Event>, n: nat)
    requires n <= |es|
    ensures Consistent(At(cfg, es, n).vault)
  {
    hide At, Step, Consistent;
    if n == 0 {
      AtFirst(cfg, es);
      EmptyIsConsistent();
    } else {
      VaultStaysConsistent(cfg, es, n - 1);
      AtNext(cfg, es, n - 1);
      StepKeepsConsistent(cfg, At(cfg, es, n - 1), es[n - 1]);
    }
  }

  lemma StartIsTraced(cfg: Config, es: seq<Event>, n: nat, r: nat, now: Instant, p: Proposal, protocol: Option<string>,
                      envelope: Option<Json>)
    requires n <= |es|
    ensures Traced(cfg, es, n, r, Start(cfg.py, now, p, protocol, envelope))
  {
    hide EnvelopeGate, RefusalEntry, Refuse;
    GateNeverBlamesExecutor(cfg.py, now, p, protocol, envelope);
  }

  lemma EscapedStaysTraced(cfg: Config, es: seq<Event>, n: nat, r: nat, run: Run)
    requires n <= |es| && Traced(cfg, es, n, r, run)
    ensures Traced(cfg, es, n, r, run.(stage := Escaped))
  {
    hide Validated, Checked, Fetched, Paid;
  }

  lemma RunsStayTraced(cfg: Config, es: seq<Event>, n: nat)
    requires n < |es| && RunsTraced(cfg, es, n)
    ensures RunsTraced(cfg, es, n + 1)
  {
    hide At, Traced, Advance, Start, OrdersOf, Apply;
    AtNext(cfg, es, n);
    VaultStaysConsistent(cfg, es, n);
    var s, s' := At(cfg, es, n), At(cfg, es, n + 1);
    forall r | 0 <= r < |s'.runs| ensures Traced(cfg, es, n + 1, r, s'.runs[r]) {
      if r == |s.runs| {
        StartIsTraced(cfg, es, n + 1, r, s.now, es[n].proposal, es[n].protocol, es[n].envelope);
      } else if es[n].Go? && es[n].run == r {
        AdvanceIsTraced(cfg, es, n, r);
      } else {
        StaysTraced(cfg, es, n, r, s.runs[r]);
        EscapedStaysTraced(cfg, es, n + 1, r, s.runs[r]);
      }
    }
  }

  lemma CheckedBounds(cfg: Config, es: seq<Event>, n: nat, r: nat, p: Proposal, m: Mandate)
    requires n <= |es| && Checked(cfg, es, n, r, p, m)
    ensures p.quotedTotalPaise <= m.maxAmountPaise && Policy.SkusAllowed(m, p.items)
  {
    hide At, Moves, Validated;
    var i :| 0 <= i < n && ChecksAt(cfg, es, i, r, p, m);
  }

  lemma SendsNow(cfg: Config, es: seq<Event>, n: nat, r: nat, p: Proposal, m: Mandate, m': Mandate, order: OrderPayload)
    requires n < |es| && SendsAt(cfg, es, n, r, p, order) && Fetched(cfg, es, n, r, p, m, m')
    requires order == OrderPayload(p.quotedTotalPaise, m'.currency, Some(p.mandateId))
    requires p.quotedTotalPaise <= m.maxAmountPaise && Policy.SkusAllowed(m, p.items)
    ensures Justified(cfg, es, n + 1, r, p, m, m', order)
  {
    hide SendsAt, Fetched;
  }

  /** An order sent now is justified by its run's past. */
  lemma SendIsJustified(cfg: Config, es: seq<Event>, n: nat, r: nat, order: OrderPayload)
    requires n < |es| && es[n].Go? && es[n].run == r < |At(cfg, es, n).runs|
    requires Traced(cfg, es, n, r, At(cfg, es, n).runs[r]) && order in OrdersOf(At(cfg, es, n).runs[r], es[n].attempt)
    ensures OrderJustified(cfg, es, n + 1, At(cfg, es, n).runs, SentOrder(r, order))
  {
    hide At, Validated, Checked, Fetched, Justified;
    var run := At(cfg, es, n).runs[r];
    CheckedBounds(cfg, es, n, r, run.proposal, run.bounds.value);
    SendsNow(cfg, es, n, r, run.proposal, run.bounds.value, run.stage.mandate, order);
  }

  /** A justified order stays justified while its run keeps its proposal and bounds. */
  lemma StaysJustified(cfg: Config, es: seq<Event>, n: nat, runs: seq<Run>, runs': seq<Run>, o: SentOrder)
    requires n < |es| && OrderJustified(cfg, es, n, runs, o)
    requires o.run < |runs'|
    requires runs'[o.run].proposal == runs[o.run].proposal && runs'[o.run].bounds == runs[o.run].bounds
    ensures OrderJustified(cfg, es, n + 1, runs', o)
  {
    hide Justified, Validated, Checked, Fetched;
    PastGrows(cfg, es, n, o.run, runs[o.run].proposal);
  }

  lemma SameRunJustified(cfg: Config, es: seq<Event>, n: nat, runs: seq<Run>, runs': seq<Run>, o: SentOrder)
    requires n <= |es| && OrderJustified(cfg, es, n, runs, o)
    requires o.run < |runs'|
    requires runs'[o.run].proposal == runs[o.run].proposal && runs'[o.run].bounds == runs[o.run].bounds
    ensures OrderJustified(cfg, es, n, runs', o)
  {
    hide Justified;
  }

  /** A run keeps its proposal, and its bounds once it has read them. */
  lemma RunsKeepBounds(cfg: Config, es: seq<Event>, n: nat, r: nat)
    requires n < |es| && r < |At(cfg, es, n).runs| && RunsTraced(cfg, es, n)
    ensures var runs, runs' := At(cfg, es, n).runs, At(cfg, es, n + 1).runs;
            && |runs| <= |runs'| && runs'[r].proposal == runs[r].proposal
            && (runs[r].bounds.Some? ==> runs'[r].bounds == runs[r].bounds)
  {
    hide At, Traced, Advance, Start, OrdersOf, Apply;
    AtNext(cfg, es, n);
    VaultStaysConsistent(cfg, es, n);
    if es[n].Go? && es[n].run == r { AdvanceIsTraced(cfg, es, n, r); }
  }

  /** The orders that event n adds are those of the run it moves. */
  lemma NewOrders(cfg: Config, es: seq<Event>, n: nat, o: SentOrder)
    requires n < |es| && o in At(cfg, es, n + 1).sent && o !in At(cfg, es, n).sent
    ensures es[n].Go? && es[n].run == o.run < |At(cfg, es, n).runs|
    ensures o.order in OrdersOf(At(cfg, es, n).runs[o.run], es[n].attempt)
  {
    hide At, Advance, Start, OrdersOf, Apply;
    AtNext(cfg, es, n);
  }

  lemma SentStaysJustified(cfg: Config, es: seq<Event>, n: nat)
    requires n < |es| && RunsTraced(cfg, es, n) && SentJustified(cfg, es, n)
    ensures SentJustified(cfg, es, n + 1)
  {
    hide At, Traced, OrdersOf, Justified;
    var s, s' := At(cfg, es, n), At(cfg, es, n + 1);
    forall o | o in s'.sent ensures OrderJustified(cfg, es, n + 1, s'.runs, o) {
      if o in s.sent {
        RunsKeepBounds(cfg, es, n, o.run);
        StaysJustified(cfg, es, n, s.runs, s'.runs, o);
      } else {
        NewOrders(cfg, es, n, o);
        SendIsJustified(cfg, es, n, o.run, o.order);
        RunsKeepBounds(cfg, es, n, o.run);
        SameRunJustified(cfg, es, n + 1, s.runs, s'.runs, o);
      }
    }
  }

  lemma NothingAtFirst(cfg: Config, es: seq<Event>)
    ensures RunsTraced(cfg, es, 0) && SentJustified(cfg, es, 0)
  {
    hide Traced, OrderJustified;
  }

  lemma {:induction false} AlwaysJustified(cfg: Config, es: seq<Event>, n: nat)
    requires n <= |es|
    ensures RunsTraced(cfg, es, n) && SentJustified(cfg, es, n)
  {
    hide RunsTraced, SentJustified;
    if n == 0 {
      NothingAtFirst(cfg, es);
    } else {
      AlwaysJustified(cfg, es, n - 1);
      RunsStayTraced(cfg, es, n - 1);
      SentStaysJustified(cfg, es, n - 1);
    }
  }

  /** Gate soundness: behind every order that any history sends stand four earlier events of its run, in this order. The
      mandate was usable when the run validated it; the proposal broke no guardrail of the mandate that the run then
      read, so its amount and SKUs are within that mandate; the run then fetched the mandate whose currency it sent. */
  lemma GateSoundness(cfg: Config, es: seq<Event>, o: SentOrder)
    returns (validated: nat, checked: nat, fetched: nat, sent: nat, p: Proposal, m: Mandate, m': Mandate)
    requires o in At(cfg, es, |es|).sent
    ensures validated < checked < fetched < sent < |es|
    ensures ValidatesAt(cfg, es, validated, o.run, p) && ChecksAt(cfg, es, checked, o.run, p, m)
    ensures FetchesAt(cfg, es, fetched, o.run, p, m') && SendsAt(cfg, es, sent, o.run, p, o.order)
    ensures o.order == OrderPayload(p.quotedTotalPaise, m'.currency, Some(p.mandateId))
    ensures o.order.amount <= m.maxAmountPaise && forall line | line in p.items :: line.sku in m.skuAllowlist
  {
    AlwaysJustified(cfg, es, |es|);
    hide At, ValidatesAt, ChecksAt, FetchesAt, SendsAt, RunsTraced;
    var run := At(cfg, es, |es|).runs[o.run];
    p, m := run.proposal, run.bounds.value;
    m' :| Justified(cfg, es, |es|, o.run, p, m, m', o.order);
    sent :| 0 <= sent < |es| && SendsAt(cfg, es, sent, o.run, p, o.order) && Fetched(cfg, es, sent, o.run, p, m, m');
    fetched :| 0 <= fetched < sent && FetchesAt(cfg, es, fetched, o.run, p, m')
        && Checked(cfg, es, fetched, o.run, p, m);
    checked :| 0 <= checked < fetched && ChecksAt(cfg, es, checked, o.run, p, m)
        && Validated(cfg, es, checked, o.run, p);
    validated :| 0 <= validated < checked && ValidatesAt(cfg, es, validated, o.run, p);
  }

  // ---------- every run and its row ----------

  /** The orders that one run has sent. */
  function OrdersSent(sent: seq<SentOrder>, r: nat): seq<OrderPayload> {
    if sent == [] then []
    else
      var last := sent[|sent| - 1];
      OrdersSent(sent[..|sent| - 1], r) + if last.run == r then [last.order] else []
  }

  lemma SentAppend(sent: seq<SentOrder>, o: SentOrder, r: nat)
    ensures OrdersSent(sent + [o], r) == OrdersSent(sent, r) + if o.run == r then [o.order] else []
  {
    assert (sent + [o])[..|sent|] == sent;
  }

  lemma {:induction false} SentMember(sent: seq<SentOrder>, r: nat, order: OrderPayload)
    ensures order in OrdersSent(sent, r) <==> SentOrder(r, order) in sent
  {
    if sent == [] {
    } else {
      var init, last := sent[..|sent| - 1], sent[|sent| - 1];
      SentMember(init, r, order);
      assert sent == init + [last];
    }
  }

  /** Every order is what its run's first attempt stands for, and a run sends no more orders than it makes attempts. */
  predicate Spent(s: System) {
    && (forall o | o in s.sent :: o.run < |s.runs| && OrderOf(s.runs[o.run], o.order))
    && forall r | 0 <= r < |s.runs| :: |OrdersSent(s.sent, r)| == Reached(s.runs[r])
  }

  /** The attempts of a run that reached Razorpay. */
  function Reached(run: Run): nat {
    (if run.tried.Some? && run.tried.value.first.Sent? then 1 else 0)
    + (if run.second.Some? && run.second.value.Sent? then 1 else 0)
  }

  predicate OrderOf(run: Run, order: OrderPayload) {
    run.tried.Some? && order == OrderFor(run.tried.value.mandate, run.proposal)
  }

  lemma {:induction false} NothingSentBy(sent: seq<SentOrder>, r: nat)
    requires forall o | o in sent :: o.run != r
    ensures OrdersSent(sent, r) == []
  {
    if sent == [] {
    } else {
      NothingSentBy(sent[..|sent| - 1], r);
    }
  }

  /** What a run keeps for good, and what it adds when it pays. */
  lemma AdvanceKeeps(cfg: Config, v: VaultState, now: Instant, run: Run, attempt: Attempt)
    requires Honest(run)
    ensures var next := Advance(cfg, v, now, run, attempt);
            && next.proposal == run.proposal
            && (run.tried.Some? ==> next.tried == run.tried)
            && next.attempts == run.attempts + |OrdersOf(run, attempt)|
                + (if IsPaying(run) && attempt.Blocked? then 1 else 0)
            && |OrdersOf(run, attempt)| <= 1 && Reached(next) == Reached(run) + |OrdersOf(run, attempt)|
            && (forall order | order in OrdersOf(run, attempt) :: OrderOf(next, order))
            && (run.stage.Paying? ==> next.tried == Some(Tried(run.stage.mandate, attempt)))
            && next.second == (if run.stage.Retrying? then Some(attempt) else run.second)
            && (next.stage.Returned? <==> run.stage.Logging? || run.stage.Returned?)
            && (run.stage.Logging? ==> next == run.(stage := Returned(run.stage.result)))
            && (run.stage.Returned? ==> next == run)
  {
    hide Tells, Settled, RefusalEntry, Refuse, Policy.Violation, TransientFirst, Usable;
  }

  lemma GoSpends(cfg: Config, s: System, r: nat, attempt: Attempt)
    requires Balanced(s) && Spent(s) && r < |s.runs|
    ensures Spent(Step(cfg, s, Go(r, attempt)))
  {
    hide Advance, OrdersOf, Honest, Balanced, OrderOf, OrdersSent, Reached;
    var run, orders, s' := s.runs[r], OrdersOf(s.runs[r], attempt), Step(cfg, s, Go(r, attempt));
    BalancedIsHonest(s, r);
    AdvanceKeeps(cfg, s.vault, s.now, run, attempt);
    assert s'.sent == s.sent || s'.sent == s.sent + [SentOrder(r, orders[0])];
    forall o | o in s'.sent ensures o.run < |s'.runs| && OrderOf(s'.runs[o.run], o.order) {
      if o in s.sent { OrderStays(s.runs[o.run], s'.runs[o.run], o.order); }
    }
    forall q | 0 <= q < |s'.runs| ensures |OrdersSent(s'.sent, q)| == Reached(s'.runs[q]) {
      if orders != [] { SentAppend(s.sent, SentOrder(r, orders[0]), q); }
    }
  }

  lemma OrderStays(run: Run, next: Run, order: OrderPayload)
    requires OrderOf(run, order) && next.proposal == run.proposal && (run.tried.Some? ==> next.tried == run.tried)
    ensures OrderOf(next, order)
  {
  }

  lemma BalancedIsHonest(s: System, r: nat)
    requires Balanced(s) && r < |s.runs|
    ensures Honest(s.runs[r])
  {
    hide Honest;
    assert s.runs[r] in s.runs;
  }

  lemma StepSpends(cfg: Config, s: System, e: Event)
    requires Balanced(s) && Spent(s)
    ensures Spent(Step(cfg, s, e))
  {
    hide Start, Balanced, OrdersSent;
    match e
    case Begin(p, protocol, envelope) =>
      NothingSentBy(s.sent, |s.runs|);
      StartHasNoRetry(cfg.py, s.now, p, protocol, envelope);
    case Go(r, attempt) => if r < |s.runs| { GoSpends(cfg, s, r, attempt); }
    case _ =>
  }

  predicate HasRow(log: seq<Row>, r: nat) {
    exists row | row in log :: row.run == r
  }

  predicate RowTells(s: System, row: Row) {
    && row.run < |s.runs| && s.runs[row.run].stage.Returned?
    && Tells(s.runs[row.run], row.entry, s.runs[row.run].stage.result)
  }

  /** The runs that have returned and the rows are one to one, and each row tells of its run. */
  predicate Filed(s: System) {
    && (forall row | row in s.log :: RowTells(s, row))
    && (forall i, j | 0 <= i < j < |s.log| :: s.log[i].run != s.log[j].run)
    && forall r | 0 <= r < |s.runs| && s.runs[r].stage.Returned? :: HasRow(s.log, r)
  }

  lemma LoggingTells(run: Run)
    requires Honest(run) && run.stage.Logging?
    ensures Tells(run.(stage := Returned(run.stage.result)), run.stage.entry, run.stage.result)
  {
    hide Accounted, TransientFirst;
  }

  /** Runs that return add their row; the others' rows stand. */
  lemma FilesOneMore(s: System, s': System, r: nat, row: Row)
    requires Filed(s) && r < |s.runs| && !s.runs[r].stage.Returned? && row.run == r
    requires s'.log == s.log + [row] && |s'.runs| == |s.runs|
    requires forall q | 0 <= q < |s.runs| && q != r :: s'.runs[q] == s.runs[q]
    requires RowTells(s', row)
    ensures Filed(s')
  {
    hide Tells;
    forall o | o in s'.log ensures RowTells(s', o) {
      if o in s.log { assert RowTells(s, o); }
    }
    forall i | 0 <= i < |s.log| ensures s.log[i].run != r { assert RowTells(s, s.log[i]); }
    assert s'.log[|s.log|] == row;
    forall q | 0 <= q < |s'.runs| && s'.runs[q].stage.Returned? ensures HasRow(s'.log, q) {
      if q != r {
        var o :| o in s.log && o.run == q;
        assert o in s'.log;
      }
    }
  }

  lemma FilesNoMore(s: System, s': System)
    requires Filed(s) && s'.log == s.log && |s.runs| <= |s'.runs|
    requires forall q | 0 <= q < |s'.runs| :: (q < |s.runs| && s'.runs[q] == s.runs[q]) || !s'.runs[q].stage.Returned?
    requires forall q | 0 <= q < |s.runs| && s.runs[q].stage.Returned? :: s'.runs[q] == s.runs[q]
    ensures Filed(s')
  {
    hide Tells, HasRow;
    forall o | o in s'.log ensures RowTells(s', o) { assert RowTells(s, o); }
  }

  lemma GoFiles(cfg: Config, s: System, r: nat, attempt: Attempt)
    requires Balanced(s) && Filed(s) && r < |s.runs|
    ensures Filed(Step(cfg, s, Go(r, attempt)))
  {
    hide Advance, OrdersOf, Honest, Balanced, Tells, Filed, HasRow;
    var run, s' := s.runs[r], Step(cfg, s, Go(r, attempt));
    BalancedIsHonest(s, r);
    AdvanceKeeps(cfg, s.vault, s.now, run, attempt);
    if run.stage.Logging? {
      LoggingTells(run);
      FilesOneMore(s, s', r, Row(r, run.stage.entry));
    } else {
      FilesNoMore(s, s');
    }
  }

  lemma StepFiles(cfg: Config, s: System, e: Event)
    requires Balanced(s) && Filed(s)
    ensures Filed(Step(cfg, s, e))
  {
    hide Start, Balanced, Filed;
    match e
    case Begin(p, protocol, envelope) =>
      StartIsHonest(cfg.py, s.now, p, protocol, envelope);
      FilesNoMore(s, Step(cfg, s, e));
    case Go(r, attempt) => if r < |s.runs| { GoFiles(cfg, s, r, attempt); }
    case _ => FilesNoMore(s, Step(cfg, s, e));
  }

  lemma NothingIsFiled()
    ensures Filed(System(EMPTY, 0, [], [], 0, [])) && Spent(System(EMPTY, 0, [], [], 0, []))
  {
    hide Tells, OrderOf;
  }

  lemma {:induction false} AlwaysFiled(cfg: Config, es: seq<Event>, n: nat)
    requires n <= |es|
    ensures Filed(At(cfg, es, n)) && Spent(At(cfg, es, n))
  {
    hide At, Step, Balanced, Filed, Spent;
    if n == 0 {
      AtFirst(cfg, es);
      NothingIsFiled();
    } else {
      AlwaysFiled(cfg, es, n - 1);
      AlwaysBalanced(cfg, es, n - 1);
      AtNext(cfg, es, n - 1);
      StepFiles(cfg, At(cfg, es, n - 1), es[n - 1]);
      StepSpends(cfg, At(cfg, es, n - 1), es[n - 1]);
    }
  }

  lemma TellsWithOrders(run: Run, entry: LogRequest, result: CheckoutResult, orders: seq<OrderPayload>)
    requires Tells(run, entry, result) && |orders| <= run.attempts
    ensures Accounted(Conclusion(result, entry, run.attempts, orders))
  {
    hide OnRecord, ReadNote, TransientFirst;
  }

  /** Every run of every history, whatever interleaves: it has returned exactly if one row, and only one, is its own.
      That row and its result then account for its attempts and orders: allowed, paid and `ok` are one, a refusal's
      row carries the returned reason, a refusal by a gate means no attempt, and two attempts mean a transient first
      fault and a row that says so. Every order is for the quoted total under the mandate the run pays under. */
  lemma EveryRunIsAccounted(cfg: Config, es: seq<Event>, r: nat)
    requires r < |At(cfg, es, |es|).runs|
    ensures var s := At(cfg, es, |es|);
            var run := s.runs[r];
            && (run.stage.Returned? <==> HasRow(s.log, r))
            && (forall i, j | 0 <= i < |s.log| && 0 <= j < |s.log| && s.log[i].run == r == s.log[j].run :: i == j)
            && (forall row | row in s.log && row.run == r ::
                  && run.stage.Returned? && Tells(run, row.entry, run.stage.result)
                  && Accounted(Conclusion(run.stage.result, row.entry, run.attempts, OrdersSent(s.sent, r))))
            && |OrdersSent(s.sent, r)| == Reached(run) <= run.attempts <= 2
            && (run.tried.Some? <==> run.attempts > 0)
            && forall order | order in OrdersSent(s.sent, r) :: OrderOf(run, order)
  {
    hide At, Balanced, Tells, Accounted, OrdersSent, OrderOf;
    var s := At(cfg, es, |es|);
    AlwaysBalanced(cfg, es, |es|);
    AlwaysFiled(cfg, es, |es|);
    BalancedIsHonest(s, r);
    HonestTriesTwice(s.runs[r]);
    forall row | row in s.log && row.run == r
      ensures s.runs[r].stage.Returned? && Tells(s.runs[r], row.entry, s.runs[r].stage.result)
      ensures Accounted(Conclusion(s.runs[r].stage.result, row.entry, s.runs[r].attempts, OrdersSent(s.sent, r)))
    {
      assert RowTells(s, row);
      TellsWithOrders(s.runs[r], row.entry, s.runs[r].stage.result, OrdersSent(s.sent, r));
    }
    forall order | order in OrdersSent(s.sent, r) ensures OrderOf(s.runs[r], order) { SentMember(s.sent, r, order); }
  }

  lemma TriedStays(cfg: Config, es: seq<Event>, n: nat, r: nat)
    requires n < |es| && r < |At(cfg, es, n).runs|
    ensures var runs, runs' := At(cfg, es, n).runs, At(cfg, es, n + 1).runs;
            && r < |runs'| && runs'[r].proposal == runs[r].proposal
            && (runs[r].tried.Some? ==> runs'[r].tried == runs[r].tried)
  {
    hide At, Advance, Start, OrdersOf, Balanced, Honest, Apply;
    AtNext(cfg, es, n);
    AlwaysBalanced(cfg, es, n);
    var s := At(cfg, es, n);
    BalancedIsHonest(s, r);
    if es[n].Go? && es[n].run == r { AdvanceKeeps(cfg, s.vault, s.now, s.runs[r], es[n].attempt); }
  }

  lemma {:induction false} TriedLasts(cfg: Config, es: seq<Event>, n: nat, k: nat, r: nat)
    requires n <= k <= |es| && r < |At(cfg, es, n).runs| && At(cfg, es, n).runs[r].tried.Some?
    ensures r < |At(cfg, es, k).runs| && At(cfg, es, k).runs[r].tried == At(cfg, es, n).runs[r].tried
  {
    hide At;
    if k == n {
    } else {
      TriedLasts(cfg, es, n, k - 1, r);
      TriedStays(cfg, es, k - 1, r);
    }
  }

  /** The first attempt that a run makes is the one it remembers. */
  lemma PayingIsRemembered(cfg: Config, es: seq<Event>, i: nat, r: nat, p: Proposal, tried: Tried)
    requires i < |es| && PaysAt(cfg, es, i, r, p, tried)
    ensures r < |At(cfg, es, |es|).runs| && At(cfg, es, |es|).runs[r].tried == Some(tried)
  {
    hide At, Advance, OrdersOf, Balanced, Honest;
    var s := At(cfg, es, i);
    AtNext(cfg, es, i);
    AlwaysBalanced(cfg, es, i);
    BalancedIsHonest(s, r);
    AdvanceKeeps(cfg, s.vault, s.now, s.runs[r], es[i].attempt);
    TriedLasts(cfg, es, i + 1, |es|, r);
  }

  /** A run that returned made two attempts exactly if its first paying event met a transient fault, and none exactly if
      it has no paying event; what it pays under is what an earlier event of its own fetched. */
  lemma RetriesExactly(cfg: Config, es: seq<Event>, r: nat)
    requires r < |At(cfg, es, |es|).runs| && At(cfg, es, |es|).runs[r].stage.Returned?
    ensures var run := At(cfg, es, |es|).runs[r];
            && (run.attempts == 2 <==>
                  exists i, t | 0 <= i < |es| :: PaysAt(cfg, es, i, r, run.proposal, t) && TransientFirst(t.first))
            && (run.attempts > 0 <==> exists i, t | 0 <= i < |es| :: PaysAt(cfg, es, i, r, run.proposal, t))
            && (run.attempts > 0 ==>
                  run.bounds.Some? && run.tried.Some?
                      && Paid(cfg, es, |es|, r, run.proposal, run.bounds.value, run.tried.value))
  {
    hide At, PaysAt, Fetched, Checked, Validated, Accounted, TransientFirst, Balanced, HasRow, OrdersSent, Filed;
    var run := At(cfg, es, |es|).runs[r];
    EveryRunIsAccounted(cfg, es, r);
    AlwaysJustified(cfg, es, |es|);
    ReturnedTells(cfg, es, r);
    forall i, t | 0 <= i < |es| && PaysAt(cfg, es, i, r, run.proposal, t) ensures run.tried == Some(t) {
      PayingIsRemembered(cfg, es, i, r, run.proposal, t);
    }
  }

  /** What a run remembers of its retry is an attempt that an event of its own made after the first had failed. */
  lemma {:induction false} RetryIsAnEvent(cfg: Config, es: seq<Event>, n: nat, r: nat) returns (i: nat)
    requires n <= |es| && r < |At(cfg, es, n).runs| && At(cfg, es, n).runs[r].second.Some?
    ensures i < n && r < |At(cfg, es, i).runs| && At(cfg, es, i).runs[r].stage.Retrying?
    ensures es[i] == Go(r, At(cfg, es, n).runs[r].second.value)
  {
    hide At, Advance, Start, OrdersOf, Balanced, Honest, Apply;
    i := 0;
    if n == 0 {
      AtFirst(cfg, es);
    } else {
      AtNext(cfg, es, n - 1);
      var s := At(cfg, es, n - 1);
      if r == |s.runs| {
        StartHasNoRetry(cfg.py, s.now, es[n - 1].proposal, es[n - 1].protocol, es[n - 1].envelope);
      } else {
        AlwaysBalanced(cfg, es, n - 1);
        BalancedIsHonest(s, r);
        if es[n - 1].Go? && es[n - 1].run == r { AdvanceKeeps(cfg, s.vault, s.now, s.runs[r], es[n - 1].attempt); }
        if s.runs[r].stage.Retrying? && es[n - 1].Go? && es[n - 1].run == r {
          i := n - 1;
        } else {
          i := RetryIsAnEvent(cfg, es, n - 1, r);
        }
      }
    }
  }

  lemma StartHasNoRetry(py: Python, now: Instant, p: Proposal, protocol: Option<string>, envelope: Option<Json>)
    ensures Start(py, now, p, protocol, envelope).tried.None? && Start(py, now, p, protocol, envelope).second.None?
  {
    hide EnvelopeGate, RefusalEntry, Refuse;
  }

  lemma ReturnedTells(cfg: Config, es: seq<Event>, r: nat)
    requires r < |At(cfg, es, |es|).runs| && At(cfg, es, |es|).runs[r].stage.Returned?
    ensures var run := At(cfg, es, |es|).runs[r];
            run.attempts == 2 <==> run.tried.Some? && TransientFirst(run.tried.value.first)
  {
    hide At, Accounted, TransientFirst, OrdersSent;
    EveryRunIsAccounted(cfg, es, r);
  }

  // ---------- how much can be sent ----------

  function Total(sent: seq<SentOrder>): nat {
    if sent == [] then 0 else Total(sent[..|sent| - 1]) + sent[|sent| - 1].order.amount
  }

  /** The maximum of the mandate that the run's policy step read. */
  function MaxRead(run: Run): nat {
    if run.bounds.None? then 0 else run.bounds.value.maxAmountPaise
  }

  /** What a run may have sent so far. */
  function Exposure(run: Run): nat {
    if run.attempts == 0 then 0
    else if run.attempts == 1 then run.proposal.quotedTotalPaise
    else 2 * run.proposal.quotedTotalPaise
  }

  lemma TotalAppend(sent: seq<SentOrder>, o: SentOrder)
    ensures Total(sent + [o]) == Total(sent) + o.order.amount
  {
    assert (sent + [o])[..|sent|] == sent;
  }

  lemma AdvanceExposure(cfg: Config, v: VaultState, now: Instant, run: Run, attempt: Attempt)
    requires Honest(run)
    ensures Exposure(Advance(cfg, v, now, run, attempt))
         == Exposure(run) + if IsPaying(run) then run.proposal.quotedTotalPaise else 0
  {
    hide Settled, RefusalEntry, Refuse, Policy.Violation, OnRecord, Usable;
  }

  predicate WithinExposure(s: System) {
    Total(s.sent) <= Sum(Exposure, s.runs)
  }

  /** What one move of a run sends: nothing, or one order for its quoted total. */
  lemma OrdersAmount(run: Run, attempt: Attempt)
    ensures var orders := OrdersOf(run, attempt);
            orders == [] || (IsPaying(run) && |orders| == 1 && orders[0].amount == run.proposal.quotedTotalPaise)
  {
  }

  lemma GoExposure(cfg: Config, s: System, r: nat, attempt: Attempt)
    requires Balanced(s) && WithinExposure(s) && r < |s.runs|
    ensures WithinExposure(Step(cfg, s, Go(r, attempt)))
  {
    hide Advance, Honest, Balanced, OrdersOf, Exposure, Sum, Total;
    var run, orders, s' := s.runs[r], OrdersOf(s.runs[r], attempt), Step(cfg, s, Go(r, attempt));
    BalancedIsHonest(s, r);
    AdvanceExposure(cfg, s.vault, s.now, run, attempt);
    SumUpdate(Exposure, s.runs, r, Advance(cfg, s.vault, s.now, run, attempt));
    OrdersAmount(run, attempt);
    if orders == [] {
      assert s'.sent == s.sent;
    } else {
      TotalAppend(s.sent, SentOrder(r, orders[0]));
      assert s'.sent == s.sent + [SentOrder(r, orders[0])];
    }
  }

  lemma StepExposure(cfg: Config, s: System, e: Event)
    requires Balanced(s) && WithinExposure(s)
    ensures WithinExposure(Step(cfg, s, e))
  {
    hide Start, Apply, Honest, Balanced, Sum, Total;
    match e
    case Go(r, attempt) => if r < |s.runs| { GoExposure(cfg, s, r, attempt); }
    case Fault(r) => if r < |s.runs| { SumUpdate(Exposure, s.runs, r, s.runs[r].(stage := Escaped)); }
    case Begin(p, protocol, envelope) => SumAppend(Exposure, s.runs, Start(cfg.py, s.now, p, protocol, envelope));
    case _ =>
  }

  lemma NothingExposes()
    ensures WithinExposure(System(EMPTY, 0, [], [], 0, []))
  {
    hide Exposure;
  }

  lemma {:induction false} AlwaysExposed(cfg: Config, es: seq<Event>, n: nat)
    requires n <= |es|
    ensures WithinExposure(At(cfg, es, n))
  {
    hide At, Step, Balanced, WithinExposure;
    if n == 0 {
      AtFirst(cfg, es);
      NothingExposes();
    } else {
      AlwaysExposed(cfg, es, n - 1);
      AlwaysBalanced(cfg, es, n - 1);
      AtNext(cfg, es, n - 1);
      StepExposure(cfg, At(cfg, es, n - 1), es[n - 1]);
    }
  }

  lemma ExposureWithinBounds(cfg: Config, es: seq<Event>, r: nat)
    requires r < |At(cfg, es, |es|).runs|
    ensures Exposure(At(cfg, es, |es|).runs[r]) <= 2 * MaxRead(At(cfg, es, |es|).runs[r])
  {
    AlwaysJustified(cfg, es, |es|);
    hide At, Checked, Fetched, Validated, SentJustified;
    var run := At(cfg, es, |es|).runs[r];
    if run.bounds.Some? { CheckedBounds(cfg, es, |es|, r, run.proposal, run.bounds.value); }
  }

  /** All orders of a history together stay within twice the maxima that its runs' policy steps read. */
  lemma TotalWithinBounds(cfg: Config, es: seq<Event>)
    ensures Total(At(cfg, es, |es|).sent) <= 2 * Sum(MaxRead, At(cfg, es, |es|).runs)
  {
    hide At;
    var runs := At(cfg, es, |es|).runs;
    AlwaysExposed(cfg, es, |es|);
    forall run | run in runs ensures Exposure(run) <= 2 * MaxRead(run) {
      var r :| 0 <= r < |runs| && runs[r] == run;
      ExposureWithinBounds(cfg, es, r);
    }
    SumAtMost(Exposure, MaxRead, runs);
  }

  // ---------- the envelope ----------

  /** Two events that differ at most in an envelope that passes its gate. */
  predicate SameButEnvelope(py: Python, now: Instant, a: Event, b: Event) {
    a == b ||
    (a.Begin? && b.Begin? && a.proposal == b.proposal
     && EnvelopeGate(py, now, a.proposal, a.protocol, a.envelope).Pass?
     && EnvelopeGate(py, now, b.proposal, b.protocol, b.envelope).Pass?)
  }

  /** Non-interference: envelopes that pass their gate, or none at all, leave every history the same, whatever else the
      envelopes say. */
  lemma {:induction false} EnvelopeNonInterference(cfg: Config, es: seq<Event>, fs: seq<Event>, n: nat)
    requires n <= |es| == |fs|
    requires forall i | 0 <= i < n :: SameButEnvelope(cfg.py, At(cfg, es, i).now, es[i], fs[i])
    ensures At(cfg, es, n) == At(cfg, fs, n)
  {
    hide At, Step, SameButEnvelope;
    if n == 0 {
      AtFirst(cfg, es);
      AtFirst(cfg, fs);
    } else {
      AtNext(cfg, es, n - 1);
      AtNext(cfg, fs, n - 1);
      EnvelopeNonInterference(cfg, es, fs, n - 1);
      SameStep(cfg, At(cfg, es, n - 1), es[n - 1], fs[n - 1]);
    }
  }

  lemma SameStep(cfg: Config, s: System, a: Event, b: Event)
    requires SameButEnvelope(cfg.py, s.now, a, b)
    ensures Step(cfg, s, a) == Step(cfg, s, b)
  {
    hide EnvelopeGate, Start, Advance, OrdersOf, Apply;
    if a != b { SameStart(cfg.py, s.now, a, b); }
  }

  lemma SameStart(py: Python, now: Instant, a: Event, b: Event)
    requires a.Begin? && b.Begin? && SameButEnvelope(py, now, a, b)
    ensures Start(py, now, a.proposal, a.protocol, a.envelope) == Start(py, now, b.proposal, b.protocol, b.envelope)
  {
    hide EnvelopeGate;
    GateNeverBlamesExecutor(py, now, a.proposal, a.protocol, a.envelope);
    GateNeverBlamesExecutor(py, now, b.proposal, b.protocol, b.envelope);
  }

  /** The start of a run with an envelope: as without one, or a refusal without attempts, or an exception. */
  lemma EnvelopeAtStart(py: Python, now: Instant, p: Proposal, protocol: Option<string>, other: Option<string>,
                        envelope: Option<Json>)
    ensures var run := Start(py, now, p, protocol, envelope);
            run == Start(py, now, p, other, None) || RefusedRun(run)
  {
    hide EnvelopeGate, OnRecord, Tells;
    NoEnvelopePasses(py, now, p, other);
    GateNeverBlamesExecutor(py, now, p, protocol, envelope);
  }

  lemma NoEnvelopePasses(py: Python, now: Instant, p: Proposal, protocol: Option<string>)
    ensures EnvelopeGate(py, now, p, protocol, None) == Pass(p.mandateId)
  {
  }

  /** The run was refused before any attempt, or an exception ended it before any. */
  predicate RefusedRun(run: Run) {
    && run.attempts == 0
    && match run.stage
       case Logging(_, result) => !result.allowed
       case Returned(result) => !result.allowed
       case Escaped => true
       case _ => false
  }

  /** The rows of all runs but one. */
  function OtherRows(log: seq<Row>, r: nat): seq<Row> {
    if log == [] then []
    else OtherRows(log[..|log| - 1], r) + if log[|log| - 1].run == r then [] else [log[|log| - 1]]
  }

  /** The orders of all runs but one. */
  function OtherOrders(sent: seq<SentOrder>, r: nat): seq<SentOrder> {
    if sent == [] then []
    else OtherOrders(sent[..|sent| - 1], r) + if sent[|sent| - 1].run == r then [] else [sent[|sent| - 1]]
  }

  /** Two systems that differ in one run, its rows and its orders alone. */
  predicate SameApartFrom(s: System, t: System, r: nat) {
    && s.vault == t.vault && s.now == t.now && r < |s.runs| == |t.runs|
    && (forall q | 0 <= q < |s.runs| && q != r :: s.runs[q] == t.runs[q])
    && OtherRows(s.log, r) == OtherRows(t.log, r) && OtherOrders(s.sent, r) == OtherOrders(t.sent, r)
  }

  lemma OthersAppend(log: seq<Row>, row: Row, sent: seq<SentOrder>, o: SentOrder, r: nat)
    ensures OtherRows(log + [row], r) == OtherRows(log, r) + if row.run == r then [] else [row]
    ensures OtherOrders(sent + [o], r) == OtherOrders(sent, r) + if o.run == r then [] else [o]
  {
    assert (log + [row])[..|log|] == log && (sent + [o])[..|sent|] == sent;
  }

  /** What one move adds for the other runs. */
  lemma GoOthers(cfg: Config, s: System, q: nat, attempt: Attempt, r: nat)
    requires q < |s.runs|
    ensures var s', run, orders := Step(cfg, s, Go(q, attempt)), s.runs[q], OrdersOf(s.runs[q], attempt);
            && OtherRows(s'.log, r) == OtherRows(s.log, r)
                 + (if run.stage.Logging? && q != r then [Row(q, run.stage.entry)] else [])
            && OtherOrders(s'.sent, r) == OtherOrders(s.sent, r)
                 + (if orders != [] && q != r then [SentOrder(q, orders[0])] else [])
  {
    hide Advance, OtherRows, OtherOrders, OrderFor;
    var s', run, orders := Step(cfg, s, Go(q, attempt)), s.runs[q], OrdersOf(s.runs[q], attempt);
    var row := Row(q, if run.stage.Logging? then run.stage.entry else RefusalEntry(run.proposal, "", None, false));
    var o := SentOrder(q, if orders != [] then orders[0] else OrderPayload(0, "", None));
    OthersAppend(s.log, row, s.sent, o, r);
    assert s'.log == if run.stage.Logging? then s.log + [row] else s.log;
    assert s'.sent == if orders != [] then s.sent + [o] else s.sent;
  }

  lemma RefusedStays(cfg: Config, v: VaultState, now: Instant, run: Run, attempt: Attempt)
    requires RefusedRun(run)
    ensures RefusedRun(Advance(cfg, v, now, run, attempt)) && OrdersOf(run, attempt) == []
  {
  }

  lemma StaysApart(cfg: Config, s: System, t: System, e: Event, r: nat)
    requires SameApartFrom(s, t, r) && RefusedRun(t.runs[r])
    ensures SameApartFrom(Step(cfg, s, e), Step(cfg, t, e), r) && RefusedRun(Step(cfg, t, e).runs[r])
  {
    hide Start, Advance, OrdersOf, Apply, OtherRows, OtherOrders;
    match e
    case Go(q, attempt) =>
      if q < |s.runs| {
        GoOthers(cfg, s, q, attempt, r);
        GoOthers(cfg, t, q, attempt, r);
        RefusedStays(cfg, t.vault, t.now, t.runs[r], attempt);
      }
    case _ =>
  }

  /** The run that event i begins. */
  function BegunAt(cfg: Config, es: seq<Event>, i: nat): nat
    requires i < |es|
  {
    |At(cfg, es, i).runs|
  }

  lemma {:induction false} SamePast(cfg: Config, es: seq<Event>, fs: seq<Event>, n: nat)
    requires n <= |es| == |fs| && es[..n] == fs[..n]
    ensures At(cfg, es, n) == At(cfg, fs, n)
  {
    hide At, Step;
    if n == 0 {
      AtFirst(cfg, es);
      AtFirst(cfg, fs);
    } else {
      assert es[..n - 1] == es[..n][..n - 1] && fs[..n - 1] == fs[..n][..n - 1];
      assert es[n - 1] == es[..n][n - 1] == fs[n - 1];
      SamePast(cfg, es, fs, n - 1);
      AtNext(cfg, es, n - 1);
      AtNext(cfg, fs, n - 1);
    }
  }

  lemma {:induction false} EnvelopeTouchesOneRun(cfg: Config, es: seq<Event>, i: nat, protocol: Option<string>,
                                                 envelope: Option<Json>, n: nat)
    requires i < n <= |es| && es[i].Begin? && es[i].envelope.None?
    ensures var fs := es[i := es[i].(protocol := protocol, envelope := envelope)];
            var s, t, r := At(cfg, es, n), At(cfg, fs, n), BegunAt(cfg, es, i);
            s == t || (SameApartFrom(s, t, r) && RefusedRun(t.runs[r]))
  {
    hide At, Step, SameApartFrom, RefusedRun;
    var fs, r := es[i := es[i].(protocol := protocol, envelope := envelope)], BegunAt(cfg, es, i);
    AtNext(cfg, es, n - 1);
    AtNext(cfg, fs, n - 1);
    if n == i + 1 {
      SamePast(cfg, es, fs, i);
      BeginsApart(cfg, At(cfg, es, i), es[i].proposal, es[i].protocol, protocol, envelope);
    } else {
      EnvelopeTouchesOneRun(cfg, es, i, protocol, envelope, n - 1);
      var s, t := At(cfg, es, n - 1), At(cfg, fs, n - 1);
      if s != t { StaysApart(cfg, s, t, es[n - 1], r); }
    }
  }

  lemma BeginsApart(cfg: Config, s: System, p: Proposal, other: Option<string>, protocol: Option<string>,
                    envelope: Option<Json>)
    ensures var t, u := Step(cfg, s, Begin(p, other, None)), Step(cfg, s, Begin(p, protocol, envelope));
            t == u || (SameApartFrom(t, u, |s.runs|) && RefusedRun(u.runs[|s.runs|]))
  {
    hide Start;
    EnvelopeAtStart(cfg.py, s.now, p, protocol, other, envelope);
  }

  /** Adding an envelope to one run of any history changes nothing at all, or else it refuses that run without an
      attempt and an order, or an exception ends it so; every other run, row and order is what it was, and so are
      vault and clock. */
  lemma EnvelopeOnlyRefuses(cfg: Config, es: seq<Event>, i: nat, protocol: Option<string>, envelope: Option<Json>)
    requires i < |es| && es[i].Begin? && es[i].envelope.None?
    ensures var fs := es[i := es[i].(protocol := protocol, envelope := envelope)];
            var s, t, r := At(cfg, es, |es|), At(cfg, fs, |fs|), BegunAt(cfg, es, i);
            s == t || (SameApartFrom(s, t, r) && RefusedRun(t.runs[r]) && OrdersSent(t.sent, r) == [])
  {
    hide At, SameApartFrom, OrdersSent, Tells, Accounted, HasRow, BegunAt;
    var fs := es[i := es[i].(protocol := protocol, envelope := envelope)];
    EnvelopeTouchesOneRun(cfg, es, i, protocol, envelope, |es|);
    var t, r := At(cfg, fs, |fs|), BegunAt(cfg, es, i);
    if At(cfg, es, |es|) != t {
      assert r < |t.runs| by { ApartIsThere(At(cfg, es, |es|), t, r); }
      EveryRunIsAccounted(cfg, fs, r);
    }
  }

  lemma ApartIsThere(s: System, t: System, r: nat)
    requires SameApartFrom(s, t, r)
    ensures r < |t.runs|
  {
  }

  // ---------- runs that the gate stops ----------

  predicate RefusedWith(result: CheckoutResult, mandateId: string, code: string) {
    && result.mandateId == mandateId && !result.allowed && result.payment.None?
    && result.reasonCode == Some(code) && result.violations == [code]
  }

  /** The run was stopped with the code before any attempt, unless an exception ended it before its row. */
  predicate StoppedWith(run: Run, p: Proposal, code: string) {
    && run.proposal == p && run.attempts == 0
    && match run.stage
       case Logging(_, result) => RefusedWith(result, p.mandateId, code)
       case Returned(result) => RefusedWith(result, p.mandateId, code)
       case Escaped => true
       case _ => false
  }

  lemma StopsAtStart(py: Python, now: Instant, p: Proposal, protocol: Option<string>, envelope: Option<Json>)
    requires EnvelopeGate(py, now, p, protocol, envelope).Stop?
    ensures StoppedWith(Start(py, now, p, protocol, envelope), p, EnvelopeGate(py, now, p, protocol, envelope).code)
  {
    hide EnvelopeGate, RefusalEntry;
  }

  lemma StoppedStays(cfg: Config, s: System, e: Event, r: nat, p: Proposal, code: string)
    requires r < |s.runs| && StoppedWith(s.runs[r], p, code)
    ensures r < |Step(cfg, s, e).runs| && StoppedWith(Step(cfg, s, e).runs[r], p, code)
  {
    hide Start, OrdersOf, Apply, RefusedWith, Settled, Stop, Usable, Policy.Violation;
  }

  lemma {:induction false} StopLasts(cfg: Config, es: seq<Event>, i: nat, n: nat)
    requires i < n <= |es| && es[i].Begin?
    requires EnvelopeGate(cfg.py, At(cfg, es, i).now, es[i].proposal, es[i].protocol, es[i].envelope).Stop?
    ensures var gate := EnvelopeGate(cfg.py, At(cfg, es, i).now, es[i].proposal, es[i].protocol, es[i].envelope);
            && BegunAt(cfg, es, i) < |At(cfg, es, n).runs|
            && StoppedWith(At(cfg, es, n).runs[BegunAt(cfg, es, i)], es[i].proposal, gate.code)
  {
    hide At, EnvelopeGate, Start, Advance, OrdersOf, Apply, StoppedWith;
    AtNext(cfg, es, n - 1);
    var s := At(cfg, es, i);
    if n == i + 1 {
      StopsAtStart(cfg.py, s.now, es[i].proposal, es[i].protocol, es[i].envelope);
    } else {
      StopLasts(cfg, es, i, n - 1);
      var gate := EnvelopeGate(cfg.py, s.now, es[i].proposal, es[i].protocol, es[i].envelope);
      StoppedStays(cfg, At(cfg, es, n - 1), es[n - 1], BegunAt(cfg, es, i), es[i].proposal, gate.code);
    }
  }

  /** A run that the gate stops makes no attempt and sends no order in any history, and its result and its row, if it
      comes to them, carry the gate's code. */
  lemma StoppedRun(cfg: Config, es: seq<Event>, i: nat, code: string)
    requires i < |es| && es[i].Begin?
    requires EnvelopeGate(cfg.py, At(cfg, es, i).now, es[i].proposal, es[i].protocol, es[i].envelope) == Gate.Stop(code)
    ensures var s, r := At(cfg, es, |es|), BegunAt(cfg, es, i);
            && r < |s.runs| && StoppedWith(s.runs[r], es[i].proposal, code) && OrdersSent(s.sent, r) == []
            && forall row | row in s.log && row.run == r :: ReadNote(row.entry.metadataJson) == Note(Some(code), false)
  {
    hide At, EnvelopeGate, OrdersSent, BegunAt, HasRow, ReadNote;
    StopLasts(cfg, es, i, |es|);
    var s, r := At(cfg, es, |es|), BegunAt(cfg, es, i);
    EveryRunIsAccounted(cfg, es, r);
  }

  /** A run begun with an envelope that the firewall objects to, anywhere in it, never tries to pay: it is refused with
      `idpi_detected`. */
  lemma ObjectionableRun(cfg: Config, es: seq<Event>, i: nat)
    requires i < |es| && es[i].Begin? && es[i].envelope.Some?
    requires Firewall.Objectionable(cfg.py.lower, es[i].envelope.value)
    ensures var s, r := At(cfg, es, |es|), BegunAt(cfg, es, i);
            && r < |s.runs| && StoppedWith(s.runs[r], es[i].proposal, "idpi_detected") && OrdersSent(s.sent, r) == []
            && forall row | row in s.log && row.run == r ::
                 ReadNote(row.entry.metadataJson) == Note(Some("idpi_detected"), false)
  {
    hide At, EnvelopeGate, OrdersSent, BegunAt, ReadNote, StoppedWith, Firewall.Objectionable;
    GateStopsExactly(cfg.py, At(cfg, es, i).now, es[i].proposal, es[i].protocol, es[i].envelope.value);
    StoppedRun(cfg, es, i, "idpi_detected");
  }

  // ---------- a run that nothing disturbs ----------

  /** How many awaits may still lie before the run's row is written. */
  function Rank(run: Run): nat {
    match run.stage
    case Validating => 5
    case Reading => 4
    case Fetching => 3
    case Paying(_) => 2
    case Retrying(_) => 1
    case _ => 0
  }

  function NextAttempt(run: Run, first: Attempt, second: Attempt): Attempt {
    if run.stage.Retrying? then second else first
  }

  lemma AdvanceLowersRank(cfg: Config, v: VaultState, now: Instant, run: Run, attempt: Attempt)
    requires Rank(run) > 0
    ensures Rank(Advance(cfg, v, now, run, attempt)) < Rank(run)
  {
    hide Settled, RefusalEntry, Refuse, Policy.Violation, TransientFirst, Usable, GetMandate;
  }

  /** The run up to its audit row against a vault and a clock that stand still, with the orders it sends. */
  function Alone(cfg: Config, v: VaultState, now: Instant, run: Run, first: Attempt, second: Attempt)
    : (Run, seq<OrderPayload>)
    decreases Rank(run)
  {
    if Rank(run) == 0 then (run, [])
    else
      var attempt := NextAttempt(run, first, second);
      AdvanceLowersRank(cfg, v, now, run, attempt);
      hide Advance;
      var rest := Alone(cfg, v, now, Advance(cfg, v, now, run, attempt), first, second);
      (rest.0, OrdersOf(run, attempt) + rest.1)
  }

  lemma AloneStep(cfg: Config, v: VaultState, now: Instant, run: Run, first: Attempt, second: Attempt)
    ensures Rank(run) == 0 ==> Alone(cfg, v, now, run, first, second) == (run, [])
    ensures Rank(run) > 0 ==>
              var attempt := NextAttempt(run, first, second);
              var rest := Alone(cfg, v, now, Advance(cfg, v, now, run, attempt), first, second);
              Alone(cfg, v, now, run, first, second) == (rest.0, OrdersOf(run, attempt) + rest.1)
    ensures Rank(run) > 2 ==>
              Alone(cfg, v, now, run, first, second)
                  == Alone(cfg, v, now, Advance(cfg, v, now, run, first), first, second)
  {
    hide Advance;
    var rest := Alone(cfg, v, now, Advance(cfg, v, now, run, first), first, second);
    assert [] + rest.1 == rest.1;
  }

  /** The run stands before its audit row, with this conclusion. */
  predicate Concluded(alone: (Run, seq<OrderPayload>), c: Conclusion) {
    alone.0.stage == Logging(c.entry, c.result) && alone.0.attempts == c.attempts && alone.1 == c.orders
  }

  lemma AlonePays(cfg: Config, v: VaultState, now: Instant, run: Run, m: Mandate, first: Attempt, second: Attempt)
    requires run.stage == Paying(m) && run.attempts == 0
    ensures Concluded(Alone(cfg, v, now, run, first, second), Pay(run.proposal, m, first, second))
  {
    hide Alone, RefusalEntry, OkEntry, Refuse;
    var next := Advance(cfg, v, now, run, first);
    AloneStep(cfg, v, now, run, first, second);
    AloneStep(cfg, v, now, next, first, second);
    AloneStep(cfg, v, now, Advance(cfg, v, now, next, second), first, second);
  }

  lemma AloneStops(cfg: Config, v: VaultState, now: Instant, run: Run, code: string, first: Attempt, second: Attempt)
    requires run.attempts == 0
    ensures Concluded(Alone(cfg, v, now, Stop(run, code), first, second), Refusal(run.proposal, code))
  {
    hide Alone, RefusalEntry, Refuse;
    AloneStep(cfg, v, now, Stop(run, code), first, second);
  }

  lemma AloneFromValidating(cfg: Config, v: VaultState, now: Instant, run: Run, first: Attempt, second: Attempt)
    requires run == Run(run.proposal, run.proposal.mandateId, None, None, None, 0, Validating)
    ensures var p := run.proposal;
            var c := Conclude(p, Decide(cfg.catalog, cfg.py.lower, v, now, Pass(p.mandateId), p), first, second);
            Concluded(Alone(cfg, v, now, run, first, second), c)
  {
    hide Alone, Stop, RefusalEntry, Refuse, Policy.Violation, Pay, Concluded;
    var p, reading := run.proposal, run.(stage := Reading);
    AloneStep(cfg, v, now, run, first, second);
    AloneStep(cfg, v, now, reading, first, second);
    AloneStops(cfg, v, now, run, MANDATE_INVALID, first, second);
    if Usable(v, p.mandateId, now) {
      var m := v.mandates[p.mandateId].payload;
      var reason := Policy.Violation(cfg.catalog, cfg.py.lower, m, p);
      if reason.Some? {
        AloneStops(cfg, v, now, reading, reason.value, first, second);
      } else {
        AloneStep(cfg, v, now, reading.(bounds := Some(m), stage := Fetching), first, second);
        AlonePays(cfg, v, now, reading.(bounds := Some(m), stage := Paying(m)), m, first, second);
      }
    }
  }

  /** The stages of a run that nothing disturbs add up to what the program does in one go. */
  lemma AloneConcludes(cfg: Config, v: VaultState, now: Instant, p: Proposal, protocol: Option<string>,
                       envelope: Option<Json>, first: Attempt, second: Attempt)
    requires !EnvelopeGate(cfg.py, now, p, protocol, envelope).Raise?
    ensures var gate := EnvelopeGate(cfg.py, now, p, protocol, envelope);
            var c := Conclude(p, Decide(cfg.catalog, cfg.py.lower, v, now, gate, p), first, second);
            Concluded(Alone(cfg, v, now, Start(cfg.py, now, p, protocol, envelope), first, second), c)
  {
    hide EnvelopeGate, Alone, Stop, Refusal, Pay, Concluded, Policy.Evaluate;
    GateNeverBlamesExecutor(cfg.py, now, p, protocol, envelope);
    var run := Run(p, p.mandateId, None, None, None, 0, Validating);
    var gate := EnvelopeGate(cfg.py, now, p, protocol, envelope);
    if gate.Stop? {
      AloneStops(cfg, v, now, run, gate.code, first, second);
    } else {
      AloneFromValidating(cfg, v, now, run, first, second);
    }
  }
}
