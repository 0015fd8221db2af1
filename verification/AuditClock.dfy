/** The logger's calls in three steps: a worker takes the time, reads the last hash and commits its row. A clock orders
    the times, but not the commits. */
module AuditClock {
  import opened Text
  import opened Audit
  import opened Timestamps
  import S = AuditSchedule

  datatype Event =
    | Stamp(worker: nat, time: DateTime)
    | Read(worker: nat)
    | Commit(worker: nat, entry: LogRequest, entryId: string)

  /** The last hash, and the event that read it. */
  datatype Seen = Seen(event: nat, head: string)

  /** A call under way: its time, the event that took it, and what it has read. */
  datatype Call = Call(event: nat, time: DateTime, seen: Option<Seen>)

  datatype State = State(rows: seq<AuditRow>, calls: map<nat, Call>)

  /** A commit ends a call that has read; the database refuses a taken id. */
  predicate Commits(s: State, e: Event) {
    e.Commit? && e.worker in s.calls && s.calls[e.worker].seen.Some?
  }

  predicate Inserts(s: State, e: Event) {
    Commits(s, e) && !Present(s.rows, e.entryId)
  }

  function RowOf(hash: RecordHash, s: State, e: Event): AuditRow
    requires Commits(s, e)
  {
    var call := s.calls[e.worker];
    NewRow(hash, e.entry, e.entryId, IsoFormat(call.time), call.seen.value.head)
  }

  /** The n-th event. Without a time there is no call to read or commit for. */
  function Step(hash: RecordHash, s: State, e: Event, n: nat): State {
    match e
    case Stamp(w, time) => s.(calls := s.calls[w := Call(n, time, None)])
    case Read(w) =>
      if w in s.calls then s.(calls := s.calls[w := s.calls[w].(seen := Some(Seen(n, Head(OrderBy(s.rows)))))]) else s
    case Commit(w, _, _) =>
      if Commits(s, e) then State(if Inserts(s, e) then s.rows + [RowOf(hash, s, e)] else s.rows, s.calls - {w}) else s
  }

  function At(hash: RecordHash, es: seq<Event>, n: nat): State
    requires n <= |es|
  {
    if n == 0 then State([], map[]) else Step(hash, At(hash, es, n - 1), es[n - 1], n - 1)
  }

  predicate InsertsAt(hash: RecordHash, es: seq<Event>, n: nat)
    requires n < |es|
  {
    Inserts(At(hash, es, n), es[n])
  }

  /** The call that event n commits. */
  function CallAt(hash: RecordHash, es: seq<Event>, n: nat): (call: Call)
    requires n < |es| && InsertsAt(hash, es, n)
    ensures call.seen.Some?
  {
    At(hash, es, n).calls[es[n].worker]
  }

  // ---------- conditions on a history ----------

  /** The clock moves strictly forward. */
  predicate Ticking(es: seq<Event>) {
    && (forall k | 0 <= k < |es| && es[k].Stamp? :: es[k].time.Valid())
    && forall j, k | 0 <= j < k < |es| && es[j].Stamp? && es[k].Stamp? :: Instant(es[j].time) < Instant(es[k].time)
  }

  /** No row is inserted between the read that event n depends on and event n. */
  predicate Undisturbed(hash: RecordHash, es: seq<Event>, n: nat)
    requires n < |es| && InsertsAt(hash, es, n)
  {
    forall m | CallAt(hash, es, n).seen.value.event < m < n :: !InsertsAt(hash, es, m)
  }

  /** Every row inserted before event n was stamped before the row of event n. */
  predicate InStampOrder(hash: RecordHash, es: seq<Event>, n: nat)
    requires n < |es| && InsertsAt(hash, es, n)
  {
    forall m | 0 <= m < n && InsertsAt(hash, es, m) :: CallAt(hash, es, m).event < CallAt(hash, es, n).event
  }

  predicate OrderlyAt(hash: RecordHash, es: seq<Event>, n: nat)
    requires n < |es|
  {
    InsertsAt(hash, es, n) ==> Undisturbed(hash, es, n) && InStampOrder(hash, es, n)
  }

  predicate Orderly(hash: RecordHash, es: seq<Event>) {
    forall n | 0 <= n < |es| :: OrderlyAt(hash, es, n)
  }

  /** No row is inserted between the time that event n carries and event n. */
  predicate AloneSinceStamp(hash: RecordHash, es: seq<Event>, n: nat)
    requires n < |es| && InsertsAt(hash, es, n)
  {
    forall m | CallAt(hash, es, n).event < m < n :: !InsertsAt(hash, es, m)
  }

  // ---------- the calls under way ----------

  /** A call remembers its events: the one that took its time, and a later one that read. */
  predicate Remembers(es: seq<Event>, n: nat, w: nat, call: Call) {
    && call.event < n <= |es| && es[call.event] == Stamp(w, call.time)
    && (call.seen.Some? ==> call.event < call.seen.value.event < n && es[call.seen.value.event] == Read(w))
  }

  lemma {:induction false} CallsRemember(hash: RecordHash, es: seq<Event>, n: nat)
    requires n <= |es|
    ensures forall w | w in At(hash, es, n).calls :: Remembers(es, n, w, At(hash, es, n).calls[w])
  {
    hide OrderBy, Head, NewRow;
    if n == 0 {
    } else {
      CallsRemember(hash, es, n - 1);
    }
  }

  // ---------- the same history in two steps ----------

  /** A stamp becomes a read that the call's own read replaces; a commit carries its call's time. */
  function TwoStep(hash: RecordHash, es: seq<Event>, k: nat): S.Event
    requires k < |es|
  {
    var s := At(hash, es, k);
    if Commits(s, es[k])
    then S.Commit(es[k].worker, es[k].entry, es[k].entryId, IsoFormat(s.calls[es[k].worker].time))
    else S.Read(es[k].worker)
  }

  function TwoSteps(hash: RecordHash, es: seq<Event>): (ts: seq<S.Event>)
    ensures |ts| == |es|
  {
    seq(|es|, k requires 0 <= k < |es| => TwoStep(hash, es, k))
  }

  /** The tables agree, and a call has read what its worker holds. */
  predicate Agrees(s: State, t: S.State, ts: seq<S.Event>, n: nat)
    requires n <= |ts|
  {
    && t.rows == s.rows
    && forall w | w in s.calls && s.calls[w].seen.Some? ::
         w in t.held && t.held[w] == s.calls[w].seen.value.head && S.LastRead(ts, n, w) == s.calls[w].seen.value.event
  }

  lemma {:induction false} StepAgrees(hash: RecordHash, es: seq<Event>, t: S.State, ts: seq<S.Event>, n: nat)
    requires n < |es| && |ts| == |es| && ts[n] == TwoStep(hash, es, n) && Agrees(At(hash, es, n), t, ts, n)
    ensures Agrees(Step(hash, At(hash, es, n), es[n], n), S.Step(hash, t, ts[n]), ts, n + 1)
  {
    hide At, OrderBy, Head, NewRow, IsoFormat;
  }

  lemma {:induction false} TwoStepsAgree(hash: RecordHash, es: seq<Event>, n: nat)
    requires n <= |es|
    ensures Agrees(At(hash, es, n), S.Run(hash, TwoSteps(hash, es)[..n]), TwoSteps(hash, es), n)
  {
    hide Step, Agrees, S.Step, TwoSteps;
    var ts := TwoSteps(hash, es);
    if n == 0 {
      StartAgrees(ts);
      assert ts[..0] == [];
    } else {
      TwoStepsAgree(hash, es, n - 1);
      TwoStepsAt(hash, es, n - 1);
      StepAgrees(hash, es, S.Run(hash, ts[..n - 1]), ts, n - 1);
      assert ts[..n][..n - 1] == ts[..n - 1];
    }
  }

  lemma StartAgrees(ts: seq<S.Event>)
    ensures Agrees(State([], map[]), S.State([], map[]), ts, 0)
  {
  }

  lemma TwoStepsAt(hash: RecordHash, es: seq<Event>, k: nat)
    requires k < |es|
    ensures TwoSteps(hash, es)[k] == TwoStep(hash, es, k)
  {
  }

  lemma SameInserts(hash: RecordHash, es: seq<Event>, n: nat)
    requires n < |es|
    ensures S.InsertsAt(hash, TwoSteps(hash, es), n) <==> InsertsAt(hash, es, n)
    ensures InsertsAt(hash, es, n) ==>
              && S.LastRead(TwoSteps(hash, es), n, es[n].worker) == CallAt(hash, es, n).seen.value.event
              && TwoSteps(hash, es)[n].worker == es[n].worker
              && S.RowOf(hash, S.Run(hash, TwoSteps(hash, es)[..n]), TwoSteps(hash, es)[n])
                  == RowOf(hash, At(hash, es, n), es[n])
  {
    hide At, TwoSteps, S.Run, S.LastRead, NewRow, IsoFormat;
    TwoStepsAgree(hash, es, n);
    TwoStepsAt(hash, es, n);
  }

  // ---------- rows and the commits they come from ----------

  /** Event m inserted row r. */
  predicate InsertedAt(hash: RecordHash, es: seq<Event>, m: nat, r: AuditRow) {
    m < |es| && InsertsAt(hash, es, m) && r == RowOf(hash, At(hash, es, m), es[m])
  }

  /** One of the first n events inserted row r. */
  predicate Inserted(hash: RecordHash, es: seq<Event>, n: nat, r: AuditRow) {
    exists m: nat | m < n :: InsertedAt(hash, es, m, r)
  }

  lemma InsertedNext(hash: RecordHash, es: seq<Event>, n: nat, r: AuditRow)
    ensures Inserted(hash, es, n + 1, r) <==> Inserted(hash, es, n, r) || InsertedAt(hash, es, n, r)
  {
    hide InsertedAt;
  }

  lemma RowsNext(hash: RecordHash, es: seq<Event>, n: nat, r: AuditRow)
    requires n < |es|
    ensures r in At(hash, es, n + 1).rows <==> r in At(hash, es, n).rows || InsertedAt(hash, es, n, r)
  {
    hide OrderBy, Head, NewRow;
  }

  lemma {:induction false} RowsAreInserted(hash: RecordHash, es: seq<Event>, n: nat, r: AuditRow)
    requires n <= |es|
    ensures r in At(hash, es, n).rows <==> Inserted(hash, es, n, r)
  {
    hide At, Inserted, InsertedAt;
    if n == 0 {
      NothingInserted(hash, es, r);
    } else {
      RowsAreInserted(hash, es, n - 1, r);
      RowsNext(hash, es, n - 1, r);
      InsertedNext(hash, es, n - 1, r);
    }
  }

  lemma NothingInserted(hash: RecordHash, es: seq<Event>, r: AuditRow)
    ensures r !in At(hash, es, 0).rows && !Inserted(hash, es, 0, r)
  {
  }

  /** Of two rows inserted by a ticking clock, the one stamped first has the smaller key. */
  lemma StampsOrderKeys(hash: RecordHash, es: seq<Event>, m: nat, n: nat)
    requires Ticking(es) && m < |es| && n < |es| && InsertsAt(hash, es, m) && InsertsAt(hash, es, n)
    requires CallAt(hash, es, m).event < CallAt(hash, es, n).event
    ensures KeyLess(RowOf(hash, At(hash, es, m), es[m]).record, RowOf(hash, At(hash, es, n), es[n]).record)
  {
    hide At, KeyLess, IsoFormat, Instant;
    CallsRemember(hash, es, m);
    CallsRemember(hash, es, n);
    ClockOrdersKeys(CallAt(hash, es, m).time, CallAt(hash, es, n).time,
                    RowOf(hash, At(hash, es, m), es[m]).record, RowOf(hash, At(hash, es, n), es[n]).record);
  }

  /** Two inserting events have calls of their own. */
  lemma StampsDiffer(hash: RecordHash, es: seq<Event>, m: nat, n: nat)
    requires m < n < |es| && InsertsAt(hash, es, m) && InsertsAt(hash, es, n)
    ensures CallAt(hash, es, m).event != CallAt(hash, es, n).event
  {
    hide At, Step;
    CallsRemember(hash, es, m);
    CallsRemember(hash, es, n);
    if es[m].worker == es[n].worker { CallsBegin(hash, es, m, n, es[n].worker); }
  }

  /** A worker that commits begins its next call later. */
  lemma {:induction false} CallsBegin(hash: RecordHash, es: seq<Event>, m: nat, n: nat, w: nat)
    requires m < n <= |es| && es[m].worker == w && Commits(At(hash, es, m), es[m])
    requires w in At(hash, es, n).calls
    ensures m < At(hash, es, n).calls[w].event
  {
    hide OrderBy, Head, NewRow, InsertsAt;
    if n == m + 1 {
    } else if es[n - 1] == Stamp(w, At(hash, es, n).calls[w].time) && At(hash, es, n).calls[w].event == n - 1 {
    } else {
      CallsBegin(hash, es, m, n - 1, w);
    }
  }

  lemma OnTopIsStampOrder(hash: RecordHash, es: seq<Event>, n: nat)
    requires Ticking(es) && n < |es| && InsertsAt(hash, es, n)
    ensures Before(At(hash, es, n).rows, RowOf(hash, At(hash, es, n), es[n])) <==> InStampOrder(hash, es, n)
  {
    hide At, KeyLess, CallAt, RowOf;
    var s, row := At(hash, es, n), RowOf(hash, At(hash, es, n), es[n]);
    if InStampOrder(hash, es, n) {
      forall r | r in s.rows ensures KeyLess(r.record, row.record) {
        RowsAreInserted(hash, es, n, r);
        var m: nat :| m < n && InsertedAt(hash, es, m, r);
        StampsOrderKeys(hash, es, m, n);
      }
    } else {
      var m :| 0 <= m < n && InsertsAt(hash, es, m) && CallAt(hash, es, m).event >= CallAt(hash, es, n).event;
      var r := RowOf(hash, At(hash, es, m), es[m]);
      StampsDiffer(hash, es, m, n);
      StampsOrderKeys(hash, es, n, m);
      assert InsertedAt(hash, es, m, r);
      RowsAreInserted(hash, es, n, r);
      if KeyLess(r.record, row.record) {
        KeyLessTransitive(r.record, row.record, r.record);
        KeyLessIrreflexive(r.record);
      }
    }
  }

  lemma UndisturbedIsQuiet(hash: RecordHash, es: seq<Event>, n: nat)
    requires n < |es| && InsertsAt(hash, es, n)
    ensures S.Undisturbed(hash, TwoSteps(hash, es), n) <==> Undisturbed(hash, es, n)
  {
    hide At, TwoSteps, S.Run, S.LastRead, InsertsAt, S.InsertsAt, S.RowOf;
    SameInserts(hash, es, n);
    forall m | 0 <= m < n ensures S.InsertsAt(hash, TwoSteps(hash, es), m) <==> InsertsAt(hash, es, m) {
      SameInserts(hash, es, m);
    }
  }

  lemma OrderlyIsSerialAt(hash: RecordHash, es: seq<Event>, n: nat)
    requires Ticking(es) && n < |es|
    ensures S.SerialAt(hash, TwoSteps(hash, es), n) <==> OrderlyAt(hash, es, n)
  {
    hide At, TwoSteps, S.Run, S.Undisturbed, Undisturbed, InStampOrder, Before, Ticking, RowOf, S.RowOf;
    SameInserts(hash, es, n);
    TwoStepsAgree(hash, es, n);
    if InsertsAt(hash, es, n) {
      UndisturbedIsQuiet(hash, es, n);
      OnTopIsStampOrder(hash, es, n);
    }
  }

  lemma OrderlyIsSerial(hash: RecordHash, es: seq<Event>)
    requires Ticking(es)
    ensures S.Serial(hash, TwoSteps(hash, es)) <==> Orderly(hash, es)
    ensures S.Run(hash, TwoSteps(hash, es)).rows == At(hash, es, |es|).rows
  {
    hide At, TwoSteps, S.Run, S.SerialAt, OrderlyAt, Ticking;
    forall n | 0 <= n < |es| ensures S.SerialAt(hash, TwoSteps(hash, es), n) <==> OrderlyAt(hash, es, n) {
      OrderlyIsSerialAt(hash, es, n);
    }
    TwoStepsAgree(hash, es, |es|);
    assert TwoSteps(hash, es)[..|es|] == TwoSteps(hash, es);
  }

  /** Exactly when a log that only this logger wrote verifies, with a clock that moves strictly forward: no row is
      inserted between another worker's read and its commit, and rows are inserted in the order of their times. */
  lemma VerifiedIffOrderly(hash: RecordHash, es: seq<Event>)
    requires Ticking(es) && S.Clean(hash, At(hash, es, |es|).rows)
    ensures Verified(hash, At(hash, es, |es|).rows) <==> Orderly(hash, es)
  {
    hide At, TwoSteps, S.Run, S.Serial, Orderly, Ticking, S.Clean, Verified;
    OrderlyIsSerial(hash, es);
    S.VerifiedIffSerial(hash, TwoSteps(hash, es));
  }

  /** The same for SHA-256, of which nothing is assumed. */
  lemma VerifiedIffOrderlyOrBrokenSha(sha256: string -> Digest, es: seq<Event>)
    requires Ticking(es)
    ensures var hash := EntryHash(sha256);
            var rows := At(hash, es, |es|).rows;
            || (Verified(hash, rows) <==> Orderly(hash, es))
            || TextCollision(sha256, rows, rows) || TextGenesisPreimage(sha256, rows)
  {
    var hash := EntryHash(sha256);
    hide At, TwoSteps, S.Run, S.Serial, Orderly, Ticking, Verified, EntryHash, TextCollision, TextGenesisPreimage;
    OrderlyIsSerial(hash, es);
    S.VerifiedIffSerialOrBrokenSha(sha256, TwoSteps(hash, es));
  }

  /** Calls that are alone from their time to their commit leave a log that verifies, whatever the digest does. */
  lemma ClockedRunVerifies(hash: RecordHash, es: seq<Event>)
    requires Ticking(es)
    requires forall n | 0 <= n < |es| && InsertsAt(hash, es, n) :: AloneSinceStamp(hash, es, n)
    ensures Orderly(hash, es) && Verified(hash, At(hash, es, |es|).rows)
  {
    hide At, TwoSteps, S.Run, S.Serial, InsertsAt, CallAt, Ticking, AloneSinceStamp;
    forall n | 0 <= n < |es| ensures OrderlyAt(hash, es, n) {
      if InsertsAt(hash, es, n) { AloneIsOrderly(hash, es, n); }
    }
    OrderlyIsSerial(hash, es);
    S.SerialChains(hash, TwoSteps(hash, es));
    OrderByAscending(At(hash, es, |es|).rows);
  }

  lemma AloneIsOrderly(hash: RecordHash, es: seq<Event>, n: nat)
    requires n < |es| && InsertsAt(hash, es, n) && AloneSinceStamp(hash, es, n)
    ensures Undisturbed(hash, es, n) && InStampOrder(hash, es, n)
  {
    hide At;
    CallsRemember(hash, es, n);
    forall m | 0 <= m < n && InsertsAt(hash, es, m) ensures CallAt(hash, es, m).event < CallAt(hash, es, n).event {
      CallsRemember(hash, es, m);
    }
  }

  // ---------- early stamp, late commit ----------

  /** Worker 1 takes the time first and commits last; its read and its commit stand side by side. */
  function LateCommit(first: DateTime, second: DateTime, q: LogRequest): seq<Event> {
    [Stamp(1, first), Stamp(0, second), Read(0), Commit(0, q, "a"), Read(1), Commit(1, q, "b")]
  }

  lemma LateCommitRuns(hash: RecordHash, first: DateTime, second: DateTime, q: LogRequest)
    ensures var es := LateCommit(first, second, q);
            && InsertsAt(hash, es, 3) && CallAt(hash, es, 3).event == 1 && CallAt(hash, es, 3).seen.value.event == 2
            && InsertsAt(hash, es, 5) && CallAt(hash, es, 5).event == 0 && CallAt(hash, es, 5).seen.value.event == 4
            && |At(hash, es, 6).rows| == 2
  {
    hide OrderBy, Head, IsoFormat;
    var es := LateCommit(first, second, q);
    assert At(hash, es, 1) == State([], map[1 := Call(0, first, None)]);
    assert At(hash, es, 2) == State([], map[1 := Call(0, first, None), 0 := Call(1, second, None)]);
    var h := Head(OrderBy([]));
    assert At(hash, es, 3) == State([], map[1 := Call(0, first, None), 0 := Call(1, second, Some(Seen(2, h)))]);
    var row := NewRow(hash, q, "a", IsoFormat(second), h);
    assert At(hash, es, 4) == State([row], map[1 := Call(0, first, None)]);
    var g := Head(OrderBy([row]));
    assert At(hash, es, 5) == State([row], map[1 := Call(0, first, Some(Seen(4, g)))]);
    assert row.record.entryId != "b";
  }

  /** Every commit is undisturbed and the clock moved strictly forward, and still the log does not verify. */
  lemma LateCommitBreaks(hash: RecordHash, first: DateTime, second: DateTime, q: LogRequest)
    requires first.Valid() && second.Valid() && Instant(first) < Instant(second)
    requires S.Clean(hash, At(hash, LateCommit(first, second, q), 6).rows)
    ensures var es := LateCommit(first, second, q);
            && Ticking(es) && !Verified(hash, At(hash, es, 6).rows)
            && forall n | 0 <= n < 6 && InsertsAt(hash, es, n) :: Undisturbed(hash, es, n)
  {
    hide At, InsertsAt, CallAt, Verified, S.Clean, Instant;
    var es := LateCommit(first, second, q);
    LateCommitRuns(hash, first, second, q);
    assert forall n | 0 <= n < 6 && n != 3 && n != 5 :: !InsertsAt(hash, es, n) by { OnlyCommitsInsert(hash, es); }
    assert !OrderlyAt(hash, es, 5);
    VerifiedIffOrderly(hash, es);
  }

  lemma OnlyCommitsInsert(hash: RecordHash, es: seq<Event>)
    ensures forall n | 0 <= n < |es| && InsertsAt(hash, es, n) :: es[n].Commit?
  {
    hide At;
  }
}
