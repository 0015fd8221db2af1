/** Many workers run `log_entry` as two steps, "read the last hash" and "commit the row". */
module AuditSchedule {
  import opened Audit

  datatype Event =
    | Read(worker: nat)
    | Commit(worker: nat, entry: LogRequest, entryId: string, timestamp: string)

  /** The table in commit order, and the hash each worker has read but not yet used. */
  datatype State = State(rows: seq<AuditRow>, held: map<nat, string>)

  /** A commit without a read is no call of `log_entry`; one with a taken id is refused by the database. */
  predicate Inserts(s: State, e: Event) {
    e.Commit? && e.worker in s.held && !Present(s.rows, e.entryId)
  }

  function RowOf(hash: RecordHash, s: State, e: Event): AuditRow
    requires Inserts(s, e)
  {
    NewRow(hash, e.entry, e.entryId, e.timestamp, s.held[e.worker])
  }

  function Step(hash: RecordHash, s: State, e: Event): State {
    if e.Read? then s.(held := s.held[e.worker := Head(OrderBy(s.rows))])
    else State(if Inserts(s, e) then s.rows + [RowOf(hash, s, e)] else s.rows, s.held - {e.worker})
  }

  function Run(hash: RecordHash, es: seq<Event>): State {
    if es == [] then State([], map[]) else Step(hash, Run(hash, es[..|es| - 1]), es[|es| - 1])
  }

  predicate InsertsAt(hash: RecordHash, es: seq<Event>, k: nat)
    requires k < |es|
  {
    Inserts(Run(hash, es[..k]), es[k])
  }

  /** The position of the worker's latest read among the first n events, or -1. */
  function LastRead(es: seq<Event>, n: nat, worker: nat): (i: int)
    requires n <= |es|
    ensures -1 <= i < n
  {
    if n == 0 then -1 else if es[n - 1] == Read(worker) then n - 1 else LastRead(es, n - 1, worker)
  }

  /** No row is committed by the events k to n - 1. */
  predicate Quiet(hash: RecordHash, es: seq<Event>, k: nat, n: nat)
    requires n <= |es|
  {
    forall j | k <= j < n :: !InsertsAt(hash, es, j)
  }

  /** No row is committed between the read that event k depends on and event k. */
  predicate Undisturbed(hash: RecordHash, es: seq<Event>, k: nat)
    requires k < |es|
  {
    Quiet(hash, es, LastRead(es, k, es[k].worker) + 1, k)
  }

  /** The row that event k commits is larger than every stored row. */
  predicate OnTop(hash: RecordHash, es: seq<Event>, k: nat)
    requires k < |es| && InsertsAt(hash, es, k)
  {
    Before(Run(hash, es[..k]).rows, RowOf(hash, Run(hash, es[..k]), es[k]))
  }

  predicate SerialAt(hash: RecordHash, es: seq<Event>, k: nat)
    requires k < |es|
  {
    InsertsAt(hash, es, k) ==> Undisturbed(hash, es, k) && OnTop(hash, es, k)
  }

  /** Every committed row is undisturbed and on top. */
  predicate Serial(hash: RecordHash, es: seq<Event>) {
    forall k | 0 <= k < |es| :: SerialAt(hash, es, k)
  }

  // ---------- what every run keeps ----------

  predicate KnownHash(rows: seq<AuditRow>, h: string) {
    h == GENESIS_HASH || exists q | q in rows :: q.entryHash == h
  }

  /** Every row names the genesis hash or a stored row as its predecessor. */
  predicate Rooted(rows: seq<AuditRow>) {
    forall r | r in rows :: KnownHash(rows, r.record.previousHash)
  }

  predicate Hashed(hash: RecordHash, rows: seq<AuditRow>) {
    forall r | r in rows :: r.entryHash == hash(r.record)
  }

  lemma HeadKnown(rows: seq<AuditRow>)
    requires UniqueIds(rows)
    ensures KnownHash(rows, Head(OrderBy(rows)))
  {
    OrderBySorts(rows);
    InOrder(rows);
    var sorted := OrderBy(rows);
    if sorted != [] { assert sorted[|sorted| - 1] in rows; }
  }

  predicate Kept(hash: RecordHash, s: State) {
    && UniqueIds(s.rows) && Hashed(hash, s.rows) && Rooted(s.rows)
    && forall w | w in s.held :: KnownHash(s.rows, s.held[w])
  }

  lemma StepKeeps(hash: RecordHash, s: State, e: Event)
    requires Kept(hash, s)
    ensures Kept(hash, Step(hash, s, e))
  {
    hide OrderBy, Head;
    HeadKnown(s.rows);
  }

  lemma {:induction false} RunKeeps(hash: RecordHash, es: seq<Event>)
    ensures UniqueIds(Run(hash, es).rows) && Hashed(hash, Run(hash, es).rows) && Rooted(Run(hash, es).rows)
    ensures forall w | w in Run(hash, es).held :: KnownHash(Run(hash, es).rows, Run(hash, es).held[w])
  {
    if es == [] {
    } else {
      hide Step, OrderBy, Head;
      RunKeeps(hash, es[..|es| - 1]);
      StepKeeps(hash, Run(hash, es[..|es| - 1]), es[|es| - 1]);
    }
  }

  lemma LastStep(hash: RecordHash, es: seq<Event>)
    requires es != []
    ensures var s := Run(hash, es[..|es| - 1]);
            Run(hash, es).rows == if InsertsAt(hash, es, |es| - 1) then s.rows + [RowOf(hash, s, es[|es| - 1])]
                else s.rows
  {
  }

  lemma {:induction false} RowsGrow(hash: RecordHash, es: seq<Event>, k: nat)
    requires k <= |es|
    ensures Run(hash, es[..k]).rows <= Run(hash, es).rows
  {
    if k == |es| {
      assert es[..k] == es;
    } else {
      RowsGrow(hash, es[..|es| - 1], k);
      assert es[..|es| - 1][..k] == es[..k];
      LastStep(hash, es);
    }
  }

  /** The table stands still exactly while nothing is inserted. */
  lemma {:induction false} QuietKeepsLength(hash: RecordHash, es: seq<Event>, k: nat)
    requires k <= |es|
    ensures |Run(hash, es[..k]).rows| == |Run(hash, es).rows| <==> Quiet(hash, es, k, |es|)
  {
    if k == |es| {
      assert es[..k] == es;
    } else {
      var init := es[..|es| - 1];
      assert init[..k] == es[..k];
      QuietKeepsLength(hash, init, k);
      QuietInit(hash, es, k);
      RowsGrow(hash, init, k);
      LastStep(hash, es);
    }
  }

  lemma QuietInit(hash: RecordHash, es: seq<Event>, k: nat)
    requires k < |es|
    ensures Quiet(hash, es, k, |es|)
       <==> Quiet(hash, es[..|es| - 1], k, |es| - 1) && !InsertsAt(hash, es, |es| - 1)
  {
    InsertsAtPrefix(hash, es, |es| - 1);
    assert Quiet(hash, es, k, |es|) <==> Quiet(hash, es, k, |es| - 1) && !InsertsAt(hash, es, |es| - 1);
  }

  lemma InsertsAtPrefix(hash: RecordHash, es: seq<Event>, n: nat)
    requires n <= |es|
    ensures forall j | 0 <= j < n :: es[..n][..j] == es[..j] && InsertsAt(hash, es[..n], j) == InsertsAt(hash, es, j)
  {
    forall j | 0 <= j < n ensures es[..n][..j] == es[..j] {}
  }

  /** The hash a worker holds is the head of the table at its latest read. */
  lemma {:induction false} ReadsAtLastRead(hash: RecordHash, es: seq<Event>, w: nat)
    requires w in Run(hash, es).held
    ensures LastRead(es, |es|, w) >= 0
    ensures Run(hash, es).held[w] == Head(OrderBy(Run(hash, es[..LastRead(es, |es|, w)]).rows))
  {
    var init, last := es[..|es| - 1], es[|es| - 1];
    if last == Read(w) {
    } else {
      ReadsAtLastRead(hash, init, w);
      LastReadPrefix(es, |es| - 1, w);
      assert init[..LastRead(init, |init|, w)] == es[..LastRead(init, |init|, w)];
    }
  }

  lemma {:induction false} LastReadPrefix(es: seq<Event>, n: nat, w: nat)
    requires n <= |es|
    ensures LastRead(es[..n], n, w) == LastRead(es, n, w)
    decreases n
  {
    if n == 0 {
    } else {
      LastReadPrefix(es, n - 1, w);
      LastReadPrefix(es[..n], n - 1, w);
      assert es[..n][..n - 1] == es[..n - 1];
    }
  }

  // ---------- serial schedules and verified tables ----------

  /** No two of these records share a digest and none has the genesis hash. */
  predicate Clean(hash: RecordHash, rows: seq<AuditRow>) {
    !Collision(hash, rows, rows) && !GenesisPreimage(hash, rows)
  }

  lemma CleanPrefix(hash: RecordHash, rows: seq<AuditRow>, n: nat)
    requires n <= |rows| && Clean(hash, rows)
    ensures Clean(hash, rows[..n])
  {
  }

  /** If a stored row names a row that is committed later, a digest is accidental. */
  lemma ForwardReference(hash: RecordHash, rows: seq<AuditRow>, r: AuditRow)
    requires Hashed(hash, rows) && r.entryHash == hash(r.record) && !Present(rows, r.record.entryId)
    requires KnownHash(rows, r.entryHash)
    ensures !Clean(hash, rows + [r])
  {
    assert r in rows + [r];
    if r.entryHash != GENESIS_HASH {
      var q :| q in rows && q.entryHash == r.entryHash;
      assert q in rows + [r];
    }
  }

  lemma ChainedEnd(hash: RecordHash, a: seq<AuditRow>, r: AuditRow)
    ensures Chained(hash, a + [r]) <==>
            Chained(hash, a) && r.record.previousHash == Head(a) && r.entryHash == hash(r.record)
  {
    assert (a + [r])[..|a|] == a;
  }

  /** If a row committed before r stands behind r in a verified chain, a digest is accidental. */
  lemma EarlierRowBehind(hash: RecordHash, rows: seq<AuditRow>, a: seq<AuditRow>, r: AuditRow, b: seq<AuditRow>)
    requires Hashed(hash, rows) && Rooted(rows) && !Present(rows, r.record.entryId)
    requires Chained(hash, a + [r] + b)
    requires b != [] && b[0] in rows
    ensures !Clean(hash, rows + [r])
  {
    ChainedPrefix(hash, a + [r] + b, |a| + 2);
    assert (a + [r] + b)[..|a| + 2] == a + [r] + [b[0]];
    ChainedEnd(hash, a + [r], b[0]);
    ChainedEnd(hash, a, r);
    ForwardReference(hash, rows, r);
  }

  /** If the table verifies after a commit, the row went on top of a verified table and names its head. */
  lemma VerifiedCommit(hash: RecordHash, rows: seq<AuditRow>, r: AuditRow)
    requires UniqueIds(rows) && Hashed(hash, rows) && Rooted(rows) && !Present(rows, r.record.entryId)
    requires Clean(hash, rows + [r]) && Verified(hash, rows + [r])
    ensures Before(rows, r) && Verified(hash, rows) && r.record.previousHash == Head(OrderBy(rows))
  {
    assert (rows + [r])[..|rows|] == rows;
    OrderBySorts(rows);
    InOrder(rows);
    var sorted := OrderBy(rows);
    var k := PlaceSplits(r, sorted);
    if k < |sorted| { EarlierRowBehind(hash, rows, sorted[..k], r, sorted[k..]); }
    assert sorted[..k] == sorted && sorted + [r] + [] == sorted + [r];
    ChainedEnd(hash, sorted, r);
  }

  /** Two prefixes with one head are one prefix, or a digest is accidental. */
  lemma HeadFixesLength(hash: RecordHash, rows: seq<AuditRow>, n: nat)
    requires n <= |rows| && UniqueIds(rows) && Hashed(hash, rows)
    requires Head(rows[..n]) == Head(rows)
    ensures n == |rows| || !Clean(hash, rows)
  {
    if n < |rows| {
      assert rows[|rows| - 1] in rows;
      if n > 0 { assert rows[n - 1] in rows; }
    }
  }

  lemma AscendingEnd(rows: seq<AuditRow>, r: AuditRow)
    requires Ascending(rows) && Before(rows, r)
    ensures Ascending(rows + [r])
  {
    assert rows + [] == rows && rows + [r] + [] == rows + [r];
    AscendingJoin(rows, r, []);
  }

  lemma SerialInit(hash: RecordHash, es: seq<Event>)
    requires es != []
    ensures Serial(hash, es) <==> Serial(hash, es[..|es| - 1]) && SerialAt(hash, es, |es| - 1)
  {
    var init := es[..|es| - 1];
    forall k | 0 <= k < |init| ensures SerialAt(hash, init, k) == SerialAt(hash, es, k) {
      SerialAtPrefix(hash, es, |es| - 1, k);
    }
  }

  lemma SerialAtPrefix(hash: RecordHash, es: seq<Event>, n: nat, k: nat)
    requires k < n <= |es|
    ensures SerialAt(hash, es[..n], k) == SerialAt(hash, es, k)
  {
    SameLastRead(es, n, k, es[k].worker);
    InsertsAtPrefix(hash, es, n);
  }

  lemma SameLastRead(es: seq<Event>, n: nat, k: nat, w: nat)
    requires k <= n <= |es|
    ensures LastRead(es[..n], k, w) == LastRead(es, k, w)
  {
    LastReadPrefix(es[..n], k, w);
    LastReadPrefix(es, k, w);
    assert es[..n][..k] == es[..k];
  }

  /** Serial commits leave the table in key order and chained in commit order. */
  lemma {:induction false} SerialChains(hash: RecordHash, es: seq<Event>)
    requires Serial(hash, es)
    ensures Ascending(Run(hash, es).rows) && Chained(hash, Run(hash, es).rows)
  {
    if es == [] {
    } else {
      var init, n := es[..|es| - 1], |es| - 1;
      SerialInit(hash, es);
      SerialChains(hash, init);
      LastStep(hash, es);
      if InsertsAt(hash, es, n) {
        var s, r := Run(hash, init), RowOf(hash, Run(hash, init), es[n]);
        UndisturbedReadsHead(hash, es);
        AscendingEnd(s.rows, r);
        ChainedEnd(hash, s.rows, r);
      }
    }
  }

  /** The table as the worker's latest read saw it. */
  function SeenRows(hash: RecordHash, es: seq<Event>, w: nat): seq<AuditRow> {
    var i := LastRead(es, |es|, w);
    if i < 0 then [] else Run(hash, es[..i]).rows
  }

  lemma HeldHash(hash: RecordHash, es: seq<Event>, w: nat)
    requires w in Run(hash, es).held && Ascending(Run(hash, es).rows)
    ensures SeenRows(hash, es, w) <= Run(hash, es).rows
    ensures Run(hash, es).held[w] == Head(SeenRows(hash, es, w))
  {
    ReadsAtLastRead(hash, es, w);
    RowsGrow(hash, es, LastRead(es, |es|, w));
    OrderByAscending(SeenRows(hash, es, w));
  }

  lemma QuietIffAllSeen(hash: RecordHash, es: seq<Event>, w: nat)
    requires w in Run(hash, es).held
    ensures Quiet(hash, es, LastRead(es, |es|, w) + 1, |es|) <==> |SeenRows(hash, es, w)| == |Run(hash, es).rows|
  {
    ReadsAtLastRead(hash, es, w);
    var i := LastRead(es, |es|, w);
    QuietKeepsLength(hash, es, i);
    LastReadIsRead(es, |es|, w);
    QuietFrom(hash, es, i, |es|);
  }

  lemma UndisturbedInit(hash: RecordHash, es: seq<Event>)
    requires es != []
    ensures var init, w := es[..|es| - 1], es[|es| - 1].worker;
            Undisturbed(hash, es, |es| - 1) <==> Quiet(hash, init, LastRead(init, |init|, w) + 1, |init|)
  {
    var n, w := |es| - 1, es[|es| - 1].worker;
    LastReadPrefix(es, n, w);
    QuietPrefix(hash, es, LastRead(es, n, w) + 1, n);
  }

  lemma {:induction false} LastReadIsRead(es: seq<Event>, n: nat, w: nat)
    requires n <= |es| && LastRead(es, n, w) >= 0
    ensures es[LastRead(es, n, w)] == Read(w)
  {
    if es[n - 1] == Read(w) {
    } else {
      LastReadIsRead(es, n - 1, w);
    }
  }

  lemma QuietPrefix(hash: RecordHash, es: seq<Event>, k: nat, n: nat)
    requires n <= |es|
    ensures Quiet(hash, es[..n], k, n) <==> Quiet(hash, es, k, n)
  {
    InsertsAtPrefix(hash, es, n);
  }

  lemma QuietFrom(hash: RecordHash, es: seq<Event>, i: nat, n: nat)
    requires i < n <= |es| && es[i].Read?
    ensures Quiet(hash, es, i, n) <==> Quiet(hash, es, i + 1, n)
  {
  }

  lemma UndisturbedReadsHead(hash: RecordHash, es: seq<Event>)
    requires es != [] && InsertsAt(hash, es, |es| - 1) && Undisturbed(hash, es, |es| - 1)
    requires Ascending(Run(hash, es[..|es| - 1]).rows)
    ensures var s := Run(hash, es[..|es| - 1]); s.held[es[|es| - 1].worker] == Head(s.rows)
  {
    var init, w := es[..|es| - 1], es[|es| - 1].worker;
    HeldHash(hash, init, w);
    UndisturbedInit(hash, es);
    QuietIffAllSeen(hash, init, w);
  }

  lemma NamesHeadIsUndisturbed(hash: RecordHash, es: seq<Event>)
    requires es != [] && InsertsAt(hash, es, |es| - 1)
    requires var s := Run(hash, es[..|es| - 1]);
             && Ascending(s.rows) && UniqueIds(s.rows) && Hashed(hash, s.rows) && Clean(hash, s.rows)
             && s.held[es[|es| - 1].worker] == Head(s.rows)
    ensures Undisturbed(hash, es, |es| - 1)
  {
    var init, w := es[..|es| - 1], es[|es| - 1].worker;
    var rows, seen := Run(hash, init).rows, SeenRows(hash, init, w);
    HeldHash(hash, init, w);
    HeadFixesLength(hash, rows, |seen|);
    UndisturbedInit(hash, es);
    QuietIffAllSeen(hash, init, w);
  }

  lemma {:induction false} VerifiedIsSerial(hash: RecordHash, es: seq<Event>)
    requires Clean(hash, Run(hash, es).rows) && Verified(hash, Run(hash, es).rows)
    ensures Serial(hash, es)
  {
    if es == [] {
    } else {
      var init, rows := es[..|es| - 1], Run(hash, es[..|es| - 1]).rows;
      LastStep(hash, es);
      RunKeeps(hash, init);
      if InsertsAt(hash, es, |es| - 1) {
        VerifiedCommit(hash, rows, RowOf(hash, Run(hash, init), es[|es| - 1]));
      }
      assert Run(hash, es).rows[..|rows|] == rows;
      CleanPrefix(hash, Run(hash, es).rows, |rows|);
      VerifiedIsSerial(hash, init);
      SerialChains(hash, init);
      OrderByAscending(rows);
      if InsertsAt(hash, es, |es| - 1) { NamesHeadIsUndisturbed(hash, es); }
      SerialInit(hash, es);
    }
  }

  /** The exact condition: unless a digest is accidental, the table verifies after a run if and only if no commit
      fell between another worker's read and its commit and every committed key exceeded all stored ones. */
  lemma VerifiedIffSerial(hash: RecordHash, es: seq<Event>)
    requires Clean(hash, Run(hash, es).rows)
    ensures Verified(hash, Run(hash, es).rows) <==> Serial(hash, es)
  {
    if Verified(hash, Run(hash, es).rows) {
      VerifiedIsSerial(hash, es);
    } else if Serial(hash, es) {
      SerialChains(hash, es);
      OrderByAscending(Run(hash, es).rows);
    }
  }

  /** Later appends never repair a broken chain. */
  lemma BrokenStaysBroken(hash: RecordHash, es: seq<Event>, n: nat)
    requires n <= |es| && Clean(hash, Run(hash, es).rows)
    requires !Verified(hash, Run(hash, es[..n]).rows)
    ensures !Verified(hash, Run(hash, es).rows)
  {
    if Serial(hash, es) {
      forall k | 0 <= k < n ensures SerialAt(hash, es[..n], k) { SerialAtPrefix(hash, es, n, k); }
    }
    RowsGrow(hash, es, n);
    CleanPrefix(hash, Run(hash, es).rows, |Run(hash, es[..n]).rows|);
    VerifiedIffSerial(hash, es[..n]);
    VerifiedIffSerial(hash, es);
  }

  lemma PreviousHashLength(hash: RecordHash, rows: seq<AuditRow>, r: AuditRow)
    requires Hashed(hash, rows) && Rooted(rows) && r in rows
    ensures |r.record.previousHash| == 64
  {
  }

  lemma TextsOfRows(sha256: string -> Digest, rows: seq<AuditRow>)
    requires Hashed(EntryHash(sha256), rows) && Rooted(rows)
    ensures Clean(EntryHash(sha256), rows) || TextCollision(sha256, rows, rows) || TextGenesisPreimage(sha256, rows)
  {
    var hash := EntryHash(sha256);
    if Collision(hash, rows, rows) {
      var x, y :| x in rows && y in rows && x.record != y.record && hash(x.record) == hash(y.record);
      PreviousHashLength(hash, rows, x);
      PreviousHashLength(hash, rows, y);
      DistinctRecordsDistinctTexts(x.record, y.record);
    }
  }

  /** The schedule theorem with SHA-256 in place of an abstract digest: the only way out is to exhibit
      two hashed texts with one digest or a hashed text whose digest is the genesis hash. */
  lemma VerifiedIffSerialOrBrokenSha(sha256: string -> Digest, es: seq<Event>)
    ensures var hash := EntryHash(sha256);
            var rows := Run(hash, es).rows;
            || (Verified(hash, rows) <==> Serial(hash, es))
            || TextCollision(sha256, rows, rows) || TextGenesisPreimage(sha256, rows)
  {
    var hash := EntryHash(sha256);
    var rows := Run(hash, es).rows;
    RunKeeps(hash, es);
    TextsOfRows(sha256, rows);
    if Clean(hash, rows) { VerifiedIffSerial(hash, es); }
  }

  // ---------- tables that anybody may have changed ----------

  datatype LogCall = LogCall(entry: LogRequest, entryId: string, timestamp: string)

  /** One call of the logger on a table: a taken id stores nothing. */
  function Log(hash: RecordHash, rows: seq<AuditRow>, c: LogCall): seq<AuditRow> {
    if Present(rows, c.entryId) then rows
    else rows + [NewRow(hash, c.entry, c.entryId, c.timestamp, Head(OrderBy(rows)))]
  }

  function LogAll(hash: RecordHash, rows: seq<AuditRow>, calls: seq<LogCall>): seq<AuditRow> {
    if calls == [] then rows else Log(hash, LogAll(hash, rows, calls[..|calls| - 1]), calls[|calls| - 1])
  }

  /** Two records that name a digest share one, or a record has the genesis hash. */
  ghost predicate Accident(hash: RecordHash, rows: seq<AuditRow>) {
    || (exists x, y | x in rows && y in rows ::
          && x.record != y.record && hash(x.record) == hash(y.record)
          && |x.record.previousHash| == |y.record.previousHash|)
    || GenesisPreimage(hash, rows)
  }

  lemma AccidentInTexts(sha256: string -> Digest, rows: seq<AuditRow>)
    requires Accident(EntryHash(sha256), rows)
    ensures TextCollision(sha256, rows, rows) || TextGenesisPreimage(sha256, rows)
  {
    var hash := EntryHash(sha256);
    if !GenesisPreimage(hash, rows) {
      var x, y :| x in rows && y in rows && x.record != y.record && hash(x.record) == hash(y.record)
                  && |x.record.previousHash| == |y.record.previousHash|;
      DistinctRecordsDistinctTexts(x.record, y.record);
    }
  }

  lemma AccidentIsNotClean(hash: RecordHash, rows: seq<AuditRow>)
    requires Accident(hash, rows)
    ensures !Clean(hash, rows)
  {
    if !GenesisPreimage(hash, rows) {
      var x, y :| x in rows && y in rows && x.record != y.record && hash(x.record) == hash(y.record)
                  && |x.record.previousHash| == |y.record.previousHash|;
    }
  }

  lemma AccidentStays(hash: RecordHash, rows: seq<AuditRow>, more: seq<AuditRow>)
    requires forall r | r in rows :: r in more
    ensures Accident(hash, rows) ==> Accident(hash, more)
  {
  }

  /** A chain whose head is also the head of its first n rows has all its rows there, or a digest is accidental. */
  lemma ShorterSameHead(hash: RecordHash, rows: seq<AuditRow>, n: nat)
    requires n < |rows| && UniqueIds(rows) && Head(rows[..n]) == Head(rows)
    requires forall r | r in rows :: r.entryHash == hash(r.record) && |r.record.previousHash| == 64
    ensures Accident(hash, rows)
  {
    var last := rows[|rows| - 1];
    assert last in rows;
    if n > 0 {
      var x := rows[n - 1];
      assert x in rows && x.record.entryId != last.record.entryId;
    }
  }

  /** A row that names the head of a table repairs nothing, or a digest is accidental. */
  lemma RepairIsAccident(hash: RecordHash, rows: seq<AuditRow>, r: AuditRow)
    requires UniqueIds(rows) && !Present(rows, r.record.entryId) && r.record.previousHash == Head(OrderBy(rows))
    requires !Verified(hash, rows) && Verified(hash, rows + [r])
    ensures Accident(hash, rows + [r])
  {
    hide Place, Chained, KeyLess, Accident;
    OrderBySorts(rows);
    InOrder(rows);
    var sorted := OrderBy(rows);
    var k := PlaceSplits(r, sorted);
    PlacedLast(rows, r);
    var all := sorted[..k] + [r] + sorted[k..];
    ChainedHashed(hash, all);
    ChainedPrefix(hash, all, k + 1);
    assert all[..k + 1] == sorted[..k] + [r];
    ChainedEnd(hash, sorted[..k], r);
    assert sorted[..|sorted|] == sorted;
    if k < |sorted| {
      SortedIdsDiffer(sorted);
      forall x | x in sorted ensures x in all { assert x in sorted[..k] || x in sorted[k..]; }
      ShorterSameHead(hash, sorted, k);
      AccidentStays(hash, sorted, rows + [r]);
    }
  }

  lemma PlacedLast(rows: seq<AuditRow>, r: AuditRow)
    ensures OrderBy(rows + [r]) == Place(r, OrderBy(rows))
  {
    hide Place;
    assert (rows + [r])[..|rows|] == rows;
  }

  lemma SortedIdsDiffer(sorted: seq<AuditRow>)
    requires Ascending(sorted) && forall x, y | x in sorted && y in sorted && x != y ::
        x.record.entryId != y.record.entryId
    ensures UniqueIds(sorted)
  {
    hide KeyLess;
    forall i, j | 0 <= i < j < |sorted| ensures sorted[i].record.entryId != sorted[j].record.entryId {
      KeyLessIrreflexive(sorted[i].record);
    }
  }

  lemma {:induction false} LogAllKeepsUnique(hash: RecordHash, rows: seq<AuditRow>, calls: seq<LogCall>)
    requires UniqueIds(rows)
    ensures UniqueIds(LogAll(hash, rows, calls))
  {
    hide OrderBy, Head;
    if calls == [] {
    } else {
      LogAllKeepsUnique(hash, rows, calls[..|calls| - 1]);
    }
  }

  /** Whatever broke a table, no later calls of the logger make it verify again, or a digest is accidental. */
  lemma {:induction false} BrokenTableNeedsAccident(hash: RecordHash, rows: seq<AuditRow>, calls: seq<LogCall>)
    requires UniqueIds(rows) && !Verified(hash, rows)
    ensures !Verified(hash, LogAll(hash, rows, calls)) || Accident(hash, LogAll(hash, rows, calls))
  {
    hide OrderBy, Head, Accident, Verified;
    if calls == [] {
    } else {
      var before, c := LogAll(hash, rows, calls[..|calls| - 1]), calls[|calls| - 1];
      BrokenTableNeedsAccident(hash, rows, calls[..|calls| - 1]);
      LogAllKeepsUnique(hash, rows, calls[..|calls| - 1]);
      AccidentStays(hash, before, Log(hash, before, c));
      if !Present(before, c.entryId) && !Verified(hash, before) && Verified(hash, Log(hash, before, c)) {
        RepairIsAccident(hash, before, NewRow(hash, c.entry, c.entryId, c.timestamp, Head(OrderBy(before))));
      }
    }
  }

  /** A table that does not verify, edited, truncated or torn by a schedule, stays so under all later calls, unless two
      texts share a digest or one has the genesis hash. */
  lemma BrokenTableStaysBroken(sha256: string -> Digest, rows: seq<AuditRow>, calls: seq<LogCall>)
    requires UniqueIds(rows) && !Verified(EntryHash(sha256), rows)
    ensures var after := LogAll(EntryHash(sha256), rows, calls);
            !Verified(EntryHash(sha256), after) || TextCollision(sha256, after, after)
                || TextGenesisPreimage(sha256, after)
    ensures var after := LogAll(EntryHash(sha256), rows, calls);
            Clean(EntryHash(sha256), after) ==> !Verified(EntryHash(sha256), after)
  {
    hide LogAll, Accident, Verified, Clean, TextCollision, TextGenesisPreimage;
    var after := LogAll(EntryHash(sha256), rows, calls);
    BrokenTableNeedsAccident(EntryHash(sha256), rows, calls);
    if Accident(EntryHash(sha256), after) {
      AccidentInTexts(sha256, after);
      AccidentIsNotClean(EntryHash(sha256), after);
    }
  }

  // ---------- steps and calls ----------

  /** A read with its commit right behind it is one call of the logger, and it is undisturbed. */
  lemma AdjacentStepsAreOneCall(hash: RecordHash, es: seq<Event>, w: nat, q: LogRequest, id: string, timestamp: string)
    ensures var rows, call := Run(hash, es).rows, es + [Read(w), Commit(w, q, id, timestamp)];
            && Undisturbed(hash, call, |es| + 1)
            && Run(hash, call).rows ==
                 if Present(rows, id) then rows else rows + [NewRow(hash, q, id, timestamp, Head(OrderBy(rows)))]
  {
    var read := es + [Read(w)];
    var call := es + [Read(w), Commit(w, q, id, timestamp)];
    assert call[..|es| + 1] == read && read[..|es|] == es;
    assert Run(hash, read) == Step(hash, Run(hash, es), Read(w));
    assert LastRead(call, |es| + 1, w) == |es|;
  }
}
