/** The hash-chained audit log: canonical form, chain verification and the logger. */
module Audit {
  import opened Text
  import opened JsonText

  /** A hex digest: the program only ever looks at its 64 characters. */
  type Digest = s: string | |s| == 64 witness GENESIS_HASH

  const GENESIS_HASH: string := Zeros(64)

  function Zeros(n: nat): (s: string)
    ensures |s| == n && forall i | 0 <= i < n :: s[i] == '0'
  {
    seq(n, i => '0')
  }

  /** What a caller passes to the logger. Empty or missing id and timestamp are filled in. */
  datatype LogRequest = LogRequest(
    entryId: Option<string>, timestamp: Option<string>,
    agentId: Option<string>, mandateId: Option<string>,
    action: string, outcome: string,
    requestHash: Option<string>, responseHash: Option<string>, metadataJson: Option<string>)

  /** The hashed fields of one audit event. */
  datatype AuditRecord = AuditRecord(
    entryId: string, timestamp: string,
    agentId: Option<string>, mandateId: Option<string>,
    action: string, outcome: string,
    requestHash: Option<string>, responseHash: Option<string>, metadataJson: Option<string>,
    previousHash: string)

  datatype AuditRow = AuditRow(record: AuditRecord, entryHash: string)

  // ---------- canonical form ----------

  /** The payload in the order the program lists it. */
  function Payload(r: AuditRecord): seq<Member> {
    [("entry_id", Some(r.entryId)), ("timestamp", Some(r.timestamp)),
     ("agent_id", r.agentId), ("mandate_id", r.mandateId),
     ("action", Some(r.action)), ("outcome", Some(r.outcome)),
     ("request_hash", r.requestHash), ("response_hash", r.responseHash),
     ("metadata_json", r.metadataJson), ("previous_hash", Some(r.previousHash))]
  }

  /** The payload with `sort_keys`. */
  function SortedPayload(r: AuditRecord): seq<Member> {
    [("action", Some(r.action)), ("agent_id", r.agentId),
     ("entry_id", Some(r.entryId)), ("mandate_id", r.mandateId),
     ("metadata_json", r.metadataJson), ("outcome", Some(r.outcome)),
     ("previous_hash", Some(r.previousHash)), ("request_hash", r.requestHash),
     ("response_hash", r.responseHash), ("timestamp", Some(r.timestamp))]
  }

  function Canonical(r: AuditRecord): string {
    DumpObject(SortedPayload(r))
  }

  function HashInput(r: AuditRecord): string {
    r.previousHash + Canonical(r)
  }

  /** What the program stores as a record's own hash. */
  type RecordHash = AuditRecord -> Digest

  function EntryHash(sha256: string -> Digest): RecordHash {
    r => sha256(HashInput(r))
  }

  const KEYS := ["action", "agent_id", "entry_id", "mandate_id", "metadata_json", "outcome",
                 "previous_hash", "request_hash", "response_hash", "timestamp"]

  /** Where each member of the sorted payload stands in the payload. */
  const ORIGIN := [4, 2, 0, 3, 8, 5, 9, 6, 7, 1]

  /** The keys come out in order, and every member is still there with its value. */
  lemma SortedPayloadIsSorted(r: AuditRecord)
    ensures forall i | 0 <= i < 10 :: SortedPayload(r)[i].0 == KEYS[i] && SortedPayload(r)[i] == Payload(r)[ORIGIN[i]]
    ensures forall i | 0 <= i < 9 :: Less(KEYS[i], KEYS[i + 1])
    ensures forall n | 0 <= n < 10 :: n in ORIGIN
  {
    KeysAscend();
    assert ORIGIN[2] == 0 && ORIGIN[9] == 1 && ORIGIN[1] == 2 && ORIGIN[3] == 3 && ORIGIN[0] == 4
      && ORIGIN[5] == 5 && ORIGIN[7] == 6 && ORIGIN[8] == 7 && ORIGIN[4] == 8 && ORIGIN[6] == 9;
  }

  lemma KeysAscend()
    ensures forall i | 0 <= i < 9 :: Less(KEYS[i], KEYS[i + 1])
  {
    forall i | 0 <= i < 9 ensures Less(KEYS[i], KEYS[i + 1]) {
      LessAt(KEYS[i], KEYS[i + 1], if i == 0 || i == 3 then 1 else if i == 7 then 2 else 0);
    }
  }

  /** The record that a canonical text stands for. */
  function ReadRecord(t: string): Option<AuditRecord> {
    match ReadObject(t)
    case None => None
    case Some(ms) =>
      if |ms| != 10 || ms[0].1.None? || ms[2].1.None? || ms[5].1.None? || ms[6].1.None? || ms[9].1.None? then None
      else Some(AuditRecord(ms[2].1.value, ms[9].1.value, ms[1].1, ms[3].1, ms[0].1.value, ms[5].1.value,
                            ms[7].1, ms[8].1, ms[4].1, ms[6].1.value))
  }

  lemma CanonicalReadsBack(r: AuditRecord)
    ensures ReadRecord(Canonical(r)) == Some(r)
  {
    ReadObjectDumpObject(SortedPayload(r));
  }

  /** The canonical text is an object that holds each field under its own key, and nothing else. */
  lemma CanonicalNames(r: AuditRecord)
    ensures var read := ReadObject(Canonical(r));
            && read.Some? && |read.value| == 10
            && ("entry_id", Some(r.entryId)) in read.value && ("timestamp", Some(r.timestamp)) in read.value
            && ("agent_id", r.agentId) in read.value && ("mandate_id", r.mandateId) in read.value
            && ("action", Some(r.action)) in read.value && ("outcome", Some(r.outcome)) in read.value
            && ("request_hash", r.requestHash) in read.value && ("response_hash", r.responseHash) in read.value
            && ("metadata_json", r.metadataJson) in read.value
            && ("previous_hash", Some(r.previousHash)) in read.value
  {
    hide ReadObject;
    ReadObjectDumpObject(SortedPayload(r));
    var ms := SortedPayload(r);
    assert ms[0] in ms && ms[1] in ms && ms[2] in ms && ms[3] in ms && ms[4] in ms;
    assert ms[5] in ms && ms[6] in ms && ms[7] in ms && ms[8] in ms && ms[9] in ms;
  }

  lemma HashInputInjective(a: AuditRecord, b: AuditRecord)
    requires |a.previousHash| == |b.previousHash|
    requires HashInput(a) == HashInput(b)
    ensures a == b
  {
    assert HashInput(a)[|a.previousHash|..] == Canonical(a);
    assert HashInput(b)[|b.previousHash|..] == Canonical(b);
    CanonicalReadsBack(a);
    CanonicalReadsBack(b);
  }

  // ---------- ORDER BY timestamp, entry_id ----------

  predicate KeyLess(a: AuditRecord, b: AuditRecord) {
    Less(a.timestamp, b.timestamp) || (a.timestamp == b.timestamp && Less(a.entryId, b.entryId))
  }

  predicate Ascending(rows: seq<AuditRow>) {
    forall i, j | 0 <= i < j < |rows| :: KeyLess(rows[i].record, rows[j].record)
  }

  /** entry_id is the primary key. */
  predicate UniqueIds(rows: seq<AuditRow>) {
    forall i, j | 0 <= i < j < |rows| :: rows[i].record.entryId != rows[j].record.entryId
  }

  function Place(row: AuditRow, rows: seq<AuditRow>): seq<AuditRow> {
    if rows == [] || KeyLess(row.record, rows[0].record) then [row] + rows
    else [rows[0]] + Place(row, rows[1..])
  }

  /** The result of the ORDER BY query on the rows in commit order. */
  function OrderBy(rows: seq<AuditRow>): seq<AuditRow> {
    if rows == [] then [] else Place(rows[|rows| - 1], OrderBy(rows[..|rows| - 1]))
  }

  lemma KeyLessTransitive(a: AuditRecord, b: AuditRecord, c: AuditRecord)
    requires KeyLess(a, b) && KeyLess(b, c)
    ensures KeyLess(a, c)
  {
    if Less(a.timestamp, b.timestamp) && Less(b.timestamp, c.timestamp) {
      LessTransitive(a.timestamp, b.timestamp, c.timestamp);
    } else if a.timestamp == b.timestamp == c.timestamp {
      LessTransitive(a.entryId, b.entryId, c.entryId);
    }
  }

  lemma KeyLessTotal(a: AuditRecord, b: AuditRecord)
    requires a.entryId != b.entryId
    ensures KeyLess(a, b) || KeyLess(b, a)
  {
    LessTotal(a.timestamp, b.timestamp);
    LessTotal(a.entryId, b.entryId);
  }

  lemma KeyLessIrreflexive(a: AuditRecord)
    ensures !KeyLess(a, a)
  {
    LessIrreflexive(a.timestamp);
    LessIrreflexive(a.entryId);
  }

  predicate Before(rows: seq<AuditRow>, row: AuditRow) {
    forall r | r in rows :: KeyLess(r.record, row.record)
  }

  predicate After(rows: seq<AuditRow>, row: AuditRow) {
    forall r | r in rows :: KeyLess(row.record, r.record)
  }

  /** Place puts the row behind a prefix of smaller rows and in front of the larger rest. */
  lemma {:induction false} PlaceSplits(row: AuditRow, rows: seq<AuditRow>) returns (k: nat)
    requires Ascending(rows)
    requires forall r | r in rows :: r.record.entryId != row.record.entryId
    ensures k <= |rows| && Place(row, rows) == rows[..k] + [row] + rows[k..]
    ensures Before(rows[..k], row) && After(rows[k..], row)
  {
    if rows == [] {
      k := 0;
    } else if KeyLess(row.record, rows[0].record) {
      k := 0;
      forall r | r in rows ensures KeyLess(row.record, r.record) {
        if r != rows[0] { KeyLessTransitive(row.record, rows[0].record, r.record); }
      }
    } else {
      var n := PlaceSplits(row, rows[1..]);
      KeyLessTotal(row.record, rows[0].record);
      k := n + 1;
      assert rows[..k] == [rows[0]] + rows[1..][..n] && rows[k..] == rows[1..][n..];
    }
  }

  lemma AscendingJoin(a: seq<AuditRow>, row: AuditRow, b: seq<AuditRow>)
    requires Ascending(a + b) && Before(a, row) && After(b, row)
    ensures Ascending(a + [row] + b)
  {
    var all := a + [row] + b;
    forall i, j | 0 <= i < j < |all| ensures KeyLess(all[i].record, all[j].record) {
      if i != |a| && j != |a| {
        assert all[i] == (a + b)[if i < |a| then i else i - 1];
        assert all[j] == (a + b)[if j < |a| then j else j - 1];
      } else if i == |a| {
        assert all[j] in b;
      } else {
        assert all[i] in a;
      }
    }
  }

  /** The query returns the stored rows, each once, in strictly ascending key order. */
  lemma {:induction false} OrderBySorts(rows: seq<AuditRow>)
    requires UniqueIds(rows)
    ensures Ascending(OrderBy(rows))
    ensures multiset(OrderBy(rows)) == multiset(rows)
  {
    hide Place, KeyLess;
    if rows == [] {
    } else {
      var init, last := rows[..|rows| - 1], rows[|rows| - 1];
      OrderBySorts(init);
      InOrder(init);
      var sorted := OrderBy(init);
      var k := PlaceSplits(last, sorted);
      assert sorted == sorted[..k] + sorted[k..];
      AscendingJoin(sorted[..k], last, sorted[k..]);
      assert rows == init + [last];
    }
  }

  lemma InOrder(rows: seq<AuditRow>)
    requires multiset(OrderBy(rows)) == multiset(rows)
    ensures forall r :: r in OrderBy(rows) <==> r in rows
  {
    assert forall r :: r in OrderBy(rows) <==> r in multiset(OrderBy(rows));
    assert forall r :: r in rows <==> r in multiset(rows);
  }

  /** Rows committed in key order are returned in commit order. */
  lemma {:induction false} OrderByAscending(rows: seq<AuditRow>)
    requires Ascending(rows)
    ensures OrderBy(rows) == rows
  {
    if rows == [] {
    } else {
      var init := rows[..|rows| - 1];
      OrderByAscending(init);
      PlaceLast(rows[|rows| - 1], init);
    }
  }

  lemma {:induction false} PlaceLast(row: AuditRow, rows: seq<AuditRow>)
    requires forall r | r in rows :: KeyLess(r.record, row.record)
    ensures Place(row, rows) == rows + [row]
  {
    if rows == [] {
    } else {
      if KeyLess(row.record, rows[0].record) {
        KeyLessTransitive(row.record, rows[0].record, row.record);
        KeyLessIrreflexive(row.record);
      }
      PlaceLast(row, rows[1..]);
    }
  }

  // ---------- the chain ----------

  /** The hash of the last row of an ordered log. */
  function Head(rows: seq<AuditRow>): string {
    if rows == [] then GENESIS_HASH else rows[|rows| - 1].entryHash
  }

  /** Every row carries its own hash and the hash of the row before it. */
  predicate Chained(hash: RecordHash, rows: seq<AuditRow>) {
    rows != [] ==>
      var init, last := rows[..|rows| - 1], rows[|rows| - 1];
      last.record.previousHash == Head(init) && last.entryHash == hash(last.record) && Chained(hash, init)
  }

  /** A record of a and a different record of b have one digest. */
  predicate Collision(hash: RecordHash, a: seq<AuditRow>, b: seq<AuditRow>) {
    exists x, y | x in a && y in b :: x.record != y.record && hash(x.record) == hash(y.record)
  }

  /** A record among these rows has the genesis hash as its digest. */
  predicate GenesisPreimage(hash: RecordHash, rows: seq<AuditRow>) {
    exists x | x in rows :: hash(x.record) == GENESIS_HASH
  }

  /** What is broken in a part is broken in the whole. */
  lemma BrokenInPart(hash: RecordHash, a: seq<AuditRow>, b: seq<AuditRow>, more: seq<AuditRow>, others: seq<AuditRow>)
    requires forall r | r in a :: r in more
    requires forall r | r in b :: r in others
    ensures Collision(hash, a, b) ==> Collision(hash, more, others)
    ensures GenesisPreimage(hash, a) ==> GenesisPreimage(hash, more)
  {
  }

  /** Rows of one hash hold one record, or two records share a digest. */
  lemma SameHash(hash: RecordHash, a: seq<AuditRow>, x: AuditRow, b: seq<AuditRow>, y: AuditRow)
    requires x in a && y in b && hash(x.record) == hash(y.record)
    ensures x.record == y.record || Collision(hash, a, b)
  {
  }

  /** The last row of a chain: what it hashes to, what it names, and the chain before it. */
  lemma ChainedLast(hash: RecordHash, rows: seq<AuditRow>)
    requires Chained(hash, rows) && rows != []
    ensures var init, last := rows[..|rows| - 1], rows[|rows| - 1];
            && Chained(hash, init) && last.record.previousHash == Head(init)
            && last.entryHash == hash(last.record) == Head(rows)
            && last in rows && rows == init + [last] && (Head(rows) == GENESIS_HASH ==> GenesisPreimage(hash, rows))
  {
  }

  /** A verified chain is fixed by its last hash, or the two chains exhibit a broken digest. */
  lemma {:induction false} HeadFixesRows(hash: RecordHash, a: seq<AuditRow>, b: seq<AuditRow>)
    requires Chained(hash, a) && Chained(hash, b) && Head(a) == Head(b)
    ensures a == b || Collision(hash, a, b) || GenesisPreimage(hash, a) || GenesisPreimage(hash, b)
    decreases |a|
  {
    hide Chained, Collision, GenesisPreimage;
    if a != [] { ChainedLast(hash, a); }
    if b != [] { ChainedLast(hash, b); }
    if a == [] || b == [] {
    } else {
      var init, x, init', y := a[..|a| - 1], a[|a| - 1], b[..|b| - 1], b[|b| - 1];
      SameHash(hash, a, x, b, y);
      if x.record == y.record {
        HeadFixesRows(hash, init, init');
        BrokenInPart(hash, init, init', a, b);
        BrokenInPart(hash, init', init, b, a);
      }
    }
  }

  lemma {:induction false} ChainedPrefix(hash: RecordHash, rows: seq<AuditRow>, n: nat)
    requires Chained(hash, rows) && n <= |rows|
    ensures Chained(hash, rows[..n])
  {
    if n == |rows| {
      assert rows[..n] == rows;
    } else {
      ChainedPrefix(hash, rows[..|rows| - 1], n);
      assert rows[..|rows| - 1][..n] == rows[..n];
    }
  }

  lemma {:induction false} ChainedHashed(hash: RecordHash, rows: seq<AuditRow>)
    requires Chained(hash, rows)
    ensures |Head(rows)| == 64
    ensures forall r | r in rows :: r.entryHash == hash(r.record) && |r.record.previousHash| == 64
  {
    if rows == [] {
    } else {
      ChainedHashed(hash, rows[..|rows| - 1]);
      assert rows == rows[..|rows| - 1] + [rows[|rows| - 1]];
    }
  }

  lemma SameFirst(a: seq<AuditRow>, b: seq<AuditRow>)
    requires Ascending(a) && Ascending(b) && a != [] && b != [] && multiset(a) == multiset(b)
    ensures a[0] == b[0]
  {
    hide KeyLess;
    assert a == [a[0]] + a[1..] && b == [b[0]] + b[1..];
    assert a[0] in multiset(b) && b[0] in multiset(a);
    if a[0] != b[0] {
      assert a[0] in b[1..] && b[0] in a[1..];
      KeyLessTransitive(a[0].record, b[0].record, a[0].record);
      KeyLessIrreflexive(a[0].record);
    }
  }

  lemma AscendingTail(a: seq<AuditRow>)
    requires Ascending(a) && a != []
    ensures Ascending(a[1..]) && multiset(a[1..]) == multiset(a) - multiset{a[0]}
  {
    hide KeyLess;
    assert a == [a[0]] + a[1..];
  }

  lemma {:induction false} AscendingUnique(a: seq<AuditRow>, b: seq<AuditRow>)
    requires Ascending(a) && Ascending(b) && multiset(a) == multiset(b)
    ensures a == b
  {
    hide Ascending;
    if a != [] && b != [] {
      SameFirst(a, b);
      AscendingTail(a);
      AscendingTail(b);
      AscendingUnique(a[1..], b[1..]);
      assert a == [a[0]] + a[1..] && b == [b[0]] + b[1..];
    } else {
      assert |a| == |multiset(a)| == |multiset(b)| == |b|;
    }
  }

  // ---------- tables ----------

  /** What `verify_chain` decides about a table. */
  predicate Verified(hash: RecordHash, table: seq<AuditRow>) {
    Chained(hash, OrderBy(table))
  }

  /** Two different texts, hashed for a row of a and a row of b, have one digest. */
  ghost predicate TextCollision(sha256: string -> Digest, a: seq<AuditRow>, b: seq<AuditRow>) {
    exists x, y | x in a && y in b ::
      HashInput(x.record) != HashInput(y.record) && sha256(HashInput(x.record)) == sha256(HashInput(y.record))
  }

  /** A text hashed for one of these rows has the genesis hash as its digest. */
  ghost predicate TextGenesisPreimage(sha256: string -> Digest, rows: seq<AuditRow>) {
    exists x | x in rows :: sha256(HashInput(x.record)) == GENESIS_HASH
  }

  lemma DistinctRecordsDistinctTexts(x: AuditRecord, y: AuditRecord)
    requires |x.previousHash| == |y.previousHash| && x != y
    ensures HashInput(x) != HashInput(y)
  {
    if HashInput(x) == HashInput(y) { HashInputInjective(x, y); }
  }

  /** Two tables that verify and end in one hash hold the same rows, field for field, or they
      exhibit two texts with one digest or a text whose digest is the genesis hash. */
  lemma HeadFixesTable(sha256: string -> Digest, a: seq<AuditRow>, b: seq<AuditRow>)
    requires UniqueIds(a) && UniqueIds(b)
    requires Verified(EntryHash(sha256), a) && Verified(EntryHash(sha256), b)
    requires Head(OrderBy(a)) == Head(OrderBy(b))
    ensures || multiset(a) == multiset(b)
            || TextCollision(sha256, a, b)
            || TextGenesisPreimage(sha256, a) || TextGenesisPreimage(sha256, b)
  {
    var hash := EntryHash(sha256);
    OrderBySorts(a); InOrder(a);
    OrderBySorts(b); InOrder(b);
    HeadFixesRows(hash, OrderBy(a), OrderBy(b));
    if Collision(hash, OrderBy(a), OrderBy(b)) {
      var x, y :| x in OrderBy(a) && y in OrderBy(b) && x.record != y.record && hash(x.record) == hash(y.record);
      ChainedHashed(hash, OrderBy(a));
      ChainedHashed(hash, OrderBy(b));
      DistinctRecordsDistinctTexts(x.record, y.record);
    }
  }

  /** One mandate's rows. */
  function ForMandate(rows: seq<AuditRow>, mandateId: string): seq<AuditRow> {
    if rows == [] then []
    else
      var init, last := ForMandate(rows[..|rows| - 1], mandateId), rows[|rows| - 1];
      if last.record.mandateId == Some(mandateId) then init + [last] else init
  }

  lemma {:induction false} ForMandateKeeps(rows: seq<AuditRow>, mandateId: string)
    ensures forall r :: r in ForMandate(rows, mandateId) <==> r in rows && r.record.mandateId == Some(mandateId)
    ensures Ascending(rows) ==> Ascending(ForMandate(rows, mandateId))
    ensures UniqueIds(rows) ==> UniqueIds(ForMandate(rows, mandateId))
  {
    hide KeyLess;
    if rows == [] {
    } else {
      var init, last := rows[..|rows| - 1], rows[|rows| - 1];
      ForMandateKeeps(init, mandateId);
      assert rows == init + [last];
      assert forall r :: r in rows <==> r in init || r == last;
    }
  }

  lemma {:induction false} ForMandateCounts(rows: seq<AuditRow>, mandateId: string, r: AuditRow)
    ensures multiset(ForMandate(rows, mandateId))[r]
         == if r.record.mandateId == Some(mandateId) then multiset(rows)[r] else 0
  {
    if rows == [] {
    } else {
      ForMandateCounts(rows[..|rows| - 1], mandateId, r);
      assert rows == rows[..|rows| - 1] + [rows[|rows| - 1]];
    }
  }

  /** Filtering before sorting and after sorting give one list: a mandate's chain is a slice of the full chain. */
  lemma SliceOfFullChain(rows: seq<AuditRow>, mandateId: string)
    requires UniqueIds(rows)
    ensures OrderBy(ForMandate(rows, mandateId)) == ForMandate(OrderBy(rows), mandateId)
  {
    OrderBySorts(rows);
    ForMandateKeeps(rows, mandateId);
    OrderBySorts(ForMandate(rows, mandateId));
    ForMandateKeeps(OrderBy(rows), mandateId);
    forall r
      ensures multiset(OrderBy(ForMandate(rows, mandateId)))[r] == multiset(ForMandate(OrderBy(rows), mandateId))[r]
    {
      ForMandateCounts(rows, mandateId, r);
      ForMandateCounts(OrderBy(rows), mandateId, r);
    }
    AscendingUnique(OrderBy(ForMandate(rows, mandateId)), ForMandate(OrderBy(rows), mandateId));
  }

  // ---------- the logger ----------

  /** The row that `ORDER BY timestamp DESC, entry_id DESC LIMIT 1` returns. */
  predicate IsLast(rows: seq<AuditRow>, r: AuditRow) {
    r in rows && forall o | o in rows && o != r :: KeyLess(o.record, r.record)
  }

  lemma LastIsLast(rows: seq<AuditRow>, r: AuditRow)
    requires UniqueIds(rows) && IsLast(rows, r)
    ensures OrderBy(rows) != [] && OrderBy(rows)[|OrderBy(rows)| - 1] == r
  {
    hide OrderBy, KeyLess;
    OrderBySorts(rows);
    InOrder(rows);
    var last := OrderBy(rows)[|OrderBy(rows)| - 1];
    assert last in rows && r in OrderBy(rows);
    if r != last {
      KeyLessTransitive(r.record, last.record, r.record);
      KeyLessIrreflexive(r.record);
    }
  }

  predicate Present(rows: seq<AuditRow>, entryId: string) {
    exists r | r in rows :: r.record.entryId == entryId
  }

  /** A given id or timestamp is used unless it is missing or empty. */
  function Chosen(given: Option<string>, generated: string): string {
    if given.Some? && given.value != "" then given.value else generated
  }

  function NewRow(hash: RecordHash, q: LogRequest, entryId: string, timestamp: string, previous: string): AuditRow {
    var record := AuditRecord(entryId, timestamp, q.agentId, q.mandateId, q.action, q.outcome,
                              q.requestHash, q.responseHash, q.metadataJson, previous);
    AuditRow(record, hash(record))
  }

  /** The row holds what was asked to be logged, each field under its own name, the given id and time, and the hash it
      continues; its own hash is the digest of that hash followed by a text that reads back to the record. */
  ghost predicate Holds(sha256: string -> Digest, row: AuditRow, q: LogRequest, id: string, time: string,
                        previous: string)
  {
    && row.record.entryId == id && row.record.timestamp == time && row.record.previousHash == previous
    && row.record.agentId == q.agentId && row.record.mandateId == q.mandateId
    && row.record.action == q.action && row.record.outcome == q.outcome
    && row.record.requestHash == q.requestHash && row.record.responseHash == q.responseHash
    && row.record.metadataJson == q.metadataJson
    && exists text :: row.entryHash == sha256(previous + text) && ReadRecord(text) == Some(row.record)
  }

  lemma NewRowHolds(sha256: string -> Digest, q: LogRequest, id: string, time: string, previous: string)
    ensures Holds(sha256, NewRow(EntryHash(sha256), q, id, time, previous), q, id, time, previous)
  {
    hide Canonical, ReadRecord;
    var row := NewRow(EntryHash(sha256), q, id, time, previous);
    var text := Canonical(row.record);
    CanonicalReadsBack(row.record);
    assert HashInput(row.record) == previous + text;
    assert row.entryHash == sha256(previous + text) && ReadRecord(text) == Some(row.record);
  }

  class AuditLogger {
    const sha256: string -> Digest
    /** The table in commit order. */
    var rows: seq<AuditRow>

    ghost predicate Valid()
      reads this
    {
      UniqueIds(rows)
    }

    /** Opens the log with the rows it has. */
    constructor (sha256: string -> Digest, stored: seq<AuditRow>)
      requires UniqueIds(stored)
      ensures this.sha256 == sha256 && rows == stored && Valid()
    {
      this.sha256 := sha256;
      rows := stored;
    }

    /** The hash of the row that is last by (timestamp, entry_id). */
    method LastEntryHash() returns (h: string)
      requires Valid()
      ensures rows == [] ==> h == GENESIS_HASH
      ensures forall r | IsLast(rows, r) :: h == r.entryHash
      ensures h == Head(OrderBy(rows))
    {
      hide OrderBy, IsLast, KeyLess;
      OrderBySorts(rows);
      var ordered := OrderBy(rows);
      if ordered == [] {
        h := GENESIS_HASH;
      } else {
        h := ordered[|ordered| - 1].entryHash;
      }
      forall r | IsLast(rows, r) ensures h == r.entryHash { LastIsLast(rows, r); }
    }

    /** Appends one row that names the current last hash. None: the id is taken, nothing is stored. */
    method LogEntry(q: LogRequest, uuid: string, now: string) returns (id: Option<string>)
      requires Valid()
      modifies this`rows
      ensures Valid()
      ensures id.None? <==> Present(old(rows), Chosen(q.entryId, uuid))
      ensures id.None? ==> rows == old(rows)
      ensures id.Some? ==>
                && id.value == (if q.entryId.Some? && q.entryId.value != "" then q.entryId.value else uuid)
                && |rows| == |old(rows)| + 1 && rows[..|old(rows)|] == old(rows)
                && Holds(sha256, rows[|old(rows)|], q, id.value,
                         if q.timestamp.Some? && q.timestamp.value != "" then q.timestamp.value else now,
                         Head(OrderBy(old(rows))))
      ensures id.Some? ==>
                && id.value == Chosen(q.entryId, uuid)
                && rows == old(rows) + [NewRow(EntryHash(sha256), q, id.value, Chosen(q.timestamp, now),
                                             Head(OrderBy(old(rows))))]
    {
      hide Holds, OrderBy, Head;
      var entryId := Chosen(q.entryId, uuid);
      var timestamp := Chosen(q.timestamp, now);
      var previous := LastEntryHash();
      NewRowHolds(sha256, q, entryId, timestamp, previous);
      var record := AuditRecord(entryId, timestamp, q.agentId, q.mandateId, q.action, q.outcome,
                                q.requestHash, q.responseHash, q.metadataJson, previous);
      if Present(rows, entryId) {
        return None;
      }
      rows := rows + [AuditRow(record, EntryHash(sha256)(record))];
      return Some(entryId);
    }

    /** Recomputes every hash in key order. */
    method VerifyChain() returns (ok: bool)
      requires Valid()
      ensures ok <==> Verified(EntryHash(sha256), rows)
    {
      var hash := EntryHash(sha256);
      var ordered := OrderBy(rows);
      var expected := GENESIS_HASH;
      for i := 0 to |ordered|
        invariant Chained(hash, ordered[..i])
        invariant expected == Head(ordered[..i])
      {
        var row := ordered[i];
        assert ordered[..i + 1][..i] == ordered[..i];
        if row.record.previousHash != expected || hash(row.record) != row.entryHash {
          if Chained(hash, ordered) { ChainedPrefix(hash, ordered, i + 1); }
          return false;
        }
        expected := row.entryHash;
      }
      assert ordered[..|ordered|] == ordered;
      return true;
    }

    method GetFullChain() returns (chain: seq<AuditRow>)
      requires Valid()
      ensures Ascending(chain) && multiset(chain) == multiset(rows)
    {
      OrderBySorts(rows);
      chain := OrderBy(rows);
    }

    /** The slice of the full chain that concerns one mandate. */
    method GetChain(mandateId: string) returns (chain: seq<AuditRow>)
      requires Valid()
      ensures chain == ForMandate(OrderBy(rows), mandateId)
      ensures Ascending(chain)
      ensures forall r :: r in chain <==> r in rows && r.record.mandateId == Some(mandateId)
    {
      SliceOfFullChain(rows, mandateId);
      ForMandateKeeps(rows, mandateId);
      OrderBySorts(ForMandate(rows, mandateId));
      InOrder(ForMandate(rows, mandateId));
      chain := OrderBy(ForMandate(rows, mandateId));
    }
  }

  /** What was logged for a mandate is in the chain of that mandate. */
  method LogAndGetChain(audit: AuditLogger, q: LogRequest, uuid: string, now: string, mandateId: string)
    returns (id: Option<string>, chain: seq<AuditRow>)
    requires audit.Valid() && q.mandateId == Some(mandateId)
    modifies audit`rows
    ensures id.Some? ==> exists row | row in chain :: row.record.entryId == id.value && row.record.agentId == q.agentId
  {
    hide NewRow, OrderBy, Head, ForMandate;
    id := audit.LogEntry(q, uuid, now);
    chain := audit.GetChain(mandateId);
    if id.Some? {
      var row := audit.rows[|audit.rows| - 1];
      assert row in audit.rows;
    }
  }
}
