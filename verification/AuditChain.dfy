/** The audit log: a hash over each entry and its predecessor's hash, the append, and the verifier. */
module AuditChain {
  import opened Database
  import opened Text

  /** The foreign functions: SHA-256 hexdigest of a text, and the ISO text of an instant. */
  datatype Primitives = Primitives(sha256: string -> string, isoformat: int -> string)

  /** Hex digests are never empty; neither they nor ISO instants contain the field separator. */
  ghost predicate WellBehaved(p: Primitives) {
    (forall x :: p.sha256(x) != "" && '|' !in p.sha256(x)) && forall t :: '|' !in p.isoformat(t)
  }

  /** The columns of an entry the hash does not cover. */
  datatype Unhashed = Unhashed(userEmail: Option<string>, ipAddress: Option<string>, userAgent: Option<string>,
                               outcome: string, severity: string)

  datatype AuditLog = AuditLog(id: string, timestamp: int, userId: Option<string>, action: string,
                               entityType: string, entityId: string, changesJson: Option<string>,
                               integrityHash: string, previousHash: Option<string>, unhashed: Unhashed)

  /** `x or ''` */
  function OrEmpty(o: Option<string>): string {
    if o.Some? then o.value else ""
  }

  /** The eight texts the payload joins, in order. */
  function Fields(p: Primitives, r: AuditLog): (f: seq<string>)
    ensures |f| == 8
  {
    [r.id, p.isoformat(r.timestamp), OrEmpty(r.userId), r.action, r.entityType, r.entityId,
     OrEmpty(r.changesJson), OrEmpty(r.previousHash)]
  }

  function Payload(p: Primitives, r: AuditLog): string { Join('|', Fields(p, r)) }

  function IntegrityHash(p: Primitives, r: AuditLog): string { p.sha256(Payload(p, r)) }

  /** The two entries agree in every column the hash is meant to cover; for the optional ones, no text and an empty
      text are the same. */
  ghost predicate SameColumns(p: Primitives, r: AuditLog, s: AuditLog) {
    r.id == s.id && p.isoformat(r.timestamp) == p.isoformat(s.timestamp) && OrEmpty(r.userId) == OrEmpty(s.userId)
    && r.action == s.action && r.entityType == s.entityType && r.entityId == s.entityId
    && OrEmpty(r.changesJson) == OrEmpty(s.changesJson) && OrEmpty(r.previousHash) == OrEmpty(s.previousHash)
  }

  lemma SameFieldsIff(p: Primitives, r: AuditLog, s: AuditLog)
    ensures Fields(p, r) == Fields(p, s) <==> SameColumns(p, r, s)
  {
    var f, g := Fields(p, r), Fields(p, s);
    assert f[0] == r.id && f[1] == p.isoformat(r.timestamp) && f[2] == OrEmpty(r.userId) && f[3] == r.action;
    assert f[4] == r.entityType && f[5] == r.entityId && f[6] == OrEmpty(r.changesJson);
    assert f[7] == OrEmpty(r.previousHash);
  }

  /** The text under the digest, spelled out. */
  function HashedText(p: Primitives, r: AuditLog): string {
    r.id + "|" + p.isoformat(r.timestamp) + "|" + OrEmpty(r.userId) + "|" + r.action
    + "|" + r.entityType + "|" + r.entityId + "|" + OrEmpty(r.changesJson) + "|" + OrEmpty(r.previousHash)
  }

  lemma IntegrityHashIs(p: Primitives, r: AuditLog)
    ensures IntegrityHash(p, r) == p.sha256(HashedText(p, r))
  {
    EightJoined(r.id, p.isoformat(r.timestamp), OrEmpty(r.userId), r.action, r.entityType, r.entityId,
                OrEmpty(r.changesJson), OrEmpty(r.previousHash));
  }

  lemma EightJoined(a: string, b: string, c: string, d: string, e: string, f: string, g: string, h: string)
    ensures Join('|', [a, b, c, d, e, f, g, h])
         == a + "|" + b + "|" + c + "|" + d + "|" + e + "|" + f + "|" + g + "|" + h
  {
    JoinOneMore("", a, [b, c, d, e, f, g, h]);
    JoinOneMore(a + "|", b, [c, d, e, f, g, h]);
    JoinOneMore(a + "|" + b + "|", c, [d, e, f, g, h]);
    JoinOneMore(a + "|" + b + "|" + c + "|", d, [e, f, g, h]);
    JoinOneMore(a + "|" + b + "|" + c + "|" + d + "|", e, [f, g, h]);
    JoinOneMore(a + "|" + b + "|" + c + "|" + d + "|" + e + "|", f, [g, h]);
    JoinOneMore(a + "|" + b + "|" + c + "|" + d + "|" + e + "|" + f + "|", g, [h]);
  }

  lemma JoinOneMore(done: string, x: string, rest: seq<string>)
    requires rest != []
    ensures done + Join('|', [x] + rest) == done + x + "|" + Join('|', rest)
  {
    assert ([x] + rest)[1..] == rest;
    assert done + (x + "|" + Join('|', rest)) == done + x + "|" + Join('|', rest);
  }

  // How much of its fields a payload determines

  /** Everything but the seventh field (changes_json) is free of the separator. */
  ghost predicate PipeFree(f: seq<string>)
    requires |f| == 8
  {
    forall i :: 0 <= i < 8 && i != 6 ==> '|' !in f[i]
  }

  lemma SameHead(a: string, x: string, b: string, y: string)
    requires '|' !in a && '|' !in b && a + ['|'] + x == b + ['|'] + y
    ensures a == b && x == y
  {
    var s := a + ['|'] + x;
    assert s[|a|] == '|' && s[|b|] == '|';
    assert |a| == |b|;
    assert a == s[..|a|] && b == s[..|b|] && x == s[|a| + 1..] && y == s[|b| + 1..];
  }

  lemma SameTail(a: string, x: string, b: string, y: string)
    requires '|' !in x && '|' !in y && a + ['|'] + x == b + ['|'] + y
    ensures a == b && x == y
  {
    var s := a + ['|'] + x;
    assert s[|a|] == '|' && s[|b|] == '|';
    assert |a| == |b|;
    assert a == s[..|a|] && b == s[..|b|] && x == s[|a| + 1..] && y == s[|b| + 1..];
  }

  lemma {:induction false} PayloadInjectiveFrom(f: seq<string>, g: seq<string>, i: nat)
    requires |f| == 8 && |g| == 8 && PipeFree(f) && PipeFree(g) && i <= 6
    requires Join('|', f[i..]) == Join('|', g[i..])
    ensures f[i..] == g[i..]
    decreases 6 - i
  {
    assert f[i..][1..] == f[i + 1..] && g[i..][1..] == g[i + 1..];
    if i < 6 {
      SameHead(f[i], Join('|', f[i + 1..]), g[i], Join('|', g[i + 1..]));
      PayloadInjectiveFrom(f, g, i + 1);
      assert f[i..] == [f[i]] + f[i + 1..] && g[i..] == [g[i]] + g[i + 1..];
    } else {
      assert f[7..] == [f[7]] && g[7..] == [g[7]];
      SameTail(f[6], f[7], g[6], g[7]);
      assert f[6..] == [f[6], f[7]] && g[6..] == [g[6], g[7]];
    }
  }

  /** Even though changes_json may hold separators, the payload determines all eight fields. */
  lemma PayloadInjective(f: seq<string>, g: seq<string>)
    requires |f| == 8 && |g| == 8 && PipeFree(f) && PipeFree(g)
    requires Join('|', f) == Join('|', g)
    ensures f == g
  {
    assert f[0..] == f && g[0..] == g;
    PayloadInjectiveFrom(f, g, 0);
  }

  /** Among all eight-field inputs, a payload has one reading exactly when no field holds the separator. */
  lemma PayloadUnambiguousIff(f: seq<string>)
    requires |f| == 8
    ensures (forall g: seq<string> :: |g| == 8 && Join('|', g) == Join('|', f) ==> g == f)
       <==> (forall i :: 0 <= i < 8 ==> '|' !in f[i])
  {
    if forall i :: 0 <= i < 8 ==> '|' !in f[i] {
      SplitOfJoin('|', f);
      forall g: seq<string> | |g| == 8 && Join('|', g) == Join('|', f) ensures g == f {
        FieldsOfJoin('|', g);
        SplitOfJoin('|', g);
      }
    } else {
      var g := OtherReading(f);
    }
  }

  lemma JoinTheLast(q: seq<string>, k: nat)
    requires 0 < k < |q|
    ensures Join('|', q[..k] + [Join('|', q[k..])]) == Join('|', q)
  {
    assert q == q[..k] + q[k..];
    JoinConcat('|', q[..k], q[k..]);
    JoinConcat('|', q[..k], [Join('|', q[k..])]);
  }

  lemma JoinTheFirst(q: seq<string>, k: nat)
    requires 0 < k < |q|
    ensures Join('|', [Join('|', q[..k])] + q[k..]) == Join('|', q)
  {
    assert q == q[..k] + q[k..];
    JoinConcat('|', q[..k], q[k..]);
    JoinConcat('|', [Join('|', q[..k])], q[k..]);
  }

  /** A second reading of a payload with a separator inside some field. */
  lemma OtherReading(f: seq<string>) returns (g: seq<string>)
    requires |f| == 8 && exists i :: 0 <= i < 8 && '|' in f[i]
    ensures |g| == 8 && Join('|', g) == Join('|', f) && g != f
  {
    var q := Split('|', Join('|', f));
    FieldsOfJoin('|', f);
    JoinOfSplit('|', Join('|', f));
    var n := |q|;
    assert n > 8;
    // Read the surplus separators into the last field, or into the first.
    var late := q[..7] + [Join('|', q[7..])];
    var early := [Join('|', q[..n - 7])] + q[n - 7..];
    JoinTheLast(q, 7);
    JoinTheFirst(q, n - 7);
    if late != f {
      return late;
    }
    forall i | 0 <= i < 7 ensures '|' !in f[i] {
      assert f[i] == q[i];
    }
    assert '|' in f[7];
    assert early[7] == q[n - 1];
    return early;
  }

  // The chain

  function ExpectedPrevious(rows: seq<AuditLog>, i: nat): Option<string>
    requires i < |rows|
  {
    if i > 0 then Some(rows[i - 1].integrityHash) else None
  }

  ghost predicate Linked(rows: seq<AuditLog>) {
    (|rows| > 0 ==> rows[0].previousHash == None)
    && forall i, j :: 0 <= i < |rows| && 0 <= j < |rows| && j == i + 1 ==>
                        rows[j].previousHash == Some(rows[i].integrityHash)
  }

  ghost predicate Recomputes(p: Primitives, rows: seq<AuditLog>) {
    forall i :: 0 <= i < |rows| ==> rows[i].integrityHash == IntegrityHash(p, rows[i])
  }

  ghost predicate Chained(p: Primitives, rows: seq<AuditLog>) {
    Linked(rows) && Recomputes(p, rows)
  }

  lemma ChainedPrefix(p: Primitives, rows: seq<AuditLog>, n: nat)
    requires Chained(p, rows) && n <= |rows|
    ensures Chained(p, rows[..n])
  {
  }

  /** x carries its own hash and names the last row of rows as its predecessor. */
  ghost predicate Extends(p: Primitives, rows: seq<AuditLog>, x: AuditLog) {
    x.integrityHash == IntegrityHash(p, x)
    && x.previousHash == if |rows| > 0 then Some(rows[|rows| - 1].integrityHash) else None
  }

  lemma ChainedLast(p: Primitives, rows: seq<AuditLog>, x: AuditLog)
    requires Chained(p, rows + [x])
    ensures Chained(p, rows) && Extends(p, rows, x)
  {
    var all := rows + [x];
    assert all[..|rows|] == rows;
    ChainedPrefix(p, all, |rows|);
    assert all[|rows|] == x;
    if |rows| > 0 { assert all[|rows| - 1] == rows[|rows| - 1]; }
  }

  lemma ChainedSnoc(p: Primitives, rows: seq<AuditLog>, x: AuditLog)
    requires Chained(p, rows) && Extends(p, rows, x)
    ensures Chained(p, rows + [x])
  {
  }

  // The verifier

  datatype VerifyError =
    | PreviousHashMismatch(id: string, position: nat, expectedPrevious: Option<string>, actualPrevious: Option<string>)
    | IntegrityHashMismatch(id: string, position: nat, expectedHash: string, actualHash: string)

  datatype Report = Empty | Checked(valid: bool, verified: nat, errors: seq<VerifyError>)

  /** What the verifier reports of entry i: at most one error of each kind, the link first. */
  function ErrorsAt(p: Primitives, logs: seq<AuditLog>, i: nat): seq<VerifyError>
    requires i < |logs|
  {
    var log := logs[i];
    var expected := ExpectedPrevious(logs, i);
    (if log.previousHash != expected then [PreviousHashMismatch(log.id, i, expected, log.previousHash)] else [])
    + (if IntegrityHash(p, log) != log.integrityHash
       then [IntegrityHashMismatch(log.id, i, IntegrityHash(p, log), log.integrityHash)] else [])
  }

  function Errors(p: Primitives, logs: seq<AuditLog>, n: nat): seq<VerifyError>
    requires n <= |logs|
  {
    if n == 0 then [] else Errors(p, logs, n - 1) + ErrorsAt(p, logs, n - 1)
  }

  /** No error is reported exactly when the list is linked and every stored hash recomputes. */
  lemma {:induction false} NoErrorsIffChained(p: Primitives, logs: seq<AuditLog>, n: nat)
    requires n <= |logs|
    ensures Errors(p, logs, n) == [] <==> Chained(p, logs[..n])
  {
    if n > 0 {
      NoErrorsIffChained(p, logs, n - 1);
      assert logs[..n] == logs[..n - 1] + [logs[n - 1]];
      if Chained(p, logs[..n]) { ChainedLast(p, logs[..n - 1], logs[n - 1]); }
      if Errors(p, logs, n) == [] { ChainedSnoc(p, logs[..n - 1], logs[n - 1]); }
    }
  }

  // The table's orders

  /** The timestamps never step back from one row to a later one. */
  ghost predicate InOrder(rows: seq<AuditLog>) {
    forall i, j :: 0 <= i < j < |rows| ==> rows[i].timestamp <= rows[j].timestamp
  }

  /** ORDER BY timestamp; equal timestamps keep insertion order. */
  function ByTimestamp(rows: seq<AuditLog>): (r: seq<AuditLog>)
    ensures |r| == |rows|
  {
    if rows == [] then [] else InsertByTimestamp(ByTimestamp(rows[..|rows| - 1]), rows[|rows| - 1])
  }

  function InsertByTimestamp(s: seq<AuditLog>, x: AuditLog): (r: seq<AuditLog>)
    ensures |r| == |s| + 1
  {
    if s == [] || x.timestamp < s[0].timestamp then [x] + s else [s[0]] + InsertByTimestamp(s[1..], x)
  }

  /** integrity_hash of the row with the largest timestamp. */
  function LatestHash(rows: seq<AuditLog>): Option<string> {
    var sorted := ByTimestamp(rows);
    if sorted == [] then None else Some(sorted[|sorted| - 1].integrityHash)
  }

  lemma InsertedTail<T>(s: seq<T>, x: T, k: nat)
    requires 0 < k <= |s|
    ensures [s[0]] + (s[1..][..k - 1] + [x] + s[1..][k - 1..]) == s[..k] + [x] + s[k..]
  {
    assert s[1..][..k - 1] == s[1..k] && s[1..][k - 1..] == s[k..];
    assert s[..k] == [s[0]] + s[1..k];
  }

  lemma {:induction false} InsertAt(s: seq<AuditLog>, x: AuditLog, k: nat)
    requires k <= |s|
    requires forall i :: 0 <= i < k ==> s[i].timestamp <= x.timestamp
    requires k < |s| ==> x.timestamp < s[k].timestamp
    ensures InsertByTimestamp(s, x) == s[..k] + [x] + s[k..]
  {
    if k > 0 {
      InsertAt(s[1..], x, k - 1);
      InsertedTail(s, x, k);
    } else {
      assert s[..0] + [x] + s[0..] == [x] + s;
    }
  }

  lemma {:induction false} InOrderIsSorted(rows: seq<AuditLog>)
    requires InOrder(rows)
    ensures ByTimestamp(rows) == rows
  {
    if rows != [] {
      var n := |rows| - 1;
      InOrderIsSorted(rows[..n]);
      InsertAt(rows[..n], rows[n], n);
    }
  }

  // Appending

  datatype Entry = Entry(userId: Option<string>, action: string, entityType: string, entityId: string,
                         changesJson: Option<string>, unhashed: Unhashed)

  function NewRow(p: Primitives, rows: seq<AuditLog>, id: string, now: int, e: Entry): AuditLog {
    var draft := AuditLog(id, now, e.userId, e.action, e.entityType, e.entityId, e.changesJson, "",
                          LatestHash(rows), e.unhashed);
    draft.(integrityHash := IntegrityHash(p, draft))
  }

  /** One request that writes an entry: `commits` says whether the rest of the request succeeds. */
  datatype Append = Append(id: string, now: int, entry: Entry, commits: bool)

  function Step(p: Primitives, rows: seq<AuditLog>, a: Append): seq<AuditLog> {
    if !a.commits || (exists r :: r in rows && r.id == a.id) then rows
    else rows + [NewRow(p, rows, a.id, a.now, a.entry)]
  }

  function Run(p: Primitives, rows: seq<AuditLog>, work: seq<Append>): seq<AuditLog>
    decreases |work|
  {
    if work == [] then rows else Run(p, Step(p, rows, work[0]), work[1..])
  }

  ghost predicate ClockNeverStepsBack(rows: seq<AuditLog>, work: seq<Append>) {
    InOrder(rows)
    && (forall r, a :: r in rows && a in work ==> r.timestamp <= a.now)
    && forall i, j :: 0 <= i < j < |work| ==> work[i].now <= work[j].now
  }

  lemma NewRowExtends(p: Primitives, rows: seq<AuditLog>, id: string, now: int, e: Entry)
    requires InOrder(rows)
    ensures Extends(p, rows, NewRow(p, rows, id, now, e))
  {
    InOrderIsSorted(rows);
    var x := NewRow(p, rows, id, now, e);
    assert Payload(p, x) == Payload(p, x.(integrityHash := ""));
  }

  lemma StepChained(p: Primitives, rows: seq<AuditLog>, a: Append)
    requires InOrder(rows) && Chained(p, rows) && forall r :: r in rows ==> r.timestamp <= a.now
    ensures InOrder(Step(p, rows, a)) && Chained(p, Step(p, rows, a))
  {
    var after := Step(p, rows, a);
    if |after| > |rows| {
      NewRowExtends(p, rows, a.id, a.now, a.entry);
      ChainedSnoc(p, rows, NewRow(p, rows, a.id, a.now, a.entry));
      assert forall i :: 0 <= i < |rows| ==> rows[i] in rows;
    }
  }

  lemma {:induction false} RunChained(p: Primitives, rows: seq<AuditLog>, work: seq<Append>)
    requires ClockNeverStepsBack(rows, work) && Chained(p, rows)
    ensures InOrder(Run(p, rows, work)) && Chained(p, Run(p, rows, work))
    decreases |work|
  {
    if work != [] {
      assert work[0] in work;
      StepChained(p, rows, work[0]);
      var after := Step(p, rows, work[0]);
      forall r, a | r in after && a in work[1..] ensures r.timestamp <= a.now {
        if r !in rows { assert r.timestamp == work[0].now; }
      }
      RunChained(p, after, work[1..]);
    }
  }

  function FirstByTimestamp(rows: seq<AuditLog>, limit: nat): seq<AuditLog> {
    if limit < |rows| then ByTimestamp(rows)[..limit] else ByTimestamp(rows)
  }

  /** Every log any run builds, rolled-back requests included, verifies without an error for every limit. */
  lemma RunVerifies(p: Primitives, work: seq<Append>, limit: nat)
    requires forall i, j :: 0 <= i < j < |work| ==> work[i].now <= work[j].now
    ensures var logs := FirstByTimestamp(Run(p, [], work), limit);
            Chained(p, logs) && Errors(p, logs, |logs|) == []
  {
    RunChained(p, [], work);
    var rows := Run(p, [], work);
    InOrderIsSorted(rows);
    var logs := FirstByTimestamp(rows, limit);
    if limit < |rows| { ChainedPrefix(p, rows, limit); }
    assert logs[..|logs|] == logs;
    NoErrorsIffChained(p, logs, |logs|);
  }

  // Tamper evidence

  /** No separator in the columns before changes_json; instants and digests never hold one. */
  ghost predicate AllPipeFree(rows: seq<AuditLog>) {
    forall r :: r in rows ==> ColumnsPipeFree(r)
  }

  ghost predicate ColumnsPipeFree(r: AuditLog) {
    '|' !in r.id && '|' !in OrEmpty(r.userId) && '|' !in r.action && '|' !in r.entityType && '|' !in r.entityId
  }

  lemma PipeFreeFields(p: Primitives, r: AuditLog)
    requires WellBehaved(p) && ColumnsPipeFree(r) && '|' !in OrEmpty(r.previousHash)
    ensures PipeFree(Fields(p, r))
  {
  }

  /** Two entries have the same hash exactly when they agree in every column it is meant to cover. */
  lemma SameHashIffSameColumns(p: Primitives, r: AuditLog, s: AuditLog)
    requires WellBehaved(p) && NoCollision(p, [r, s]) && ColumnsPipeFree(r) && ColumnsPipeFree(s)
    requires '|' !in OrEmpty(r.previousHash) && '|' !in OrEmpty(s.previousHash)
    ensures IntegrityHash(p, r) == IntegrityHash(p, s) <==> SameColumns(p, r, s)
  {
    SameFieldsIff(p, r, s);
    if IntegrityHash(p, r) == IntegrityHash(p, s) {
      assert r in [r, s] && s in [r, s];
      PipeFreeFields(p, r);
      PipeFreeFields(p, s);
      PayloadInjective(Fields(p, r), Fields(p, s));
    }
  }

  /** The digest tells apart the payloads that occur. */
  ghost predicate NoCollision(p: Primitives, rows: seq<AuditLog>) {
    forall r, s :: r in rows && s in rows && IntegrityHash(p, r) == IntegrityHash(p, s) ==>
        Payload(p, r) == Payload(p, s)
  }

  ghost predicate SameHistory(p: Primitives, a: seq<AuditLog>, b: seq<AuditLog>) {
    |a| == |b| && forall i :: 0 <= i < |a| ==> SameColumns(p, a[i], b[i])
  }

  ghost predicate SameLastHash(a: seq<AuditLog>, b: seq<AuditLog>) {
    a != [] && b != [] && a[|a| - 1].integrityHash == b[|b| - 1].integrityHash
  }

  /** What the argument needs of an entry: its hash, the hash it names as predecessor (or ""), and its fields. */
  datatype Link = Link(own: string, previous: string, fields: seq<string>)

  ghost function LinkOf(p: Primitives, r: AuditLog): Link {
    Link(r.integrityHash, OrEmpty(r.previousHash), Fields(p, r))
  }

  ghost function Links(p: Primitives, a: seq<AuditLog>): seq<Link> {
    seq(|a|, i requires 0 <= i < |a| => LinkOf(p, a[i]))
  }

  ghost predicate IsChain(a: seq<Link>) {
    (|a| > 0 ==> a[0].previous == "")
    && (forall i :: 0 <= i < |a| ==> a[i].own != "")
    && forall i, j :: 0 <= i < |a| && 0 <= j < |a| && j == i + 1 ==> a[j].previous == a[i].own
  }

  /** Equal hashes in the two chains mean equal contents. */
  ghost predicate HashDetermines(a: seq<Link>, b: seq<Link>) {
    forall i, j :: 0 <= i < |a| && 0 <= j < |b| && a[i].own == b[j].own ==> a[i] == b[j]
  }

  /** Entries with equal hashes stand at the same place and have the same past. */
  lemma {:induction false} SamePast(a: seq<Link>, b: seq<Link>, m: nat, n: nat)
    requires IsChain(a) && IsChain(b) && HashDetermines(a, b)
    requires m < |a| && n < |b| && a[m].own == b[n].own
    ensures m == n && forall i :: 0 <= i <= m ==> a[i] == b[i]
    decreases m
  {
    FirstHasNoPrevious(a, m);
    FirstHasNoPrevious(b, n);
    if m > 0 && n > 0 {
      assert a[m].previous == a[m - 1].own && b[n].previous == b[n - 1].own;
      SamePast(a, b, m - 1, n - 1);
    }
  }

  lemma FirstHasNoPrevious(a: seq<Link>, m: nat)
    requires IsChain(a) && m < |a|
    ensures a[m].previous == "" <==> m == 0
  {
    if m > 0 { assert a[m].previous == a[m - 1].own; }
  }

  lemma PipeFreeEntry(p: Primitives, a: seq<AuditLog>, k: nat)
    requires WellBehaved(p) && Chained(p, a) && AllPipeFree(a) && k < |a|
    ensures PipeFree(Fields(p, a[k]))
  {
    assert a[k] in a;
    if k > 0 {
      assert a[k].previousHash == Some(a[k - 1].integrityHash);
      assert a[k - 1].integrityHash == IntegrityHash(p, a[k - 1]);
    }
    PipeFreeFields(p, a[k]);
  }

  lemma SameHashSameLink(p: Primitives, a: seq<AuditLog>, b: seq<AuditLog>, i: nat, j: nat)
    requires WellBehaved(p) && Chained(p, a) && Chained(p, b) && i < |a| && j < |b|
    requires AllPipeFree(a) && AllPipeFree(b) && NoCollision(p, a + b)
    requires a[i].integrityHash == b[j].integrityHash
    ensures LinkOf(p, a[i]) == LinkOf(p, b[j])
  {
    PipeFreeEntry(p, a, i);
    PipeFreeEntry(p, b, j);
    assert a[i] in a + b && b[j] in a + b;
    PayloadInjective(Fields(p, a[i]), Fields(p, b[j]));
    assert Fields(p, a[i])[7] == Fields(p, b[j])[7];
  }

  lemma ChainOfLinks(p: Primitives, a: seq<AuditLog>)
    requires WellBehaved(p) && Chained(p, a)
    ensures IsChain(Links(p, a))
  {
    forall i | 0 <= i < |a| ensures Links(p, a)[i].own != "" {
      assert a[i].integrityHash == IntegrityHash(p, a[i]);
    }
  }

  lemma LinksAreDetermined(p: Primitives, a: seq<AuditLog>, b: seq<AuditLog>)
    requires WellBehaved(p) && Chained(p, a) && Chained(p, b)
    requires AllPipeFree(a) && AllPipeFree(b) && NoCollision(p, a + b)
    ensures IsChain(Links(p, a)) && IsChain(Links(p, b)) && HashDetermines(Links(p, a), Links(p, b))
  {
    ChainOfLinks(p, a);
    ChainOfLinks(p, b);
    var l, k := Links(p, a), Links(p, b);
    forall i, j | 0 <= i < |l| && 0 <= j < |k| && l[i].own == k[j].own ensures l[i] == k[j] {
      SameHashSameLink(p, a, b, i, j);
    }
  }

  /** Two logs that both verify and end in the same hash record the same history. */
  lemma TamperEvidence(p: Primitives, a: seq<AuditLog>, b: seq<AuditLog>)
    requires WellBehaved(p) && Chained(p, a) && Chained(p, b) && SameLastHash(a, b)
    requires AllPipeFree(a) && AllPipeFree(b) && NoCollision(p, a + b)
    ensures SameHistory(p, a, b)
  {
    LinksAreDetermined(p, a, b);
    SamePast(Links(p, a), Links(p, b), |a| - 1, |b| - 1);
    SameLinksSameHistory(p, a, b);
  }

  lemma SameLinksSameHistory(p: Primitives, a: seq<AuditLog>, b: seq<AuditLog>)
    requires |a| == |b| && forall i :: 0 <= i < |a| ==> Links(p, a)[i] == Links(p, b)[i]
    ensures SameHistory(p, a, b)
  {
    forall i | 0 <= i < |a| ensures SameColumns(p, a[i], b[i]) {
      assert Links(p, a)[i] == LinkOf(p, a[i]) && Links(p, b)[i] == LinkOf(p, b[i]);
      SameFieldsIff(p, a[i], b[i]);
    }
  }

  /** So any edit, insertion, deletion or swap that keeps the last hash is reported. */
  lemma TamperingReported(p: Primitives, a: seq<AuditLog>, b: seq<AuditLog>)
    requires WellBehaved(p) && Chained(p, a) && SameLastHash(a, b) && !SameHistory(p, a, b)
    requires AllPipeFree(a) && AllPipeFree(b) && NoCollision(p, a + b)
    ensures Errors(p, b, |b|) != []
  {
    assert b[..|b|] == b;
    NoErrorsIffChained(p, b, |b|);
    if Chained(p, b) {
      TamperEvidence(p, a, b);
    }
  }

  /** Entry by entry the two logs agree in all that the hash covers and in the two hashes themselves. */
  ghost predicate SameEntries(p: Primitives, a: seq<AuditLog>, b: seq<AuditLog>) {
    SameHistory(p, a, b) && forall i :: 0 <= i < |a| ==> SameHashes(a[i], b[i])
  }

  ghost predicate SameHashes(r: AuditLog, s: AuditLog) {
    r.integrityHash == s.integrityHash && r.previousHash == s.previousHash
  }

  /** A log that ends in the hash of a verifying one passes exactly when it agrees with it in every entry: whatever else
      differs is outside the hash. */
  lemma PassesIffSameEntries(p: Primitives, a: seq<AuditLog>, b: seq<AuditLog>)
    requires WellBehaved(p) && Chained(p, a) && SameLastHash(a, b)
    requires AllPipeFree(a) && AllPipeFree(b) && NoCollision(p, a + b)
    ensures Errors(p, b, |b|) == [] <==> SameEntries(p, a, b)
  {
    assert b[..|b|] == b;
    NoErrorsIffChained(p, b, |b|);
    if Chained(p, b) {
      TamperEvidence(p, a, b);
      forall i | 0 <= i < |a| ensures SameHashes(a[i], b[i]) { SameFieldsSameHashes(p, a, b, i); }
    }
    if SameEntries(p, a, b) { SameEntriesChained(p, a, b); }
  }

  lemma SameFieldsSameHashes(p: Primitives, a: seq<AuditLog>, b: seq<AuditLog>, i: nat)
    requires Chained(p, a) && Chained(p, b) && SameHistory(p, a, b) && i < |a|
    ensures SameHashes(a[i], b[i])
  {
    SameFieldsIff(p, a[i], b[i]);
    assert a[i].integrityHash == IntegrityHash(p, a[i]) && b[i].integrityHash == IntegrityHash(p, b[i]);
    if i > 0 {
      SameFieldsSameHashes(p, a, b, i - 1);
      assert a[i].previousHash == Some(a[i - 1].integrityHash) && b[i].previousHash == Some(b[i - 1].integrityHash);
    }
  }

  lemma SameEntriesChained(p: Primitives, a: seq<AuditLog>, b: seq<AuditLog>)
    requires Chained(p, a) && SameEntries(p, a, b)
    ensures Chained(p, b)
  {
    forall i | 0 <= i < |b| ensures b[i].integrityHash == IntegrityHash(p, b[i]) {
      assert SameColumns(p, a[i], b[i]) && SameHashes(a[i], b[i]);
      SameFieldsIff(p, a[i], b[i]);
      assert a[i].integrityHash == IntegrityHash(p, a[i]);
    }
    if |b| > 0 { assert SameHashes(a[0], b[0]); }
    forall i, j | 0 <= i < |b| && 0 <= j < |b| && j == i + 1 ensures b[j].previousHash == Some(b[i].integrityHash) {
      assert SameHashes(a[i], b[i]) && SameHashes(a[j], b[j]);
      assert a[j].previousHash == Some(a[i].integrityHash);
    }
  }

  /** What the chain does not cover: unhashed columns can change without any error. */
  lemma {:induction false} UnhashedEditsPass(p: Primitives, a: seq<AuditLog>, b: seq<AuditLog>, n: nat)
    requires |a| == |b| && n <= |a|
    requires forall i :: 0 <= i < |a| ==> b[i] == a[i].(unhashed := b[i].unhashed)
    ensures Errors(p, b, n) == Errors(p, a, n)
  {
    if n > 0 {
      UnhashedEditsPass(p, a, b, n - 1);
      assert Fields(p, a[n - 1]) == Fields(p, b[n - 1]);
    }
  }

  /** With a clock that may step back: an append keeps the log verifiable exactly when no timestamp is newer. */
  lemma AppendKeepsChainIff(p: Primitives, rows: seq<AuditLog>, id: string, now: int, e: Entry)
    requires WellBehaved(p) && InOrder(rows) && Chained(p, rows) && rows != []
    requires AllPipeFree(rows) && NoCollision(p, rows)
    ensures Chained(p, ByTimestamp(rows + [NewRow(p, rows, id, now, e)])) <==> rows[|rows| - 1].timestamp <= now
  {
    var x := NewRow(p, rows, id, now, e);
    NewRowExtends(p, rows, id, now, e);
    var k := PlaceOf(rows, now);
    SortedAppend(rows, x, k);
    NewestOrNot(p, rows, x, k);
  }

  lemma SortedAppend(rows: seq<AuditLog>, x: AuditLog, k: nat)
    requires InOrder(rows) && k <= |rows|
    requires forall i :: 0 <= i < k ==> rows[i].timestamp <= x.timestamp
    requires forall i :: k <= i < |rows| ==> x.timestamp < rows[i].timestamp
    ensures ByTimestamp(rows + [x]) == rows[..k] + [x] + rows[k..]
  {
    InOrderIsSorted(rows);
    ByTimestampNext(rows, x);
    InsertAt(rows, x, k);
  }

  lemma ByTimestampNext(rows: seq<AuditLog>, x: AuditLog)
    ensures ByTimestamp(rows + [x]) == InsertByTimestamp(ByTimestamp(rows), x)
  {
    assert (rows + [x])[..|rows|] == rows;
  }

  /** A row that names the last row as its predecessor fits only at the end. */
  lemma NewestOrNot(p: Primitives, rows: seq<AuditLog>, x: AuditLog, k: nat)
    requires WellBehaved(p) && Chained(p, rows) && Extends(p, rows, x) && k <= |rows| && rows != []
    requires AllPipeFree(rows) && NoCollision(p, rows)
    ensures Chained(p, rows[..k] + [x] + rows[k..]) <==> k == |rows|
  {
    if k == |rows| {
      assert rows[..k] + [x] + rows[k..] == rows + [x];
      ChainedSnoc(p, rows, x);
    } else {
      NotInTheMiddle(p, rows, x, k);
    }
  }

  lemma NotInTheMiddle(p: Primitives, rows: seq<AuditLog>, x: AuditLog, k: nat)
    requires WellBehaved(p) && Chained(p, rows) && k < |rows|
    requires AllPipeFree(rows) && NoCollision(p, rows)
    requires x.previousHash == Some(rows[|rows| - 1].integrityHash)
    ensures !Linked(rows[..k] + [x] + rows[k..])
  {
    var all := rows[..k] + [x] + rows[k..];
    assert all[k] == x;
    if Linked(all) {
      assert k > 0 && all[k - 1] == rows[k - 1];
      OneRowForEachHash(p, rows, k - 1, |rows| - 1);
    }
  }

  lemma OneRowForEachHash(p: Primitives, rows: seq<AuditLog>, i: nat, j: nat)
    requires WellBehaved(p) && Chained(p, rows) && AllPipeFree(rows) && NoCollision(p, rows)
    requires i < |rows| && j < |rows| && rows[i].integrityHash == rows[j].integrityHash
    ensures i == j
  {
    var l := Links(p, rows);
    assert forall r :: r in rows + rows ==> r in rows;
    LinksAreDetermined(p, rows, rows);
    SamePast(l, l, i, j);
  }

  lemma PlaceOf(rows: seq<AuditLog>, now: int) returns (k: nat)
    requires InOrder(rows)
    ensures k <= |rows| && (forall i :: 0 <= i < k ==> rows[i].timestamp <= now)
    ensures forall i :: k <= i < |rows| ==> now < rows[i].timestamp
  {
    k := |rows|;
    while k > 0 && now < rows[k - 1].timestamp
      invariant k <= |rows| && forall i :: k <= i < |rows| ==> now < rows[i].timestamp
    {
      k := k - 1;
    }
  }

  // Whole runs with a clock that may step back

  /** Every row carries its hash and names the newest row before it, as create_audit_log writes it. */
  ghost predicate Appended(p: Primitives, rows: seq<AuditLog>) {
    forall k :: 0 <= k < |rows| ==>
      rows[k].integrityHash == IntegrityHash(p, rows[k]) && rows[k].previousHash == LatestHash(rows[..k])
  }

  lemma AppendedSnoc(p: Primitives, rows: seq<AuditLog>, x: AuditLog)
    ensures Appended(p, rows + [x]) <==>
              Appended(p, rows) && x.integrityHash == IntegrityHash(p, x) && x.previousHash == LatestHash(rows)
  {
    var all := rows + [x];
    assert all[..|rows|] == rows && all[|rows|] == x;
    forall k | 0 <= k < |rows| ensures all[k] == rows[k] && LatestHash(all[..k]) == LatestHash(rows[..k]) {
      assert all[..k] == rows[..k];
    }
  }

  lemma StepAppended(p: Primitives, rows: seq<AuditLog>, a: Append)
    requires Appended(p, rows)
    ensures Appended(p, Step(p, rows, a))
  {
    var x := NewRow(p, rows, a.id, a.now, a.entry);
    assert Payload(p, x) == Payload(p, x.(integrityHash := ""));
    AppendedSnoc(p, rows, x);
  }

  lemma {:induction false} RunAppended(p: Primitives, rows: seq<AuditLog>, work: seq<Append>)
    requires Appended(p, rows)
    ensures Appended(p, Run(p, rows, work))
    decreases |work|
  {
    if work != [] {
      StepAppended(p, rows, work[0]);
      RunAppended(p, Step(p, rows, work[0]), work[1..]);
    }
  }

  lemma InOrderLatest(rows: seq<AuditLog>)
    requires InOrder(rows)
    ensures LatestHash(rows) == if rows == [] then None else Some(rows[|rows| - 1].integrityHash)
  {
    InOrderIsSorted(rows);
  }

  lemma {:induction false} InOrderIsChained(p: Primitives, rows: seq<AuditLog>)
    requires Appended(p, rows) && InOrder(rows)
    ensures Chained(p, rows)
  {
    if rows != [] {
      var init, x := rows[..|rows| - 1], rows[|rows| - 1];
      assert rows == init + [x];
      AppendedSnoc(p, init, x);
      InOrderIsChained(p, init);
      InOrderLatest(init);
      ChainedSnoc(p, init, x);
    }
  }

  lemma {:induction false} InsertSorted(s: seq<AuditLog>, x: AuditLog)
    requires InOrder(s)
    ensures InOrder(InsertByTimestamp(s, x))
    ensures forall y :: y in InsertByTimestamp(s, x) <==> y in s || y == x
  {
    if s != [] && x.timestamp >= s[0].timestamp {
      InsertSorted(s[1..], x);
      var rest := InsertByTimestamp(s[1..], x);
      forall j | 0 <= j < |rest| ensures s[0].timestamp <= rest[j].timestamp {
        assert rest[j] in rest;
      }
    }
  }

  /** ByTimestamp is a sort: the same rows, none before an older one. */
  lemma {:induction false} ByTimestampSorts(rows: seq<AuditLog>)
    ensures InOrder(ByTimestamp(rows)) && forall x :: x in ByTimestamp(rows) <==> x in rows
  {
    if rows != [] {
      var n := |rows| - 1;
      ByTimestampSorts(rows[..n]);
      InsertSorted(ByTimestamp(rows[..n]), rows[n]);
      assert forall x :: x in rows <==> x in rows[..n] || x == rows[n];
    }
  }

  lemma FirstStepBack(rows: seq<AuditLog>) returns (k: nat)
    requires !InOrder(rows)
    ensures 0 < k < |rows| && InOrder(rows[..k]) && rows[k].timestamp < rows[k - 1].timestamp
  {
    k := 1;
    while k + 1 < |rows| && InOrder(rows[..k + 1])
      invariant 0 < k < |rows| && InOrder(rows[..k])
    {
      k := k + 1;
    }
    assert rows[..|rows|] == rows;
    assert rows[..k + 1] == rows[..k] + [rows[k]];
    StepBackAtEnd(rows[..k], rows[k]);
  }

  lemma StepBackAtEnd(s: seq<AuditLog>, x: AuditLog)
    requires s != [] && InOrder(s) && !InOrder(s + [x])
    ensures x.timestamp < s[|s| - 1].timestamp
  {
  }

  /** A row whose named predecessor sorts after it breaks the chain for good. */
  lemma StepBackBreaks(p: Primitives, sorted: seq<AuditLog>, x: AuditLog, newest: AuditLog)
    requires WellBehaved(p) && AllPipeFree(sorted) && NoCollision(p, sorted) && InOrder(sorted)
    requires x in sorted && newest in sorted && x.timestamp < newest.timestamp
    requires x.previousHash == Some(newest.integrityHash)
    ensures !Chained(p, sorted)
  {
    var a :| 0 <= a < |sorted| && sorted[a] == x;
    var b :| 0 <= b < |sorted| && sorted[b] == newest;
    if Chained(p, sorted) {
      assert a > 0 && sorted[a].previousHash == Some(sorted[a - 1].integrityHash);
      OneRowForEachHash(p, sorted, a - 1, b);
    }
  }

  lemma NotInOrderBreaks(p: Primitives, rows: seq<AuditLog>)
    requires WellBehaved(p) && AllPipeFree(rows) && NoCollision(p, rows) && Appended(p, rows) && !InOrder(rows)
    ensures !Chained(p, ByTimestamp(rows))
  {
    var k := FirstStepBack(rows);
    InOrderLatest(rows[..k]);
    assert rows[k].previousHash == LatestHash(rows[..k]) == Some(rows[k - 1].integrityHash);
    assert rows[k] in rows && rows[k - 1] in rows;
    ByTimestampSorts(rows);
    StepBackBreaks(p, ByTimestamp(rows), rows[k], rows[k - 1]);
  }

  /** The log of any run verifies exactly when its timestamps never step back; no later append repairs it. */
  lemma RunVerifiesIff(p: Primitives, work: seq<Append>)
    requires WellBehaved(p) && AllPipeFree(Run(p, [], work)) && NoCollision(p, Run(p, [], work))
    ensures var rows := Run(p, [], work);
            Errors(p, ByTimestamp(rows), |rows|) == [] <==> InOrder(rows)
  {
    var rows := Run(p, [], work);
    RunAppended(p, [], work);
    assert ByTimestamp(rows)[..|rows|] == ByTimestamp(rows);
    NoErrorsIffChained(p, ByTimestamp(rows), |rows|);
    if InOrder(rows) {
      InOrderIsSorted(rows);
      InOrderIsChained(p, rows);
    } else {
      NotInOrderBreaks(p, rows);
    }
  }

  lemma TwoAppends(p: Primitives, first: Append, second: Append)
    requires first.commits && second.commits && first.id != second.id
    ensures var a := NewRow(p, [], first.id, first.now, first.entry);
            Run(p, [], [first, second]) == [a, NewRow(p, [a], second.id, second.now, second.entry)]
  {
    var a := NewRow(p, [], first.id, first.now, first.entry);
    assert [first, second][1..] == [second] && [second][1..] == [];
    assert Step(p, [], first) == [a];
    assert Run(p, [], [first, second]) == Run(p, [a], [second]);
  }

  lemma SwappedPair(a: AuditLog, b: AuditLog)
    requires b.timestamp < a.timestamp
    ensures ByTimestamp([a]) == [a] && ByTimestamp([a, b]) == [b, a]
  {
    assert [a, b][..1] == [a] && [a][..0] == [];
  }

  /** Two entries, the second one with the earlier reading, are enough. */
  lemma StepBackIsReported(p: Primitives, first: Append, second: Append)
    requires first.commits && second.commits && first.id != second.id && second.now < first.now
    ensures var rows := Run(p, [], [first, second]);
            |rows| == 2 && Errors(p, ByTimestamp(rows), 2) != []
  {
    var a := NewRow(p, [], first.id, first.now, first.entry);
    var b := NewRow(p, [a], second.id, second.now, second.entry);
    TwoAppends(p, first, second);
    SwappedPair(a, b);
    assert b.previousHash == Some(a.integrityHash);
    assert |ErrorsAt(p, [b, a], 0)| > 0;
  }

  // What an append writes and what the verifier reports

  /** Row i has the largest timestamp, and is the last one with it. */
  ghost predicate NewestAt(rows: seq<AuditLog>, i: int) {
    0 <= i < |rows| && (forall j :: 0 <= j < |rows| ==> rows[j].timestamp <= rows[i].timestamp)
    && forall j :: i < j < |rows| ==> rows[j].timestamp < rows[i].timestamp
  }

  lemma {:induction false} InsertedAtEnd(s: seq<AuditLog>, x: AuditLog)
    requires InOrder(s)
    ensures InsertByTimestamp(s, x)[|s|] == if s == [] || s[|s| - 1].timestamp <= x.timestamp then x else s[|s| - 1]
  {
    if s != [] && x.timestamp >= s[0].timestamp { InsertedAtEnd(s[1..], x); }
  }

  lemma {:induction false} LastIsNewest(rows: seq<AuditLog>) returns (i: nat)
    requires rows != []
    ensures NewestAt(rows, i) && ByTimestamp(rows)[|rows| - 1] == rows[i]
  {
    var n := |rows| - 1;
    var init := rows[..n];
    i := n;
    ByTimestampSorts(init);
    InsertedAtEnd(ByTimestamp(init), rows[n]);
    if n > 0 {
      var k := LastIsNewest(init);
      assert forall j :: 0 <= j < n ==> init[j] == rows[j];
      if rows[n].timestamp < rows[k].timestamp { i := k; }
    }
  }

  /** No row, no predecessor; else the hash of the newest row. */
  ghost predicate NamesNewest(rows: seq<AuditLog>, previous: Option<string>) {
    if rows == [] then previous == None
    else exists i :: NewestAt(rows, i) && previous == Some(rows[i].integrityHash)
  }

  /** x holds what the request gives, and the digest of exactly that. */
  ghost predicate Records(p: Primitives, x: AuditLog, a: Append) {
    x.id == a.id && x.timestamp == a.now && x.userId == a.entry.userId && x.action == a.entry.action
    && x.entityType == a.entry.entityType && x.entityId == a.entry.entityId && x.changesJson == a.entry.changesJson
    && x.unhashed == a.entry.unhashed && x.integrityHash == p.sha256(HashedText(p, x))
  }

  lemma NewRowRecords(p: Primitives, rows: seq<AuditLog>, a: Append)
    ensures Records(p, NewRow(p, rows, a.id, a.now, a.entry), a)
    ensures NamesNewest(rows, NewRow(p, rows, a.id, a.now, a.entry).previousHash)
  {
    var x := NewRow(p, rows, a.id, a.now, a.entry);
    assert Payload(p, x) == Payload(p, x.(integrityHash := ""));
    IntegrityHashIs(p, x);
    if rows != [] { var i := LastIsNewest(rows); }
  }

  /** An append adds one row that records the entry and names the newest row, exactly when it commits under a new id. */
  lemma AppendOutcome(p: Primitives, rows: seq<AuditLog>, a: Append)
    ensures var after, isNew := Step(p, rows, a), forall r :: r in rows ==> r.id != a.id;
            if a.commits && isNew
            then |after| == |rows| + 1 && after[..|rows|] == rows && Records(p, after[|rows|], a)
                 && NamesNewest(rows, after[|rows|].previousHash)
            else after == rows
  {
    NewRowRecords(p, rows, a);
  }

  /** e names an entry, and says truly what is wrong with it. */
  ghost predicate Accuses(p: Primitives, logs: seq<AuditLog>, e: VerifyError)
    requires e.position < |logs|
  {
    var i := e.position;
    var log := logs[i];
    e.id == log.id &&
    match e
    case PreviousHashMismatch(_, _, expected, actual) =>
      expected == (if i == 0 then None else Some(logs[i - 1].integrityHash))
      && actual == log.previousHash && expected != actual
    case IntegrityHashMismatch(_, _, expected, actual) =>
      expected == p.sha256(HashedText(p, log)) && actual == log.integrityHash && expected != actual
  }

  lemma ErrorsAtAre(p: Primitives, logs: seq<AuditLog>, i: nat, e: VerifyError)
    requires i < |logs|
    ensures e in ErrorsAt(p, logs, i) <==> e.position == i && Accuses(p, logs, e)
  {
    IntegrityHashIs(p, logs[i]);
  }

  /** The verifier reports every true accusation and no other. */
  lemma {:induction false} ErrorsAre(p: Primitives, logs: seq<AuditLog>, n: nat, e: VerifyError)
    requires n <= |logs|
    ensures e in Errors(p, logs, n) <==> e.position < n && Accuses(p, logs, e)
  {
    if n > 0 {
      ErrorsAre(p, logs, n - 1, e);
      ErrorsAtAre(p, logs, n - 1, e);
    }
  }

  /** Entry by entry, each of the two kinds at most once, the link first. */
  ghost predicate Before(d: VerifyError, e: VerifyError) {
    d.position < e.position || (d.position == e.position && d.PreviousHashMismatch? && e.IntegrityHashMismatch?)
  }

  lemma {:induction false} ErrorsInOrder(p: Primitives, logs: seq<AuditLog>, n: nat)
    requires n <= |logs|
    ensures forall i, j :: 0 <= i < j < |Errors(p, logs, n)| ==> Before(Errors(p, logs, n)[i], Errors(p, logs, n)[j])
  {
    if n > 0 {
      ErrorsInOrder(p, logs, n - 1);
      var earlier := Errors(p, logs, n - 1);
      forall i | 0 <= i < |earlier| ensures earlier[i].position < n - 1 { ErrorsAre(p, logs, n - 1, earlier[i]); }
      OrderedJoin(earlier, ErrorsAt(p, logs, n - 1), n - 1);
    }
  }

  lemma OrderedJoin(earlier: seq<VerifyError>, last: seq<VerifyError>, position: nat)
    requires forall i, j :: 0 <= i < j < |earlier| ==> Before(earlier[i], earlier[j])
    requires forall i :: 0 <= i < |earlier| ==> earlier[i].position < position
    requires forall i, j :: 0 <= i < j < |last| ==> Before(last[i], last[j])
    requires forall k :: 0 <= k < |last| ==> last[k].position == position
    ensures forall i, j :: 0 <= i < j < |earlier + last| ==> Before((earlier + last)[i], (earlier + last)[j])
  {
  }

  /** The body of the verifier's loop. */
  method CheckEntry(p: Primitives, logs: seq<AuditLog>, i: nat) returns (errors: seq<VerifyError>)
    requires i < |logs|
    ensures errors == ErrorsAt(p, logs, i)
  {
    var log := logs[i];
    errors := [];
    var expectedPrevious := if i > 0 then Some(logs[i - 1].integrityHash) else None;
    if log.previousHash != expectedPrevious {
      errors := [PreviousHashMismatch(log.id, i, expectedPrevious, log.previousHash)];
    }
    var recomputed := IntegrityHash(p, log);
    if recomputed != log.integrityHash {
      errors := errors + [IntegrityHashMismatch(log.id, i, recomputed, log.integrityHash)];
    }
  }

  method CollectErrors(p: Primitives, logs: seq<AuditLog>) returns (errors: seq<VerifyError>)
    ensures errors == Errors(p, logs, |logs|)
  {
    errors := [];
    for i := 0 to |logs|
      invariant errors == Errors(p, logs, i)
    {
      var found := CheckEntry(p, logs, i);
      errors := errors + found;
    }
  }

  /** The audit_log table and the two operations on it. */
  class AuditLogTable {
    var rows: seq<AuditLog>

    constructor ()
      ensures rows == []
    {
      rows := [];
    }

    /** create_audit_log inside a request whose remaining work succeeds or raises. */
    method CreateAuditLog(p: Primitives, id: string, now: int, e: Entry, commits: bool) returns (r: Outcome<()>)
      modifies this
      ensures rows == Step(p, old(rows), Append(id, now, e, commits))
      ensures r.Committed? <==> commits && forall x :: x in old(rows) ==> x.id != id
    {
      var saved := rows;
      if exists x :: x in rows && x.id == id { return Raised(()); }
      var previous := LatestHash(rows);
      var draft := AuditLog(id, now, e.userId, e.action, e.entityType, e.entityId, e.changesJson, "",
                            previous, e.unhashed);
      rows := rows + [draft.(integrityHash := IntegrityHash(p, draft))];
      if !commits {
        rows := saved;
        return Raised(());
      }
      return Committed;
    }

    method VerifyAuditChain(p: Primitives, limit: nat) returns (report: Report)
      ensures var logs := FirstByTimestamp(rows, limit);
              report == if logs == [] then Empty
                        else Checked(Chained(p, logs), |logs|, Errors(p, logs, |logs|))
    {
      var logs := FirstByTimestamp(rows, limit);
      if logs == [] { return Empty; }
      var errors := CollectErrors(p, logs);
      assert logs[..|logs|] == logs;
      NoErrorsIffChained(p, logs, |logs|);
      return Checked(errors == [], |logs|, errors);
    }
  }
}
