/** The aged receivables report: what each client still owes, by age. */
module Receivables {
  import opened Database
  import Billing

  type Date = int

  /** An invoice with its client and the SUM of its payments. */
  datatype Invoice = Invoice(clientId: Uuid, status: Billing.InvoiceStatus, totalCents: int, paidCents: int,
                             dueDate: Option<Date>, issuedDate: Option<Date>)

  datatype Buckets = Buckets(current: int, days31to60: int, days61to90: int, days91to120: int, over120: int) {
    function Total(): int { current + days31to60 + days61to90 + days91to120 + over120 }
  }

  const EMPTY := Buckets(0, 0, 0, 0, 0)

  datatype AgedReceivable = AgedReceivable(clientId: Uuid, buckets: Buckets, totalCents: int)

  predicate IsOpen(r: Invoice) { r.status == Billing.InvoiceSent || r.status == Billing.InvoiceOverdue }

  /** The rows of the report's query. */
  function Open(invoices: seq<Invoice>): seq<Invoice> {
    if invoices == [] then [] else
      var last := invoices[|invoices| - 1];
      Open(invoices[..|invoices| - 1]) + if IsOpen(last) then [last] else []
  }

  function Remaining(r: Invoice): int { r.totalCents - r.paidCents }

  /** due_date or issued_date or today */
  function AgeDays(r: Invoice, today: Date): int {
    today - (if r.dueDate.Some? then r.dueDate.value else if r.issuedDate.Some? then r.issuedDate.value else today)
  }

  function Add(b: Buckets, age: int, cents: int): Buckets {
    if age <= 30 then b.(current := b.current + cents)
    else if age <= 60 then b.(days31to60 := b.days31to60 + cents)
    else if age <= 90 then b.(days61to90 := b.days61to90 + cents)
    else if age <= 120 then b.(days91to120 := b.days91to120 + cents)
    else b.(over120 := b.over120 + cents)
  }

  /** The buckets of one client after these rows. */
  function BucketsOf(rows: seq<Invoice>, client: Uuid, today: Date): Buckets {
    if rows == [] then EMPTY else
      var before, r := BucketsOf(rows[..|rows| - 1], client, today), rows[|rows| - 1];
      if r.clientId == client && Remaining(r) > 0 then Add(before, AgeDays(r, today), Remaining(r)) else before
  }

  // The independent account: sums of positive remainders

  function Owed(r: Invoice): nat { if r.paidCents < r.totalCents then r.totalCents - r.paidCents else 0 }

  /** The date the age counts from. */
  function Since(r: Invoice, today: Date): Date {
    match (r.dueDate, r.issuedDate)
    case (Some(due), _) => due
    case (None, Some(issued)) => issued
    case (None, None) => today
  }

  /** What a client owes on invoices whose age is above lo and at most hi (no limit when None). */
  function OwedBetween(rows: seq<Invoice>, client: Uuid, today: Date, lo: Option<int>, hi: Option<int>): nat {
    if rows == [] then 0 else
      var r := rows[|rows| - 1];
      var since := Since(r, today);
      OwedBetween(rows[..|rows| - 1], client, today, lo, hi)
      + if r.clientId == client && (lo.None? || since + lo.value < today) && (hi.None? || today <= since + hi.value)
        then Owed(r) else 0
  }

  /** What a client owes, by age. */
  function Ages(rows: seq<Invoice>, c: Uuid, today: Date): Buckets {
    Buckets(OwedBetween(rows, c, today, None, Some(30)), OwedBetween(rows, c, today, Some(30), Some(60)),
            OwedBetween(rows, c, today, Some(60), Some(90)), OwedBetween(rows, c, today, Some(90), Some(120)),
            OwedBetween(rows, c, today, Some(120), None))
  }

  /** The query keeps exactly the sent and the overdue invoices, with their multiplicity. */
  lemma {:induction false} OpenKeeps(invoices: seq<Invoice>, r: Invoice)
    ensures multiset(Open(invoices))[r] ==
            if r.status in {Billing.InvoiceSent, Billing.InvoiceOverdue} then multiset(invoices)[r] else 0
  {
    if invoices != [] {
      var init, last := invoices[..|invoices| - 1], invoices[|invoices| - 1];
      OpenKeeps(init, r);
      assert invoices == init + [last];
    }
  }

  /** What the clients of a set owe together. */
  function OwedBy(rows: seq<Invoice>, clients: set<Uuid>): nat {
    if rows == [] then 0 else
      OwedBy(rows[..|rows| - 1], clients) + if rows[|rows| - 1].clientId in clients then Owed(rows[|rows| - 1]) else 0
  }

  function OwedInAll(rows: seq<Invoice>): nat {
    if rows == [] then 0 else OwedInAll(rows[..|rows| - 1]) + Owed(rows[|rows| - 1])
  }

  /** Every positive remainder is in exactly the bucket of its age. */
  lemma {:induction false} BucketsAreSums(rows: seq<Invoice>, c: Uuid, today: Date)
    ensures BucketsOf(rows, c, today) == Ages(rows, c, today)
  {
    if rows != [] { BucketsAreSums(rows[..|rows| - 1], c, today); }
  }

  lemma {:induction false} TotalIsOwed(rows: seq<Invoice>, c: Uuid, today: Date)
    ensures BucketsOf(rows, c, today).Total() == OwedBy(rows, {c})
  {
    if rows != [] { TotalIsOwed(rows[..|rows| - 1], c, today); }
  }

  lemma {:induction false} OwedBySplit(rows: seq<Invoice>, clients: set<Uuid>, c: Uuid)
    requires c !in clients
    ensures OwedBy(rows, clients + {c}) == OwedBy(rows, clients) + OwedBy(rows, {c})
  {
    if rows != [] { OwedBySplit(rows[..|rows| - 1], clients, c); }
  }

  lemma {:induction false} OwedByNobody(rows: seq<Invoice>)
    ensures OwedBy(rows, {}) == 0
  {
    if rows != [] { OwedByNobody(rows[..|rows| - 1]); }
  }

  lemma {:induction false} OthersOweNothing(rows: seq<Invoice>, clients: set<Uuid>)
    requires forall r :: r in rows && r.clientId !in clients ==> Owed(r) == 0
    ensures OwedBy(rows, clients) == OwedInAll(rows)
  {
    if rows != [] {
      OthersOweNothing(rows[..|rows| - 1], clients);
      assert rows[|rows| - 1] in rows;
    }
  }

  lemma {:induction false} OwesAtLeast(rows: seq<Invoice>, r: Invoice)
    requires r in rows
    ensures OwedBy(rows, {r.clientId}) >= Owed(r)
  {
    if r in rows[..|rows| - 1] {
      OwesAtLeast(rows[..|rows| - 1], r);
    }
  }

  // The report

  function SumTotals(s: seq<AgedReceivable>): int {
    if s == [] then 0 else s[0].totalCents + SumTotals(s[1..])
  }

  ghost predicate NonIncreasing(s: seq<AgedReceivable>) {
    forall i, j :: 0 <= i < j < |s| ==> s[j].totalCents <= s[i].totalCents
  }

  ghost predicate OneLineEach(s: seq<AgedReceivable>) {
    forall i, j :: 0 <= i < j < |s| ==> s[i].clientId != s[j].clientId
  }

  /** list.sort by total, largest first, keeping the order of equal totals. */
  function Sorted(s: seq<AgedReceivable>): (r: seq<AgedReceivable>)
    ensures NonIncreasing(r) && |r| == |s|
    ensures forall x :: x in r <==> x in s
  {
    if s == [] then [] else Insert(s[0], Sorted(s[1..]))
  }

  function Insert(x: AgedReceivable, s: seq<AgedReceivable>): (r: seq<AgedReceivable>)
    requires NonIncreasing(s)
    ensures NonIncreasing(r) && |r| == |s| + 1
    ensures forall y :: y in r <==> y == x || y in s
  {
    if s == [] || s[0].totalCents <= x.totalCents then [x] + s else
      var rest := Insert(x, s[1..]);
      assert forall y :: y in s[1..] ==> y.totalCents <= s[0].totalCents;
      assert forall j :: 0 <= j < |rest| ==> rest[j] in rest;
      [s[0]] + rest
  }

  lemma {:induction false} InsertSum(x: AgedReceivable, s: seq<AgedReceivable>)
    requires NonIncreasing(s)
    ensures SumTotals(Insert(x, s)) == SumTotals(s) + x.totalCents
  {
    if s != [] && s[0].totalCents > x.totalCents { InsertSum(x, s[1..]); }
  }

  lemma {:induction false} InsertOneLine(x: AgedReceivable, s: seq<AgedReceivable>)
    requires NonIncreasing(s) && OneLineEach(s) && forall y :: y in s ==> y.clientId != x.clientId
    ensures OneLineEach(Insert(x, s))
  {
    if s != [] && s[0].totalCents > x.totalCents {
      InsertOneLine(x, s[1..]);
      var rest := Insert(x, s[1..]);
      forall j | 0 <= j < |rest| ensures rest[j].clientId != s[0].clientId {
        assert rest[j] in rest;
      }
    }
  }

  /** Sorting loses no cents and repeats no client. */
  lemma {:induction false} SortedKeeps(s: seq<AgedReceivable>)
    requires OneLineEach(s)
    ensures SumTotals(Sorted(s)) == SumTotals(s) && OneLineEach(Sorted(s))
  {
    if s != [] {
      SortedKeeps(s[1..]);
      InsertSum(s[0], Sorted(s[1..]));
      forall y | y in Sorted(s[1..]) ensures y.clientId != s[0].clientId {
        assert y in s[1..];
      }
      InsertOneLine(s[0], Sorted(s[1..]));
    }
  }

  /** The line of a client with something to pay. */
  function LineFor(rows: seq<Invoice>, client: Uuid, today: Date): seq<AgedReceivable> {
    LineOf(client, BucketsOf(rows, client, today))
  }

  function LineOf(client: Uuid, b: Buckets): seq<AgedReceivable> {
    if b.Total() > 0 then [AgedReceivable(client, b, b.Total())] else []
  }

  function LinesFor(rows: seq<Invoice>, clients: seq<Uuid>, today: Date): seq<AgedReceivable> {
    if clients == [] then [] else
      LinesFor(rows, clients[..|clients| - 1], today) + LineFor(rows, clients[|clients| - 1], today)
  }

  lemma {:induction false} SumConcat(s: seq<AgedReceivable>, t: seq<AgedReceivable>)
    ensures SumTotals(s + t) == SumTotals(s) + SumTotals(t)
  {
    if s == [] {
      assert s + t == t;
    } else {
      assert (s + t)[1..] == s[1..] + t;
      SumConcat(s[1..], t);
    }
  }

  lemma LineSum(rows: seq<Invoice>, client: Uuid, today: Date)
    ensures SumTotals(LineFor(rows, client, today)) == OwedBy(rows, {client})
  {
    TotalIsOwed(rows, client, today);
    LineOfSum(client, BucketsOf(rows, client, today));
  }

  lemma LineOfSum(client: Uuid, b: Buckets)
    requires b.Total() >= 0
    ensures SumTotals(LineOf(client, b)) == b.Total()
  {
    if b.Total() > 0 { assert LineOf(client, b)[1..] == []; }
  }

  function Elements(s: seq<Uuid>): set<Uuid> { set c | c in s }

  lemma ElementsSnoc(s: seq<Uuid>)
    requires s != [] && Distinct(s)
    ensures s[|s| - 1] !in Elements(s[..|s| - 1]) && Elements(s) == Elements(s[..|s| - 1]) + {s[|s| - 1]}
  {
    assert s == s[..|s| - 1] + [s[|s| - 1]];
  }

  lemma {:induction false} LinesSum(rows: seq<Invoice>, clients: seq<Uuid>, today: Date)
    requires Distinct(clients)
    ensures SumTotals(LinesFor(rows, clients, today)) == OwedBy(rows, Elements(clients))
  {
    if clients == [] {
      OwedByNobody(rows);
      assert Elements(clients) == {};
    } else {
      var init, last := clients[..|clients| - 1], clients[|clients| - 1];
      LinesSum(rows, init, today);
      SumConcat(LinesFor(rows, init, today), LineFor(rows, last, today));
      LineSum(rows, last, today);
      ElementsSnoc(clients);
      OwedBySplit(rows, Elements(init), last);
    }
  }

  /** The line a client should have: its buckets and their positive total. */
  predicate IsLine(rows: seq<Invoice>, today: Date, x: AgedReceivable) {
    x.buckets == Ages(rows, x.clientId, today) && x.totalCents == x.buckets.Total() && x.totalCents > 0
  }

  lemma {:induction false} LinesAre(rows: seq<Invoice>, clients: seq<Uuid>, today: Date, x: AgedReceivable)
    ensures x in LinesFor(rows, clients, today) <==> x.clientId in clients && IsLine(rows, today, x)
  {
    if clients != [] {
      var init, last := clients[..|clients| - 1], clients[|clients| - 1];
      LinesAre(rows, init, today, x);
      BucketsAreSums(rows, last, today);
      assert x.clientId in clients <==> x.clientId in init || x.clientId == last;
    }
  }

  lemma {:induction false} LinesDistinct(rows: seq<Invoice>, clients: seq<Uuid>, today: Date)
    requires Distinct(clients)
    ensures OneLineEach(LinesFor(rows, clients, today))
    ensures forall x :: x in LinesFor(rows, clients, today) ==> x.clientId in clients
  {
    if clients != [] {
      LinesDistinct(rows, clients[..|clients| - 1], today);
      var before := LinesFor(rows, clients[..|clients| - 1], today);
      assert forall i :: 0 <= i < |before| ==> before[i] in before;
    }
  }

  method GetAgedReceivables(invoices: seq<Invoice>, today: Date) returns (report: seq<AgedReceivable>)
    ensures NonIncreasing(report) && OneLineEach(report)
    ensures SumTotals(report) == OwedInAll(Open(invoices))
    ensures forall x :: x in report <==> IsLine(Open(invoices), today, x)
  {
    var rows := Open(invoices);
    var buckets, clients := FillBuckets(rows, today);
    report := BuildLines(rows, today, buckets, clients);
    ReportIsComplete(rows, clients, today);
    SortedKeeps(report);
    report := Sorted(report);
  }

  ghost predicate Filled(rows: seq<Invoice>, today: Date, buckets: map<Uuid, Buckets>, clients: seq<Uuid>) {
    Distinct(clients) && (forall c :: c in buckets <==> c in clients)
    && forall c :: c in buckets ==> buckets[c] == BucketsOf(rows, c, today)
  }

  lemma BucketsNext(rows: seq<Invoice>, i: nat, c: Uuid, today: Date)
    requires i < |rows|
    ensures var before, r := BucketsOf(rows[..i], c, today), rows[i];
            BucketsOf(rows[..i + 1], c, today)
            == if r.clientId == c && Remaining(r) > 0 then Add(before, AgeDays(r, today), Remaining(r)) else before
  {
    assert rows[..i + 1][..i] == rows[..i];
  }

  /** The first loop: a client gets its entry at its first row, and every positive remainder is added to a bucket. */
  method FillBuckets(rows: seq<Invoice>, today: Date) returns (buckets: map<Uuid, Buckets>, clients: seq<Uuid>)
    ensures Filled(rows, today, buckets, clients) && forall j :: 0 <= j < |rows| ==> rows[j].clientId in clients
  {
    buckets, clients := map[], [];
    for i := 0 to |rows|
      invariant Filled(rows[..i], today, buckets, clients)
      invariant forall j :: 0 <= j < i ==> rows[j].clientId in clients
    {
      forall c ensures BucketsOf(rows[..i + 1], c, today) ==
                       if rows[i].clientId == c && Remaining(rows[i]) > 0
                       then Add(BucketsOf(rows[..i], c, today), AgeDays(rows[i], today), Remaining(rows[i]))
                       else BucketsOf(rows[..i], c, today) {
        BucketsNext(rows, i, c, today);
      }
      var r := rows[i];
      if r.clientId !in buckets {
        NeverSeen(rows[..i], r.clientId, today);
        buckets := buckets[r.clientId := EMPTY];
        clients := clients + [r.clientId];
      }
      var remaining := r.totalCents - r.paidCents;
      if remaining <= 0 { continue; }
      buckets := buckets[r.clientId := Add(buckets[r.clientId], AgeDays(r, today), remaining)];
    }
    assert rows[..|rows|] == rows;
  }

  /** The second loop: a line for each client with a positive total. */
  method BuildLines(rows: seq<Invoice>, today: Date, buckets: map<Uuid, Buckets>, clients: seq<Uuid>)
    returns (report: seq<AgedReceivable>)
    requires Filled(rows, today, buckets, clients)
    ensures report == LinesFor(rows, clients, today)
  {
    report := [];
    for i := 0 to |clients|
      invariant report == LinesFor(rows, clients[..i], today)
    {
      assert clients[..i + 1][..i] == clients[..i];
      assert clients[i] in clients;
      var b := buckets[clients[i]];
      var total := b.current + b.days31to60 + b.days61to90 + b.days91to120 + b.over120;
      if total > 0 { report := report + [AgedReceivable(clients[i], b, total)]; }
    }
    assert clients[..|clients|] == clients;
  }

  lemma {:induction false} NeverSeen(rows: seq<Invoice>, c: Uuid, today: Date)
    requires forall j :: 0 <= j < |rows| ==> rows[j].clientId != c
    ensures BucketsOf(rows, c, today) == EMPTY
  {
    if rows != [] { NeverSeen(rows[..|rows| - 1], c, today); }
  }

  lemma ReportIsComplete(rows: seq<Invoice>, clients: seq<Uuid>, today: Date)
    requires Distinct(clients) && forall j :: 0 <= j < |rows| ==> rows[j].clientId in clients
    ensures SumTotals(LinesFor(rows, clients, today)) == OwedInAll(rows) && OneLineEach(LinesFor(rows, clients, today))
    ensures forall x :: x in LinesFor(rows, clients, today) <==> IsLine(rows, today, x)
  {
    LinesSum(rows, clients, today);
    LinesDistinct(rows, clients, today);
    OthersOweNothing(rows, Elements(clients));
    forall x ensures x in LinesFor(rows, clients, today) <==> IsLine(rows, today, x) {
      LinesAre(rows, clients, today, x);
      if x.clientId !in clients {
        NeverSeen(rows, x.clientId, today);
        BucketsAreSums(rows, x.clientId, today);
      }
    }
  }

  /** A client is left out of the report exactly when nothing is owed. */
  lemma OmittedIffNothingOwed(invoices: seq<Invoice>, today: Date, report: seq<AgedReceivable>, c: Uuid)
    requires forall x :: x in report <==> IsLine(Open(invoices), today, x)
    ensures (forall x :: x in report ==> x.clientId != c) <==>
              forall r :: r in Open(invoices) && r.clientId == c ==> Owed(r) == 0
  {
    var rows := Open(invoices);
    var b := BucketsOf(rows, c, today);
    TotalIsOwed(rows, c, today);
    BucketsAreSums(rows, c, today);
    OwesNothingIff(rows, c);
    if OwedBy(rows, {c}) > 0 {
      assert AgedReceivable(c, b, b.Total()) in report;
    }
  }

  lemma OwesNothingIff(rows: seq<Invoice>, c: Uuid)
    ensures OwedBy(rows, {c}) == 0 <==> forall r :: r in rows && r.clientId == c ==> Owed(r) == 0
  {
    if OwedBy(rows, {c}) == 0 {
      forall r | r in rows && r.clientId == c ensures Owed(r) == 0 {
        OwesAtLeast(rows, r);
      }
    }
    if forall r :: r in rows && r.clientId == c ==> Owed(r) == 0 {
      OwesNothing(rows, c);
    }
  }

  lemma {:induction false} OwesNothing(rows: seq<Invoice>, c: Uuid)
    requires forall r :: r in rows && r.clientId == c ==> Owed(r) == 0
    ensures OwedBy(rows, {c}) == 0
  {
    if rows != [] {
      OwesNothing(rows[..|rows| - 1], c);
      assert rows[|rows| - 1] in rows;
    }
  }
}
