/** Invoices from time entries: numbers, line items, amounts, and the stamps on the entries. */
module Billing {
  import opened Database

  datatype InvoiceStatus = InvoiceDraft | InvoiceSent | InvoicePaid | InvoiceOverdue | InvoiceVoid

  /** Minutes and rates are validated to be non-negative when an entry is stored. */
  datatype TimeEntry = TimeEntry(description: string, durationMinutes: nat, rateCents: nat, invoiceId: Option<Uuid>)

  datatype LineItem = LineItem(timeEntryId: Option<Uuid>, description: string, quantity: nat, rateCents: nat,
                               amountCents: nat)

  datatype InvoiceRow = InvoiceRow(number: int, items: seq<LineItem>, subtotalCents: nat, taxCents: nat,
                                   totalCents: nat, status: InvoiceStatus)

  datatype Ledger = Ledger(entries: map<Uuid, TimeEntry>, invoices: map<Uuid, InvoiceRow>)

  datatype Error = NotFound | IntegrityError

  /** int(minutes / 60 * rate), computed exactly. */
  function Amount(e: TimeEntry): nat { e.durationMinutes * e.rateCents / 60 }

  function ItemFor(id: Uuid, e: TimeEntry): LineItem {
    LineItem(Some(id), e.description, e.durationMinutes, e.rateCents, Amount(e))
  }

  function SumAmounts(items: seq<LineItem>): nat {
    if items == [] then 0 else SumAmounts(items[..|items| - 1]) + items[|items| - 1].amountCents
  }

  /** max(invoice_number) + 1, or 1001 for the first invoice. */
  ghost predicate IsNextNumber(invoices: map<Uuid, InvoiceRow>, n: int) {
    if invoices == map[] then n == 1001
    else (forall i :: i in invoices ==> invoices[i].number < n) && exists i ::
        i in invoices && n == invoices[i].number + 1
  }

  /** The entries of a set carry the invoice's id, and no other entry changes. */
  function Stamped(entries: map<Uuid, TimeEntry>, billed: set<Uuid>, invoiceId: Uuid): map<Uuid, TimeEntry> {
    map e | e in entries :: if e in billed then entries[e].(invoiceId := Some(invoiceId)) else entries[e]
  }

  /** The items are those of the entries, in the order the query returned them. */
  ghost predicate ItemsOf(entries: map<Uuid, TimeEntry>, order: seq<Uuid>, items: seq<LineItem>) {
    |items| == |order| && forall i ::
        0 <= i < |order| ==> order[i] in entries && items[i] == ItemFor(order[i], entries[order[i]])
  }

  /** The outcome of create_invoice: order lists, each once, the requested entries that exist. */
  ghost predicate Created(before: Ledger, after: Ledger, id: Uuid, requested: seq<Uuid>, order: seq<Uuid>) {
    Distinct(order) && (forall e :: e in order <==> e in requested && e in before.entries)
    && after.entries == Stamped(before.entries, (set e | e in order), id)
    && id !in before.invoices && id in after.invoices && after.invoices == before.invoices[id := after.invoices[id]]
    && var row := after.invoices[id];
       IsNextNumber(before.invoices, row.number) && ItemsOf(before.entries, order, row.items)
       && row.subtotalCents == SumAmounts(row.items) && row.taxCents == 0 && row.totalCents == row.subtotalCents
       && row.status == InvoiceDraft
  }

  /** The whole number of cents in minutes times the hourly rate. */
  lemma AmountIsRounded(e: TimeEntry)
    ensures 60 * Amount(e) <= e.durationMinutes * e.rateCents < 60 * Amount(e) + 60
  {
  }

  /** Line k of a new invoice is about entry order[k], and the invoice adds up its lines. */
  lemma CreatedLines(before: Ledger, after: Ledger, id: Uuid, requested: seq<Uuid>, order: seq<Uuid>, k: nat)
    requires Created(before, after, id, requested, order) && k < |order|
    ensures |after.invoices[id].items| == |order| && order[k] in before.entries
    ensures var e, item := before.entries[order[k]], after.invoices[id].items[k];
            && item.timeEntryId == Some(order[k]) && item.description == e.description
            && item.quantity == e.durationMinutes && item.rateCents == e.rateCents
            && 60 * item.amountCents <= e.durationMinutes * e.rateCents < 60 * item.amountCents + 60
  {
    AmountIsRounded(before.entries[order[k]]);
  }

  /** The entries that are requested get the stamp, whatever they had; no other entry changes. */
  lemma CreatedStamps(before: Ledger, after: Ledger, id: Uuid, requested: seq<Uuid>, order: seq<Uuid>, e: Uuid)
    requires Created(before, after, id, requested, order)
    ensures e in after.entries <==> e in before.entries
    ensures e in before.entries ==>
              after.entries[e] == if e in requested then before.entries[e].(invoiceId := Some(id))
                                  else before.entries[e]
  {
  }

  lemma ItemsNext(entries: map<Uuid, TimeEntry>, rows: seq<Uuid>, i: nat, items: seq<LineItem>)
    requires i < |rows| && rows[i] in entries && ItemsOf(entries, rows[..i], items)
    ensures var item := ItemFor(rows[i], entries[rows[i]]);
            ItemsOf(entries, rows[..i + 1], items + [item])
            && SumAmounts(items + [item]) == SumAmounts(items) + item.amountCents
  {
    var more := items + [ItemFor(rows[i], entries[rows[i]])];
    assert more[..i] == items;
  }

  lemma StampedNone(entries: map<Uuid, TimeEntry>, id: Uuid)
    ensures Stamped(entries, {}, id) == entries
  {
  }

  lemma StampedOne(entries: map<Uuid, TimeEntry>, billed: set<Uuid>, id: Uuid, e: Uuid)
    requires e in entries
    ensures Stamped(entries, billed + {e}, id) == Stamped(entries, billed, id)[e := entries[e].(invoiceId := Some(id))]
  {
  }

  // What every state keeps

  /** The stored totals are those of the line items. */
  ghost predicate Balanced(row: InvoiceRow) {
    row.subtotalCents == SumAmounts(row.items) && row.totalCents == row.subtotalCents + row.taxCents
  }

  /** Invoice i bills entry e. */
  ghost predicate Bills(l: Ledger, i: Uuid, e: Uuid) {
    i in l.invoices && exists k :: 0 <= k < |l.invoices[i].items| && l.invoices[i].items[k].timeEntryId == Some(e)
  }

  /** The stamp of a billed entry is the invoice with the largest number among those that bill it. */
  ghost predicate LastBillWins(l: Ledger) {
    (forall i, e :: Bills(l, i, e) ==>
       e in l.entries && l.entries[e].invoiceId.Some? && l.entries[e].invoiceId.value in l.invoices
       && l.invoices[i].number <= l.invoices[l.entries[e].invoiceId.value].number)
    && forall e :: e in l.entries && l.entries[e].invoiceId.Some? ==> Bills(l, l.entries[e].invoiceId.value, e)
  }

  ghost predicate Invariant(l: Ledger) {
    (forall i :: i in l.invoices ==> Balanced(l.invoices[i]))
    && (forall i, j :: i in l.invoices && j in l.invoices && l.invoices[i].number == l.invoices[j].number ==> i == j)
    && LastBillWins(l)
  }

  lemma NewInvoiceBills(before: Ledger, after: Ledger, id: Uuid, requested: seq<Uuid>, order: seq<Uuid>, i: Uuid,
                        e: Uuid)
    requires Created(before, after, id, requested, order)
    ensures Bills(after, i, e) <==> if i == id then e in order else Bills(before, i, e)
  {
    var items := after.invoices[id].items;
    if i == id && e in order {
      var k :| 0 <= k < |order| && order[k] == e;
      assert items[k].timeEntryId == Some(e);
    }
  }

  /** A new invoice has a number of its own, balances, and takes over the entries it bills. */
  lemma CreatedKeeps(before: Ledger, after: Ledger, id: Uuid, requested: seq<Uuid>, order: seq<Uuid>)
    requires Invariant(before) && Created(before, after, id, requested, order)
    ensures Invariant(after)
  {
    forall i, e ensures Bills(after, i, e) <==> if i == id then e in order else Bills(before, i, e) {
      NewInvoiceBills(before, after, id, requested, order, i, e);
    }
    NumberIsLargest(before.invoices, after.invoices[id].number);
  }

  lemma NumberIsLargest(invoices: map<Uuid, InvoiceRow>, n: int)
    requires IsNextNumber(invoices, n)
    ensures forall i :: i in invoices ==> invoices[i].number < n
  {
  }

  // When an entry is billed once

  /** No entry is on two invoices. */
  ghost predicate BilledOnce(l: Ledger) {
    forall i, j, e :: Bills(l, i, e) && Bills(l, j, e) ==> i == j
  }

  /** Every requested entry that exists is still unbilled. */
  ghost predicate AllUnbilled(l: Ledger, requested: seq<Uuid>) {
    forall e :: e in requested && e in l.entries ==> l.entries[e].invoiceId.None?
  }

  /** create_invoice looks at no stamp: entries stay billed once exactly when all it is asked for are unbilled. */
  lemma BilledOnceIff(before: Ledger, after: Ledger, id: Uuid, requested: seq<Uuid>, order: seq<Uuid>)
    requires Invariant(before) && BilledOnce(before) && Created(before, after, id, requested, order)
    ensures BilledOnce(after) <==> AllUnbilled(before, requested)
  {
    forall i, e ensures Bills(after, i, e) <==> if i == id then e in order else Bills(before, i, e) {
      NewInvoiceBills(before, after, id, requested, order, i, e);
    }
    if e :| e in requested && e in before.entries && before.entries[e].invoiceId.Some? {
      var i := before.entries[e].invoiceId.value;
      assert Bills(before, i, e) && i != id;
      assert Bills(after, i, e) && Bills(after, id, e);
    }
  }

  // The smallest failing case: entry 7 is on invoice 1, and invoice 2 is made over it again

  ghost function OnlyItem(t: TimeEntry): seq<LineItem> { [ItemFor(7, t)] }

  ghost function OnlyInvoice(t: TimeEntry, number: int): InvoiceRow {
    InvoiceRow(number, OnlyItem(t), Amount(t), 0, Amount(t), InvoiceDraft)
  }

  ghost function OneBill(t: TimeEntry): Ledger {
    Ledger(map[7 := t.(invoiceId := Some(1))], map[1 := OnlyInvoice(t, 1001)])
  }

  ghost function TwoBills(t: TimeEntry): Ledger {
    Ledger(map[7 := t.(invoiceId := Some(2))], map[1 := OnlyInvoice(t, 1001), 2 := OnlyInvoice(t, 1002)])
  }

  lemma OnlyItemSum(t: TimeEntry)
    ensures SumAmounts(OnlyItem(t)) == Amount(t)
  {
    assert OnlyItem(t)[..0] == [];
  }

  lemma OnlyItemBills(l: Ledger, t: TimeEntry, i: Uuid, e: Uuid)
    requires i in l.invoices && l.invoices[i].items == OnlyItem(t)
    ensures Bills(l, i, e) <==> e == 7
  {
    assert OnlyItem(t)[0].timeEntryId == Some(7);
  }

  lemma OneBillIsLegal(t: TimeEntry)
    ensures Invariant(OneBill(t)) && BilledOnce(OneBill(t))
  {
    OnlyItemSum(t);
    var l := OneBill(t);
    forall i, e ensures Bills(l, i, e) <==> i == 1 && e == 7 {
      if i == 1 { OnlyItemBills(l, t, i, e); }
    }
  }

  lemma SecondBillIsCreated(t: TimeEntry)
    ensures Created(OneBill(t), TwoBills(t), 2, [7], [7])
  {
    var before, after := OneBill(t), TwoBills(t);
    OnlyItemSum(t);
    assert after.entries == Stamped(before.entries, (set e | e in [7]), 2);
    assert after.invoices == before.invoices[2 := after.invoices[2]];
    assert 1 in before.invoices && before.invoices[1].number + 1 == 1002;
    assert ItemsOf(before.entries, [7], OnlyItem(t));
  }

  /** From a legal state in which every entry is billed once, a second invoice over an entry is made. */
  lemma BilledTwice(t: TimeEntry)
    ensures Invariant(OneBill(t)) && BilledOnce(OneBill(t))
    ensures Created(OneBill(t), TwoBills(t), 2, [7], [7]) && !BilledOnce(TwoBills(t))
  {
    OneBillIsLegal(t);
    SecondBillIsCreated(t);
    BilledOnceIff(OneBill(t), TwoBills(t), 2, [7], [7]);
    assert 7 in [7] && OneBill(t).entries[7].invoiceId.Some?;
  }

  // Over runs

  datatype Request =
    | NewEntry(entryId: Uuid, description: string, minutes: nat, rateCents: nat)
    | EditEntry(entryId: Uuid, description: string, minutes: nat, rateCents: nat)
    | NewInvoice(id: Uuid, requested: seq<Uuid>)

  /** What a request may do; the order of the line items is the database's choice. */
  ghost predicate Steps(before: Ledger, after: Ledger, r: Request) {
    match r
    case NewEntry(e, text, minutes, rate) =>
      after == if e in before.entries then before
               else before.(entries := before.entries[e := TimeEntry(text, minutes, rate, None)])
    case EditEntry(e, text, minutes, rate) =>
      after == if e !in before.entries then before
               else before.(entries := before.entries[e := TimeEntry(text, minutes, rate, before.entries[e].invoiceId)])
    case NewInvoice(id, requested) =>
      if id in before.invoices then after == before else exists order :: Created(before, after, id, requested, order)
  }

  const NOTHING := Ledger(map[], map[])

  /** ls[k] is the state before request k. */
  ghost predicate IsRun(ls: seq<Ledger>, rs: seq<Request>) {
    |ls| == |rs| + 1 && ls[0] == NOTHING && forall k, m :: 0 <= k < |rs| && m == k + 1 ==> Steps(ls[k], ls[m], rs[k])
  }

  /** The request bills only what is unbilled, or bills nothing. */
  ghost predicate BillsUnbilled(l: Ledger, r: Request) {
    r.NewInvoice? && r.id !in l.invoices ==> AllUnbilled(l, r.requested)
  }

  lemma SameBills(before: Ledger, after: Ledger)
    requires after.invoices == before.invoices
    ensures forall i, e :: Bills(after, i, e) <==> Bills(before, i, e)
  {
  }

  lemma StepKeeps(before: Ledger, after: Ledger, r: Request)
    requires Invariant(before) && Steps(before, after, r)
    ensures Invariant(after)
  {
    match r
    case NewInvoice(id, requested) =>
      if id !in before.invoices {
        var order :| Created(before, after, id, requested, order);
        CreatedKeeps(before, after, id, requested, order);
      }
    case _ => SameBills(before, after);
  }

  /** Once billed twice, an entry stays so; and only an invoice over a billed entry makes it so. */
  lemma StepBilledOnceIff(before: Ledger, after: Ledger, r: Request)
    requires Invariant(before) && Steps(before, after, r)
    ensures BilledOnce(after) <==> BilledOnce(before) && BillsUnbilled(before, r)
  {
    match r
    case NewInvoice(id, requested) =>
      if id !in before.invoices {
        var order :| Created(before, after, id, requested, order);
        forall i, e | Bills(before, i, e) ensures Bills(after, i, e) {
          NewInvoiceBills(before, after, id, requested, order, i, e);
        }
        if BilledOnce(before) { BilledOnceIff(before, after, id, requested, order); }
      }
    case _ => SameBills(before, after);
  }

  /** Over every run no entry is on two invoices exactly when no invoice was made over an entry already billed. */
  lemma {:induction false} RunBilledOnceIff(ls: seq<Ledger>, rs: seq<Request>, n: nat)
    requires IsRun(ls, rs) && n <= |rs|
    ensures Invariant(ls[n])
    ensures BilledOnce(ls[n]) <==> forall k :: 0 <= k < n ==> BillsUnbilled(ls[k], rs[k])
  {
    if n > 0 {
      RunBilledOnceIff(ls, rs, n - 1);
      assert Steps(ls[n - 1], ls[n], rs[n - 1]);
      StepKeeps(ls[n - 1], ls[n], rs[n - 1]);
      StepBilledOnceIff(ls[n - 1], ls[n], rs[n - 1]);
    }
  }

  ghost predicate HasNumber(l: Ledger, k: int) {
    exists i :: i in l.invoices && l.invoices[i].number == k
  }

  /** The numbers in use are 1001, 1002 and so on, without a gap. */
  ghost predicate Consecutive(l: Ledger) {
    forall k :: HasNumber(l, k) <==> 1001 <= k <= 1000 + |l.invoices|
  }

  lemma NextIsConsecutive(l: Ledger, n: int)
    requires Consecutive(l) && IsNextNumber(l.invoices, n)
    ensures n == 1001 + |l.invoices|
  {
    if l.invoices != map[] {
      var some :| some in l.invoices && n == l.invoices[some].number + 1;
      assert HasNumber(l, n - 1) && HasNumber(l, 1000 + |l.invoices|);
    }
  }

  lemma NumbersAfter(before: Ledger, after: Ledger, id: Uuid, k: int)
    requires id !in before.invoices && id in after.invoices
    requires after.invoices == before.invoices[id := after.invoices[id]]
    ensures HasNumber(after, k) <==> HasNumber(before, k) || k == after.invoices[id].number
  {
    if i :| i in before.invoices && before.invoices[i].number == k {
      assert i in after.invoices && after.invoices[i].number == k;
    }
  }

  lemma CreatedConsecutive(before: Ledger, after: Ledger, id: Uuid)
    requires Consecutive(before) && id !in before.invoices && id in after.invoices
    requires after.invoices == before.invoices[id := after.invoices[id]]
    requires IsNextNumber(before.invoices, after.invoices[id].number)
    ensures Consecutive(after)
  {
    NextIsConsecutive(before, after.invoices[id].number);
    assert after.invoices.Keys == before.invoices.Keys + {id} && |after.invoices.Keys| == |before.invoices.Keys| + 1;
    forall k ensures HasNumber(after, k) <==> HasNumber(before, k) || k == after.invoices[id].number {
      NumbersAfter(before, after, id, k);
    }
  }

  /** Over every run the invoices are numbered from 1001 on without a gap. */
  lemma {:induction false} RunConsecutive(ls: seq<Ledger>, rs: seq<Request>, n: nat)
    requires IsRun(ls, rs) && n <= |rs|
    ensures Consecutive(ls[n])
  {
    if n > 0 {
      RunConsecutive(ls, rs, n - 1);
      var before, after := ls[n - 1], ls[n];
      assert Steps(before, after, rs[n - 1]);
      if after.invoices != before.invoices {
        var order :| Created(before, after, rs[n - 1].id, rs[n - 1].requested, order);
        CreatedConsecutive(before, after, rs[n - 1].id);
      } else {
        assert forall k :: HasNumber(after, k) <==> HasNumber(before, k);
      }
    }
  }

  /** No two invoices are asked for over the same entry. */
  ghost predicate Disjoint(rs: seq<Request>) {
    forall k, m, e :: 0 <= k < m < |rs| && rs[k].NewInvoice? && rs[m].NewInvoice? && e in rs[k].requested ==>
      e !in rs[m].requested
  }

  ghost predicate AskedBefore(rs: seq<Request>, n: nat, e: Uuid)
    requires n <= |rs|
  {
    exists k :: 0 <= k < n && rs[k].NewInvoice? && e in rs[k].requested
  }

  lemma {:induction false} BilledWasAsked(ls: seq<Ledger>, rs: seq<Request>, n: nat, e: Uuid)
    requires IsRun(ls, rs) && n <= |rs| && e in ls[n].entries && ls[n].entries[e].invoiceId.Some?
    ensures AskedBefore(rs, n, e)
  {
    if n > 0 {
      var before, r := ls[n - 1], rs[n - 1];
      assert Steps(before, ls[n], r);
      if e in before.entries && before.entries[e].invoiceId.Some? {
        BilledWasAsked(ls, rs, n - 1, e);
      } else {
        assert r.NewInvoice? && e in r.requested;
      }
    }
  }

  /** So requests over disjoint sets of entries bill every entry at most once, whatever else happens in between. */
  lemma DisjointRunBillsOnce(ls: seq<Ledger>, rs: seq<Request>)
    requires IsRun(ls, rs) && Disjoint(rs)
    ensures BilledOnce(ls[|rs|])
  {
    forall k | 0 <= k < |rs| && rs[k].NewInvoice? ensures AllUnbilled(ls[k], rs[k].requested) {
      forall e | e in rs[k].requested && e in ls[k].entries ensures ls[k].entries[e].invoiceId.None? {
        if ls[k].entries[e].invoiceId.Some? { BilledWasAsked(ls, rs, k, e); }
      }
    }
    RunBilledOnceIff(ls, rs, |rs|);
  }

  // Sums do not depend on the order of the items

  lemma {:induction false} SumWithout(items: seq<LineItem>, k: nat)
    requires k < |items|
    ensures SumAmounts(items) == SumAmounts(items[..k] + items[k + 1..]) + items[k].amountCents
  {
    var n := |items| - 1;
    if k < n {
      var init, rest := items[..n], items[..k] + items[k + 1..];
      SumWithout(init, k);
      assert rest[..n - 1] == init[..k] + init[k + 1..] && rest[n - 1] == items[n];
      assert SumAmounts(rest) == SumAmounts(init[..k] + init[k + 1..]) + items[n].amountCents;
    } else {
      assert items[..k] + items[k + 1..] == items[..n];
    }
  }

  lemma {:induction false} SumOfPermutation(a: seq<LineItem>, b: seq<LineItem>)
    requires multiset(a) == multiset(b)
    ensures |a| == |b| && SumAmounts(a) == SumAmounts(b)
    decreases |a|
  {
    if a == [] {
      assert |multiset(b)| == |b|;
    } else {
      var n := |a| - 1;
      assert a[n] in multiset(a);
      var k :| 0 <= k < |b| && b[k] == a[n];
      MultisetWithout(a, n);
      MultisetWithout(b, k);
      assert a[..n] + a[n + 1..] == a[..n];
      SumOfPermutation(a[..n], b[..k] + b[k + 1..]);
      SumWithout(b, k);
    }
  }

  lemma MultisetWithout(s: seq<LineItem>, k: nat)
    requires k < |s|
    ensures multiset(s[..k] + s[k + 1..]) == multiset(s) - multiset{s[k]}
  {
    assert s == s[..k] + [s[k]] + s[k + 1..];
  }

  /** The billing service over its two tables. */
  class BillingService {
    var entries: map<Uuid, TimeEntry>
    var invoices: map<Uuid, InvoiceRow>

    function Tables(): Ledger
      reads this
    {
      Ledger(entries, invoices)
    }

    constructor ()
      ensures Tables() == NOTHING && Invariant(Tables())
    {
      entries, invoices := map[], map[];
    }

    method CreateTimeEntry(id: Uuid, description: string, minutes: nat, rateCents: nat) returns (r: Outcome<Error>)
      requires Invariant(Tables())
      modifies this`entries
      ensures Invariant(Tables())
      ensures Steps(old(Tables()), Tables(), NewEntry(id, description, minutes, rateCents))
      ensures r.Raised? <==> id in old(entries)
    {
      if id in entries { return Raised(IntegrityError); }
      entries := entries[id := TimeEntry(description, minutes, rateCents, None)];
      StepKeeps(old(Tables()), Tables(), NewEntry(id, description, minutes, rateCents));
      return Committed;
    }

    /** The values are those after the update; the stamp is not among the fields it can set. */
    method UpdateTimeEntry(id: Uuid, description: string, minutes: nat, rateCents: nat) returns (r: Outcome<Error>)
      requires Invariant(Tables())
      modifies this`entries
      ensures Invariant(Tables())
      ensures Steps(old(Tables()), Tables(), EditEntry(id, description, minutes, rateCents))
      ensures r.Raised? <==> id !in old(entries)
    {
      if id !in entries { return Raised(NotFound); }
      var e := entries[id];
      entries := entries[id := e.(description := description, durationMinutes := minutes, rateCents := rateCents)];
      StepKeeps(old(Tables()), Tables(), EditEntry(id, description, minutes, rateCents));
      return Committed;
    }

    /** SELECT coalesce(max(invoice_number), 1000), plus one. */
    method NextNumber() returns (n: int)
      ensures IsNextNumber(invoices, n)
    {
      if invoices == map[] { return 1001; }
      var first :| first in invoices;
      var largest, left := invoices[first].number, invoices.Keys;
      while left != {}
        invariant left <= invoices.Keys && exists i :: i in invoices && largest == invoices[i].number
        invariant forall i :: i in invoices && i !in left ==> invoices[i].number <= largest
        decreases left
      {
        var i :| i in left;
        left := left - {i};
        if invoices[i].number > largest { largest := invoices[i].number; }
      }
      return largest + 1;
    }

    /** SELECT ... WHERE id IN (...): each existing entry once, in an order the database chooses. */
    method RequestedEntries(requested: seq<Uuid>) returns (order: seq<Uuid>)
      ensures Distinct(order) && forall e :: e in order <==> e in requested && e in entries
    {
      order := [];
      var left := set e | e in requested && e in entries;
      while left != {}
        invariant Distinct(order) && forall e :: e in order ==> e !in left
        invariant forall e :: e in requested && e in entries <==> e in left || e in order
        decreases left
      {
        var e :| e in left;
        left := left - {e};
        order := order + [e];
      }
    }

    /** The loop that stamps each entry, adds its line item and accumulates the subtotal. */
    method BillEntries(rows: seq<Uuid>, id: Uuid) returns (items: seq<LineItem>, subtotal: nat)
      requires Distinct(rows) && forall e :: e in rows ==> e in entries
      modifies this`entries
      ensures entries == Stamped(old(entries), (set e | e in rows), id)
      ensures ItemsOf(old(entries), rows, items) && subtotal == SumAmounts(items)
    {
      items, subtotal := [], 0;
      ghost var done: set<Uuid> := {};
      StampedNone(entries, id);
      for i := 0 to |rows|
        invariant forall e :: e in done <==> e in rows[..i]
        invariant entries == Stamped(old(entries), done, id)
        invariant ItemsOf(old(entries), rows[..i], items) && subtotal == SumAmounts(items)
      {
        var e := rows[i];
        assert e in rows && e !in rows[..i];
        assert entries[e] == old(entries)[e];
        var item := ItemFor(e, entries[e]);
        ItemsNext(old(entries), rows, i, items);
        StampedOne(old(entries), done, id, e);
        entries := entries[e := entries[e].(invoiceId := Some(id))];
        items := items + [item];
        subtotal := subtotal + item.amountCents;
        done := done + {e};
      }
      assert rows[..|rows|] == rows;
      assert done == set e | e in rows;
    }

    /** order is what the loop went through. */
    method CreateInvoice(id: Uuid, requested: seq<Uuid>) returns (r: Outcome<Error>, ghost order: seq<Uuid>)
      requires Invariant(Tables())
      modifies this
      ensures Invariant(Tables())
      ensures Steps(old(Tables()), Tables(), NewInvoice(id, requested))
      ensures r.Committed? ==> Created(old(Tables()), Tables(), id, requested, order)
      ensures r.Raised? <==> id in old(invoices)
      ensures r.Raised? ==> Tables() == old(Tables())
    {
      order := [];
      ghost var before := Tables();
      if id in invoices { return Raised(IntegrityError), order; }
      var number := NextNumber();
      var rows := RequestedEntries(requested);
      order := rows;
      var items, subtotal := BillEntries(rows, id);
      invoices := invoices[id := InvoiceRow(number, items, subtotal, 0, subtotal, InvoiceDraft)];
      assert Created(before, Tables(), id, requested, order);
      CreatedKeeps(before, Tables(), id, requested, order);
      return Committed, order;
    }
  }
}
