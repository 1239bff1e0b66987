/** The QuickBooks IIF export: tab-delimited double-entry groups. */
module Iif {
  import opened Database
  import opened Text

  // The records an export reads. Dates are the texts strftime gives for them.

  datatype InvoiceRecord = InvoiceRecord(number: Option<nat>, clientName: string, date: string, totalCents: int,
                                         lineItems: seq<string>)

  datatype PaymentRecord = PaymentRecord(invoice: Option<InvoiceRecord>, date: string, amountCents: int)

  datatype TimeRecord = TimeRecord(date: string, durationMinutes: nat, rateCents: nat, description: string)

  datatype TrustKind = Deposit | Disbursement | Transfer

  datatype TrustRecord = TrustRecord(kind: TrustKind, clientName: string, date: string, amountCents: int,
                                     description: string)

  datatype Export =
    | Invoices(invoices: seq<InvoiceRecord>)
    | Payments(payments: seq<PaymentRecord>)
    | TimeEntries(entries: seq<TimeRecord>)
    | TrustTransactions(transactions: seq<TrustRecord>)
    | UnknownType

  // The fixed words of the format; everything below is about any words, and WORDS are those of the program

  datatype Tags = Tags(trns: string, spl: string, endTrns: string)

  datatype Kinds = Kinds(invoice: string, payment: string, timeEntry: string, deposit: string, disbursement: string,
                         transfer: string)

  datatype Accounts = Accounts(receivable: string, operating: string, legalFees: string, trust: string,
                               trustLiability: string)

  datatype Phrases = Phrases(legalServices: string, invoiceNumber: string, paymentFor: string, noInvoice: string,
                             noNumber: string, timeEntry: string, trustTransaction: string)

  datatype Words = Words(header: seq<string>, tags: Tags, kinds: Kinds, accounts: Accounts, phrases: Phrases)

  const TAGS := Tags("TRNS", "SPL", "ENDTRNS")

  const KINDS := Kinds("INVOICE", "PAYMENT", "TIME_ENTRY", "DEPOSIT", "DISBURSEMENT", "TRANSFER")

  const ACCOUNTS := Accounts("Accounts Receivable", "Operating Account", "Legal Fees", "Trust/IOLTA Account",
                             "Client Trust Liability")

  const PHRASES := Phrases("Legal services", "Invoice #", "Payment for Invoice #", "N/A", "None", "Time entry",
                           "Trust transaction")

  const WORDS := Words(HeaderLines(), TAGS, KINDS, ACCOUNTS, PHRASES)

  function Columns(): seq<string> { ["TRNSTYPE", "DATE", "ACCNT", "NAME", "AMOUNT", "MEMO"] }

  function HeaderLine(first: string, second: string, columns: seq<string>): string {
    Join('\t', [first, second] + columns)
  }

  function HeaderLines(): seq<string> {
    [HeaderLine("!TRNS", "TRNSID", Columns()), HeaderLine("!SPL", "SPLID", Columns()), "!ENDTRNS"]
  }

  // What the groups say

  /** What one group of three lines says. */
  datatype Transaction = Transaction(kind: string, date: string, account: string, splitAccount: string, name: string,
                                     cents: int, memo: string, splitMemo: string)

  /** str() of an optional number. */
  function NumberText(w: Words, n: Option<nat>): string { if n.Some? then Digits(n.value) else w.phrases.noNumber }

  /** text[:80] if text else default */
  function Shortened(text: string, default: string): string {
    if text == "" then default else if |text| <= 80 then text else text[..80]
  }

  function OfInvoice(w: Words, r: InvoiceRecord): Transaction {
    Transaction(w.kinds.invoice, r.date, w.accounts.receivable, w.accounts.legalFees, r.clientName, r.totalCents,
                w.phrases.invoiceNumber + NumberText(w, r.number),
                if r.lineItems != [] then Shortened(r.lineItems[0], w.phrases.legalServices)
                    else w.phrases.legalServices)
  }

  function OfPayment(w: Words, r: PaymentRecord): Transaction {
    var memo := w.phrases.paymentFor
                + if r.invoice.Some? then NumberText(w, r.invoice.value.number) else w.phrases.noInvoice;
    Transaction(w.kinds.payment, r.date, w.accounts.operating, w.accounts.receivable,
                if r.invoice.Some? then r.invoice.value.clientName else "", r.amountCents, memo, memo)
  }

  function OfTime(w: Words, r: TimeRecord): Transaction {
    var text := Shortened(r.description, w.phrases.timeEntry);
    Transaction(w.kinds.timeEntry, r.date, w.accounts.receivable, w.accounts.legalFees, "",
                r.rateCents * r.durationMinutes / 60, text, text)
  }

  function OfTrust(w: Words, r: TrustRecord): Transaction {
    var text := Shortened(r.description, w.phrases.trustTransaction);
    var (kind, account, split) :=
      match r.kind
      case Deposit => (w.kinds.deposit, w.accounts.trust, w.accounts.trustLiability)
      case Disbursement => (w.kinds.disbursement, w.accounts.trustLiability, w.accounts.trust)
      case Transfer => (w.kinds.transfer, w.accounts.trust, w.accounts.trustLiability);
    Transaction(kind, r.date, account, split, r.clientName, r.amountCents, text, text)
  }

  function Transactions(w: Words, x: Export): seq<Transaction> {
    match x
    case Invoices(s) => seq(|s|, i requires 0 <= i < |s| => OfInvoice(w, s[i]))
    case Payments(s) => seq(|s|, i requires 0 <= i < |s| => OfPayment(w, s[i]))
    case TimeEntries(s) => seq(|s|, i requires 0 <= i < |s| => OfTime(w, s[i]))
    case TrustTransactions(s) => seq(|s|, i requires 0 <= i < |s| => OfTrust(w, s[i]))
    case UnknownType => []
  }

  // Printing

  function TrnsFields(w: Words, idx: nat, t: Transaction): seq<string> {
    [w.tags.trns, Digits(idx), t.kind, t.date, t.account, t.name, FormatMoney(t.cents), t.memo]
  }

  function SplFields(w: Words, idx: nat, t: Transaction): seq<string> {
    [w.tags.spl, Digits(idx), t.kind, t.date, t.splitAccount, t.name, FormatMoney(-t.cents), t.splitMemo]
  }

  function GroupLines(w: Words, idx: nat, t: Transaction): seq<string> {
    [Join('\t', TrnsFields(w, idx, t)), Join('\t', SplFields(w, idx, t)), w.tags.endTrns]
  }

  /** The lines of the first n transactions, numbered from 1. */
  function BodyLines(w: Words, ts: seq<Transaction>, n: nat): seq<string>
    requires n <= |ts|
  {
    if n == 0 then [] else BodyLines(w, ts, n - 1) + GroupLines(w, n, ts[n - 1])
  }

  function Content(w: Words, ts: seq<Transaction>): string {
    Join('\n', w.header + BodyLines(w, ts, |ts|)) + "\n"
  }

  lemma NextLines(w: Words, ts: seq<Transaction>, i: nat, group: seq<string>)
    requires i < |ts| && group == GroupLines(w, i + 1, ts[i])
    ensures w.header + BodyLines(w, ts, i) + group == w.header + BodyLines(w, ts, i + 1)
  {
    assert BodyLines(w, ts, i + 1) == BodyLines(w, ts, i) + group;
  }

  // One loop for each export type, appending three lines a record

  method AppendInvoiceLines(w: Words, records: seq<InvoiceRecord>) returns (lines: seq<string>)
    ensures lines == w.header + BodyLines(w, Transactions(w, Invoices(records)), |records|)
  {
    ghost var ts := Transactions(w, Invoices(records));
    lines := w.header;
    for i := 0 to |records|
      invariant lines == w.header + BodyLines(w, ts, i)
    {
      var group := GroupLines(w, i + 1, OfInvoice(w, records[i]));
      NextLines(w, ts, i, group);
      lines := lines + group;
    }
  }

  method AppendPaymentLines(w: Words, records: seq<PaymentRecord>) returns (lines: seq<string>)
    ensures lines == w.header + BodyLines(w, Transactions(w, Payments(records)), |records|)
  {
    ghost var ts := Transactions(w, Payments(records));
    lines := w.header;
    for i := 0 to |records|
      invariant lines == w.header + BodyLines(w, ts, i)
    {
      var group := GroupLines(w, i + 1, OfPayment(w, records[i]));
      NextLines(w, ts, i, group);
      lines := lines + group;
    }
  }

  method AppendTimeLines(w: Words, records: seq<TimeRecord>) returns (lines: seq<string>)
    ensures lines == w.header + BodyLines(w, Transactions(w, TimeEntries(records)), |records|)
  {
    ghost var ts := Transactions(w, TimeEntries(records));
    lines := w.header;
    for i := 0 to |records|
      invariant lines == w.header + BodyLines(w, ts, i)
    {
      var group := GroupLines(w, i + 1, OfTime(w, records[i]));
      NextLines(w, ts, i, group);
      lines := lines + group;
    }
  }

  method AppendTrustLines(w: Words, records: seq<TrustRecord>) returns (lines: seq<string>)
    ensures lines == w.header + BodyLines(w, Transactions(w, TrustTransactions(records)), |records|)
  {
    ghost var ts := Transactions(w, TrustTransactions(records));
    lines := w.header;
    for i := 0 to |records|
      invariant lines == w.header + BodyLines(w, ts, i)
    {
      var group := GroupLines(w, i + 1, OfTrust(w, records[i]));
      NextLines(w, ts, i, group);
      lines := lines + group;
    }
  }

  method ExportLines(w: Words, x: Export) returns (lines: seq<string>, recordCount: nat)
    ensures recordCount == |Transactions(w, x)| && lines == w.header + BodyLines(w, Transactions(w, x), recordCount)
  {
    lines, recordCount := w.header, 0;
    match x {
      case Invoices(records) =>
        lines := AppendInvoiceLines(w, records);
        recordCount := |records|;
      case Payments(records) =>
        lines := AppendPaymentLines(w, records);
        recordCount := |records|;
      case TimeEntries(records) =>
        lines := AppendTimeLines(w, records);
        recordCount := |records|;
      case TrustTransactions(records) =>
        lines := AppendTrustLines(w, records);
        recordCount := |records|;
      case UnknownType =>
    }
  }

  method GenerateIifExport(x: Export) returns (content: string, recordCount: nat)
    ensures content == Content(WORDS, Transactions(WORDS, x))
    ensures recordCount == |Transactions(WORDS, x)| == RecordCount(x)
  {
    var lines;
    lines, recordCount := ExportLines(WORDS, x);
    content := Join('\n', lines) + "\n";
  }

  // Reading the file back

  datatype Group = Group(trns: seq<string>, spl: seq<string>, amount: int, splitAmount: int)

  function ParseGroup(tags: Tags, lines: seq<string>): Option<Group>
    requires |lines| >= 3
  {
    var trns, spl := Split('\t', lines[0]), Split('\t', lines[1]);
    if |trns| != 8 || |spl| != 8 || trns[0] != tags.trns || spl[0] != tags.spl || lines[2] != tags.endTrns
        then None else
      var a, b := ParseMoney(trns[6]), ParseMoney(spl[6]);
      if a.None? || b.None? then None else Some(Group(trns, spl, a.value, b.value))
  }

  /** The groups of a body, three lines each. */
  function ParseBody(tags: Tags, lines: seq<string>): Option<seq<Group>> {
    if lines == [] then Some([]) else if |lines| < 3 then None else
      var before := ParseBody(tags, lines[..|lines| - 3]);
      var last := ParseGroup(tags, lines[|lines| - 3..]);
      if before.None? || last.None? then None else Some(before.value + [last.value])
  }

  /** A file is lines that each end in a newline: the header and the body. */
  function ParseIif(w: Words, content: string): Option<seq<Group>> {
    var lines := Split('\n', content);
    var n, h := |lines|, |w.header|;
    if n < h + 1 || lines[n - 1] != "" || lines[..h] != w.header then None else ParseBody(w.tags, lines[h..n - 1])
  }

  function GroupFor(w: Words, idx: nat, t: Transaction): Group {
    Group(TrnsFields(w, idx, t), SplFields(w, idx, t), t.cents, -t.cents)
  }

  function GroupsFor(w: Words, ts: seq<Transaction>, n: nat): seq<Group>
    requires n <= |ts|
  {
    if n == 0 then [] else GroupsFor(w, ts, n - 1) + [GroupFor(w, n, ts[n - 1])]
  }

  predicate IsPlain(s: string) { '\t' !in s && '\n' !in s }

  ghost predicate AllPlain(fields: seq<string>) { forall f :: f in fields ==> IsPlain(f) }

  ghost predicate AllOneLine(lines: seq<string>) { forall l :: l in lines ==> '\n' !in l }

  /** What the reader needs of the fixed words. */
  ghost predicate Usable(w: Words) {
    w.header != [] && AllOneLine(w.header) && IsPlain(w.tags.trns) && IsPlain(w.tags.spl) && '\n' !in w.tags.endTrns
  }

  /** No text of the group holds a tab or a newline. */
  predicate PlainTexts(t: Transaction) {
    IsPlain(t.kind) && IsPlain(t.date) && IsPlain(t.account) && IsPlain(t.splitAccount) && IsPlain(t.name)
    && IsPlain(t.memo) && IsPlain(t.splitMemo)
  }

  lemma DigitsArePlain(n: nat)
    ensures IsPlain(Digits(n))
  {
    var s := Digits(n);
    assert forall i :: 0 <= i < |s| ==> IsDigit(s[i]);
  }

  lemma MoneyIsPlain(cents: int)
    ensures IsPlain(FormatMoney(cents))
  {
    MoneyChars(cents);
  }

  lemma FieldsArePlain(w: Words, idx: nat, t: Transaction)
    requires Usable(w) && PlainTexts(t)
    ensures AllPlain(TrnsFields(w, idx, t)) && AllPlain(SplFields(w, idx, t))
  {
    DigitsArePlain(idx);
    MoneyIsPlain(t.cents);
    MoneyIsPlain(-t.cents);
  }

  lemma LineRoundTrip(fields: seq<string>)
    requires fields != [] && AllPlain(fields)
    ensures Split('\t', Join('\t', fields)) == fields && '\n' !in Join('\t', fields)
  {
    SplitOfJoin('\t', fields);
    JoinWithout('\n', '\t', fields);
  }

  lemma GroupOfLines(tags: Tags, lines: seq<string>, trns: seq<string>, spl: seq<string>, a: int, b: int)
    requires lines == [Join('\t', trns), Join('\t', spl), tags.endTrns] && '\n' !in tags.endTrns
    requires |trns| == 8 && AllPlain(trns) && trns[0] == tags.trns && trns[6] == FormatMoney(a)
    requires |spl| == 8 && AllPlain(spl) && spl[0] == tags.spl && spl[6] == FormatMoney(b)
    ensures ParseGroup(tags, lines) == Some(Group(trns, spl, a, b)) && AllOneLine(lines)
  {
    LineRoundTrip(trns);
    LineRoundTrip(spl);
    MoneyRoundTrip(a);
    MoneyRoundTrip(b);
  }

  lemma GroupRoundTrip(w: Words, idx: nat, t: Transaction)
    requires Usable(w) && PlainTexts(t)
    ensures ParseGroup(w.tags, GroupLines(w, idx, t)) == Some(GroupFor(w, idx, t)) && AllOneLine(GroupLines(w, idx, t))
  {
    FieldsArePlain(w, idx, t);
    GroupOfLines(w.tags, GroupLines(w, idx, t), TrnsFields(w, idx, t), SplFields(w, idx, t), t.cents, -t.cents);
  }

  lemma ParseBodyNext(tags: Tags, before: seq<string>, last: seq<string>, groups: seq<Group>, g: Group)
    requires |last| == 3 && ParseBody(tags, before) == Some(groups) && ParseGroup(tags, last) == Some(g)
    requires AllOneLine(before) && AllOneLine(last)
    ensures ParseBody(tags, before + last) == Some(groups + [g]) && AllOneLine(before + last)
  {
    var lines := before + last;
    assert lines[..|lines| - 3] == before && lines[|lines| - 3..] == last;
  }

  lemma NextGroup(w: Words, before: seq<string>, groups: seq<Group>, idx: nat, t: Transaction)
    requires Usable(w) && PlainTexts(t) && ParseBody(w.tags, before) == Some(groups) && AllOneLine(before)
    ensures ParseBody(w.tags, before + GroupLines(w, idx, t)) == Some(groups + [GroupFor(w, idx, t)])
    ensures AllOneLine(before + GroupLines(w, idx, t))
  {
    GroupRoundTrip(w, idx, t);
    ParseBodyNext(w.tags, before, GroupLines(w, idx, t), groups, GroupFor(w, idx, t));
  }

  lemma {:induction false} BodyRoundTrip(w: Words, ts: seq<Transaction>, n: nat)
    requires Usable(w) && n <= |ts| && forall i :: 0 <= i < n ==> PlainTexts(ts[i])
    ensures ParseBody(w.tags, BodyLines(w, ts, n)) == Some(GroupsFor(w, ts, n)) && AllOneLine(BodyLines(w, ts, n))
  {
    if n > 0 {
      var lines, groups := BodyLines(w, ts, n - 1), GroupsFor(w, ts, n - 1);
      BodyRoundTrip(w, ts, n - 1);
      NextGroup(w, lines, groups, n, ts[n - 1]);
      assert BodyLines(w, ts, n) == lines + GroupLines(w, n, ts[n - 1]);
      assert GroupsFor(w, ts, n) == groups + [GroupFor(w, n, ts[n - 1])];
    }
  }

  lemma FileLines(lines: seq<string>)
    requires |lines| > 0 && AllOneLine(lines)
    ensures Split('\n', Join('\n', lines) + "\n") == lines + [""]
  {
    SplitAtSeparator('\n', Join('\n', lines), "");
    SplitOfJoin('\n', lines);
    assert Join('\n', lines) + "\n" == Join('\n', lines) + ['\n'] + "";
  }

  lemma FileOfLines(w: Words, body: seq<string>)
    requires Usable(w) && AllOneLine(body)
    ensures ParseIif(w, Join('\n', w.header + body) + "\n") == ParseBody(w.tags, body)
  {
    var lines := w.header + body;
    FileLines(lines);
    assert (lines + [""])[|w.header|..|lines|] == body;
    assert (lines + [""])[..|w.header|] == w.header;
  }

  lemma FileRoundTrip(w: Words, ts: seq<Transaction>)
    requires Usable(w) && forall t :: t in ts ==> PlainTexts(t)
    ensures ParseIif(w, Content(w, ts)) == Some(GroupsFor(w, ts, |ts|))
  {
    BodyRoundTrip(w, ts, |ts|);
    FileOfLines(w, BodyLines(w, ts, |ts|));
  }

  // Nothing else reads back

  ghost predicate PlainGroup(g: Group) { AllPlain(g.trns) && AllPlain(g.spl) }

  lemma ParsedGroupIsPlain(tags: Tags, lines: seq<string>)
    requires |lines| == 3 && AllOneLine(lines) && ParseGroup(tags, lines).Some?
    ensures PlainGroup(ParseGroup(tags, lines).value)
  {
    assert lines[0] in lines && lines[1] in lines;
    SplitKeepsOut('\n', '\t', lines[0]);
    SplitKeepsOut('\n', '\t', lines[1]);
  }

  lemma {:induction false} ParsedIsPlain(tags: Tags, lines: seq<string>)
    requires ParseBody(tags, lines).Some? && AllOneLine(lines)
    ensures forall g :: g in ParseBody(tags, lines).value ==> PlainGroup(g)
  {
    if lines != [] {
      var init, last := lines[..|lines| - 3], lines[|lines| - 3..];
      ParsedIsPlain(tags, init);
      ParsedGroupIsPlain(tags, last);
    }
  }

  lemma GroupCoversTexts(w: Words, idx: nat, t: Transaction)
    requires PlainGroup(GroupFor(w, idx, t))
    ensures PlainTexts(t)
  {
    var trns, spl := TrnsFields(w, idx, t), SplFields(w, idx, t);
    assert trns[2] in trns && trns[3] in trns && trns[4] in trns && trns[5] in trns && trns[7] in trns;
    assert spl[4] in spl && spl[7] in spl;
  }

  lemma {:induction false} GroupsCoverTexts(w: Words, ts: seq<Transaction>, n: nat)
    requires n <= |ts| && forall g :: g in GroupsFor(w, ts, n) ==> PlainGroup(g)
    ensures forall i :: 0 <= i < n ==> PlainTexts(ts[i])
  {
    if n > 0 {
      GroupsCoverTexts(w, ts, n - 1);
      assert GroupFor(w, n, ts[n - 1]) in GroupsFor(w, ts, n);
      GroupCoversTexts(w, n, ts[n - 1]);
    }
  }

  lemma FileIsPlain(w: Words, content: string)
    requires ParseIif(w, content).Some?
    ensures forall g :: g in ParseIif(w, content).value ==> PlainGroup(g)
  {
    var lines := Split('\n', content);
    ParsedIsPlain(w.tags, lines[|w.header|..|lines| - 1]);
  }

  lemma FileRoundTripIff(w: Words, ts: seq<Transaction>)
    requires Usable(w)
    ensures ParseIif(w, Content(w, ts)) == Some(GroupsFor(w, ts, |ts|)) <==> forall t :: t in ts ==> PlainTexts(t)
  {
    if forall t :: t in ts ==> PlainTexts(t) {
      FileRoundTrip(w, ts);
    }
    if ParseIif(w, Content(w, ts)) == Some(GroupsFor(w, ts, |ts|)) {
      FileIsPlain(w, Content(w, ts));
      GroupsCoverTexts(w, ts, |ts|);
    }
  }

  // The groups balance

  function SumOf(groups: seq<Group>): int {
    if groups == [] then 0 else
      SumOf(groups[..|groups| - 1]) + groups[|groups| - 1].amount + groups[|groups| - 1].splitAmount
  }

  lemma {:induction false} GroupsBalance(w: Words, ts: seq<Transaction>, n: nat)
    requires n <= |ts|
    ensures SumOf(GroupsFor(w, ts, n)) == 0
  {
    if n > 0 {
      GroupsBalance(w, ts, n - 1);
      var g := GroupsFor(w, ts, n);
      assert g[..|g| - 1] == GroupsFor(w, ts, n - 1);
    }
  }

  lemma {:induction false} GroupsInOrder(w: Words, ts: seq<Transaction>, n: nat, i: nat)
    requires i < n <= |ts|
    ensures |GroupsFor(w, ts, n)| == n && GroupsFor(w, ts, n)[i] == GroupFor(w, i + 1, ts[i])
  {
    if n > 1 {
      if i < n - 1 { GroupsInOrder(w, ts, n - 1, i); } else { GroupsInOrder(w, ts, n - 1, 0); }
    }
  }

  lemma GroupCount(w: Words, ts: seq<Transaction>)
    ensures |GroupsFor(w, ts, |ts|)| == |ts|
  {
    if ts != [] { GroupsInOrder(w, ts, |ts|, 0); }
  }

  lemma FileBalances(w: Words, ts: seq<Transaction>)
    requires Usable(w) && forall t :: t in ts ==> PlainTexts(t)
    ensures ParseIif(w, Content(w, ts)).Some?
    ensures var groups := ParseIif(w, Content(w, ts)).value; |groups| == |ts| && SumOf(groups) == 0
  {
    FileRoundTrip(w, ts);
    GroupCount(w, ts);
    GroupsBalance(w, ts, |ts|);
  }

  /** Group g is the printed transaction t with this number, and its two amounts cancel. */
  ghost predicate IsGroupOf(w: Words, g: Group, idx: nat, t: Transaction) {
    g.trns == TrnsFields(w, idx, t) && g.spl == SplFields(w, idx, t) && g.amount == t.cents
        && g.amount + g.splitAmount == 0
  }

  lemma FileGroup(w: Words, ts: seq<Transaction>, i: nat)
    requires Usable(w) && (forall t :: t in ts ==> PlainTexts(t)) && i < |ts|
    ensures var parsed := ParseIif(w, Content(w, ts));
            parsed.Some? && i < |parsed.value| && IsGroupOf(w, parsed.value[i], i + 1, ts[i])
  {
    FileRoundTrip(w, ts);
    GroupsInOrder(w, ts, |ts|, i);
  }

  // What a reader finds in the file generate_iif_export returns

  lemma ColumnsArePlain()
    ensures AllPlain(Columns())
  {
  }

  lemma HeaderLineIsOneLine(first: string, second: string, columns: seq<string>)
    requires '\n' !in first && '\n' !in second && AllPlain(columns)
    ensures '\n' !in HeaderLine(first, second, columns)
  {
    JoinWithout('\n', '\t', [first, second] + columns);
  }

  lemma WordsAreUsable()
    ensures Usable(WORDS)
  {
    ColumnsArePlain();
    HeaderLineIsOneLine("!TRNS", "TRNSID", Columns());
    HeaderLineIsOneLine("!SPL", "SPLID", Columns());
  }

  /** The exported file reads back as exactly its transactions precisely when no text in it holds a tab or a newline. */
  lemma ExportReadsBackIff(x: Export)
    ensures ParseIif(WORDS, Content(WORDS, Transactions(WORDS, x)))
              == Some(GroupsFor(WORDS, Transactions(WORDS, x), |Transactions(WORDS, x)|))
       <==> forall t :: t in Transactions(WORDS, x) ==> PlainTexts(t)
  {
    WordsAreUsable();
    FileRoundTripIff(WORDS, Transactions(WORDS, x));
  }

  /** A plain export reads back as as many groups as recorded, and the file sums to zero. */
  lemma ExportBalances(x: Export)
    requires forall t :: t in Transactions(WORDS, x) ==> PlainTexts(t)
    ensures var parsed := ParseIif(WORDS, Content(WORDS, Transactions(WORDS, x)));
            parsed.Some? && |parsed.value| == |Transactions(WORDS, x)| && SumOf(parsed.value) == 0
  {
    WordsAreUsable();
    FileBalances(WORDS, Transactions(WORDS, x));
  }

  /** Group i is numbered i + 1, carries the amount of record i, and its two amounts cancel. */
  lemma ExportGroup(x: Export, i: nat)
    requires (forall t :: t in Transactions(WORDS, x) ==> PlainTexts(t)) && i < |Transactions(WORDS, x)|
    ensures var parsed := ParseIif(WORDS, Content(WORDS, Transactions(WORDS, x)));
            parsed.Some? && i < |parsed.value| && IsGroupOf(WORDS, parsed.value[i], i + 1, Transactions(WORDS, x)[i])
  {
    WordsAreUsable();
    FileGroup(WORDS, Transactions(WORDS, x), i);
  }

  // What the file says of each record

  /** The two lines of g, column by column, and the amounts read from them. */
  ghost predicate Says(w: Words, g: Group, idx: nat, kind: string, date: string, name: string, cents: int) {
    |g.trns| == 8 && |g.spl| == 8 && g.trns[0] == w.tags.trns && g.spl[0] == w.tags.spl
    && g.trns[1] == g.spl[1] == Digits(idx) && g.trns[2] == g.spl[2] == kind && g.trns[3] == g.spl[3] == date
    && g.trns[5] == g.spl[5] == name && g.trns[6] == FormatMoney(cents) && g.spl[6] == FormatMoney(-cents)
    && g.amount == cents && g.splitAmount == -cents
  }

  /** The amount goes to the first account, its opposite to the second. */
  ghost predicate Moves(g: Group, account: string, split: string) {
    |g.trns| == 8 && |g.spl| == 8 && g.trns[4] == account && g.spl[4] == split
  }

  /** memo is the beginning of the text, at most 80 characters of it, and the default for an empty one. */
  ghost predicate Labels(memo: string, text: string, default: string) {
    if text == "" then memo == default
    else |memo| <= 80 && memo <= text && (|memo| < 80 ==> memo == text)
  }

  ghost predicate Numbered(w: Words, memo: string, phrase: string, number: Option<nat>) {
    match number
    case Some(n) => memo == phrase + Digits(n)
    case None => memo == phrase + w.phrases.noNumber
  }

  ghost predicate SaysInvoice(w: Words, g: Group, idx: nat, r: InvoiceRecord) {
    Says(w, g, idx, w.kinds.invoice, r.date, r.clientName, r.totalCents)
    && Moves(g, w.accounts.receivable, w.accounts.legalFees)
    && Numbered(w, g.trns[7], w.phrases.invoiceNumber, r.number)
    && Labels(g.spl[7], if r.lineItems == [] then "" else r.lineItems[0], w.phrases.legalServices)
  }

  ghost predicate SaysPayment(w: Words, g: Group, idx: nat, r: PaymentRecord) {
    Moves(g, w.accounts.operating, w.accounts.receivable) && g.trns[7] == g.spl[7]
    && match r.invoice
       case Some(inv) =>
         Says(w, g, idx, w.kinds.payment, r.date, inv.clientName, r.amountCents)
         && Numbered(w, g.trns[7], w.phrases.paymentFor, inv.number)
       case None =>
         Says(w, g, idx, w.kinds.payment, r.date, "", r.amountCents)
         && g.trns[7] == w.phrases.paymentFor + w.phrases.noInvoice
  }

  /** The amount is the whole number of cents in the rate for this time, 60 minutes to the hour. */
  ghost predicate SaysTime(w: Words, g: Group, idx: nat, r: TimeRecord) {
    Says(w, g, idx, w.kinds.timeEntry, r.date, "", g.amount) && Moves(g, w.accounts.receivable, w.accounts.legalFees)
    && 60 * g.amount <= r.rateCents * r.durationMinutes < 60 * g.amount + 60
    && g.trns[7] == g.spl[7] && Labels(g.trns[7], r.description, w.phrases.timeEntry)
  }

  /** A disbursement takes from the trust account what deposits and transfers put there. */
  ghost predicate SaysTrust(w: Words, g: Group, idx: nat, r: TrustRecord) {
    (match r.kind
     case Deposit =>
       Says(w, g, idx, w.kinds.deposit, r.date, r.clientName, r.amountCents)
       && Moves(g, w.accounts.trust, w.accounts.trustLiability)
     case Disbursement =>
       Says(w, g, idx, w.kinds.disbursement, r.date, r.clientName, r.amountCents)
       && Moves(g, w.accounts.trustLiability, w.accounts.trust)
     case Transfer =>
       Says(w, g, idx, w.kinds.transfer, r.date, r.clientName, r.amountCents)
       && Moves(g, w.accounts.trust, w.accounts.trustLiability))
    && |g.trns| == 8 && |g.spl| == 8 && g.trns[7] == g.spl[7]
    && Labels(g.trns[7], r.description, w.phrases.trustTransaction)
  }

  ghost predicate SaysRecord(w: Words, g: Group, x: Export, i: nat) {
    match x
    case Invoices(s) => i < |s| && SaysInvoice(w, g, i + 1, s[i])
    case Payments(s) => i < |s| && SaysPayment(w, g, i + 1, s[i])
    case TimeEntries(s) => i < |s| && SaysTime(w, g, i + 1, s[i])
    case TrustTransactions(s) => i < |s| && SaysTrust(w, g, i + 1, s[i])
    case UnknownType => false
  }

  function RecordCount(x: Export): nat {
    match x
    case Invoices(s) => |s|
    case Payments(s) => |s|
    case TimeEntries(s) => |s|
    case TrustTransactions(s) => |s|
    case UnknownType => 0
  }

  lemma ShortenedLabels(text: string, default: string)
    ensures Labels(Shortened(text, default), text, default)
  {
  }

  lemma InvoiceSaid(w: Words, g: Group, idx: nat, r: InvoiceRecord)
    requires IsGroupOf(w, g, idx, OfInvoice(w, r))
    ensures SaysInvoice(w, g, idx, r)
  {
    if r.lineItems != [] { ShortenedLabels(r.lineItems[0], w.phrases.legalServices); }
  }

  lemma PaymentSaid(w: Words, g: Group, idx: nat, r: PaymentRecord)
    requires IsGroupOf(w, g, idx, OfPayment(w, r))
    ensures SaysPayment(w, g, idx, r)
  {
  }

  lemma TimeSaid(w: Words, g: Group, idx: nat, r: TimeRecord)
    requires IsGroupOf(w, g, idx, OfTime(w, r))
    ensures SaysTime(w, g, idx, r)
  {
    ShortenedLabels(r.description, w.phrases.timeEntry);
  }

  lemma TrustSaid(w: Words, g: Group, idx: nat, r: TrustRecord)
    requires IsGroupOf(w, g, idx, OfTrust(w, r))
    ensures SaysTrust(w, g, idx, r)
  {
    ShortenedLabels(r.description, w.phrases.trustTransaction);
  }

  lemma GroupSaysRecord(w: Words, g: Group, x: Export, i: nat)
    requires i < |Transactions(w, x)| && IsGroupOf(w, g, i + 1, Transactions(w, x)[i])
    ensures SaysRecord(w, g, x, i)
  {
    match x
    case Invoices(s) => InvoiceSaid(w, g, i + 1, s[i]);
    case Payments(s) => PaymentSaid(w, g, i + 1, s[i]);
    case TimeEntries(s) => TimeSaid(w, g, i + 1, s[i]);
    case TrustTransactions(s) => TrustSaid(w, g, i + 1, s[i]);
    case UnknownType =>
  }

  /** The file that is read back has a group for each record, in order, with that record's accounts and amount. */
  lemma ExportSays(x: Export, i: nat)
    requires (forall t :: t in Transactions(WORDS, x) ==> PlainTexts(t)) && i < RecordCount(x)
    ensures var parsed := ParseIif(WORDS, Content(WORDS, Transactions(WORDS, x)));
            parsed.Some? && |parsed.value| == RecordCount(x) && SaysRecord(WORDS, parsed.value[i], x, i)
  {
    ExportBalances(x);
    ExportGroup(x, i);
    GroupSaysRecord(WORDS, ParseIif(WORDS, Content(WORDS, Transactions(WORDS, x))).value[i], x, i);
  }
}
