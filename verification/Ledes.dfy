/** The LEDES 1998B export of an invoice: pipe-delimited rows that end in []. */
module Ledes {
  import opened Database
  import opened Text
  import Billing

  type Date = int

  datatype CodeType = Task | Phase | Expense | Activity

  datatype UtbmsCode = UtbmsCode(codeType: CodeType, code: string)

  datatype Timekeeper = Timekeeper(id: string, firstName: string, lastName: string, classification: string)

  datatype Entry = Entry(date: Date, durationMinutes: nat, rateCents: nat, user: Option<Timekeeper>)

  datatype InvoiceHead = InvoiceHead(issuedDate: Option<Date>, number: Option<nat>, clientId: string, matterId: string,
                                     totalCents: int)

  /** Foreign printers: strftime("%Y%m%d"), minutes / 60 with two decimals, and a quantity with two decimals. */
  datatype Formats = Formats(ymd: Date -> string, hours: nat -> string, units: nat -> string)

  /** What the queries of one export return. */
  datatype Source = Source(head: InvoiceHead, items: seq<Billing.LineItem>, entries: map<Uuid, Entry>,
                           codes: map<Uuid, seq<UtbmsCode>>, billingStart: Date, billingEnd: Date, today: Date)

  // One row

  /** The last code of one of these types, or the empty text. */
  function LastCode(codes: seq<UtbmsCode>, types: set<CodeType>): string {
    if codes == [] then "" else
      var c := codes[|codes| - 1];
      if c.codeType in types then c.code else LastCode(codes[..|codes| - 1], types)
  }

  function EntryOf(src: Source, item: Billing.LineItem): Option<Entry> {
    if item.timeEntryId.Some? && item.timeEntryId.value in src.entries then Some(src.entries[item.timeEntryId.value])
        else None
  }

  function CodesOf(src: Source, item: Billing.LineItem): seq<UtbmsCode> {
    if item.timeEntryId.Some? && item.timeEntryId.value in src.codes then src.codes[item.timeEntryId.value] else []
  }

  function InvoiceDate(f: Formats, src: Source): string {
    f.ymd(if src.head.issuedDate.Some? then src.head.issuedDate.value else src.today)
  }

  function InvoiceNumber(head: InvoiceHead): string {
    if head.number.Some? && head.number.value != 0 then Digits(head.number.value) else ""
  }

  function Sanitised(description: string): string { Blank('\n', Blank('|', description)) }

  const LINE_TOTAL := 12
  const INVOICE_TOTAL := 4
  const DESCRIPTION := 18

  /** Columns 1 to 8: the invoice. */
  function InvoiceFields(f: Formats, src: Source): (r: seq<string>)
    ensures |r| == 8
  {
    [InvoiceDate(f, src), InvoiceNumber(src.head), src.head.clientId, src.head.matterId,
     FormatMoney(src.head.totalCents), f.ymd(src.billingStart), f.ymd(src.billingEnd), ""]
  }

  /** Columns 9 to 14: number, type, units, adjustment, total and date of the line. */
  function AmountFields(f: Formats, src: Source, idx: nat, item: Billing.LineItem): (r: seq<string>)
    ensures |r| == 6
  {
    var te, codes := EntryOf(src, item), CodesOf(src, item);
    [Digits(idx),
     if exists c :: c in codes && c.codeType == Expense then "E" else "F",
     if te.Some? then f.hours(te.value.durationMinutes) else f.units(item.quantity),
     "0.00",
     FormatMoney(item.amountCents),
     if te.Some? then f.ymd(te.value.date) else InvoiceDate(f, src)]
  }

  /** Columns 15 to 18: the codes and the timekeeper's id. */
  function CodeFields(src: Source, item: Billing.LineItem): (r: seq<string>)
    ensures |r| == 4
  {
    var codes := CodesOf(src, item);
    [LastCode(codes, {Task, Phase}), LastCode(codes, {Expense}), LastCode(codes, {Activity}),
     if UserOf(src, item).Some? then UserOf(src, item).value.id else ""]
  }

  /** Columns 19 to 23: description, law firm, unit cost and the timekeeper's name and classification. */
  function DetailFields(src: Source, item: Billing.LineItem): (r: seq<string>)
    ensures |r| == 5
  {
    var te, user := EntryOf(src, item), UserOf(src, item);
    [Sanitised(item.description), "",
     FormatMoney(if te.Some? then te.value.rateCents else item.rateCents),
     if user.Some? then user.value.firstName + " " + user.value.lastName else "",
     if user.Some? then user.value.classification else ""]
  }

  function UserOf(src: Source, item: Billing.LineItem): Option<Timekeeper> {
    if EntryOf(src, item).Some? then EntryOf(src, item).value.user else None
  }

  function Row(f: Formats, src: Source, idx: nat, item: Billing.LineItem): (r: seq<string>)
    ensures |r| == 23
    ensures r[INVOICE_TOTAL] == FormatMoney(src.head.totalCents) && r[LINE_TOTAL] == FormatMoney(item.amountCents)
    ensures r[DESCRIPTION] == Sanitised(item.description)
  {
    InvoiceFields(f, src) + AmountFields(f, src, idx, item) + CodeFields(src, item) + DetailFields(src, item)
  }

  function Rows(f: Formats, src: Source, n: nat): seq<seq<string>>
    requires n <= |src.items|
  {
    seq(n, i requires 0 <= i < n => Row(f, src, i + 1, src.items[i]))
  }

  // The file

  function InvoiceColumns(): seq<string> {
    ["INVOICE_DATE", "INVOICE_NUMBER", "CLIENT_ID", "LAW_FIRM_MATTER_ID", "INVOICE_TOTAL"]
  }

  function PeriodColumns(): seq<string> {
    ["BILLING_START_DATE", "BILLING_END_DATE", "INVOICE_DESCRIPTION"]
  }

  function LineColumns(): seq<string> {
    ["LINE_ITEM_NUMBER", "EXP/FEE/INV_ADJ_TYPE", "LINE_ITEM_NUMBER_OF_UNITS"]
  }

  function AmountColumns(): seq<string> {
    ["LINE_ITEM_ADJUSTMENT_AMOUNT", "LINE_ITEM_TOTAL", "LINE_ITEM_DATE"]
  }

  function CodeColumns(): seq<string> {
    ["LINE_ITEM_TASK_CODE", "LINE_ITEM_EXPENSE_CODE", "LINE_ITEM_ACTIVITY_CODE"]
  }

  function DetailColumns(): seq<string> {
    ["TIMEKEEPER_ID", "LINE_ITEM_DESCRIPTION", "LAW_FIRM_ID"]
  }

  function KeeperColumns(): seq<string> {
    ["LINE_ITEM_UNIT_COST", "TIMEKEEPER_NAME", "TIMEKEEPER_CLASSIFICATION"]
  }

  function Header(): seq<string> {
    InvoiceColumns() + PeriodColumns() + LineColumns() + AmountColumns() + CodeColumns() + DetailColumns()
        + KeeperColumns()
  }

  const MARK := "LEDES1998B[]"

  function Line(fields: seq<string>): string { Join('|', fields) + "[]" }

  function Lines(table: seq<seq<string>>): seq<string> {
    if table == [] then [] else Lines(table[..|table| - 1]) + [Line(table[|table| - 1])]
  }

  function Content(mark: string, table: seq<seq<string>>): string {
    Join('\n', [mark] + Lines(table))
  }

  method ExportLedes(f: Formats, src: Source) returns (content: string)
    ensures content == Content(MARK, [Header()] + Rows(f, src, |src.items|))
  {
    var lines := ItemLines(f, src, Header());
    content := Join('\n', [MARK] + lines);
  }

  method ItemLines(f: Formats, src: Source, header: seq<string>) returns (lines: seq<string>)
    ensures lines == Lines([header] + Rows(f, src, |src.items|))
  {
    lines := [Line(header)];
    ghost var table := [header];
    for i := 0 to |src.items|
      invariant table == [header] + Rows(f, src, i) && lines == Lines(table)
    {
      var row := Row(f, src, i + 1, src.items[i]);
      RowsNext(f, src, header, i);
      LinesNext(table, row);
      lines := lines + [Line(row)];
      table := table + [row];
    }
  }

  lemma RowsNext(f: Formats, src: Source, header: seq<string>, i: nat)
    requires i < |src.items|
    ensures [header] + Rows(f, src, i + 1) == [header] + Rows(f, src, i) + [Row(f, src, i + 1, src.items[i])]
  {
  }

  lemma LinesNext(table: seq<seq<string>>, row: seq<string>)
    ensures Lines(table + [row]) == Lines(table) + [Line(row)]
  {
    assert (table + [row])[..|table|] == table;
  }

  // Reading it back

  function ParseLine(l: string): Option<seq<string>> {
    if |l| >= 2 && l[|l| - 2..] == "[]" then Some(Split('|', l[..|l| - 2])) else None
  }

  function ParseLines(lines: seq<string>): Option<seq<seq<string>>> {
    if lines == [] then Some([]) else
      var before, last := ParseLines(lines[..|lines| - 1]), ParseLine(lines[|lines| - 1]);
      if before.None? || last.None? then None else Some(before.value + [last.value])
  }

  function ParseLedes(mark: string, content: string): Option<seq<seq<string>>> {
    var lines := Split('\n', content);
    if lines[0] != mark then None else ParseLines(lines[1..])
  }

  predicate IsClean(s: string) { '|' !in s && '\n' !in s }

  predicate CleanRow(fields: seq<string>) { forall s :: s in fields ==> IsClean(s) }

  predicate CleanTable(table: seq<seq<string>>) { forall r :: r in table ==> CleanRow(r) }

  lemma LineRoundTrip(fields: seq<string>)
    requires fields != [] && CleanRow(fields)
    ensures ParseLine(Line(fields)) == Some(fields) && '\n' !in Line(fields)
  {
    var l := Line(fields);
    assert l[..|l| - 2] == Join('|', fields) && l[|l| - 2..] == "[]";
    SplitOfJoin('|', fields);
    JoinWithout('\n', '|', fields);
  }

  lemma {:induction false} LinesRoundTrip(table: seq<seq<string>>)
    requires CleanTable(table) && forall r :: r in table ==> r != []
    ensures ParseLines(Lines(table)) == Some(table) && forall l :: l in Lines(table) ==> '\n' !in l
  {
    if table != [] {
      var init, last := table[..|table| - 1], table[|table| - 1];
      assert last in table && forall r :: r in init ==> r in table;
      assert table == init + [last];
      LinesRoundTrip(init);
      LineRoundTrip(last);
      assert Lines(table)[..|Lines(table)| - 1] == Lines(init);
    }
  }

  lemma {:induction false} ParsedIsClean(lines: seq<string>)
    requires ParseLines(lines).Some? && forall l :: l in lines ==> '\n' !in l
    ensures CleanTable(ParseLines(lines).value)
  {
    if lines != [] {
      var last := lines[|lines| - 1];
      assert last in lines;
      ParsedIsClean(lines[..|lines| - 1]);
      SplitKeepsOut('\n', '|', last[..|last| - 2]);
    }
  }

  lemma FileOfLines(mark: string, lines: seq<string>)
    requires '\n' !in mark && forall l :: l in lines ==> '\n' !in l
    ensures ParseLedes(mark, Join('\n', [mark] + lines)) == ParseLines(lines)
  {
    SplitOfJoin('\n', [mark] + lines);
    assert ([mark] + lines)[1..] == lines;
  }

  lemma ReadsBackOnlyIfClean(mark: string, content: string)
    requires ParseLedes(mark, content).Some?
    ensures CleanTable(ParseLedes(mark, content).value)
  {
    var lines := Split('\n', content);
    assert forall l :: l in lines[1..] ==> l in lines;
    ParsedIsClean(lines[1..]);
  }

  /** The file reads back as exactly its table precisely when no field holds a pipe or a newline. */
  lemma TableRoundTripIff(mark: string, table: seq<seq<string>>)
    requires '\n' !in mark && forall r :: r in table ==> r != []
    ensures ParseLedes(mark, Content(mark, table)) == Some(table) <==> CleanTable(table)
  {
    if CleanTable(table) {
      LinesRoundTrip(table);
      FileOfLines(mark, Lines(table));
    }
    if ParseLedes(mark, Content(mark, table)) == Some(table) {
      ReadsBackOnlyIfClean(mark, Content(mark, table));
    }
  }

  // An invoice whose names and codes are clean

  ghost predicate CleanFormats(f: Formats) {
    (forall d :: IsClean(f.ymd(d))) && (forall n :: IsClean(f.hours(n))) && forall n :: IsClean(f.units(n))
  }

  predicate CleanUser(u: Timekeeper) {
    IsClean(u.id) && IsClean(u.firstName) && IsClean(u.lastName) && IsClean(u.classification)
  }

  /** Identifiers, names and codes are clean; descriptions may hold anything. */
  ghost predicate CleanSource(src: Source) {
    IsClean(src.head.clientId) && IsClean(src.head.matterId)
    && (forall k :: k in src.entries && src.entries[k].user.Some? ==> CleanUser(src.entries[k].user.value))
    && forall k, c :: k in src.codes && c in src.codes[k] ==> IsClean(c.code)
  }

  lemma InvoiceColumnsAreClean()
    ensures CleanRow(InvoiceColumns())
  {
  }

  lemma PeriodColumnsAreClean()
    ensures CleanRow(PeriodColumns())
  {
  }

  lemma LineColumnsAreClean()
    ensures CleanRow(LineColumns())
  {
  }

  lemma AmountColumnsAreClean()
    ensures CleanRow(AmountColumns())
  {
  }

  lemma CodeColumnsAreClean()
    ensures CleanRow(CodeColumns())
  {
  }

  lemma DetailColumnsAreClean()
    ensures CleanRow(DetailColumns())
  {
  }

  lemma KeeperColumnsAreClean()
    ensures CleanRow(KeeperColumns())
  {
  }

  lemma HeaderIsClean()
    ensures CleanRow(Header()) && |Header()| == 23
  {
    InvoiceColumnsAreClean();
    PeriodColumnsAreClean();
    LineColumnsAreClean();
    AmountColumnsAreClean();
    CodeColumnsAreClean();
    DetailColumnsAreClean();
    KeeperColumnsAreClean();
  }

  lemma DigitsAreClean(n: nat)
    ensures IsClean(Digits(n))
  {
    var s := Digits(n);
    assert forall i :: 0 <= i < |s| ==> IsDigit(s[i]);
  }

  lemma MoneyIsClean(cents: int)
    ensures IsClean(FormatMoney(cents))
  {
    MoneyChars(cents);
  }

  lemma SanitisedIsClean(description: string)
    ensures IsClean(Sanitised(description)) && |Sanitised(description)| == |description|
    ensures forall i :: 0 <= i < |description| ==>
              Sanitised(description)[i] == if description[i] in "|\n" then ' ' else description[i]
  {
    var once := Blank('|', description);
    var twice := Blank('\n', once);
    forall i | 0 <= i < |twice| ensures twice[i] != '|' {
      assert once[i] in once;
    }
  }

  lemma {:induction false} LastCodeIsClean(codes: seq<UtbmsCode>, types: set<CodeType>)
    requires forall c :: c in codes ==> IsClean(c.code)
    ensures IsClean(LastCode(codes, types))
  {
    if codes != [] {
      assert codes[|codes| - 1] in codes;
      LastCodeIsClean(codes[..|codes| - 1], types);
    }
  }

  lemma InvoiceFieldsAreClean(f: Formats, src: Source)
    requires CleanFormats(f) && CleanSource(src)
    ensures CleanRow(InvoiceFields(f, src))
  {
    if src.head.number.Some? { DigitsAreClean(src.head.number.value); }
    MoneyIsClean(src.head.totalCents);
  }

  lemma AmountFieldsAreClean(f: Formats, src: Source, idx: nat, item: Billing.LineItem)
    requires CleanFormats(f)
    ensures CleanRow(AmountFields(f, src, idx, item))
  {
    DigitsAreClean(idx);
    MoneyIsClean(item.amountCents);
  }

  lemma CodeFieldsAreClean(src: Source, item: Billing.LineItem)
    requires CleanSource(src)
    ensures CleanRow(CodeFields(src, item))
  {
    var codes := CodesOf(src, item);
    LastCodeIsClean(codes, {Task, Phase});
    LastCodeIsClean(codes, {Expense});
    LastCodeIsClean(codes, {Activity});
  }

  lemma DetailFieldsAreClean(src: Source, item: Billing.LineItem)
    requires CleanSource(src)
    ensures CleanRow(DetailFields(src, item))
  {
    var te := EntryOf(src, item);
    MoneyIsClean(if te.Some? then te.value.rateCents else item.rateCents);
    SanitisedIsClean(item.description);
  }

  lemma RowIsClean(f: Formats, src: Source, idx: nat, item: Billing.LineItem)
    requires CleanFormats(f) && CleanSource(src)
    ensures CleanRow(Row(f, src, idx, item))
  {
    InvoiceFieldsAreClean(f, src);
    AmountFieldsAreClean(f, src, idx, item);
    CodeFieldsAreClean(src, item);
    DetailFieldsAreClean(src, item);
  }

  lemma RowsAreClean(f: Formats, src: Source)
    requires CleanFormats(f) && CleanSource(src)
    ensures CleanTable(Rows(f, src, |src.items|)) && forall r :: r in Rows(f, src, |src.items|) ==> r != []
  {
    var rows := Rows(f, src, |src.items|);
    forall i | 0 <= i < |rows| ensures CleanRow(rows[i]) && rows[i] != [] {
      RowIsClean(f, src, i + 1, src.items[i]);
    }
  }

  lemma InvoiceRoundTrip(f: Formats, src: Source, mark: string, header: seq<string>)
    requires CleanFormats(f) && CleanSource(src) && '\n' !in mark && header != [] && CleanRow(header)
    ensures ParseLedes(mark, Content(mark, [header] + Rows(f, src, |src.items|)))
         == Some([header] + Rows(f, src, |src.items|))
  {
    RowsAreClean(f, src);
    TableRoundTripIff(mark, [header] + Rows(f, src, |src.items|));
  }

  /** Whatever the descriptions hold, the export reads back as the header and one 23-field row for each line item. */
  lemma ExportReadsBack(f: Formats, src: Source)
    requires CleanFormats(f) && CleanSource(src)
    ensures ParseLedes(MARK, Content(MARK, [Header()] + Rows(f, src, |src.items|)))
         == Some([Header()] + Rows(f, src, |src.items|))
  {
    HeaderIsClean();
    InvoiceRoundTrip(f, src, MARK, Header());
  }

  // What a row says, column by column

  ghost predicate HasEntry(src: Source, item: Billing.LineItem, e: Entry) {
    exists k :: item.timeEntryId == Some(k) && k in src.entries && src.entries[k] == e
  }

  ghost predicate HasUser(src: Source, item: Billing.LineItem, u: Timekeeper) {
    exists e :: HasEntry(src, item, e) && e.user == Some(u)
  }

  /** c is the k-th code of the item's time entry. */
  ghost predicate HasCode(src: Source, item: Billing.LineItem, k: int, c: UtbmsCode) {
    exists id :: item.timeEntryId == Some(id) && id in src.codes && 0 <= k < |src.codes[id]| && src.codes[id][k] == c
  }

  /** text is the last code of one of these types, and empty without one. */
  ghost predicate IsLastCode(src: Source, item: Billing.LineItem, types: set<CodeType>, text: string) {
    (forall k, c :: HasCode(src, item, k, c) && c.codeType in types && NoneAfter(src, item, types, k) ==>
       text == c.code)
    && ((forall k, c :: HasCode(src, item, k, c) ==> c.codeType !in types) ==> text == "")
  }

  ghost predicate NoneAfter(src: Source, item: Billing.LineItem, types: set<CodeType>, k: int) {
    forall j, d :: k < j && HasCode(src, item, j, d) ==> d.codeType !in types
  }

  ghost predicate SaysInvoice(f: Formats, src: Source, row: seq<string>)
    requires |row| == 23
  {
    row[0] == f.ymd(match src.head.issuedDate case Some(d) => d case None => src.today)
    && row[1] == (match src.head.number case Some(n) => if n == 0 then "" else Digits(n) case None => "")
    && row[2] == src.head.clientId && row[3] == src.head.matterId && row[4] == FormatMoney(src.head.totalCents)
    && row[5] == f.ymd(src.billingStart) && row[6] == f.ymd(src.billingEnd) && row[7] == ""
  }

  /** Hours, date and unit cost come from the time entry, and from item and invoice without one. */
  ghost predicate SaysLine(f: Formats, src: Source, idx: nat, item: Billing.LineItem, row: seq<string>)
    requires |row| == 23
  {
    row[8] == Digits(idx) && row[11] == "0.00" && row[12] == FormatMoney(item.amountCents)
    && row[9] == (if exists k, c :: HasCode(src, item, k, c) && c.codeType == Expense then "E" else "F")
    && (forall e :: HasEntry(src, item, e) ==>
          row[10] == f.hours(e.durationMinutes) && row[13] == f.ymd(e.date) && row[20] == FormatMoney(e.rateCents))
    && ((forall e :: !HasEntry(src, item, e)) ==>
          row[10] == f.units(item.quantity) && row[13] == row[0] && row[20] == FormatMoney(item.rateCents))
  }

  ghost predicate SaysCodes(src: Source, item: Billing.LineItem, row: seq<string>)
    requires |row| == 23
  {
    IsLastCode(src, item, {Task, Phase}, row[14]) && IsLastCode(src, item, {Expense}, row[15])
    && IsLastCode(src, item, {Activity}, row[16])
  }

  ghost predicate SaysKeeper(src: Source, item: Billing.LineItem, row: seq<string>)
    requires |row| == 23
  {
    (forall u :: HasUser(src, item, u) ==>
       row[17] == u.id && row[21] == u.firstName + " " + u.lastName && row[22] == u.classification)
    && ((forall u :: !HasUser(src, item, u)) ==> row[17] == row[21] == row[22] == "")
  }

  ghost predicate SaysDescription(item: Billing.LineItem, row: seq<string>)
    requires |row| == 23
  {
    row[19] == "" && |row[18]| == |item.description|
    && forall i :: 0 <= i < |row[18]| ==>
         row[18][i] == if item.description[i] in "|\n" then ' ' else item.description[i]
  }

  ghost predicate SaysItem(f: Formats, src: Source, idx: nat, item: Billing.LineItem, row: seq<string>) {
    |row| == 23 && SaysInvoice(f, src, row) && SaysLine(f, src, idx, item, row) && SaysCodes(src, item, row)
    && SaysKeeper(src, item, row) && SaysDescription(item, row)
  }

  lemma {:induction false} LastCodeIs(codes: seq<UtbmsCode>, types: set<CodeType>)
    ensures (exists k :: 0 <= k < |codes| && codes[k].codeType in types && LastCode(codes, types) == codes[k].code
                         && forall j :: k < j < |codes| ==> codes[j].codeType !in types)
            || (LastCode(codes, types) == "" && forall c :: c in codes ==> c.codeType !in types)
  {
    if codes != [] {
      var init, last := codes[..|codes| - 1], codes[|codes| - 1];
      if last.codeType !in types {
        LastCodeIs(init, types);
        assert forall c :: c in codes ==> c in init || c == last;
        if k :| 0 <= k < |init| && init[k].codeType in types && LastCode(init, types) == init[k].code
                && forall j :: k < j < |init| ==> init[j].codeType !in types
        {
          assert codes[k] == init[k];
          assert forall j :: k < j < |codes| ==> codes[j] == if j < |init| then init[j] else last;
        }
      }
    }
  }

  lemma CodesAre(src: Source, item: Billing.LineItem, k: int, c: UtbmsCode)
    ensures HasCode(src, item, k, c) <==> 0 <= k < |CodesOf(src, item)| && CodesOf(src, item)[k] == c
  {
  }

  lemma LastCodeStands(src: Source, item: Billing.LineItem, types: set<CodeType>)
    ensures IsLastCode(src, item, types, LastCode(CodesOf(src, item), types))
  {
    var codes := CodesOf(src, item);
    LastCodeIs(codes, types);
    forall k, c ensures HasCode(src, item, k, c) <==> 0 <= k < |codes| && codes[k] == c { CodesAre(src, item, k, c); }
    assert forall k :: 0 <= k < |codes| ==> HasCode(src, item, k, codes[k]);
  }

  lemma RowParts(f: Formats, src: Source, idx: nat, item: Billing.LineItem)
    ensures var row := Row(f, src, idx, item);
            && (forall k :: 0 <= k < 8 ==> row[k] == InvoiceFields(f, src)[k])
            && (forall k :: 8 <= k < 14 ==> row[k] == AmountFields(f, src, idx, item)[k - 8])
            && (forall k :: 14 <= k < 18 ==> row[k] == CodeFields(src, item)[k - 14])
            && forall k :: 18 <= k < 23 ==> row[k] == DetailFields(src, item)[k - 18]
  {
  }

  lemma LineSaid(f: Formats, src: Source, idx: nat, item: Billing.LineItem, row: seq<string>)
    requires |row| == 23 && row[0] == InvoiceFields(f, src)[0] && row[20] == DetailFields(src, item)[2]
    requires forall k :: 8 <= k < 14 ==> row[k] == AmountFields(f, src, idx, item)[k - 8]
    ensures SaysLine(f, src, idx, item, row)
  {
    var codes := CodesOf(src, item);
    forall k, c ensures HasCode(src, item, k, c) <==> 0 <= k < |codes| && codes[k] == c { CodesAre(src, item, k, c); }
    if c :| c in codes && c.codeType == Expense {
      var k :| 0 <= k < |codes| && codes[k] == c;
      assert HasCode(src, item, k, c);
    }
    if EntryOf(src, item).Some? { assert HasEntry(src, item, EntryOf(src, item).value); }
  }

  lemma KeeperSaid(src: Source, item: Billing.LineItem, row: seq<string>)
    requires |row| == 23 && row[17] == CodeFields(src, item)[3]
    requires row[21] == DetailFields(src, item)[3] && row[22] == DetailFields(src, item)[4]
    ensures SaysKeeper(src, item, row)
  {
    if UserOf(src, item).Some? {
      assert HasEntry(src, item, EntryOf(src, item).value);
      assert HasUser(src, item, UserOf(src, item).value);
    }
  }

  lemma InvoiceSaid(f: Formats, src: Source, row: seq<string>)
    requires |row| == 23 && forall k :: 0 <= k < 8 ==> row[k] == InvoiceFields(f, src)[k]
    ensures SaysInvoice(f, src, row)
  {
    var fields := InvoiceFields(f, src);
    assert row[0] == fields[0] && row[1] == fields[1] && row[5] == fields[5] && row[6] == fields[6];
    assert row[7] == fields[7];
  }

  lemma CodesSaid(src: Source, item: Billing.LineItem, row: seq<string>)
    requires |row| == 23 && forall k :: 14 <= k < 18 ==> row[k] == CodeFields(src, item)[k - 14]
    ensures SaysCodes(src, item, row)
  {
    LastCodeStands(src, item, {Task, Phase});
    LastCodeStands(src, item, {Expense});
    LastCodeStands(src, item, {Activity});
  }

  lemma DescriptionSaid(src: Source, item: Billing.LineItem, row: seq<string>)
    requires |row| == 23 && row[18] == DetailFields(src, item)[0] && row[19] == DetailFields(src, item)[1]
    ensures SaysDescription(item, row)
  {
    SanitisedIsClean(item.description);
  }

  lemma RowSays(f: Formats, src: Source, idx: nat, item: Billing.LineItem)
    ensures SaysItem(f, src, idx, item, Row(f, src, idx, item))
  {
    var row := Row(f, src, idx, item);
    RowParts(f, src, idx, item);
    InvoiceSaid(f, src, row);
    LineSaid(f, src, idx, item, row);
    CodesSaid(src, item, row);
    KeeperSaid(src, item, row);
    DescriptionSaid(src, item, row);
  }

  lemma RowInTable(f: Formats, src: Source, header: seq<string>, i: nat)
    requires i < |src.items|
    ensures ([header] + Rows(f, src, |src.items|))[i + 1] == Row(f, src, i + 1, src.items[i])
  {
  }

  /** In the file that is read back, row i + 1 says column by column what line item i, its time entry, its codes and its
      timekeeper say. */
  lemma ExportSays(f: Formats, src: Source, i: nat)
    requires CleanFormats(f) && CleanSource(src) && i < |src.items|
    ensures var parsed := ParseLedes(MARK, Content(MARK, [Header()] + Rows(f, src, |src.items|)));
            && parsed.Some? && |parsed.value| == |src.items| + 1 && parsed.value[0] == Header()
            && SaysItem(f, src, i + 1, src.items[i], parsed.value[i + 1])
  {
    ExportReadsBack(f, src);
    RowInTable(f, src, Header(), i);
    RowSays(f, src, i + 1, src.items[i]);
  }

  // Totals

  /** The sum of a money column; None when some field is not an amount. */
  function ColumnSum(rows: seq<seq<string>>, column: nat): Option<int>
    requires forall i :: 0 <= i < |rows| ==> column < |rows[i]|
  {
    SumCells(seq(|rows|, i requires 0 <= i < |rows| => ParseMoney(rows[i][column])))
  }

  function SumCells(cells: seq<Option<int>>): Option<int> {
    if cells == [] then Some(0) else
      var before, last := SumCells(cells[..|cells| - 1]), cells[|cells| - 1];
      if before.None? || last.None? then None else Some(before.value + last.value)
  }

  lemma {:induction false} SumCellsOf(cells: seq<Option<int>>, items: seq<Billing.LineItem>)
    requires |cells| == |items| && forall i :: 0 <= i < |items| ==> cells[i] == Some(items[i].amountCents as int)
    ensures SumCells(cells) == Some(Billing.SumAmounts(items))
  {
    if cells != [] { SumCellsOf(cells[..|cells| - 1], items[..|items| - 1]); }
  }

  lemma TotalsAgree(f: Formats, src: Source, rows: seq<seq<string>>, i: nat)
    requires rows == Rows(f, src, |src.items|) && i < |src.items|
    ensures |rows| == |src.items| && forall j :: 0 <= j < |rows| ==> |rows[j]| == 23
    ensures ColumnSum(rows, LINE_TOTAL) == Some(Billing.SumAmounts(src.items))
    ensures ParseMoney(rows[i][INVOICE_TOTAL]) == Some(src.head.totalCents)
  {
    forall j | 0 <= j < |rows|
      ensures |rows[j]| == 23 && ParseMoney(rows[j][LINE_TOTAL]) == Some(src.items[j].amountCents as int)
    {
      RowPrints(f, src, j);
    }
    RowPrints(f, src, i);
    SumCellsOf(seq(|rows|, j requires 0 <= j < |rows| => ParseMoney(rows[j][LINE_TOTAL])), src.items);
  }

  lemma RowPrints(f: Formats, src: Source, i: nat)
    requires i < |src.items|
    ensures var row := Rows(f, src, |src.items|)[i];
            |row| == 23 && ParseMoney(row[LINE_TOTAL]) == Some(src.items[i].amountCents as int)
            && ParseMoney(row[INVOICE_TOTAL]) == Some(src.head.totalCents)
  {
    MoneyRoundTrip(src.items[i].amountCents);
    MoneyRoundTrip(src.head.totalCents);
  }

  /** The export is of this invoice: its line items, in the order of their keys, and its total. */
  ghost predicate ExportsInvoice(src: Source, invoice: Billing.InvoiceRow) {
    multiset(src.items) == multiset(invoice.items) && src.head.totalCents == invoice.totalCents
  }

  /** The line totals of the rows plus the tax give the invoice total that row i prints. */
  ghost predicate Adds(rows: seq<seq<string>>, taxCents: int, i: nat) {
    i < |rows| && (forall j :: 0 <= j < |rows| ==> |rows[j]| == 23)
    && var lines, total := ColumnSum(rows, LINE_TOTAL), ParseMoney(rows[i][INVOICE_TOTAL]);
       lines.Some? && total.Some? && lines.value + taxCents == total.value
  }

  lemma InvoiceSum(src: Source, invoice: Billing.InvoiceRow)
    requires Billing.Balanced(invoice) && ExportsInvoice(src, invoice)
    ensures |src.items| == |invoice.items|
    ensures src.head.totalCents == Billing.SumAmounts(src.items) + invoice.taxCents
  {
    Billing.SumOfPermutation(src.items, invoice.items);
  }

  lemma InvoiceRowsAdd(f: Formats, src: Source, rows: seq<seq<string>>, taxCents: int, i: nat)
    requires rows == Rows(f, src, |src.items|) && i < |src.items|
    requires src.head.totalCents == Billing.SumAmounts(src.items) + taxCents
    ensures Adds(rows, taxCents, i)
  {
    TotalsAgree(f, src, rows, i);
  }

  /** The text reads back as a header and this many rows that add up. */
  ghost predicate FileAdds(mark: string, content: string, count: nat, taxCents: int, i: nat) {
    var parsed := ParseLedes(mark, content);
    parsed.Some? && |parsed.value| == count + 1 && Adds(parsed.value[1..], taxCents, i)
  }

  lemma TableFileAdds(mark: string, content: string, header: seq<string>, rows: seq<seq<string>>, taxCents: int, i: nat)
    requires ParseLedes(mark, content) == Some([header] + rows) && Adds(rows, taxCents, i)
    ensures FileAdds(mark, content, |rows|, taxCents, i)
  {
    assert ([header] + rows)[1..] == rows;
  }

  lemma InvoiceFileAdds(f: Formats, src: Source, mark: string, header: seq<string>, invoice: Billing.InvoiceRow, i: nat)
    requires CleanFormats(f) && CleanSource(src) && '\n' !in mark && header != [] && CleanRow(header) && i < |src.items|
    requires Billing.Balanced(invoice) && ExportsInvoice(src, invoice)
    ensures FileAdds(mark, Content(mark, [header] + Rows(f, src, |src.items|)), |invoice.items|, invoice.taxCents, i)
  {
    var rows := Rows(f, src, |src.items|);
    InvoiceSum(src, invoice);
    InvoiceRoundTrip(f, src, mark, header);
    InvoiceRowsAdd(f, src, rows, invoice.taxCents, i);
    TableFileAdds(mark, Content(mark, [header] + rows), header, rows, invoice.taxCents, i);
  }

  /** A reader of the file of any stored invoice finds line totals that add up, with the tax, to the invoice total. */
  lemma ExportAdds(f: Formats, src: Source, invoice: Billing.InvoiceRow, i: nat)
    requires CleanFormats(f) && CleanSource(src) && i < |src.items|
    requires Billing.Balanced(invoice) && ExportsInvoice(src, invoice)
    ensures FileAdds(MARK, Content(MARK, [Header()] + Rows(f, src, |src.items|)), |invoice.items|, invoice.taxCents, i)
  {
    HeaderIsClean();
    InvoiceFileAdds(f, src, MARK, Header(), invoice, i);
  }

  /** For an invoice just made by create_invoice there is no tax to add. */
  lemma CreatedInvoiceAdds(f: Formats, src: Source, before: Billing.Ledger, after: Billing.Ledger, id: Uuid,
                           requested: seq<Uuid>, order: seq<Uuid>, i: nat)
    requires CleanFormats(f) && CleanSource(src) && i < |src.items|
    requires Billing.Created(before, after, id, requested, order) && ExportsInvoice(src, after.invoices[id])
    ensures FileAdds(MARK, Content(MARK, [Header()] + Rows(f, src, |src.items|)), |order|, 0, i)
  {
    ExportAdds(f, src, after.invoices[id], i);
  }
}
