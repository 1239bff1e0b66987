/** Filing e-mails and the address-to-matter suggestion table. */
module Emails {
  import opened Database

  /** str.strip and str.lower. */
  datatype TextOps = TextOps(strip: string -> string, lower: string -> string)

  function Normal(ops: TextOps, address: string): string { ops.lower(ops.strip(address)) }

  /** An e-mail_matter_suggestions row; every row is created with confidence 1. */
  datatype Suggestion = Suggestion(address: string, matterId: Uuid, useCount: nat)

  datatype FileRequest = FileRequest(matterId: Uuid, sender: Option<string>, to: seq<string>, cc: seq<string>,
                                     bcc: seq<string>)

  function AllAddresses(r: FileRequest): seq<string> {
    (if r.sender.Some? && r.sender.value != "" then [r.sender.value] else []) + r.to + r.cc + r.bcc
  }

  // The table

  predicate IsRow(s: Suggestion, address: string, matterId: Uuid) { s.address == address && s.matterId == matterId }

  /** One more use of an address for a matter: the matching row is incremented, or a row is added. */
  function Use(rows: seq<Suggestion>, address: string, matterId: Uuid): seq<Suggestion> {
    if rows == [] then [Suggestion(address, matterId, 1)]
    else if IsRow(rows[0], address, matterId) then [rows[0].(useCount := rows[0].useCount + 1)] + rows[1..]
    else [rows[0]] + Use(rows[1..], address, matterId)
  }

  function UseAll(ops: TextOps, rows: seq<Suggestion>, addresses: seq<string>, matterId: Uuid): seq<Suggestion> {
    if addresses == [] then rows else
      var before := UseAll(ops, rows, addresses[..|addresses| - 1], matterId);
      var a := Normal(ops, addresses[|addresses| - 1]);
      if a == "" then before else Use(before, a, matterId)
  }

  function Run(ops: TextOps, requests: seq<FileRequest>): seq<Suggestion> {
    if requests == [] then [] else
      var last := requests[|requests| - 1];
      UseAll(ops, Run(ops, requests[..|requests| - 1]), AllAddresses(last), last.matterId)
  }

  // The filing history

  /** Non-blank occurrences, in a list of addresses, of addresses with a normal form in q. */
  function Occurrences(ops: TextOps, addresses: seq<string>, q: set<string>): nat {
    if addresses == [] then 0 else
      var a := Normal(ops, addresses[|addresses| - 1]);
      Occurrences(ops, addresses[..|addresses| - 1], q) + if a != "" && a in q then 1 else 0
  }

  /** The same over all e-mails filed to a matter. */
  function Filed(ops: TextOps, requests: seq<FileRequest>, q: set<string>, matterId: Uuid): nat {
    if requests == [] then 0 else
      var last := requests[|requests| - 1];
      Filed(ops, requests[..|requests| - 1], q, matterId)
      + if last.matterId == matterId then Occurrences(ops, AllAddresses(last), q) else 0
  }

  lemma OccurrencesOfOne(ops: TextOps, address: string, q: set<string>)
    ensures Occurrences(ops, [address], q) ==
            if ops.lower(ops.strip(address)) != "" && ops.lower(ops.strip(address)) in q then 1 else 0
  {
    assert [address][..0] == [];
  }

  lemma {:induction false} OccurrencesTogether(ops: TextOps, a: seq<string>, b: seq<string>, q: set<string>)
    ensures Occurrences(ops, a + b, q) == Occurrences(ops, a, q) + Occurrences(ops, b, q)
  {
    if b == [] {
      assert a + b == a;
    } else {
      OccurrencesTogether(ops, a, b[..|b| - 1], q);
      assert (a + b)[..|a + b| - 1] == a + b[..|b| - 1];
    }
  }

  /** An e-mail counts its sender, if it has one, and everyone in to, cc and bcc. */
  lemma EveryFieldCounts(ops: TextOps, r: FileRequest, q: set<string>)
    ensures Occurrences(ops, AllAddresses(r), q)
         == (if r.sender in {None, Some("")} then 0 else Occurrences(ops, [r.sender.value], q))
            + Occurrences(ops, r.to, q) + Occurrences(ops, r.cc, q) + Occurrences(ops, r.bcc, q)
  {
    var sender := if r.sender in {None, Some("")} then [] else [r.sender.value];
    OccurrencesTogether(ops, sender, r.to, q);
    OccurrencesTogether(ops, sender + r.to, r.cc, q);
    OccurrencesTogether(ops, sender + r.to + r.cc, r.bcc, q);
    assert AllAddresses(r) == sender + r.to + r.cc + r.bcc;
  }

  /** SUM(use_count) over the rows of a matter whose address is in q. */
  function Total(rows: seq<Suggestion>, q: set<string>, matterId: Uuid): nat {
    if rows == [] then 0 else
      (if rows[0].address in q && rows[0].matterId == matterId then rows[0].useCount else 0)
          + Total(rows[1..], q, matterId)
  }

  ghost predicate OneRowEach(rows: seq<Suggestion>) {
    forall i, j :: 0 <= i < j < |rows| ==> !IsRow(rows[j], rows[i].address, rows[i].matterId)
  }

  ghost predicate Used(rows: seq<Suggestion>) {
    forall i :: 0 <= i < |rows| ==> rows[i].useCount > 0 && rows[i].address != ""
  }

  /** The first row of the address and matter is incremented; without one a row is added at the end. */
  lemma {:induction false} UseFirst(rows: seq<Suggestion>, i: nat, address: string, matterId: Uuid)
    requires i <= |rows| && forall j :: 0 <= j < i ==> !IsRow(rows[j], address, matterId)
    requires i < |rows| ==> IsRow(rows[i], address, matterId)
    ensures Use(rows, address, matterId) ==
            if i < |rows| then rows[..i] + [rows[i].(useCount := rows[i].useCount + 1)] + rows[i + 1..]
            else rows + [Suggestion(address, matterId, 1)]
  {
    if i > 0 {
      UseFirst(rows[1..], i - 1, address, matterId);
      assert rows == [rows[0]] + rows[1..];
    }
  }

  /** Using an address for a matter brings no row of another address or matter. */
  lemma {:induction false} UseMembers(rows: seq<Suggestion>, address: string, matterId: Uuid, s: Suggestion)
    requires s in Use(rows, address, matterId) && !IsRow(s, address, matterId)
    ensures s in rows
  {
    if rows != [] && !IsRow(rows[0], address, matterId) && s != rows[0] {
      assert s in Use(rows[1..], address, matterId);
      UseMembers(rows[1..], address, matterId, s);
    }
  }

  lemma {:induction false} UseKeepsUsed(rows: seq<Suggestion>, address: string, matterId: Uuid)
    requires Used(rows) && address != ""
    ensures Used(Use(rows, address, matterId))
  {
    if rows != [] && !IsRow(rows[0], address, matterId) {
      UseKeepsUsed(rows[1..], address, matterId);
    }
  }

  lemma {:induction false} UseKeepsOneRow(rows: seq<Suggestion>, address: string, matterId: Uuid)
    requires OneRowEach(rows)
    ensures OneRowEach(Use(rows, address, matterId))
  {
    if rows != [] && !IsRow(rows[0], address, matterId) {
      UseKeepsOneRow(rows[1..], address, matterId);
      var first, rest := rows[0], Use(rows[1..], address, matterId);
      forall j | 0 <= j < |rest| ensures !IsRow(rest[j], first.address, first.matterId) {
        if !IsRow(rest[j], address, matterId) {
          UseMembers(rows[1..], address, matterId, rest[j]);
          var k :| 0 <= k < |rows[1..]| && rows[1..][k] == rest[j];
          assert rows[k + 1] == rest[j];
        }
      }
    }
  }

  lemma {:induction false} UseTotal(rows: seq<Suggestion>, address: string, matterId: Uuid, q: set<string>, m: Uuid)
    ensures Total(Use(rows, address, matterId), q, m)
         == Total(rows, q, m) + if address in q && matterId == m then 1 else 0
  {
    if rows != [] {
      var after := Use(rows, address, matterId);
      if IsRow(rows[0], address, matterId) {
        assert after[1..] == rows[1..];
      } else {
        UseTotal(rows[1..], address, matterId, q, m);
        assert after[1..] == Use(rows[1..], address, matterId);
      }
    }
  }

  lemma {:induction false} UseAllRows(ops: TextOps, rows: seq<Suggestion>, addresses: seq<string>, matterId: Uuid)
    requires OneRowEach(rows) && Used(rows)
    ensures OneRowEach(UseAll(ops, rows, addresses, matterId)) && Used(UseAll(ops, rows, addresses, matterId))
  {
    if addresses != [] {
      var init := addresses[..|addresses| - 1];
      UseAllRows(ops, rows, init, matterId);
      var a := Normal(ops, addresses[|addresses| - 1]);
      if a != "" {
        UseKeepsUsed(UseAll(ops, rows, init, matterId), a, matterId);
        UseKeepsOneRow(UseAll(ops, rows, init, matterId), a, matterId);
      }
    }
  }

  lemma {:induction false} UseAllTotal(ops: TextOps, rows: seq<Suggestion>, addresses: seq<string>, matterId: Uuid,
                                       q: set<string>, m: Uuid)
    ensures Total(UseAll(ops, rows, addresses, matterId), q, m)
         == Total(rows, q, m) + if matterId == m then Occurrences(ops, addresses, q) else 0
  {
    if addresses != [] {
      var init := addresses[..|addresses| - 1];
      UseAllTotal(ops, rows, init, matterId, q, m);
      UseTotal(UseAll(ops, rows, init, matterId), Normal(ops, addresses[|addresses| - 1]), matterId, q, m);
    }
  }

  /** Over every filing history the table has one row for each address and matter, each used at least once. */
  lemma {:induction false} RunRows(ops: TextOps, requests: seq<FileRequest>)
    ensures OneRowEach(Run(ops, requests)) && Used(Run(ops, requests))
  {
    if requests != [] {
      var last := requests[|requests| - 1];
      RunRows(ops, requests[..|requests| - 1]);
      UseAllRows(ops, Run(ops, requests[..|requests| - 1]), AllAddresses(last), last.matterId);
    }
  }

  /** The counts of any set of addresses are its occurrences in the e-mails filed to the matter. */
  lemma {:induction false} RunTotals(ops: TextOps, requests: seq<FileRequest>, q: set<string>, m: Uuid)
    ensures Total(Run(ops, requests), q, m) == Filed(ops, requests, q, m)
  {
    if requests != [] {
      var last := requests[|requests| - 1];
      RunTotals(ops, requests[..|requests| - 1], q, m);
      UseAllTotal(ops, Run(ops, requests[..|requests| - 1]), AllAddresses(last), last.matterId, q, m);
    }
  }

  lemma {:induction false} TotalOfOne(rows: seq<Suggestion>, i: nat)
    requires OneRowEach(rows) && i < |rows|
    ensures Total(rows, {rows[i].address}, rows[i].matterId) == rows[i].useCount
  {
    if i > 0 {
      assert !IsRow(rows[i], rows[0].address, rows[0].matterId);
      TotalOfOne(rows[1..], i - 1);
    } else {
      assert forall j :: 0 < j < |rows| ==> !IsRow(rows[j], rows[0].address, rows[0].matterId);
      TotalOfNone(rows[1..], rows[0].address, rows[0].matterId);
    }
  }

  lemma {:induction false} TotalOfNone(rows: seq<Suggestion>, address: string, matterId: Uuid)
    requires forall j :: 0 <= j < |rows| ==> !IsRow(rows[j], address, matterId)
    ensures Total(rows, {address}, matterId) == 0
  {
    if rows != [] { TotalOfNone(rows[1..], address, matterId); }
  }

  /** Row by row: the use count is the number of times the address occurs in e-mails filed to the matter. */
  lemma TableIsIndex(ops: TextOps, requests: seq<FileRequest>, i: nat)
    requires i < |Run(ops, requests)|
    ensures var s := Run(ops, requests)[i]; s.useCount == Filed(ops, requests, {s.address}, s.matterId)
  {
    RunRows(ops, requests);
    TotalOfOne(Run(ops, requests), i);
    RunTotals(ops, requests, {Run(ops, requests)[i].address}, Run(ops, requests)[i].matterId);
  }

  /** And nothing is missing: an address that occurs has its row. */
  lemma OccurringHasRow(ops: TextOps, requests: seq<FileRequest>, address: string, m: Uuid)
    ensures Filed(ops, requests, {address}, m) > 0 <==>
              exists i :: 0 <= i < |Run(ops, requests)| && IsRow(Run(ops, requests)[i], address, m)
  {
    var rows := Run(ops, requests);
    RunRows(ops, requests);
    RunTotals(ops, requests, {address}, m);
    if i :| 0 <= i < |rows| && IsRow(rows[i], address, m) {
      TotalOfOne(rows, i);
    } else {
      TotalOfNone(rows, address, m);
    }
  }

  // Suggestions

  /** The normal forms of the addresses that are not blank. */
  function Query(ops: TextOps, addresses: seq<string>): set<string> {
    set a | a in addresses && ops.strip(a) != "" :: Normal(ops, a)
  }

  lemma QueryHas(ops: TextOps, addresses: seq<string>, x: string)
    ensures x in Query(ops, addresses) <==>
              exists a :: a in addresses && ops.strip(a) != "" && x == ops.lower(ops.strip(a))
  {
  }

  function MattersOf(rows: seq<Suggestion>, q: set<string>): set<Uuid> {
    set s | s in rows && s.address in q :: s.matterId
  }

  /** GROUP BY matter: the total of each matter with a matching row. */
  function Totals(rows: seq<Suggestion>, q: set<string>): map<Uuid, nat> {
    map m | m in MattersOf(rows, q) :: Total(rows, q, m)
  }

  predicate Listed(found: seq<(Uuid, nat)>, m: Uuid) {
    exists i :: 0 <= i < |found| && found[i].0 == m
  }

  lemma LargestExists(totals: map<Uuid, nat>, left: set<Uuid>)
    requires left != {} && left <= totals.Keys
    ensures exists m :: m in left && forall n :: n in left ==> totals[n] <= totals[m]
    decreases left
  {
    var x :| x in left;
    if left != {x} {
      LargestExists(totals, left - {x});
      var m :| m in left - {x} && forall n :: n in left - {x} ==> totals[n] <= totals[m];
      var best := if totals[m] < totals[x] then x else m;
      forall n | n in left ensures totals[n] <= totals[best] {
        assert n == x || n in left - {x};
      }
    }
  }

  class SuggestionService {
    var rows: seq<Suggestion>

    constructor ()
      ensures rows == []
    {
      rows := [];
    }

    /** The SELECT for one address and matter, then the increment or the insert. */
    method UpdateOne(address: string, matterId: Uuid)
      modifies this
      ensures rows == Use(old(rows), address, matterId)
    {
      var i := 0;
      while i < |rows| && !IsRow(rows[i], address, matterId)
        invariant i <= |rows| && rows == old(rows)
        invariant forall j :: 0 <= j < i ==> !IsRow(rows[j], address, matterId)
      {
        i := i + 1;
      }
      UseFirst(rows, i, address, matterId);
      if i < |rows| {
        rows := rows[..i] + [rows[i].(useCount := rows[i].useCount + 1)] + rows[i + 1..];
      } else {
        rows := rows + [Suggestion(address, matterId, 1)];
      }
    }

    method UpdateMatterSuggestions(ops: TextOps, addresses: seq<string>, matterId: Uuid)
      modifies this
      ensures rows == UseAll(ops, old(rows), addresses, matterId)
    {
      for i := 0 to |addresses|
        invariant rows == UseAll(ops, old(rows), addresses[..i], matterId)
      {
        assert addresses[..i + 1][..i] == addresses[..i];
        var a := ops.lower(ops.strip(addresses[i]));
        if a == "" { continue; }
        UpdateOne(a, matterId);
      }
      assert addresses[..|addresses|] == addresses;
    }

    method FileEmail(ops: TextOps, r: FileRequest)
      modifies this
      ensures rows == UseAll(ops, old(rows), AllAddresses(r), r.matterId)
    {
      var all: seq<string> := [];
      if r.sender.Some? && r.sender.value != "" { all := all + [r.sender.value]; }
      all := all + r.to;
      all := all + r.cc;
      all := all + r.bcc;
      assert all == AllAddresses(r);
      if all != [] { UpdateMatterSuggestions(ops, all, r.matterId); }
    }

    /** The grouped query: up to `limit` matters, largest totals first; among equal totals any order. */
    method SuggestMatters(ops: TextOps, addresses: seq<string>, limit: nat) returns (found: seq<(Uuid, nat)>)
      ensures AreLargest(Totals(rows, Query(ops, addresses)), limit, found)
    {
      found := OrderedByTotal(Totals(rows, Query(ops, addresses)), limit);
    }
  }

  /** found lists `limit` keys, or all, by non-increasing total, and none that is left out has a larger one. */
  ghost predicate AreLargest(totals: map<Uuid, nat>, limit: nat, found: seq<(Uuid, nat)>) {
    |found| == (if limit < |totals| then limit else |totals|)
    && (forall i :: 0 <= i < |found| ==> found[i].0 in totals && found[i].1 == totals[found[i].0])
    && (forall i, j :: 0 <= i < j < |found| ==> found[i].0 != found[j].0 && found[j].1 <= found[i].1)
    && forall m, i :: m in totals && !Listed(found, m) && 0 <= i < |found| ==> totals[m] <= found[i].1
  }

  /** found lists the keys outside left by non-increasing total, and no key of left has a larger one. */
  ghost predicate Taken(totals: map<Uuid, nat>, left: set<Uuid>, found: seq<(Uuid, nat)>) {
    left <= totals.Keys && |found| + |left| == |totals|
    && (forall i :: 0 <= i < |found| ==>
        found[i].0 in totals && found[i].0 !in left && found[i].1 == totals[found[i].0])
    && (forall i, j :: 0 <= i < j < |found| ==> found[i].0 != found[j].0 && found[j].1 <= found[i].1)
    && (forall m, i :: m in left && 0 <= i < |found| ==> totals[m] <= found[i].1)
    && forall m :: m in totals && m !in left ==> Listed(found, m)
  }

  lemma TakeLargest(totals: map<Uuid, nat>, left: set<Uuid>, found: seq<(Uuid, nat)>, m: Uuid)
    requires Taken(totals, left, found) && m in left && forall n :: n in left ==> totals[n] <= totals[m]
    ensures Taken(totals, left - {m}, found + [(m, totals[m])])
  {
    var after := found + [(m, totals[m])];
    assert after[|found|].0 == m;
    forall n | n in totals && n !in left - {m} ensures Listed(after, n) {
      if n != m {
        assert Listed(found, n);
        var j :| 0 <= j < |found| && found[j].0 == n;
        assert after[j].0 == n;
      }
    }
  }

  /** ORDER BY total DESC LIMIT limit */
  method OrderedByTotal(totals: map<Uuid, nat>, limit: nat) returns (found: seq<(Uuid, nat)>)
    ensures AreLargest(totals, limit, found)
  {
    var left := totals.Keys;
    found := [];
    while left != {} && |found| < limit
      invariant |found| <= limit && Taken(totals, left, found)
      decreases left
    {
      LargestExists(totals, left);
      var m :| m in left && forall n :: n in left ==> totals[n] <= totals[m];
      TakeLargest(totals, left, found, m);
      left := left - {m};
      found := found + [(m, totals[m])];
    }
  }

  /** After any filing history the totals suggest_matters sorts by are occurrences of the queried addresses. */
  lemma SuggestionsCountOccurrences(ops: TextOps, requests: seq<FileRequest>, addresses: seq<string>, m: Uuid)
    ensures var q := Query(ops, addresses);
            && (m in Totals(Run(ops, requests), q) <==> Filed(ops, requests, q, m) > 0)
            && (m in Totals(Run(ops, requests), q) ==> Totals(Run(ops, requests), q)[m] == Filed(ops, requests, q, m))
  {
    var q := Query(ops, addresses);
    RunTotals(ops, requests, q, m);
    RunRows(ops, requests);
    PositiveIffRow(Run(ops, requests), q, m);
  }

  lemma {:induction false} PositiveIffRow(rows: seq<Suggestion>, q: set<string>, m: Uuid)
    requires Used(rows)
    ensures Total(rows, q, m) > 0 <==> m in MattersOf(rows, q)
  {
    if rows != [] {
      PositiveIffRow(rows[1..], q, m);
      assert forall s :: s in rows <==> s == rows[0] || s in rows[1..];
    }
  }
}
