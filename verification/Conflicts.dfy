/** The conflict-of-interest search: clients, contacts, then the contacts linked to matters. */
module Conflicts {
  import opened Database

  /** str.strip, strip followed by lower, and whether two names sound alike by soundex or metaphone. */
  datatype TextOps = TextOps(strip: string -> string, normalize: string -> string,
                             soundsAlike: (string, string) -> bool)

  datatype MatchType = Exact | Fuzzy | Phonetic | Email

  datatype EntityKind = ClientRow | ContactRow | MatterParty

  /** The columns a search looks at; clients and contacts both have them. */
  datatype Person = Person(id: Uuid, firstName: string, lastName: string, organization: string, email: string,
                           role: string)

  /** Scores are tenths. */
  datatype Match = Match(kind: EntityKind, id: Uuid, name: string, matchType: MatchType, score: nat, context: string)

  /** A matter_contacts row with the contact and the description of the matter it loads. */
  datatype MatterLink = MatterLink(contact: Option<Person>, context: string)

  datatype Search = Search(name: string, organization: string)

  datatype Status = Clear | Potential | Confirmed

  // Scores

  /** part in whole */
  predicate Contains(whole: string, part: string) {
    exists i :: 0 <= i <= |whole| - |part| && OccursAt(whole, part, i)
  }

  predicate OccursAt(whole: string, part: string, i: nat)
    requires i + |part| <= |whole|
  {
    whole[i..i + |part|] == part
  }

  function NameScore(ops: TextOps, search: string, candidate: string): (nat, MatchType) {
    var s, c := ops.normalize(search), ops.normalize(candidate);
    if s == "" || c == "" then (0, Fuzzy)
    else if s == c then (10, Exact)
    else if Contains(c, s) || Contains(s, c) then (7, Fuzzy)
    else if ops.soundsAlike(s, c) then (6, Phonetic)
    else (0, Fuzzy)
  }

  function EmailScore(ops: TextOps, search: string, candidate: string): nat {
    if search == "" || candidate == "" then 0
    else if ops.normalize(search) == ops.normalize(candidate) then 9
    else 0
  }

  /** What the search keeps of a person: the best score so far, its type and the name it came from. */
  datatype Best = Best(score: nat, matchType: MatchType, name: string)

  function Better(b: Best, score: nat, matchType: MatchType, name: string): Best {
    if score > b.score then Best(score, matchType, name) else b
  }

  function FullName(ops: TextOps, p: Person): string { ops.strip(p.firstName + " " + p.lastName) }

  function BestOf(ops: TextOps, q: Search, p: Person): Best {
    var full := FullName(ops, p);
    var b0 := Best(0, Fuzzy, "");
    var b1 := if full != "" then Better(b0, NameScore(ops, q.name, full).0, NameScore(ops, q.name, full).1, full)
        else b0;
    var n := NameScore(ops, q.name, p.organization);
    var b2 := if p.organization != "" then Better(b1, n.0, n.1, p.organization) else b1;
    var o := NameScore(ops, q.organization, p.organization);
    var searchOrg := q.organization != "" && ops.normalize(q.organization) != "";
    var b3 := if searchOrg && p.organization != "" then Better(b2, o.0, o.1, p.organization) else b2;
    if p.email != "" then Better(b3, EmailScore(ops, q.name, p.email), Email, p.email) else b3
  }

  /** What a search compares of a person, in order: full name, organization twice, e-mail; absent ones are left out. */
  function Compared(ops: TextOps, q: Search, p: Person): seq<Best> {
    OnFullName(ops, q, p) + OnOrganization(ops, q, p) + OnSearchedOrganization(ops, q, p) + OnEmail(ops, q, p)
  }

  function OnFullName(ops: TextOps, q: Search, p: Person): seq<Best> {
    if FullName(ops, p) != "" then [OfName(ops, q.name, FullName(ops, p))] else []
  }

  function OnOrganization(ops: TextOps, q: Search, p: Person): seq<Best> {
    if p.organization != "" then [OfName(ops, q.name, p.organization)] else []
  }

  function OnSearchedOrganization(ops: TextOps, q: Search, p: Person): seq<Best> {
    if q.organization != "" && ops.normalize(q.organization) != "" && p.organization != ""
    then [OfName(ops, q.organization, p.organization)] else []
  }

  function OnEmail(ops: TextOps, q: Search, p: Person): seq<Best> {
    if p.email != "" then [Best(EmailScore(ops, q.name, p.email), Email, p.email)] else []
  }

  function OfName(ops: TextOps, search: string, candidate: string): Best {
    Best(NameScore(ops, search, candidate).0, NameScore(ops, search, candidate).1, candidate)
  }

  /** b is the first of the largest scores in s, or nothing when no score is positive. */
  ghost predicate FirstLargest(s: seq<Best>, b: Best) {
    (forall i :: 0 <= i < |s| ==> s[i].score <= b.score)
    && (b == Best(0, Fuzzy, "") || exists i :: 0 <= i < |s| && IsFirst(s, i, b))
  }

  ghost predicate IsFirst(s: seq<Best>, i: nat, b: Best)
    requires i < |s|
  {
    s[i] == b && b.score > 0 && forall j :: 0 <= j < i ==> s[j].score < b.score
  }

  /** The best after at most one more comparison. */
  function After(b: Best, more: seq<Best>): Best {
    if more == [] then b else Better(b, more[0].score, more[0].matchType, more[0].name)
  }

  lemma FirstLargestNext(s: seq<Best>, b: Best, more: seq<Best>)
    requires FirstLargest(s, b) && |more| <= 1
    ensures FirstLargest(s + more, After(b, more))
  {
    var t := s + more;
    if more == [] {
      assert t == s;
    } else if more[0].score > b.score {
      assert IsFirst(t, |s|, more[0]);
    } else if i :| 0 <= i < |s| && IsFirst(s, i, b) {
      assert IsFirst(t, i, b);
    }
  }

  /** The four comparisons keep the first of the largest scores of all that is compared. */
  lemma BestIsFirstLargest(ops: TextOps, q: Search, p: Person)
    ensures FirstLargest(Compared(ops, q, p), BestOf(ops, q, p))
  {
    FourComparisons(OnFullName(ops, q, p), OnOrganization(ops, q, p), OnSearchedOrganization(ops, q, p),
                    OnEmail(ops, q, p));
  }

  lemma FourComparisons(c1: seq<Best>, c2: seq<Best>, c3: seq<Best>, c4: seq<Best>)
    requires |c1| <= 1 && |c2| <= 1 && |c3| <= 1 && |c4| <= 1
    ensures FirstLargest(c1 + c2 + c3 + c4, After(After(After(After(Best(0, Fuzzy, ""), c1), c2), c3), c4))
  {
    var b := Best(0, Fuzzy, "");
    assert [] + c1 == c1;
    FirstLargestNext([], b, c1);
    FirstLargestNext(c1, After(b, c1), c2);
    FirstLargestNext(c1 + c2, After(After(b, c1), c2), c3);
    FirstLargestNext(c1 + c2 + c3, After(After(After(b, c1), c2), c3), c4);
  }

  // Which names and addresses reach a score

  /** Both texts say something, and the same. */
  predicate SameName(ops: TextOps, a: string, b: string) {
    ops.normalize(a) != "" && ops.normalize(a) == ops.normalize(b)
  }

  /** part stands somewhere in whole, between some texts. */
  ghost predicate Within(part: string, whole: string) {
    exists before, behind :: whole == before + part + behind
  }

  /** Both names say something, and one stands in the other. */
  ghost predicate Nested(ops: TextOps, a: string, b: string) {
    ops.normalize(a) != "" && ops.normalize(b) != ""
    && (Within(ops.normalize(a), ops.normalize(b)) || Within(ops.normalize(b), ops.normalize(a)))
  }

  /** Both names say something, and they are equal, nested or alike in sound. */
  ghost predicate Alike(ops: TextOps, a: string, b: string) {
    SameName(ops, a, b) || Nested(ops, a, b)
    || (ops.normalize(a) != "" && ops.normalize(b) != "" && ops.soundsAlike(ops.normalize(a), ops.normalize(b)))
  }

  predicate SameMail(ops: TextOps, a: string, b: string) {
    a != "" && b != "" && ops.normalize(a) == ops.normalize(b)
  }

  lemma ContainsIff(whole: string, part: string)
    ensures Contains(whole, part) <==> Within(part, whole)
  {
    if Contains(whole, part) {
      var i :| 0 <= i <= |whole| - |part| && OccursAt(whole, part, i);
      assert whole == whole[..i] + part + whole[i + |part|..];
    }
    if Within(part, whole) {
      var before, behind :| whole == before + part + behind;
      assert OccursAt(whole, part, |before|);
    }
  }

  /** 1.0 for the same name, 0.7 for a nested one, 0.6 for one that sounds alike, in this order, else 0. */
  lemma NameScoreIs(ops: TextOps, a: string, b: string)
    ensures NameScore(ops, a, b) == if SameName(ops, a, b) then (10, Exact)
                                    else if Nested(ops, a, b) then (7, Fuzzy)
                                    else if Alike(ops, a, b) then (6, Phonetic)
                                    else (0, Fuzzy)
  {
    ContainsIff(ops.normalize(a), ops.normalize(b));
    ContainsIff(ops.normalize(b), ops.normalize(a));
  }

  /** The person is a hit: by full name or organization for the searched name, by organization for the searched one, or
      by e-mail address. */
  ghost predicate Resembles(ops: TextOps, q: Search, p: Person) {
    Alike(ops, q.name, FullName(ops, p)) || Alike(ops, q.name, p.organization)
    || Alike(ops, q.organization, p.organization) || SameMail(ops, q.name, p.email)
  }

  ghost predicate Coincides(ops: TextOps, q: Search, p: Person) {
    SameName(ops, q.name, FullName(ops, p)) || SameName(ops, q.name, p.organization)
    || SameName(ops, q.organization, p.organization) || SameMail(ops, q.name, p.email)
  }

  /** The best score exceeds 0.4 exactly for a resemblance, and reaches 0.9 exactly for a coincidence. */
  lemma ScoreMeans(ops: TextOps, q: Search, p: Person)
    requires ops.normalize("") == ""
    ensures BestOf(ops, q, p).score > 4 <==> Resembles(ops, q, p)
    ensures BestOf(ops, q, p).score >= 9 <==> Coincides(ops, q, p)
  {
    NameScoreIs(ops, q.name, FullName(ops, p));
    NameScoreIs(ops, q.name, p.organization);
    NameScoreIs(ops, q.organization, p.organization);
  }

  // The three passes

  function Found(ops: TextOps, q: Search, kind: EntityKind, p: Person, context: string): seq<Match> {
    var b := BestOf(ops, q, p);
    if b.score > 4 then [Match(kind, p.id, b.name, b.matchType, b.score, context)] else []
  }

  function Pass(ops: TextOps, q: Search, kind: EntityKind, people: seq<Person>): seq<Match> {
    if people == [] then [] else
      var p := people[|people| - 1];
      Pass(ops, q, kind, people[..|people| - 1]) + Found(ops, q, kind, p, p.role)
  }

  predicate MatchedContact(matches: seq<Match>, id: Uuid) {
    exists m :: m in matches && m.id == id && m.kind != ClientRow
  }

  /** Every contact match of this id gets the context. */
  function SetContext(matches: seq<Match>, id: Uuid, context: string): seq<Match> {
    if matches == [] then [] else
      var m := matches[|matches| - 1];
      SetContext(matches[..|matches| - 1], id, context)
      + [if m.id == id && m.kind == ContactRow then m.(context := context) else m]
  }

  function LinkStep(ops: TextOps, q: Search, matches: seq<Match>, l: MatterLink): seq<Match> {
    if l.contact.None? then matches
    else if MatchedContact(matches, l.contact.value.id) then SetContext(matches, l.contact.value.id, l.context)
    else
      var full := FullName(ops, l.contact.value);
      var s := NameScore(ops, q.name, full);
      if s.0 > 4 then matches + [Match(MatterParty, l.contact.value.id, full, s.1, s.0, l.context)] else matches
  }

  function LinkPass(ops: TextOps, q: Search, matches: seq<Match>, links: seq<MatterLink>): seq<Match> {
    if links == [] then matches else
      LinkStep(ops, q, LinkPass(ops, q, matches, links[..|links| - 1]), links[|links| - 1])
  }

  function ThreePasses(ops: TextOps, q: Search, clients: seq<Person>, contacts: seq<Person>,
                       links: seq<MatterLink>): seq<Match>
  {
    LinkPass(ops, q, Pass(ops, q, ClientRow, clients) + Pass(ops, q, ContactRow, contacts), links)
  }

  // Two passes say the same

  /** The context of the last link of this contact, or the default. */
  function LastContext(links: seq<MatterLink>, id: Uuid, default: string): string {
    if links == [] then default else
      var l := links[|links| - 1];
      if l.contact.Some? && l.contact.value.id == id then l.context else LastContext(links[..|links| - 1], id, default)
  }

  function ContactPass(ops: TextOps, q: Search, contacts: seq<Person>, links: seq<MatterLink>): seq<Match> {
    if contacts == [] then [] else
      var p := contacts[|contacts| - 1];
      ContactPass(ops, q, contacts[..|contacts| - 1], links)
          + Found(ops, q, ContactRow, p, LastContext(links, p.id, p.role))
  }

  function TwoPasses(ops: TextOps, q: Search, clients: seq<Person>, contacts: seq<Person>,
                     links: seq<MatterLink>): seq<Match>
  {
    Pass(ops, q, ClientRow, clients) + ContactPass(ops, q, contacts, links)
  }

  /** The contact of every link is a row of the contact table: the foreign key. */
  predicate LinksResolve(contacts: seq<Person>, links: seq<MatterLink>) {
    forall l :: l in links && l.contact.Some? ==> l.contact.value in contacts
  }

  lemma {:induction false} PassKinds(ops: TextOps, q: Search, kind: EntityKind, people: seq<Person>)
    ensures forall m :: m in Pass(ops, q, kind, people) ==> m.kind == kind
  {
    if people != [] { PassKinds(ops, q, kind, people[..|people| - 1]); }
  }

  /** A contact row with this id scores above the threshold. */
  predicate Hit(ops: TextOps, q: Search, contacts: seq<Person>, id: Uuid) {
    exists p :: p in contacts && p.id == id && BestOf(ops, q, p).score > 4
  }

  lemma {:induction false} ContactPassIds(ops: TextOps, q: Search, contacts: seq<Person>, links: seq<MatterLink>,
                                          id: Uuid)
    ensures MatchedContact(ContactPass(ops, q, contacts, links), id) <==> Hit(ops, q, contacts, id)
    ensures forall m :: m in ContactPass(ops, q, contacts, links) ==> m.kind == ContactRow
  {
    if contacts != [] {
      var init, p := contacts[..|contacts| - 1], contacts[|contacts| - 1];
      ContactPassIds(ops, q, init, links, id);
      assert forall x :: x in contacts <==> x in init || x == p;
      var found := Found(ops, q, ContactRow, p, LastContext(links, p.id, p.role));
      assert forall m ::
               m in ContactPass(ops, q, contacts, links) <==> m in ContactPass(ops, q, init, links) || m in found;
      if BestOf(ops, q, p).score > 4 { assert found[0] in found; }
    }
  }

  lemma SetContextSplit(a: seq<Match>, b: seq<Match>, id: Uuid, context: string)
    ensures SetContext(a + b, id, context) == SetContext(a, id, context) + SetContext(b, id, context)
  {
    if b == [] {
      assert a + b == a;
    } else {
      assert (a + b)[..|a + b| - 1] == a + b[..|b| - 1];
      SetContextSplit(a, b[..|b| - 1], id, context);
    }
  }

  lemma {:induction false} SetContextOfClients(a: seq<Match>, id: Uuid, context: string)
    requires forall m :: m in a ==> m.kind == ClientRow
    ensures SetContext(a, id, context) == a
  {
    if a != [] {
      assert a[|a| - 1] in a;
      SetContextOfClients(a[..|a| - 1], id, context);
    }
  }

  lemma {:induction false} SetContextOfContacts(ops: TextOps, q: Search, contacts: seq<Person>,
                                                links: seq<MatterLink>, l: MatterLink)
    requires l.contact.Some?
    ensures SetContext(ContactPass(ops, q, contacts, links), l.contact.value.id, l.context)
         == ContactPass(ops, q, contacts, links + [l])
  {
    if contacts != [] {
      var init, p := contacts[..|contacts| - 1], contacts[|contacts| - 1];
      SetContextOfContacts(ops, q, init, links, l);
      var found := Found(ops, q, ContactRow, p, LastContext(links, p.id, p.role));
      SetContextSplit(ContactPass(ops, q, init, links), found, l.contact.value.id, l.context);
      assert (links + [l])[..|links|] == links;
      if found != [] { assert found[..0] == []; }
    }
  }

  /** A link whose contact is not among the hits adds no context. */
  lemma {:induction false} NoHitNoChange(ops: TextOps, q: Search, contacts: seq<Person>, links: seq<MatterLink>,
                                         l: MatterLink)
    requires l.contact.Some? ==> !Hit(ops, q, contacts, l.contact.value.id)
    ensures ContactPass(ops, q, contacts, links + [l]) == ContactPass(ops, q, contacts, links)
  {
    if contacts != [] {
      var init, p := contacts[..|contacts| - 1], contacts[|contacts| - 1];
      assert p in contacts && forall x :: x in init ==> x in contacts;
      assert l.contact.Some? ==> !Hit(ops, q, init, l.contact.value.id);
      NoHitNoChange(ops, q, init, links, l);
      assert (links + [l])[..|links|] == links;
    }
  }

  /** The name score the link pass computes never exceeds the best score of the same person. */
  lemma NameScoreWithinBest(ops: TextOps, q: Search, p: Person)
    requires ops.normalize("") == ""
    ensures NameScore(ops, q.name, FullName(ops, p)).0 <= BestOf(ops, q, p).score
  {
  }

  lemma OneLink(ops: TextOps, q: Search, clients: seq<Person>, contacts: seq<Person>, links: seq<MatterLink>,
                l: MatterLink)
    requires ops.normalize("") == "" && (l.contact.Some? ==> l.contact.value in contacts)
    ensures LinkStep(ops, q, TwoPasses(ops, q, clients, contacts, links), l)
        == TwoPasses(ops, q, clients, contacts, links + [l])
  {
    var a, b := Pass(ops, q, ClientRow, clients), ContactPass(ops, q, contacts, links);
    if l.contact.None? {
      NoHitNoChange(ops, q, contacts, links, l);
    } else {
      var id := l.contact.value.id;
      PassKinds(ops, q, ClientRow, clients);
      ContactPassIds(ops, q, contacts, links, id);
      assert MatchedContact(a + b, id) <==> MatchedContact(b, id);
      if Hit(ops, q, contacts, id) {
        SetContextSplit(a, b, id, l.context);
        SetContextOfClients(a, id, l.context);
        SetContextOfContacts(ops, q, contacts, links, l);
      } else {
        NoHitNoChange(ops, q, contacts, links, l);
        NameScoreWithinBest(ops, q, l.contact.value);
      }
    }
  }

  lemma {:induction false} WithoutLinks(ops: TextOps, q: Search, contacts: seq<Person>)
    ensures ContactPass(ops, q, contacts, []) == Pass(ops, q, ContactRow, contacts)
  {
    if contacts != [] { WithoutLinks(ops, q, contacts[..|contacts| - 1]); }
  }

  /** When links resolve, the third pass adds no row and only rewrites contexts: two passes say the same. */
  lemma {:induction false} ThreePassesAreTwo(ops: TextOps, q: Search, clients: seq<Person>, contacts: seq<Person>,
                                             links: seq<MatterLink>)
    requires ops.normalize("") == "" && LinksResolve(contacts, links)
    ensures ThreePasses(ops, q, clients, contacts, links) == TwoPasses(ops, q, clients, contacts, links)
  {
    if links == [] {
      WithoutLinks(ops, q, contacts);
    } else {
      var init, l := links[..|links| - 1], links[|links| - 1];
      assert l in links && forall x :: x in init ==> x in links;
      ThreePassesAreTwo(ops, q, clients, contacts, init);
      OneLink(ops, q, clients, contacts, init, l);
      assert links == init + [l];
    }
  }

  ghost predicate DistinctIds(people: seq<Person>) {
    forall i, j :: 0 <= i < j < |people| ==> people[i].id != people[j].id
  }

  ghost predicate DistinctMatches(matches: seq<Match>) {
    forall i, j :: 0 <= i < j < |matches| ==> matches[i].id != matches[j].id
  }

  lemma DistinctNext(before: seq<Match>, found: seq<Match>)
    requires DistinctMatches(before) && |found| <= 1
    requires forall m, n :: m in before && n in found ==> m.id != n.id
    ensures DistinctMatches(before + found)
  {
    forall i, j | 0 <= i < j < |before + found| ensures (before + found)[i].id != (before + found)[j].id {
      if j >= |before| { assert before[i] in before && found[0] in found; }
    }
  }

  lemma {:induction false} ContactMatchesDistinct(ops: TextOps, q: Search, contacts: seq<Person>,
                                                  links: seq<MatterLink>)
    requires DistinctIds(contacts)
    ensures DistinctMatches(ContactPass(ops, q, contacts, links))
  {
    if contacts != [] {
      var init, p := contacts[..|contacts| - 1], contacts[|contacts| - 1];
      ContactMatchesDistinct(ops, q, init, links);
      ContactPassIds(ops, q, init, links, p.id);
      assert forall x :: x in init ==> x.id != p.id;
      var before, found := ContactPass(ops, q, init, links),
          Found(ops, q, ContactRow, p, LastContext(links, p.id, p.role));
      forall m, n | m in before && n in found ensures m.id != n.id {
        assert !MatchedContact(before, p.id);
      }
      DistinctNext(before, found);
    }
  }

  /** The contact matches are the contacts above the threshold, each once, with the context of their last link. */
  lemma {:induction false} ContactMatchesAre(ops: TextOps, q: Search, contacts: seq<Person>, links: seq<MatterLink>,
                                             m: Match)
    requires DistinctIds(contacts)
    ensures DistinctMatches(ContactPass(ops, q, contacts, links))
    ensures m in ContactPass(ops, q, contacts, links) <==>
              exists p :: p in contacts && m in Found(ops, q, ContactRow, p, LastContext(links, p.id, p.role))
  {
    ContactMatchesDistinct(ops, q, contacts, links);
    if contacts != [] {
      var init, p := contacts[..|contacts| - 1], contacts[|contacts| - 1];
      ContactMatchesAre(ops, q, init, links, m);
      assert forall x :: x in contacts <==> x in init || x == p;
    }
  }

  lemma {:induction false} PassIds(ops: TextOps, q: Search, kind: EntityKind, people: seq<Person>)
    ensures forall m :: m in Pass(ops, q, kind, people) ==> exists p :: p in people && p.id == m.id
  {
    if people != [] {
      var init, p := people[..|people| - 1], people[|people| - 1];
      PassIds(ops, q, kind, init);
      forall m | m in Pass(ops, q, kind, people) ensures exists x :: x in people && x.id == m.id {
        if m in Pass(ops, q, kind, init) {
          var x :| x in init && x.id == m.id;
          assert x in people;
        } else {
          assert p in people && p.id == m.id;
        }
      }
    }
  }

  lemma {:induction false} ClientMatchesDistinct(ops: TextOps, q: Search, clients: seq<Person>)
    requires DistinctIds(clients)
    ensures DistinctMatches(Pass(ops, q, ClientRow, clients))
  {
    if clients != [] {
      var init, p := clients[..|clients| - 1], clients[|clients| - 1];
      ClientMatchesDistinct(ops, q, init);
      PassIds(ops, q, ClientRow, init);
      assert forall x :: x in init ==> x.id != p.id;
      DistinctNext(Pass(ops, q, ClientRow, init), Found(ops, q, ClientRow, p, p.role));
    }
  }

  /** The same for the client matches. */
  lemma {:induction false} ClientMatchesAre(ops: TextOps, q: Search, clients: seq<Person>, m: Match)
    requires DistinctIds(clients)
    ensures DistinctMatches(Pass(ops, q, ClientRow, clients))
    ensures m in Pass(ops, q, ClientRow, clients)
        <==> exists p :: p in clients && m in Found(ops, q, ClientRow, p, p.role)
  {
    ClientMatchesDistinct(ops, q, clients);
    if clients != [] {
      var init, p := clients[..|clients| - 1], clients[|clients| - 1];
      ClientMatchesAre(ops, q, init, m);
      assert forall x :: x in clients <==> x in init || x == p;
    }
  }

  /** p scores above the threshold, and m reports it with this context. */
  ghost predicate Reports(ops: TextOps, q: Search, kind: EntityKind, p: Person, context: string, m: Match) {
    var b := BestOf(ops, q, p);
    b.score > 4 && m == Match(kind, p.id, b.name, b.matchType, b.score, context)
  }

  ghost predicate OnceEach(matches: seq<Match>) {
    forall i, j :: 0 <= i < j < |matches| ==> matches[i].kind != matches[j].kind || matches[i].id != matches[j].id
  }

  /** What a conflict check finds: exactly the clients and contacts whose best score exceeds 0.4, each once, clients
      with their own context and contacts with that of their last link. */
  lemma CheckFinds(ops: TextOps, q: Search, clients: seq<Person>, contacts: seq<Person>, links: seq<MatterLink>,
                   m: Match)
    requires ops.normalize("") == "" && LinksResolve(contacts, links) && DistinctIds(clients) && DistinctIds(contacts)
    ensures m in ThreePasses(ops, q, clients, contacts, links) <==>
              || (exists p :: p in clients && Reports(ops, q, ClientRow, p, p.role, m))
              || (exists p :: p in contacts && Reports(ops, q, ContactRow, p, LastContext(links, p.id, p.role), m))
    ensures OnceEach(ThreePasses(ops, q, clients, contacts, links))
  {
    ThreePassesAreTwo(ops, q, clients, contacts, links);
    ClientMatchesAre(ops, q, clients, m);
    ContactMatchesAre(ops, q, contacts, links, m);
    var a, b := Pass(ops, q, ClientRow, clients), ContactPass(ops, q, contacts, links);
    assert m in a + b <==> m in a || m in b;
    forall p | p in clients
      ensures m in Found(ops, q, ClientRow, p, p.role) <==> Reports(ops, q, ClientRow, p, p.role, m)
    {
      FoundIsReport(ops, q, ClientRow, p, p.role, m);
    }
    forall p | p in contacts
      ensures m in Found(ops, q, ContactRow, p, LastContext(links, p.id, p.role))
         <==> Reports(ops, q, ContactRow, p, LastContext(links, p.id, p.role), m)
    {
      FoundIsReport(ops, q, ContactRow, p, LastContext(links, p.id, p.role), m);
    }
    PassKinds(ops, q, ClientRow, clients);
    ContactPassIds(ops, q, contacts, links, 0);
    TogetherOnceEach(a, b);
  }

  ghost predicate SomeResembles(ops: TextOps, q: Search, people: seq<Person>, id: Uuid) {
    exists p :: p in people && p.id == id && Resembles(ops, q, p)
  }

  ghost predicate SomeCoincides(ops: TextOps, q: Search, people: seq<Person>) {
    exists p :: p in people && Coincides(ops, q, p)
  }

  ghost predicate IsFound(matches: seq<Match>, kind: EntityKind, id: Uuid) {
    exists m :: m in matches && m.kind == kind && m.id == id
  }

  /** Who is found: exactly the clients and the contacts that resemble what is searched. */
  lemma WhoIsFound(ops: TextOps, q: Search, clients: seq<Person>, contacts: seq<Person>, links: seq<MatterLink>,
                   id: Uuid)
    requires ops.normalize("") == "" && LinksResolve(contacts, links) && DistinctIds(clients) && DistinctIds(contacts)
    ensures var matches := ThreePasses(ops, q, clients, contacts, links);
            && (IsFound(matches, ClientRow, id) <==> SomeResembles(ops, q, clients, id))
            && (IsFound(matches, ContactRow, id) <==> SomeResembles(ops, q, contacts, id))
            && !IsFound(matches, MatterParty, id)
  {
    var matches := ThreePasses(ops, q, clients, contacts, links);
    forall m | m in matches && m.id == id
      ensures (m.kind == ClientRow && SomeResembles(ops, q, clients, id))
              || (m.kind == ContactRow && SomeResembles(ops, q, contacts, id))
    {
      MatchResembles(ops, q, clients, contacts, links, m);
    }
    if SomeResembles(ops, q, clients, id) {
      var p :| p in clients && p.id == id && Resembles(ops, q, p);
      var m := ReportOf(ops, q, clients, contacts, links, p, ClientRow);
    }
    if SomeResembles(ops, q, contacts, id) {
      var p :| p in contacts && p.id == id && Resembles(ops, q, p);
      var m := ReportOf(ops, q, clients, contacts, links, p, ContactRow);
    }
  }

  lemma ReportOf(ops: TextOps, q: Search, clients: seq<Person>, contacts: seq<Person>, links: seq<MatterLink>,
                 p: Person, kind: EntityKind) returns (m: Match)
    requires ops.normalize("") == "" && LinksResolve(contacts, links) && DistinctIds(clients) && DistinctIds(contacts)
    requires (kind == ClientRow && p in clients) || (kind == ContactRow && p in contacts)
    requires Resembles(ops, q, p)
    ensures m in ThreePasses(ops, q, clients, contacts, links) && m.kind == kind && m.id == p.id
    ensures m.score >= 9 <==> Coincides(ops, q, p)
  {
    ScoreMeans(ops, q, p);
    var b, context := BestOf(ops, q, p), if kind == ClientRow then p.role else LastContext(links, p.id, p.role);
    m := Match(kind, p.id, b.name, b.matchType, b.score, context);
    CheckFinds(ops, q, clients, contacts, links, m);
  }

  lemma MatchResembles(ops: TextOps, q: Search, clients: seq<Person>, contacts: seq<Person>, links: seq<MatterLink>,
                       m: Match)
    requires ops.normalize("") == "" && LinksResolve(contacts, links) && DistinctIds(clients) && DistinctIds(contacts)
    requires m in ThreePasses(ops, q, clients, contacts, links)
    ensures (m.kind == ClientRow && SomeResembles(ops, q, clients, m.id))
            || (m.kind == ContactRow && SomeResembles(ops, q, contacts, m.id))
    ensures m.score >= 9 ==> SomeCoincides(ops, q, clients) || SomeCoincides(ops, q, contacts)
  {
    CheckFinds(ops, q, clients, contacts, links, m);
    if p :| p in clients && Reports(ops, q, ClientRow, p, p.role, m) {
      ScoreMeans(ops, q, p);
    } else {
      var p :| p in contacts && Reports(ops, q, ContactRow, p, LastContext(links, p.id, p.role), m);
      ScoreMeans(ops, q, p);
    }
  }

  /** When a match reaches 0.9: exactly when the search coincides with some client or contact. */
  lemma ConfirmedIff(ops: TextOps, q: Search, clients: seq<Person>, contacts: seq<Person>, links: seq<MatterLink>)
    requires ops.normalize("") == "" && LinksResolve(contacts, links) && DistinctIds(clients) && DistinctIds(contacts)
    ensures (exists m :: m in ThreePasses(ops, q, clients, contacts, links) && m.score >= 9) <==>
              SomeCoincides(ops, q, clients) || SomeCoincides(ops, q, contacts)
  {
    forall m | m in ThreePasses(ops, q, clients, contacts, links) && m.score >= 9
      ensures SomeCoincides(ops, q, clients) || SomeCoincides(ops, q, contacts)
    {
      MatchResembles(ops, q, clients, contacts, links, m);
    }
    if SomeCoincides(ops, q, clients) {
      var p :| p in clients && Coincides(ops, q, p);
      ScoreMeans(ops, q, p);
      var m := ReportOf(ops, q, clients, contacts, links, p, ClientRow);
    } else if SomeCoincides(ops, q, contacts) {
      var p :| p in contacts && Coincides(ops, q, p);
      ScoreMeans(ops, q, p);
      var m := ReportOf(ops, q, clients, contacts, links, p, ContactRow);
    }
  }

  /** Link k is the last one of this contact. */
  ghost predicate LastLink(links: seq<MatterLink>, id: Uuid, k: int) {
    0 <= k < |links| && LinksContact(links[k], id) && forall j :: k < j < |links| ==> !LinksContact(links[j], id)
  }

  predicate LinksContact(l: MatterLink, id: Uuid) { l.contact.Some? && l.contact.value.id == id }

  /** The context of a contact is that of its last link, and its own without one. */
  lemma {:induction false} LastContextIs(links: seq<MatterLink>, id: Uuid, default: string)
    ensures (exists k :: LastLink(links, id, k) && LastContext(links, id, default) == links[k].context)
            || (LastContext(links, id, default) == default && forall l :: l in links ==> !LinksContact(l, id))
  {
    if links != [] {
      var init, n := links[..|links| - 1], |links| - 1;
      if LinksContact(links[n], id) {
        assert LastLink(links, id, n);
      } else {
        LastContextIs(init, id, default);
        if k :| LastLink(init, id, k) && LastContext(init, id, default) == init[k].context {
          assert LastLink(links, id, k);
        } else {
          assert forall l :: l in links <==> l in init || l == links[n];
        }
      }
    }
  }

  lemma FoundIsReport(ops: TextOps, q: Search, kind: EntityKind, p: Person, context: string, m: Match)
    ensures m in Found(ops, q, kind, p, context) <==> Reports(ops, q, kind, p, context, m)
  {
  }

  lemma TogetherOnceEach(a: seq<Match>, b: seq<Match>)
    requires DistinctMatches(a) && DistinctMatches(b)
    requires (forall m :: m in a ==> m.kind == ClientRow) && forall m :: m in b ==> m.kind == ContactRow
    ensures OnceEach(a + b)
  {
    forall i, j | 0 <= i < j < |a + b| ensures (a + b)[i].kind != (a + b)[j].kind || (a + b)[i].id != (a + b)[j].id {
      if i < |a| <= j { assert a[i] in a && b[j - |a|] in b; }
    }
  }

  // The method

  /** The body of the search loops: each name in turn replaces the best one only if it scores strictly more. */
  method BestMatch(ops: TextOps, q: Search, p: Person) returns (best: Best)
    ensures best == BestOf(ops, q, p)
  {
    best := Best(0, Fuzzy, "");
    var full := ops.strip(p.firstName + " " + p.lastName);
    if full != "" {
      var s := NameScore(ops, q.name, full);
      if s.0 > best.score { best := Best(s.0, s.1, full); }
    }
    if p.organization != "" {
      var s := NameScore(ops, q.name, p.organization);
      if s.0 > best.score { best := Best(s.0, s.1, p.organization); }
    }
    if q.organization != "" && ops.normalize(q.organization) != "" && p.organization != "" {
      var s := NameScore(ops, q.organization, p.organization);
      if s.0 > best.score { best := Best(s.0, s.1, p.organization); }
    }
    if p.email != "" {
      var s := EmailScore(ops, q.name, p.email);
      if s > best.score { best := Best(s, Email, p.email); }
    }
  }

  lemma PassNext(ops: TextOps, q: Search, kind: EntityKind, people: seq<Person>, i: nat)
    requires i < |people|
    ensures Pass(ops, q, kind, people[..i + 1])
         == Pass(ops, q, kind, people[..i]) + Found(ops, q, kind, people[i], people[i].role)
  {
    assert people[..i + 1][..i] == people[..i];
  }

  /** The loop over one table. */
  method SearchTable(ops: TextOps, q: Search, kind: EntityKind, people: seq<Person>, earlier: seq<Match>)
    returns (matches: seq<Match>)
    ensures matches == earlier + Pass(ops, q, kind, people)
  {
    matches := earlier;
    for i := 0 to |people|
      invariant matches == earlier + Pass(ops, q, kind, people[..i])
    {
      ghost var before := Pass(ops, q, kind, people[..i]);
      var best := BestMatch(ops, q, people[i]);
      if best.score > 4 {
        var m := Match(kind, people[i].id, best.name, best.matchType, best.score, people[i].role);
        matches := matches + [m];
        assert earlier + before + [m] == earlier + (before + [m]);
      }
      PassNext(ops, q, kind, people, i);
    }
    assert people[..|people|] == people;
  }

  /** The inner loop that rewrites the context of an existing match. */
  method RewriteContext(matches: seq<Match>, id: Uuid, context: string) returns (r: seq<Match>)
    ensures r == SetContext(matches, id, context)
  {
    r := [];
    for i := 0 to |matches|
      invariant r == SetContext(matches[..i], id, context)
    {
      assert matches[..i + 1][..i] == matches[..i];
      var m := matches[i];
      if m.id == id && m.kind == ContactRow { m := m.(context := context); }
      r := r + [m];
    }
    assert matches[..|matches|] == matches;
  }

  method SearchLinks(ops: TextOps, q: Search, earlier: seq<Match>, links: seq<MatterLink>) returns (matches: seq<Match>)
    requires forall m :: m in earlier ==> m.kind != MatterParty
    ensures matches == LinkPass(ops, q, earlier, links)
  {
    matches := earlier;
    var matchedContactIds := set m | m in matches && m.kind == ContactRow :: m.id;
    for i := 0 to |links|
      invariant matches == LinkPass(ops, q, earlier, links[..i])
      invariant forall id :: id in matchedContactIds <==> MatchedContact(matches, id)
    {
      assert links[..i + 1][..i] == links[..i];
      var l := links[i];
      if l.contact.None? { continue; }
      var contact := l.contact.value;
      if contact.id in matchedContactIds {
        SetContextKeepsIds(matches, contact.id, l.context);
        ghost var before := matches;
        matches := RewriteContext(matches, contact.id, l.context);
        forall x ensures MatchedContact(before, x) <==> MatchedContact(matches, x) {
          SameRowsSameContacts(before, matches, x);
        }
        continue;
      }
      var full := ops.strip(contact.firstName + " " + contact.lastName);
      var s := NameScore(ops, q.name, full);
      if s.0 > 4 {
        var party := Match(MatterParty, contact.id, full, s.1, s.0, l.context);
        assert forall m :: m in matches + [party] <==> m in matches || m == party;
        matches := matches + [party];
        matchedContactIds := matchedContactIds + {contact.id};
      }
    }
    assert links[..|links|] == links;
  }

  lemma {:induction false} SetContextKeepsIds(matches: seq<Match>, id: Uuid, context: string)
    ensures SameRows(matches, SetContext(matches, id, context))
  {
    if matches != [] {
      var init, m := matches[..|matches| - 1], matches[|matches| - 1];
      SetContextKeepsIds(init, id, context);
      var n := if m.id == id && m.kind == ContactRow then m.(context := context) else m;
      SameRowsNext(init, SetContext(init, id, context), m, n);
      assert matches == init + [m];
    }
  }

  /** Row by row the two lists agree in all but the context. */
  ghost predicate SameRows(a: seq<Match>, b: seq<Match>) {
    |a| == |b| && forall i :: 0 <= i < |a| ==> b[i] == a[i].(context := b[i].context)
  }

  lemma SameRowsNext(a: seq<Match>, b: seq<Match>, m: Match, n: Match)
    requires SameRows(a, b) && n == m.(context := n.context)
    ensures SameRows(a + [m], b + [n])
  {
  }

  lemma SameRowsSameContacts(a: seq<Match>, b: seq<Match>, x: Uuid)
    requires SameRows(a, b)
    ensures MatchedContact(a, x) <==> MatchedContact(b, x)
  {
    if m :| m in a && m.id == x && m.kind != ClientRow {
      var i :| 0 <= i < |a| && a[i] == m;
      assert b[i] in b;
    }
    if m :| m in b && m.id == x && m.kind != ClientRow {
      var i :| 0 <= i < |b| && b[i] == m;
      assert a[i] in a;
    }
  }

  method RunConflictCheck(ops: TextOps, q: Search, clients: seq<Person>, contacts: seq<Person>, links: seq<MatterLink>)
    returns (matches: seq<Match>, status: Status)
    ensures matches == ThreePasses(ops, q, clients, contacts, links)
    ensures status == Clear <==> matches == []
    ensures status == Confirmed <==> exists m :: m in matches && m.score >= 9
    ensures ops.normalize("") == "" && LinksResolve(contacts, links) && DistinctIds(clients) && DistinctIds(contacts)
            ==>
            (status == Confirmed <==> SomeCoincides(ops, q, clients) || SomeCoincides(ops, q, contacts))
  {
    if ops.normalize("") == "" && LinksResolve(contacts, links) && DistinctIds(clients) && DistinctIds(contacts) {
      ConfirmedIff(ops, q, clients, contacts, links);
    }
    matches := SearchTable(ops, q, ClientRow, clients, []);
    assert matches == Pass(ops, q, ClientRow, clients);
    matches := SearchTable(ops, q, ContactRow, contacts, matches);
    PassKinds(ops, q, ClientRow, clients);
    PassKinds(ops, q, ContactRow, contacts);
    matches := SearchLinks(ops, q, matches, links);
    status := OverallStatus(matches);
  }

  method OverallStatus(matches: seq<Match>) returns (status: Status)
    ensures status == Clear <==> matches == []
    ensures status == Confirmed <==> exists m :: m in matches && m.score >= 9
  {
    if matches == [] { return Clear; }
    var best := matches[0];
    for i := 1 to |matches|
      invariant best in matches && forall j :: 0 <= j < i ==> matches[j].score <= best.score
    {
      if matches[i].score > best.score { best := matches[i]; }
    }
    status := if best.score >= 9 then Confirmed else Potential;
  }
}
