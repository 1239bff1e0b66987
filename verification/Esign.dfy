/** Signature requests: the status machine of a request and its signers, and the audit trail beside it. */
module Esign {
  import opened Database

  datatype RequestStatus = Draft | Pending | PartiallySigned | Completed | Expired | Cancelled

  datatype SignerStatus = Waiting | Viewed | Signed | Declined

  /** signers lists the access tokens of the request's signer rows. */
  datatype SignatureRequest = SignatureRequest(status: RequestStatus, expiresAt: Option<int>, completedAt: Option<int>,
                                               certified: bool, signers: seq<string>)

  datatype Signer = Signer(requestId: Uuid, status: SignerStatus, signedAt: Option<int>, declineReason: string)

  datatype Action = CreatedAction | SentAction | ViewedAction | SignedAction | DeclinedAction | CancelledAction
                  | CompletedAction | ExpiredAction

  /** A signature_audit_entries row; signer is None for entries about the request as a whole. */
  datatype Entry = Entry(requestId: Uuid, signer: Option<string>, action: Action)

  /** The three tables; signer rows are found through their unique access token. */
  datatype Store = Store(requests: map<Uuid, SignatureRequest>, signers: map<string, Signer>, trail: seq<Entry>)

  const NOTHING := Store(map[], map[], [])

  datatype Error =
    | NoSigners
    | IntegrityError
    | RequestNotFound
    | InvalidToken
    | OnlyDraftsCanBeSent
    | HasExpired
    | NotOpen(status: RequestStatus)
    | AlreadySigned
    | SignerDeclined
    | CannotCancel(status: RequestStatus)
    | ForeignFailure

  /** A request with what it reads from outside: the clock, and whether the calls it makes to other systems succeed. */
  datatype Call =
    | Create(newId: Uuid, tokens: seq<string>, expiresAt: Option<int>)
    | Send(id: Uuid)
    | View(token: string, now: int, documentFound: bool)
    | Sign(token: string, now: int, certificateStored: bool)
    | Decline(token: string, reason: string)
    | Cancel(id: Uuid)

  function SentEntries(id: Uuid, tokens: seq<string>): seq<Entry> {
    seq(|tokens|, i requires 0 <= i < |tokens| => Entry(id, Some(tokens[i]), SentAction))
  }

  predicate IsOpen(status: RequestStatus) { status.Pending? || status.PartiallySigned? }

  function SetStatus(s: Store, id: Uuid, status: RequestStatus): Store
    requires id in s.requests
  {
    s.(requests := s.requests[id := s.requests[id].(status := status)])
  }

  function Log(s: Store, e: Entry): Store { s.(trail := s.trail + [e]) }

  // The service functions. On an exception the first component is the state the session has not committed.

  function CreateCall(s: Store, id: Uuid, tokens: seq<string>, expiresAt: Option<int>): (Store, Outcome<Error>) {
    if tokens == [] then (s, Raised(NoSigners))
    else if id in s.requests || !Distinct(tokens) || exists t :: t in tokens && t in s.signers then
      (s, Raised(IntegrityError))
    else
      (Store(s.requests[id := SignatureRequest(Draft, expiresAt, None, false, tokens)],
             s.signers + (map t | t in tokens :: Signer(id, Waiting, None, "")),
             s.trail + [Entry(id, None, CreatedAction)]),
       Committed)
  }

  function SendCall(s: Store, id: Uuid): (Store, Outcome<Error>) {
    if id !in s.requests then (s, Raised(RequestNotFound))
    else if s.requests[id].status != Draft then (s, Raised(OnlyDraftsCanBeSent))
    else
      var after := SetStatus(s, id, Pending);
      (after.(trail := s.trail + SentEntries(id, s.requests[id].signers)), Committed)
  }

  function ViewCall(s: Store, token: string, now: int, documentFound: bool): (Store, Outcome<Error>) {
    if token !in s.signers then (s, Raised(InvalidToken)) else
      var signer := s.signers[token];
      var id := signer.requestId;
      if id !in s.requests then (s, Raised(RequestNotFound))
      else if IsPast(s.requests[id].expiresAt, now) then
        (Log(SetStatus(s, id, Expired), Entry(id, None, ExpiredAction)), Raised(HasExpired))
      else if !IsOpen(s.requests[id].status) then (s, Raised(NotOpen(s.requests[id].status)))
      else
        var after := if signer.status != Waiting then s else
                       Log(s.(signers := s.signers[token := signer.(status := Viewed)]),
                           Entry(id, Some(token), ViewedAction));
        (after, if documentFound then Committed else Raised(ForeignFailure))
  }

  /** Every other signer of the request has signed. */
  predicate OthersSigned(s: Store, id: Uuid, token: string)
    requires id in s.requests && forall t :: t in s.requests[id].signers ==> t in s.signers
  {
    forall t :: t in s.requests[id].signers ==> s.signers[t].status == Signed || t == token
  }

  function SignCall(s: Store, token: string, now: int, certificateStored: bool): (Store, Outcome<Error>)
    requires SignersExist(s)
  {
    if token !in s.signers then (s, Raised(InvalidToken)) else
      var signer := s.signers[token];
      var id := signer.requestId;
      if id !in s.requests then (s, Raised(RequestNotFound))
      else if IsPast(s.requests[id].expiresAt, now) then (SetStatus(s, id, Expired), Raised(HasExpired))
      else if !IsOpen(s.requests[id].status) then (s, Raised(NotOpen(s.requests[id].status)))
      else if signer.status == Signed then (s, Raised(AlreadySigned))
      else if signer.status == Declined then (s, Raised(SignerDeclined))
      else
        var signed := Log(s.(signers := s.signers[token := signer.(status := Signed, signedAt := Some(now))]),
                          Entry(id, Some(token), SignedAction));
        if !OthersSigned(s, id, token) then (SetStatus(signed, id, PartiallySigned), Committed)
        else
          var completed := s.requests[id].(status := Completed, completedAt := Some(now));
          if !certificateStored then (signed.(requests := s.requests[id := completed]), Raised(ForeignFailure))
          else
            (Log(signed.(requests := s.requests[id := completed.(certified := true)]),
                 Entry(id, None, CompletedAction)),
             Committed)
  }

  function DeclineCall(s: Store, token: string, reason: string): (Store, Outcome<Error>) {
    if token !in s.signers then (s, Raised(InvalidToken)) else
      var signer := s.signers[token];
      var id := signer.requestId;
      if id !in s.requests then (s, Raised(RequestNotFound))
      else if !IsOpen(s.requests[id].status) then (s, Raised(NotOpen(s.requests[id].status)))
      else if signer.status == Signed then (s, Raised(AlreadySigned))
      else if signer.status == Declined then (s, Raised(SignerDeclined))
      else
        var after := s.(signers := s.signers[token := signer.(status := Declined, declineReason := reason)]);
        (Log(Log(SetStatus(after, id, Cancelled), Entry(id, Some(token), DeclinedAction)),
             Entry(id, None, CancelledAction)),
         Committed)
  }

  function CancelCall(s: Store, id: Uuid): (Store, Outcome<Error>) {
    if id !in s.requests then (s, Raised(RequestNotFound))
    else if s.requests[id].status in {Completed, Cancelled} then (s, Raised(CannotCancel(s.requests[id].status)))
    else (Log(SetStatus(s, id, Cancelled), Entry(id, None, CancelledAction)), Committed)
  }

  function Serve(s: Store, c: Call): (Store, Outcome<Error>)
    requires SignersExist(s)
  {
    match c
    case Create(id, tokens, expiresAt) => CreateCall(s, id, tokens, expiresAt)
    case Send(id) => SendCall(s, id)
    case View(token, now, documentFound) => ViewCall(s, token, now, documentFound)
    case Sign(token, now, certificateStored) => SignCall(s, token, now, certificateStored)
    case Decline(token, reason) => DeclineCall(s, token, reason)
    case Cancel(id) => CancelCall(s, id)
  }

  /** A whole request: the service function inside the session's commit or rollback. */
  function Step(s: Store, c: Call): Store
    requires SignersExist(s)
  {
    Settle(s, Serve(s, c).0, Serve(s, c).1)
  }

  // The trail as an event log

  /** What an entry says about the status of request id. */
  function NextRequest(before: RequestStatus, e: Entry, id: Uuid): RequestStatus {
    if e.requestId != id then before else
      match e.action
      case CreatedAction => Draft
      case SentAction => Pending
      case SignedAction => PartiallySigned
      case CancelledAction => Cancelled
      case CompletedAction => Completed
      case ExpiredAction => Expired
      case _ => before
  }

  /** What an entry says about the status of the signer with this token. */
  function NextSigner(before: SignerStatus, e: Entry, token: string): SignerStatus {
    if e.signer != Some(token) then before else
      match e.action
      case ViewedAction => Viewed
      case SignedAction => Signed
      case DeclinedAction => Declined
      case _ => before
  }

  function FoldRequest(trail: seq<Entry>, id: Uuid): RequestStatus {
    if trail == [] then Draft
    else NextRequest(FoldRequest(trail[..|trail| - 1], id), trail[|trail| - 1], id)
  }

  function FoldSigner(trail: seq<Entry>, token: string): SignerStatus {
    if trail == [] then Waiting
    else NextSigner(FoldSigner(trail[..|trail| - 1], token), trail[|trail| - 1], token)
  }

  function Count(trail: seq<Entry>, e: Entry): nat {
    if trail == [] then 0 else Count(trail[..|trail| - 1], e) + if trail[|trail| - 1] == e then 1 else 0
  }

  // Invariants

  ghost predicate SignersExist(s: Store) {
    forall id, t :: id in s.requests && t in s.requests[id].signers ==> t in s.signers
  }

  ghost predicate AllIn(s: Store, r: SignatureRequest, allowed: set<SignerStatus>) {
    forall t :: t in r.signers ==> t in s.signers && s.signers[t].status in allowed
  }

  ghost predicate SomeIn(s: Store, r: SignatureRequest, wanted: set<SignerStatus>) {
    exists t :: t in r.signers && t in s.signers && s.signers[t].status in wanted
  }

  /** What the status of a request says about its signers. */
  ghost predicate Coupled(s: Store, r: SignatureRequest) {
    (r.status == Draft ==> AllIn(s, r, {Waiting}))
    && (r.status == Pending ==> AllIn(s, r, {Waiting, Viewed}))
    && (r.status == PartiallySigned ==>
          AllIn(s, r, {Waiting, Viewed, Signed}) && SomeIn(s, r, {Signed}) && SomeIn(s, r, {Waiting, Viewed}))
    && (r.status == Completed ==> AllIn(s, r, {Signed}))
    && (SomeIn(s, r, {Declined}) ==> r.status == Cancelled)
    && (r.status == Completed <==> r.completedAt.Some?)
    && (r.status == Completed <==> r.certified)
    && r.status != Expired
  }

  ghost predicate OwnsSigners(s: Store, id: Uuid)
    requires id in s.requests
  {
    var tokens := s.requests[id].signers;
    tokens != [] && Distinct(tokens) && forall t :: t in tokens ==> t in s.signers && s.signers[t].requestId == id
  }

  /** The trail gives the status of request id, and has a completion entry exactly when it is completed. */
  ghost predicate TrailTellsRequest(s: Store, id: Uuid)
    requires id in s.requests
  {
    FoldRequest(s.trail, id) == s.requests[id].status
    && Count(s.trail, Entry(id, None, CompletedAction)) == if s.requests[id].status == Completed then 1 else 0
  }

  /** The trail gives the status of a signer, and has one signature entry exactly when it has signed. */
  ghost predicate TrailTellsSigner(s: Store, t: string)
    requires t in s.signers
  {
    FoldSigner(s.trail, t) == s.signers[t].status
    && Count(s.trail, Entry(s.signers[t].requestId, Some(t), SignedAction))
       == if s.signers[t].status == Signed then 1 else 0
  }

  ghost predicate RequestOk(s: Store, id: Uuid) {
    id in s.requests ==> OwnsSigners(s, id) && Coupled(s, s.requests[id]) && TrailTellsRequest(s, id)
  }

  ghost predicate SignerOk(s: Store, t: string) {
    t in s.signers ==>
      s.signers[t].requestId in s.requests && t in s.requests[s.signers[t].requestId].signers && TrailTellsSigner(s, t)
  }

  ghost predicate EntryOk(s: Store, e: Entry) {
    e.requestId in s.requests && e.action != ExpiredAction
    && (e.signer.Some? ==> e.signer.value in s.signers && s.signers[e.signer.value].requestId == e.requestId)
  }

  ghost predicate Invariant(s: Store) {
    (forall id :: RequestOk(s, id)) && (forall t :: SignerOk(s, t)) && forall e :: e in s.trail ==> EntryOk(s, e)
  }

  lemma InvariantSigners(s: Store)
    requires Invariant(s)
    ensures SignersExist(s)
  {
    forall id, t | id in s.requests && t in s.requests[id].signers ensures t in s.signers {
      assert RequestOk(s, id);
    }
  }

  // Facts about folding

  lemma FoldLog(trail: seq<Entry>, e: Entry, id: Uuid, t: string, x: Entry)
    ensures FoldRequest(trail + [e], id) == NextRequest(FoldRequest(trail, id), e, id)
    ensures FoldSigner(trail + [e], t) == NextSigner(FoldSigner(trail, t), e, t)
    ensures Count(trail + [e], x) == Count(trail, x) + if x == e then 1 else 0
  {
    assert (trail + [e])[..|trail|] == trail;
  }

  /** Entries about other requests and other signers say nothing about this one. */
  lemma {:induction false} FoldOther(trail: seq<Entry>, added: seq<Entry>, id: Uuid, t: string, x: Entry)
    ensures (forall e :: e in added ==> e.requestId != id) ==> FoldRequest(trail + added, id) == FoldRequest(trail, id)
    ensures (forall e :: e in added ==> e.signer != Some(t) || e.action == SentAction) ==>
              FoldSigner(trail + added, t) == FoldSigner(trail, t)
    ensures x !in added ==> Count(trail + added, x) == Count(trail, x)
  {
    if added == [] {
      assert trail + added == trail;
    } else {
      var init, last := added[..|added| - 1], added[|added| - 1];
      FoldOther(trail, init, id, t, x);
      FoldLog(trail + init, last, id, t, x);
      assert trail + added == (trail + init) + [last];
      assert last in added && forall e :: e in init ==> e in added;
    }
  }

  lemma {:induction false} FoldSent(trail: seq<Entry>, added: seq<Entry>, id: Uuid)
    requires added != [] && forall e :: e in added ==> e.requestId == id && e.action == SentAction
    ensures FoldRequest(trail + added, id) == Pending
  {
    var init, last := added[..|added| - 1], added[|added| - 1];
    FoldLog(trail + init, last, id, "", last);
    assert trail + added == (trail + init) + [last];
    assert last in added;
  }

  /** A name that no entry mentions has the status it starts with. */
  lemma {:induction false} FoldUnmentioned(trail: seq<Entry>, id: Uuid, t: string, x: Entry)
    ensures (forall e :: e in trail ==> e.requestId != id) ==> FoldRequest(trail, id) == Draft
    ensures (forall e :: e in trail ==> e.signer != Some(t)) ==> FoldSigner(trail, t) == Waiting
    ensures x !in trail ==> Count(trail, x) == 0
  {
    if trail != [] {
      FoldUnmentioned(trail[..|trail| - 1], id, t, x);
      assert trail[|trail| - 1] in trail;
    }
  }

  // Every committed request keeps the invariant

  /** after differs from s only in request id, its signers, and new entries about them. */
  ghost predicate TouchesOnly(s: Store, after: Store, id: Uuid, added: seq<Entry>) {
    (forall x :: x != id ==>
        (x in after.requests <==> x in s.requests) && (x in s.requests ==> after.requests[x] == s.requests[x]))
    && id in after.requests
    && (forall t :: t in s.signers ==> t in after.signers && after.signers[t].requestId == s.signers[t].requestId
                                       && (s.signers[t].requestId != id ==> after.signers[t] == s.signers[t]))
    && (forall t :: t in after.signers && t !in s.signers ==> after.signers[t].requestId == id)
    && after.trail == s.trail + added
    && (forall e :: e in added ==> e.requestId == id && EntryOk(after, e))
  }

  lemma OtherRequest(s: Store, after: Store, id: Uuid, added: seq<Entry>, x: Uuid)
    requires Invariant(s) && TouchesOnly(s, after, id, added) && x != id
    ensures RequestOk(after, x)
  {
    assert RequestOk(s, x);
    if x in s.requests {
      FoldOther(s.trail, added, x, "", Entry(x, None, CompletedAction));
      OtherCoupled(s, after, s.requests[x]);
    }
  }

  lemma OtherCoupled(s: Store, after: Store, r: SignatureRequest)
    requires Coupled(s, r)
    requires forall t :: t in r.signers ==> t in s.signers && t in after.signers && after.signers[t] == s.signers[t]
    ensures Coupled(after, r)
  {
    assert forall w :: SomeIn(s, r, w) <==> SomeIn(after, r, w);
  }

  lemma OtherSigner(s: Store, after: Store, id: Uuid, added: seq<Entry>, t: string)
    requires Invariant(s) && TouchesOnly(s, after, id, added)
    requires t in s.signers && s.signers[t].requestId != id
    ensures SignerOk(after, t)
  {
    assert SignerOk(s, t);
    forall e | e in added ensures e.signer != Some(t) {
      assert EntryOk(after, e);
    }
    FoldOther(s.trail, added, id, t, Entry(s.signers[t].requestId, Some(t), SignedAction));
  }

  /** It is enough to look at the request a call is about. */
  lemma Assemble(s: Store, after: Store, id: Uuid, added: seq<Entry>)
    requires Invariant(s) && TouchesOnly(s, after, id, added)
    requires RequestOk(after, id) && forall t ::
        t in after.signers && after.signers[t].requestId == id ==> SignerOk(after, t)
    ensures Invariant(after)
  {
    forall x ensures RequestOk(after, x) {
      if x != id { OtherRequest(s, after, id, added, x); }
    }
    forall t ensures SignerOk(after, t) {
      if t in after.signers && after.signers[t].requestId != id { OtherSigner(s, after, id, added, t); }
    }
    forall e | e in after.trail ensures EntryOk(after, e) {
      if e in s.trail {
        assert EntryOk(s, e);
      } else {
        assert e in added;
      }
    }
  }

  /** Nothing mentions a request or a signer before they are created. */
  lemma Unmentioned(s: Store, id: Uuid, tokens: seq<string>)
    requires Invariant(s) && id !in s.requests && forall t :: t in tokens ==> t !in s.signers
    ensures forall x :: x in s.trail ==> x.requestId != id && (x.signer.Some? ==> x.signer.value !in tokens)
    ensures forall t :: t in s.signers ==> s.signers[t].requestId != id
  {
    forall x | x in s.trail ensures x.requestId != id && (x.signer.Some? ==> x.signer.value !in tokens) {
      assert EntryOk(s, x);
    }
    forall t | t in s.signers ensures s.signers[t].requestId != id {
      assert SignerOk(s, t);
    }
  }

  lemma NewSignerOk(s: Store, id: Uuid, tokens: seq<string>, expiresAt: Option<int>, t: string)
    requires Invariant(s) && CreateCall(s, id, tokens, expiresAt).1.Committed? && t in tokens
    ensures SignerOk(CreateCall(s, id, tokens, expiresAt).0, t)
  {
    Unmentioned(s, id, tokens);
    var x := Entry(id, Some(t), SignedAction);
    FoldUnmentioned(s.trail, id, t, x);
    FoldLog(s.trail, Entry(id, None, CreatedAction), id, t, x);
  }

  lemma NewRequestOk(s: Store, id: Uuid, tokens: seq<string>, expiresAt: Option<int>)
    requires Invariant(s) && CreateCall(s, id, tokens, expiresAt).1.Committed?
    ensures RequestOk(CreateCall(s, id, tokens, expiresAt).0, id)
  {
    Unmentioned(s, id, tokens);
    var x := Entry(id, None, CompletedAction);
    FoldUnmentioned(s.trail, id, "", x);
    FoldLog(s.trail, Entry(id, None, CreatedAction), id, "", x);
  }

  lemma CreateKeeps(s: Store, id: Uuid, tokens: seq<string>, expiresAt: Option<int>)
    requires Invariant(s) && CreateCall(s, id, tokens, expiresAt).1.Committed?
    ensures Invariant(CreateCall(s, id, tokens, expiresAt).0)
  {
    var after := CreateCall(s, id, tokens, expiresAt).0;
    Unmentioned(s, id, tokens);
    NewRequestOk(s, id, tokens, expiresAt);
    forall t | t in after.signers && after.signers[t].requestId == id ensures SignerOk(after, t) {
      NewSignerOk(s, id, tokens, expiresAt, t);
    }
    assert TouchesOnly(s, after, id, [Entry(id, None, CreatedAction)]);
    Assemble(s, after, id, [Entry(id, None, CreatedAction)]);
  }

  /** The entries of a sending are about this request and its signers. */
  lemma SentEntriesOk(s: Store, id: Uuid)
    requires Invariant(s) && SendCall(s, id).1.Committed?
    ensures var added := SentEntries(id, s.requests[id].signers);
            added != [] && forall e :: e in added ==>
              e.requestId == id && e.action == SentAction && e.signer.Some? && EntryOk(SendCall(s, id).0, e)
  {
    var r := s.requests[id];
    var added := SentEntries(id, r.signers);
    assert RequestOk(s, id);
    forall e | e in added
      ensures e.requestId == id && e.action == SentAction && e.signer.Some? && EntryOk(SendCall(s, id).0, e)
    {
      var i :| 0 <= i < |added| && added[i] == e;
      assert r.signers[i] in r.signers;
    }
  }

  lemma SentRequestOk(s: Store, id: Uuid)
    requires Invariant(s) && SendCall(s, id).1.Committed?
    ensures RequestOk(SendCall(s, id).0, id)
  {
    var added := SentEntries(id, s.requests[id].signers);
    assert RequestOk(s, id);
    SentEntriesOk(s, id);
    FoldSent(s.trail, added, id);
    FoldOther(s.trail, added, id, "", Entry(id, None, CompletedAction));
  }

  lemma SentSignerOk(s: Store, id: Uuid, t: string)
    requires Invariant(s) && SendCall(s, id).1.Committed? && t in s.signers && s.signers[t].requestId == id
    ensures SignerOk(SendCall(s, id).0, t)
  {
    assert SignerOk(s, t);
    SentEntriesOk(s, id);
    FoldOther(s.trail, SentEntries(id, s.requests[id].signers), id, t, Entry(id, Some(t), SignedAction));
  }

  lemma SendKeeps(s: Store, id: Uuid)
    requires Invariant(s) && SendCall(s, id).1.Committed?
    ensures Invariant(SendCall(s, id).0)
  {
    var after := SendCall(s, id).0;
    var added := SentEntries(id, s.requests[id].signers);
    SentRequestOk(s, id);
    SentEntriesOk(s, id);
    forall t | t in after.signers && after.signers[t].requestId == id ensures SignerOk(after, t) {
      SentSignerOk(s, id, t);
    }
    assert TouchesOnly(s, after, id, added);
    Assemble(s, after, id, added);
  }

  /** A signer's act: one request row, one signer row, and new entries. */
  function Update(s: Store, id: Uuid, r: SignatureRequest, token: string, g: Signer, added: seq<Entry>): Store {
    Store(s.requests[id := r], s.signers[token := g], s.trail + added)
  }

  lemma UpdateTouchesOnly(s: Store, id: Uuid, r: SignatureRequest, token: string, g: Signer, added: seq<Entry>)
    requires Invariant(s) && token in s.signers && s.signers[token].requestId == id && g.requestId == id
    requires forall e :: e in added ==>
               e.requestId == id && e.action != ExpiredAction && (e.signer == Some(token) || e.signer == None)
    ensures TouchesOnly(s, Update(s, id, r, token, g, added), id, added)
  {
    assert SignerOk(s, token);
  }

  /** The other signers of a request are not affected by what one signer does. */
  lemma OneSignerActs(s: Store, id: Uuid, r: SignatureRequest, token: string, g: Signer, added: seq<Entry>)
    requires Invariant(s) && token in s.signers && s.signers[token].requestId == id && g.requestId == id
    requires forall e :: e in added ==>
               e.requestId == id && e.action != ExpiredAction && (e.signer == Some(token) || e.signer == None)
    requires id in s.requests && r.signers == s.requests[id].signers
    requires var after := Update(s, id, r, token, g, added);
             Coupled(after, r) && TrailTellsRequest(after, id) && TrailTellsSigner(after, token)
    ensures Invariant(Update(s, id, r, token, g, added))
  {
    var after := Update(s, id, r, token, g, added);
    UpdateTouchesOnly(s, id, r, token, g, added);
    assert RequestOk(s, id);
    assert OwnsSigners(after, id);
    forall t | t in after.signers && after.signers[t].requestId == id ensures SignerOk(after, t) {
      assert SignerOk(s, t);
      if t != token {
        FoldOther(s.trail, added, id, t, Entry(id, Some(t), SignedAction));
      }
    }
    Assemble(s, after, id, added);
  }

  lemma ViewKeeps(s: Store, token: string, now: int, documentFound: bool)
    requires Invariant(s) && ViewCall(s, token, now, documentFound).1.Committed?
    ensures Invariant(ViewCall(s, token, now, documentFound).0)
  {
    var after := ViewCall(s, token, now, documentFound).0;
    if s.signers[token].status == Waiting {
      var id := s.signers[token].requestId;
      var e := Entry(id, Some(token), ViewedAction);
      assert RequestOk(s, id) && SignerOk(s, token);
      FoldLog(s.trail, e, id, token, Entry(id, None, CompletedAction));
      FoldLog(s.trail, e, id, token, Entry(id, Some(token), SignedAction));
      ViewedStaysCoupled(s, after, id, token);
      assert after == Update(s, id, after.requests[id], token, after.signers[token], [e]);
      OneSignerActs(s, id, after.requests[id], token, after.signers[token], [e]);
    }
  }

  lemma ViewedStaysCoupled(s: Store, after: Store, id: Uuid, token: string)
    requires id in s.requests && OwnsSigners(s, id) && Coupled(s, s.requests[id]) && IsOpen(s.requests[id].status)
    requires token in s.requests[id].signers && s.signers[token].status == Waiting
    requires after.signers == s.signers[token := s.signers[token].(status := Viewed)]
    ensures Coupled(after, s.requests[id])
  {
    var r := s.requests[id];
    if r.status == PartiallySigned {
      var t :| t in r.signers && s.signers[t].status in {Signed};
      assert t in after.signers && after.signers[t].status in {Signed};
      assert token in after.signers && after.signers[token].status in {Waiting, Viewed};
    }
  }

  lemma FoldTwo(trail: seq<Entry>, e: Entry, d: Entry, id: Uuid, t: string, x: Entry)
    ensures FoldRequest(trail + [e, d], id) == NextRequest(NextRequest(FoldRequest(trail, id), e, id), d, id)
    ensures FoldSigner(trail + [e, d], t) == NextSigner(NextSigner(FoldSigner(trail, t), e, t), d, t)
    ensures Count(trail + [e, d], x) == Count(trail, x) + (if x == e then 1 else 0) + if x == d then 1 else 0
  {
    assert trail + [e] + [d] == trail + [e, d];
    FoldLog(trail, e, id, t, x);
    FoldLog(trail + [e], d, id, t, x);
  }

  lemma SignKeeps(s: Store, token: string, now: int, certificateStored: bool)
    requires SignersExist(s) && Invariant(s) && SignCall(s, token, now, certificateStored).1.Committed?
    ensures Invariant(SignCall(s, token, now, certificateStored).0)
  {
    var id := s.signers[token].requestId;
    assert RequestOk(s, id) && SignerOk(s, token);
    if OthersSigned(s, id, token) {
      LastSignatureKeeps(s, token, now);
    } else {
      EarlierSignatureKeeps(s, token, now);
    }
  }

  lemma EarlierSignatureKeeps(s: Store, token: string, now: int)
    requires SignersExist(s) && Invariant(s) && SignCall(s, token, now, true).1.Committed?
    requires !OthersSigned(s, s.signers[token].requestId, token)
    ensures Invariant(SignCall(s, token, now, true).0)
  {
    var after := SignCall(s, token, now, true).0;
    var id := s.signers[token].requestId;
    var e := Entry(id, Some(token), SignedAction);
    assert RequestOk(s, id) && SignerOk(s, token);
    FoldLog(s.trail, e, id, token, Entry(id, None, CompletedAction));
    FoldLog(s.trail, e, id, token, e);
    SignedIsCoupled(s, after, id, token, now);
    OneSignerActs(s, id, after.requests[id], token, after.signers[token], [e]);
  }

  lemma LastSignatureTrail(s: Store, token: string, now: int)
    requires SignersExist(s) && Invariant(s) && SignCall(s, token, now, true).1.Committed?
    requires OthersSigned(s, s.signers[token].requestId, token)
    ensures var after, id := SignCall(s, token, now, true).0, s.signers[token].requestId;
            && after.trail == s.trail + [Entry(id, Some(token), SignedAction), Entry(id, None, CompletedAction)]
            && TrailTellsRequest(after, id) && TrailTellsSigner(after, token)
  {
    var id := s.signers[token].requestId;
    var e, done := Entry(id, Some(token), SignedAction), Entry(id, None, CompletedAction);
    assert RequestOk(s, id) && SignerOk(s, token);
    assert s.trail + [e] + [done] == s.trail + [e, done];
    FoldTwo(s.trail, e, done, id, token, done);
    FoldTwo(s.trail, e, done, id, token, e);
  }

  lemma LastSignatureKeeps(s: Store, token: string, now: int)
    requires SignersExist(s) && Invariant(s) && SignCall(s, token, now, true).1.Committed?
    requires OthersSigned(s, s.signers[token].requestId, token)
    ensures Invariant(SignCall(s, token, now, true).0)
  {
    var after := SignCall(s, token, now, true).0;
    var id := s.signers[token].requestId;
    var e, done := Entry(id, Some(token), SignedAction), Entry(id, None, CompletedAction);
    assert RequestOk(s, id) && SignerOk(s, token);
    LastSignatureTrail(s, token, now);
    SignedIsCoupled(s, after, id, token, now);
    assert after == Update(s, id, after.requests[id], token, after.signers[token], [e, done]);
    OneSignerActs(s, id, after.requests[id], token, after.signers[token], [e, done]);
  }

  lemma SignedIsCoupled(s: Store, after: Store, id: Uuid, token: string, now: int)
    requires SignersExist(s)
    requires id in s.requests && OwnsSigners(s, id) && Coupled(s, s.requests[id]) && IsOpen(s.requests[id].status)
    requires token in s.requests[id].signers && id in after.requests
    requires after.signers == s.signers[token := s.signers[token].(status := Signed, signedAt := Some(now))]
    requires after.requests[id] ==
             if OthersSigned(s, id, token)
             then s.requests[id].(status := Completed, completedAt := Some(now), certified := true)
             else s.requests[id].(status := PartiallySigned)
    ensures Coupled(after, after.requests[id])
  {
    var r := s.requests[id];
    forall t | t in r.signers ensures s.signers[t].status != Declined {
      assert !SomeIn(s, r, {Declined});
      assert s.signers[t].status !in {Declined};
    }
    assert token in after.signers && after.signers[token].status in {Signed};
    if !OthersSigned(s, id, token) {
      var t :| t in r.signers && s.signers[t].status != Signed && t != token;
      assert t in after.signers && after.signers[t].status in {Waiting, Viewed};
    }
  }

  lemma DeclinedIsCoupled(s: Store, after: Store, id: Uuid)
    requires id in s.requests && Coupled(s, s.requests[id]) && s.requests[id].status != Completed
    requires id in after.requests && after.requests[id] == s.requests[id].(status := Cancelled)
    ensures Coupled(after, after.requests[id])
  {
  }

  lemma DeclinedTrail(s: Store, token: string, reason: string)
    requires Invariant(s) && DeclineCall(s, token, reason).1.Committed?
    ensures var after, id := DeclineCall(s, token, reason).0, s.signers[token].requestId;
            && after.trail == s.trail + [Entry(id, Some(token), DeclinedAction), Entry(id, None, CancelledAction)]
            && TrailTellsRequest(after, id) && TrailTellsSigner(after, token)
  {
    var id := s.signers[token].requestId;
    var e, done := Entry(id, Some(token), DeclinedAction), Entry(id, None, CancelledAction);
    assert RequestOk(s, id) && SignerOk(s, token);
    assert s.trail + [e] + [done] == s.trail + [e, done];
    FoldTwo(s.trail, e, done, id, token, Entry(id, None, CompletedAction));
    FoldTwo(s.trail, e, done, id, token, Entry(id, Some(token), SignedAction));
  }

  lemma DeclineKeeps(s: Store, token: string, reason: string)
    requires Invariant(s) && DeclineCall(s, token, reason).1.Committed?
    ensures Invariant(DeclineCall(s, token, reason).0)
  {
    var after := DeclineCall(s, token, reason).0;
    var id := s.signers[token].requestId;
    var e, done := Entry(id, Some(token), DeclinedAction), Entry(id, None, CancelledAction);
    assert RequestOk(s, id) && SignerOk(s, token);
    DeclinedTrail(s, token, reason);
    DeclinedIsCoupled(s, after, id);
    assert after == Update(s, id, after.requests[id], token, after.signers[token], [e, done]);
    OneSignerActs(s, id, after.requests[id], token, after.signers[token], [e, done]);
  }

  lemma CancelledRequestOk(s: Store, id: Uuid)
    requires Invariant(s) && CancelCall(s, id).1.Committed?
    ensures RequestOk(CancelCall(s, id).0, id)
  {
    assert RequestOk(s, id);
    FoldLog(s.trail, Entry(id, None, CancelledAction), id, "", Entry(id, None, CompletedAction));
  }

  lemma CancelledSignerOk(s: Store, id: Uuid, t: string)
    requires Invariant(s) && CancelCall(s, id).1.Committed? && t in s.signers && s.signers[t].requestId == id
    ensures SignerOk(CancelCall(s, id).0, t)
  {
    assert SignerOk(s, t);
    FoldLog(s.trail, Entry(id, None, CancelledAction), id, t, Entry(id, Some(t), SignedAction));
  }

  lemma CancelKeeps(s: Store, id: Uuid)
    requires Invariant(s) && CancelCall(s, id).1.Committed?
    ensures Invariant(CancelCall(s, id).0)
  {
    var after := CancelCall(s, id).0;
    CancelledRequestOk(s, id);
    forall t | t in after.signers && after.signers[t].requestId == id ensures SignerOk(after, t) {
      CancelledSignerOk(s, id, t);
    }
    var added := [Entry(id, None, CancelledAction)];
    assert TouchesOnly(s, after, id, added);
    Assemble(s, after, id, added);
  }

  /** Coupling, the event log and the foreign keys survive every request, committed or rolled back. */
  lemma StepKeeps(s: Store, c: Call)
    requires SignersExist(s) && Invariant(s)
    ensures Invariant(Step(s, c))
  {
    if Serve(s, c).1.Committed? {
      match c
      case Create(id, tokens, expiresAt) => CreateKeeps(s, id, tokens, expiresAt);
      case Send(id) => SendKeeps(s, id);
      case View(token, now, documentFound) => ViewKeeps(s, token, now, documentFound);
      case Sign(token, now, certificateStored) => SignKeeps(s, token, now, certificateStored);
      case Decline(token, reason) => DeclineKeeps(s, token, reason);
      case Cancel(id) => CancelKeeps(s, id);
    }
  }

  // Progress

  function StatusRank(status: RequestStatus): nat {
    match status
    case Draft => 2
    case Pending | PartiallySigned => 1
    case _ => 0
  }

  function SignerRank(status: SignerStatus): nat {
    match status
    case Waiting => 2
    case Viewed => 1
    case _ => 0
  }

  function SignersRank(signers: map<string, Signer>, tokens: seq<string>): nat
    requires forall t :: t in tokens ==> t in signers
  {
    if tokens == [] then 0 else SignerRank(signers[tokens[0]].status) + SignersRank(signers, tokens[1..])
  }

  /** How many more steps can change request id: at most two, and two for each signer. */
  ghost function Measure(s: Store, id: Uuid): nat
    requires id in s.requests && SignersExist(s)
  {
    StatusRank(s.requests[id].status) + SignersRank(s.signers, s.requests[id].signers)
  }

  /** The request row, or the row of one of its signers, differs. */
  ghost predicate Changed(s: Store, after: Store, id: Uuid)
    requires id in s.requests
  {
    id !in after.requests || after.requests[id] != s.requests[id]
    || exists t :: t in s.requests[id].signers && t in s.signers
        && (t !in after.signers || after.signers[t] != s.signers[t])
  }

  lemma {:induction false} RankFrame(a: map<string, Signer>, b: map<string, Signer>, tokens: seq<string>)
    requires forall t :: t in tokens ==> t in a && t in b && a[t] == b[t]
    ensures SignersRank(a, tokens) == SignersRank(b, tokens)
  {
    if tokens != [] { RankFrame(a, b, tokens[1..]); }
  }

  lemma {:induction false} RankDrops(a: map<string, Signer>, b: map<string, Signer>, tokens: seq<string>, token: string)
    requires token in tokens && forall t :: t in tokens ==> t in a && t in b && (t != token ==> a[t] == b[t])
    requires SignerRank(b[token].status) < SignerRank(a[token].status)
    ensures SignersRank(b, tokens) < SignersRank(a, tokens)
  {
    if token in tokens[1..] {
      RankDrops(a, b, tokens[1..], token);
    } else {
      RankFrame(a, b, tokens[1..]);
    }
  }

  lemma {:induction false} RankBound(a: map<string, Signer>, tokens: seq<string>)
    requires forall t :: t in tokens ==> t in a
    ensures SignersRank(a, tokens) <= 2 * |tokens|
  {
    if tokens != [] { RankBound(a, tokens[1..]); }
  }

  /** Either nothing of request id changed, or its measure went down. */
  ghost predicate Advances(s: Store, after: Store, id: Uuid)
    requires id in s.requests && SignersExist(s) && id in after.requests && SignersExist(after)
  {
    if Changed(s, after, id) then Measure(after, id) < Measure(s, id) else Measure(after, id) == Measure(s, id)
  }

  lemma UpdateAdvances(s: Store, id: Uuid, act: Uuid, r: SignatureRequest, token: string, g: Signer, added: seq<Entry>)
    requires SignersExist(s) && id in s.requests && act in s.requests && r.signers == s.requests[act].signers
    requires forall t :: t in s.requests[id].signers ==> s.signers[t].requestId == id
    requires token in s.requests[act].signers && s.signers[token].requestId == act
    requires SignerRank(g.status) < SignerRank(s.signers[token].status)
    requires StatusRank(r.status) <= StatusRank(s.requests[act].status)
    requires SignersExist(Update(s, act, r, token, g, added))
    ensures Advances(s, Update(s, act, r, token, g, added), id)
  {
    var tokens := s.requests[id].signers;
    var signers := s.signers[token := g];
    if id == act {
      RankDrops(s.signers, signers, tokens, token);
    } else {
      RankFrame(s.signers, signers, tokens);
    }
  }

  lemma StatusAdvances(s: Store, after: Store, id: Uuid)
    requires SignersExist(s) && id in s.requests && SignersExist(after) && id in after.requests
    requires after.requests[id] == s.requests[id]
             || (after.requests[id].signers == s.requests[id].signers
                 && StatusRank(after.requests[id].status) < StatusRank(s.requests[id].status))
    requires forall t :: t in s.requests[id].signers ==> t in after.signers && after.signers[t] == s.signers[t]
    ensures Advances(s, after, id)
  {
    RankFrame(s.signers, after.signers, s.requests[id].signers);
  }

  lemma SignerAdvances(s: Store, c: Call, id: Uuid)
    requires SignersExist(s) && Invariant(s) && id in s.requests && (c.View? || c.Sign? || c.Decline?)
    requires Serve(s, c).1.Committed? && SignersExist(Serve(s, c).0)
    ensures id in Serve(s, c).0.requests && Advances(s, Serve(s, c).0, id)
  {
    var after := Serve(s, c).0;
    var act := s.signers[c.token].requestId;
    assert RequestOk(s, id) && SignerOk(s, c.token);
    if after == s {
      StatusAdvances(s, after, id);
    } else {
      var added := after.trail[|s.trail|..];
      assert after == Update(s, act, after.requests[act], c.token, after.signers[c.token], added);
      UpdateAdvances(s, id, act, after.requests[act], c.token, after.signers[c.token], added);
    }
  }

  lemma RequestAdvances(s: Store, c: Call, id: Uuid)
    requires SignersExist(s) && Invariant(s) && id in s.requests && (c.Create? || c.Send? || c.Cancel?)
    requires Serve(s, c).1.Committed? && SignersExist(Serve(s, c).0)
    ensures id in Serve(s, c).0.requests && Advances(s, Serve(s, c).0, id)
  {
    assert RequestOk(s, id);
    StatusAdvances(s, Serve(s, c).0, id);
  }

  /** A request to the service leaves signature request id alone or brings it strictly closer to its end. */
  lemma StepAdvances(s: Store, c: Call, id: Uuid)
    requires SignersExist(s) && Invariant(s) && id in s.requests
    ensures SignersExist(Step(s, c)) && id in Step(s, c).requests && Advances(s, Step(s, c), id)
  {
    StepKeeps(s, c);
    InvariantSigners(Step(s, c));
    if Serve(s, c).1.Raised? {
      StatusAdvances(s, s, id);
    } else if c.View? || c.Sign? || c.Decline? {
      SignerAdvances(s, c, id);
    } else {
      RequestAdvances(s, c, id);
    }
  }

  // Runs

  ghost function Run(s: Store, calls: seq<Call>): (r: Store)
    requires SignersExist(s) && Invariant(s)
    ensures SignersExist(r) && Invariant(r)
    decreases |calls|
  {
    if calls == [] then s else
      StepKeeps(s, calls[0]);
      InvariantSigners(Step(s, calls[0]));
      Run(Step(s, calls[0]), calls[1..])
  }

  lemma NothingIsFine()
    ensures SignersExist(NOTHING) && Invariant(NOTHING)
  {
  }

  /** In every reachable state the status of a request tells about its signers, and the trail tells every status. */
  lemma ReachableStates(calls: seq<Call>)
    ensures SignersExist(NOTHING) && Invariant(NOTHING)
    ensures var s := Run(NOTHING, calls);
            && (forall id :: id in s.requests ==> Coupled(s, s.requests[id]) && TrailTellsRequest(s, id))
            && (forall t :: t in s.signers ==> TrailTellsSigner(s, t))
            && forall e :: e in s.trail ==> e.action != ExpiredAction
  {
    NothingIsFine();
    var s := Run(NOTHING, calls);
    forall id | id in s.requests ensures Coupled(s, s.requests[id]) && TrailTellsRequest(s, id) {
      assert RequestOk(s, id);
    }
    forall t | t in s.signers ensures TrailTellsSigner(s, t) {
      assert SignerOk(s, t);
    }
    forall e | e in s.trail ensures e.action != ExpiredAction {
      assert EntryOk(s, e);
    }
  }

  /** How many calls of a run change request id. */
  ghost function Changes(s: Store, calls: seq<Call>, id: Uuid): nat
    requires SignersExist(s) && Invariant(s) && id in s.requests
    decreases |calls|
  {
    if calls == [] then 0 else
      StepKeeps(s, calls[0]);
      StepAdvances(s, calls[0], id);
      var after := Step(s, calls[0]);
      (if Changed(s, after, id) then 1 else 0) + Changes(after, calls[1..], id)
  }

  /** However long the run, a request changes at most twice, and twice more for each signer. */
  lemma {:induction false} ChangesAreBounded(s: Store, calls: seq<Call>, id: Uuid)
    requires SignersExist(s) && Invariant(s) && id in s.requests
    ensures Changes(s, calls, id) <= Measure(s, id) <= 2 + 2 * |s.requests[id].signers|
    decreases |calls|
  {
    RankBound(s.signers, s.requests[id].signers);
    if calls != [] {
      StepKeeps(s, calls[0]);
      StepAdvances(s, calls[0], id);
      ChangesAreBounded(Step(s, calls[0]), calls[1..], id);
    }
  }

  predicate IsFinal(status: RequestStatus) { status in {Completed, Cancelled} }

  /** Nothing about a completed or cancelled request changes any more. */
  lemma FinalStep(s: Store, c: Call, id: Uuid)
    requires SignersExist(s) && Invariant(s) && id in s.requests && IsFinal(s.requests[id].status)
    ensures !Changed(s, Step(s, c), id)
  {
    assert RequestOk(s, id);
    if (c.View? || c.Sign? || c.Decline?) && c.token in s.signers {
      assert SignerOk(s, c.token);
    }
  }

  lemma {:induction false} FinalForever(s: Store, calls: seq<Call>, id: Uuid)
    requires SignersExist(s) && Invariant(s) && id in s.requests && IsFinal(s.requests[id].status)
    ensures !Changed(s, Run(s, calls), id)
    decreases |calls|
  {
    if calls != [] {
      var after := Step(s, calls[0]);
      FinalStep(s, calls[0], id);
      StepKeeps(s, calls[0]);
      InvariantSigners(after);
      FinalForever(after, calls[1..], id);
      assert RequestOk(s, id);
    }
  }

  // What each request does, told on the tables alone

  /** The request is sent, not finished, and its expiry, if any, is not before now. */
  ghost predicate OpenAt(r: SignatureRequest, now: int) {
    (r.status == Pending || r.status == PartiallySigned) && (r.expiresAt == None || now <= r.expiresAt.value)
  }

  /** Of this request everybody but the holder of the token has signed. */
  ghost predicate LastToSign(s: Store, r: SignatureRequest, token: string)
    requires SignersExist(s) && r in s.requests.Values
  {
    forall t :: t in r.signers && t != token ==> s.signers[t].status == Signed
  }

  ghost predicate HasRequest(s: Store, token: string) {
    token in s.signers && s.signers[token].requestId in s.requests
  }

  /** A new draft with its waiting signers; refused without signers, and for keys that are taken or repeated. */
  lemma CreateOutcome(s: Store, id: Uuid, tokens: seq<string>, expiresAt: Option<int>)
    requires SignersExist(s)
    ensures Serve(s, Create(id, tokens, expiresAt)).1.Committed? <==>
              tokens != [] && id !in s.requests && (forall t :: t in tokens ==> t !in s.signers)
              && forall i, j :: 0 <= i < |tokens| && 0 <= j < |tokens| && tokens[i] == tokens[j] ==> i == j
    ensures var after := Step(s, Create(id, tokens, expiresAt));
            if Serve(s, Create(id, tokens, expiresAt)).1.Committed? then
              && after.requests == s.requests[id := SignatureRequest(Draft, expiresAt, None, false, tokens)]
              && (forall t :: t in after.signers <==> t in s.signers || t in tokens)
              && (forall t :: t in s.signers ==> after.signers[t] == s.signers[t])
              && (forall t :: t in tokens ==> after.signers[t] == Signer(id, Waiting, None, ""))
              && after.trail == s.trail + [Entry(id, None, CreatedAction)]
            else after == s
  {
  }

  /** Exactly drafts are sent: the request is pending, and every signer has a sent entry, in order. */
  lemma SendOutcome(s: Store, id: Uuid)
    requires SignersExist(s)
    ensures Serve(s, Send(id)).1.Committed? <==> id in s.requests && s.requests[id].status == Draft
    ensures var after := Step(s, Send(id));
            if Serve(s, Send(id)).1.Committed? then
              var tokens := s.requests[id].signers;
              && after.requests == s.requests[id := s.requests[id].(status := Pending)] && after.signers == s.signers
              && |after.trail| == |s.trail| + |tokens| && after.trail[..|s.trail|] == s.trail
              && forall i :: 0 <= i < |tokens| ==> after.trail[|s.trail| + i] == Entry(id, Some(tokens[i]), SentAction)
            else after == s
  {
  }

  /** The page opens exactly for open, unexpired requests; then a waiting signer has viewed, any other is the same. */
  lemma ViewOutcome(s: Store, token: string, now: int, documentFound: bool)
    requires SignersExist(s)
    ensures Serve(s, View(token, now, documentFound)).1.Committed? <==>
              documentFound && HasRequest(s, token) && OpenAt(s.requests[s.signers[token].requestId], now)
    ensures var after, c := Step(s, View(token, now, documentFound)), Serve(s, View(token, now, documentFound)).1;
            if c.Committed? && s.signers[token].status == Waiting then
              && after.requests == s.requests
              && after.signers == s.signers[token := s.signers[token].(status := Viewed)]
              && after.trail == s.trail + [Entry(s.signers[token].requestId, Some(token), ViewedAction)]
            else after == s
  {
  }

  /** A signature is taken exactly from a waiting or viewed signer of an open, unexpired request, and, when it is the
      last one, only if the certificate is stored. */
  lemma SignCommitsIff(s: Store, token: string, now: int, certificateStored: bool)
    requires SignersExist(s)
    ensures Serve(s, Sign(token, now, certificateStored)).1.Committed? <==>
              && HasRequest(s, token) && OpenAt(s.requests[s.signers[token].requestId], now)
              && (s.signers[token].status == Waiting || s.signers[token].status == Viewed)
              && (LastToSign(s, s.requests[s.signers[token].requestId], token) ==> certificateStored)
    ensures Serve(s, Sign(token, now, certificateStored)).1.Raised? ==>
              Step(s, Sign(token, now, certificateStored)) == s
    ensures Serve(s, Sign(token, now, certificateStored)).1 == Raised(HasExpired) <==>
              HasRequest(s, token) && s.requests[s.signers[token].requestId].expiresAt.Some?
              && s.requests[s.signers[token].requestId].expiresAt.value < now
  {
  }

  /** The signer has signed at now; the request is completed at now exactly when that was the last signature. */
  lemma SignEffect(s: Store, token: string, now: int, certificateStored: bool)
    requires SignersExist(s) && Serve(s, Sign(token, now, certificateStored)).1.Committed?
    ensures HasRequest(s, token)
    ensures var after, id := Step(s, Sign(token, now, certificateStored)), s.signers[token].requestId;
            var r := s.requests[id];
            && after.signers == s.signers[token := Signer(id, Signed, Some(now), s.signers[token].declineReason)]
            && id in after.requests && after.requests == s.requests[id := after.requests[id]]
            && after.requests[id] ==
               (if LastToSign(s, r, token) then SignatureRequest(Completed, r.expiresAt, Some(now), true, r.signers)
                else r.(status := PartiallySigned))
            && after.trail == s.trail + [Entry(id, Some(token), SignedAction)]
                              + if LastToSign(s, r, token) then [Entry(id, None, CompletedAction)] else []
  {
    var id := s.signers[token].requestId;
    assert OthersSigned(s, id, token) <==> LastToSign(s, s.requests[id], token);
    var e, done := Entry(id, Some(token), SignedAction), Entry(id, None, CompletedAction);
    assert s.trail + [e] + [] == s.trail + [e];
  }

  /** A signer of an open request who has neither signed nor declined can decline, expired or not, and cancels it. */
  lemma DeclineOutcome(s: Store, token: string, reason: string)
    requires SignersExist(s)
    ensures Serve(s, Decline(token, reason)).1.Committed? <==>
              && HasRequest(s, token)
              && (s.requests[s.signers[token].requestId].status == Pending
                  || s.requests[s.signers[token].requestId].status == PartiallySigned)
              && (s.signers[token].status == Waiting || s.signers[token].status == Viewed)
    ensures var after := Step(s, Decline(token, reason));
            if Serve(s, Decline(token, reason)).1.Committed? then
              var id := s.signers[token].requestId;
              && after.signers == s.signers[token := Signer(id, Declined, s.signers[token].signedAt, reason)]
              && after.requests == s.requests[id := s.requests[id].(status := Cancelled)]
              && after.trail == s.trail + [Entry(id, Some(token), DeclinedAction), Entry(id, None, CancelledAction)]
            else after == s
  {
    var id := if token in s.signers then s.signers[token].requestId else 0;
    var e, done := Entry(id, Some(token), DeclinedAction), Entry(id, None, CancelledAction);
    assert s.trail + [e] + [done] == s.trail + [e, done];
  }

  /** Anything but a completed or cancelled request can be cancelled; its signers stay as they are. */
  lemma CancelOutcome(s: Store, id: Uuid)
    requires SignersExist(s)
    ensures Serve(s, Cancel(id)).1.Committed? <==>
              id in s.requests && s.requests[id].status != Completed && s.requests[id].status != Cancelled
    ensures var after := Step(s, Cancel(id));
            if Serve(s, Cancel(id)).1.Committed? then
              && after.requests == s.requests[id := s.requests[id].(status := Cancelled)] && after.signers == s.signers
              && after.trail == s.trail + [Entry(id, None, CancelledAction)]
            else after == s
  {
  }

  /** The expiry branch runs before the status check: without the rollback it would overwrite a completed request. */
  lemma RollbackIsEssential(s: Store, token: string, now: int)
    requires SignersExist(s) && token in s.signers && s.signers[token].requestId in s.requests
    requires var r := s.requests[s.signers[token].requestId]; r.status == Completed && IsPast(r.expiresAt, now)
    ensures var id := s.signers[token].requestId;
            && Serve(s, Sign(token, now, true)).0.requests[id].status == Expired
            && Serve(s, View(token, now, true)).0.requests[id].status == Expired
            && Step(s, Sign(token, now, true)) == s
            && Step(s, View(token, now, true)) == s
  {
  }

  lemma OthersSignedFrame(s: Store, signers: map<string, Signer>, id: Uuid, token: string)
    requires SignersExist(s) && id in s.requests && token in s.signers && token in signers
    requires signers == s.signers[token := signers[token]]
    ensures OthersSigned(s, id, token) <==>
              forall t :: t in s.requests[id].signers ==> signers[t].status == Signed || t == token
  {
  }

  /** The service over its tables. An exception leaves the tables as written so far; Handle adds the session. */
  class SignatureService {
    var requests: map<Uuid, SignatureRequest>
    var signers: map<string, Signer>
    var trail: seq<Entry>

    function Tables(): Store
      reads this
    {
      Store(requests, signers, trail)
    }

    constructor ()
      ensures Tables() == NOTHING
    {
      requests, signers, trail := map[], map[], [];
    }

    method CreateSignatureRequest(id: Uuid, tokens: seq<string>, expiresAt: Option<int>) returns (r: Outcome<Error>)
      modifies this
      ensures (Tables(), r) == CreateCall(old(Tables()), id, tokens, expiresAt)
    {
      if tokens == [] { return Raised(NoSigners); }
      if id in requests || !Distinct(tokens) || exists t :: t in tokens && t in signers {
        return Raised(IntegrityError);
      }
      requests := requests[id := SignatureRequest(Draft, expiresAt, None, false, tokens)];
      signers := signers + map t | t in tokens :: Signer(id, Waiting, None, "");
      trail := trail + [Entry(id, None, CreatedAction)];
      return Committed;
    }

    method SendSignatureRequest(id: Uuid) returns (r: Outcome<Error>)
      modifies this
      ensures (Tables(), r) == SendCall(old(Tables()), id)
    {
      if id !in requests { return Raised(RequestNotFound); }
      if requests[id].status != Draft { return Raised(OnlyDraftsCanBeSent); }
      var tokens := requests[id].signers;
      requests := requests[id := requests[id].(status := Pending)];
      var start := trail;
      for i := 0 to |tokens|
        invariant trail == start + SentEntries(id, tokens)[..i]
        invariant requests == old(requests)[id := old(requests)[id].(status := Pending)] && signers == old(signers)
      {
        trail := trail + [Entry(id, Some(tokens[i]), SentAction)];
      }
      assert SentEntries(id, tokens)[..|tokens|] == SentEntries(id, tokens);
      return Committed;
    }

    method GetSigningPageInfo(token: string, now: int, documentFound: bool) returns (r: Outcome<Error>)
      modifies this
      ensures (Tables(), r) == ViewCall(old(Tables()), token, now, documentFound)
    {
      if token !in signers { return Raised(InvalidToken); }
      var signer := signers[token];
      var id := signer.requestId;
      if id !in requests { return Raised(RequestNotFound); }
      if requests[id].expiresAt.Some? && requests[id].expiresAt.value < now {
        requests := requests[id := requests[id].(status := Expired)];
        trail := trail + [Entry(id, None, ExpiredAction)];
        return Raised(HasExpired);
      }
      if !IsOpen(requests[id].status) { return Raised(NotOpen(requests[id].status)); }
      if signer.status == Waiting {
        signers := signers[token := signer.(status := Viewed)];
        trail := trail + [Entry(id, Some(token), ViewedAction)];
      }
      if !documentFound { return Raised(ForeignFailure); }
      return Committed;
    }

    method SignDocument(token: string, now: int, certificateStored: bool) returns (r: Outcome<Error>)
      requires SignersExist(Tables())
      modifies this
      ensures (Tables(), r) == SignCall(old(Tables()), token, now, certificateStored)
    {
      if token !in signers { return Raised(InvalidToken); }
      var signer := signers[token];
      var id := signer.requestId;
      if id !in requests { return Raised(RequestNotFound); }
      if requests[id].expiresAt.Some? && requests[id].expiresAt.value < now {
        requests := requests[id := requests[id].(status := Expired)];
        return Raised(HasExpired);
      }
      if !IsOpen(requests[id].status) { return Raised(NotOpen(requests[id].status)); }
      if signer.status == Signed { return Raised(AlreadySigned); }
      if signer.status == Declined { return Raised(SignerDeclined); }
      signers := signers[token := signer.(status := Signed, signedAt := Some(now))];
      trail := trail + [Entry(id, Some(token), SignedAction)];
      var allSigned := forall t :: t in requests[id].signers ==> signers[t].status == Signed || t == token;
      OthersSignedFrame(old(Tables()), signers, id, token);
      if allSigned {
        requests := requests[id := requests[id].(status := Completed, completedAt := Some(now))];
        if !certificateStored { return Raised(ForeignFailure); }
        requests := requests[id := requests[id].(certified := true)];
        assert requests == old(requests)[id := requests[id]];
        trail := trail + [Entry(id, None, CompletedAction)];
      } else {
        requests := requests[id := requests[id].(status := PartiallySigned)];
      }
      return Committed;
    }

    method DeclineDocument(token: string, reason: string) returns (r: Outcome<Error>)
      modifies this
      ensures (Tables(), r) == DeclineCall(old(Tables()), token, reason)
    {
      if token !in signers { return Raised(InvalidToken); }
      var signer := signers[token];
      var id := signer.requestId;
      if id !in requests { return Raised(RequestNotFound); }
      if !IsOpen(requests[id].status) { return Raised(NotOpen(requests[id].status)); }
      if signer.status == Signed { return Raised(AlreadySigned); }
      if signer.status == Declined { return Raised(SignerDeclined); }
      signers := signers[token := signer.(status := Declined, declineReason := reason)];
      requests := requests[id := requests[id].(status := Cancelled)];
      trail := trail + [Entry(id, Some(token), DeclinedAction)];
      trail := trail + [Entry(id, None, CancelledAction)];
      return Committed;
    }

    method CancelSignatureRequest(id: Uuid) returns (r: Outcome<Error>)
      modifies this
      ensures (Tables(), r) == CancelCall(old(Tables()), id)
    {
      if id !in requests { return Raised(RequestNotFound); }
      if requests[id].status in {Completed, Cancelled} { return Raised(CannotCancel(requests[id].status)); }
      requests := requests[id := requests[id].(status := Cancelled)];
      trail := trail + [Entry(id, None, CancelledAction)];
      return Committed;
    }

    /** One HTTP request: the service function, then commit, or rollback when it raised. */
    method Handle(c: Call) returns (r: Outcome<Error>)
      requires SignersExist(Tables()) && Invariant(Tables())
      modifies this
      ensures Tables() == Step(old(Tables()), c) && r == Serve(old(Tables()), c).1
      ensures SignersExist(Tables()) && Invariant(Tables())
    {
      ghost var before := Tables();
      StepKeeps(before, c);
      InvariantSigners(Step(before, c));
      var savedRequests, savedSigners, savedTrail := requests, signers, trail;
      match c {
        case Create(id, tokens, expiresAt) => r := CreateSignatureRequest(id, tokens, expiresAt);
        case Send(id) => r := SendSignatureRequest(id);
        case View(token, now, documentFound) => r := GetSigningPageInfo(token, now, documentFound);
        case Sign(token, now, certificateStored) => r := SignDocument(token, now, certificateStored);
        case Decline(token, reason) => r := DeclineDocument(token, reason);
        case Cancel(id) => r := CancelSignatureRequest(id);
      }
      if r.Raised? {
        requests, signers, trail := savedRequests, savedSigners, savedTrail;
      }
    }
  }
}
