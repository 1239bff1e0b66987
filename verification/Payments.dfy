/** Payment links, webhook deliveries and manual payments, and when an invoice becomes paid. */
module Payments {
  import opened Database
  import Billing

  datatype LinkStatus = Active | Paid | Expired | Cancelled

  datatype Processor = Stripe | LawPay | Manual

  datatype PaymentMethod = Check | Ach | CreditCard | Cash | Other

  datatype Invoice = Invoice(totalCents: nat, status: Billing.InvoiceStatus)

  datatype PaymentLink = PaymentLink(invoiceId: Uuid, amountCents: nat, surchargeCents: int, processor: Processor,
                                     status: LinkStatus, sessionId: Option<string>, expiresAt: Option<int>,
                                     paidAt: Option<int>, paidAmountCents: Option<int>, reference: Option<string>)

  /** link names the payment link the row was created for; manual payments have none. */
  datatype Payment = Payment(invoiceId: Uuid, amountCents: int, paidBy: PaymentMethod, link: Option<string>)

  datatype WebhookEvent = WebhookEvent(processor: Processor, eventType: string, eventId: Option<string>,
                                       processed: bool, failed: bool)

  /** links is keyed by the unique access token; payments and webhooks only ever grow. */
  datatype Store = Store(invoices: map<Uuid, Invoice>, links: map<string, PaymentLink>,
                         payments: seq<Payment>, webhooks: seq<WebhookEvent>)

  const NOTHING := Store(map[], map[], [], [])

  datatype Error =
    | InvoiceNotFound
    | InvoiceAlreadyPaid
    | InvoiceVoided
    | LinkNotFound
    | NotActive(status: LinkStatus)
    | LinkExpired
    | DuplicateEvent
    | InvalidAmount
    | MultipleResults
    | IntegrityError

  datatype Completion = Completion(paidAmountCents: Option<int>, reference: Option<string>)

  datatype Payload = Payload(id: Option<string>, sessionId: Option<string>)

  datatype Delivery = Delivery(processor: Processor, eventType: string, eventId: Option<string>,
                               payload: Option<Payload>)

  /** The latest payment settings row. */
  datatype Settings = Settings(processor: Processor, isActive: bool, surchargeEnabled: bool, surchargeRate: real)

  /** What create_payment_link looks at besides the invoice: the settings, if any, the request's days, the clock. */
  datatype LinkRequest = LinkRequest(settings: Option<Settings>, expiresInDays: Option<int>, now: int)

  datatype Call =
    | NewInvoice(invoiceId: Uuid, totalCents: nat)
    | NewLink(token: string, invoiceId: Uuid, request: LinkRequest)
    | AttachSession(token: string, sessionId: string)
    | CancelLink(token: string)
    | ViewPage(token: string, now: int)
    | Complete(token: string, completion: Completion, now: int)
    | Webhook(delivery: Delivery, now: int)
    | RecordPayment(invoiceId: Uuid, amountCents: int, paidBy: PaymentMethod)

  const PAYMENT_EVENTS :=
      ["payment_intent.succeeded", "checkout.session.completed", "charge.succeeded", "transaction.completed"]

  function MethodFor(p: Processor): PaymentMethod { if p == Manual then Other else CreditCard }

  const SECONDS_PER_DAY := 86400

  function ProcessorOf(settings: Option<Settings>): Processor {
    if settings.Some? && settings.value.isActive then settings.value.processor else Manual
  }

  /** int(cents * rate) for a rate that is not negative, with an exact product. */
  function WholePart(cents: nat, rate: real): int { (cents as real * rate).Floor }

  function Surcharge(settings: Option<Settings>, totalCents: nat): int {
    if settings.Some? && settings.value.surchargeEnabled && settings.value.surchargeRate > 0.0
    then WholePart(totalCents, settings.value.surchargeRate) else 0
  }

  /** No days, or zero days, means no expiry. */
  function Expiry(r: LinkRequest): Option<int> {
    if r.expiresInDays.Some? && r.expiresInDays.value != 0 then Some(r.now + SECONDS_PER_DAY * r.expiresInDays.value)
        else None
  }

  function LinkFor(invoiceId: Uuid, totalCents: nat, r: LinkRequest): PaymentLink {
    PaymentLink(invoiceId, totalCents, Surcharge(r.settings, totalCents), ProcessorOf(r.settings), Active,
                None, Expiry(r), None, None, None)
  }

  lemma WholePartWithin(cents: nat, rate: real)
    requires 0.0 <= rate <= 1.0
    ensures 0 <= WholePart(cents, rate) <= cents
  {
    var x := cents as real;
    NotNegative(x, rate);
    NotNegative(x, 1.0 - rate);
    assert x * (1.0 - rate) == x - x * rate;
  }

  lemma NotNegative(x: real, y: real)
    requires 0.0 <= x && 0.0 <= y
    ensures 0.0 <= x * y
  {
  }

  /** With a rate between 0 and 1, as the schema demands, a surcharge never exceeds the amount. */
  lemma SurchargeWithinAmount(invoiceId: Uuid, totalCents: nat, r: LinkRequest)
    requires r.settings.Some? ==> 0.0 <= r.settings.value.surchargeRate <= 1.0
    ensures var link := LinkFor(invoiceId, totalCents, r); 0 <= link.surchargeCents <= link.amountCents
  {
    if r.settings.Some? { WholePartWithin(totalCents, r.settings.value.surchargeRate); }
  }

  function SumFor(payments: seq<Payment>, invoiceId: Uuid): int {
    if payments == [] then 0 else
      SumFor(payments[..|payments| - 1], invoiceId)
      + if payments[|payments| - 1].invoiceId == invoiceId then payments[|payments| - 1].amountCents else 0
  }

  /** Truthiness of an optional text. */
  predicate Given(o: Option<string>) { o.Some? && o.value != "" }

  function SetLink(s: Store, token: string, status: LinkStatus): Store
    requires token in s.links
  {
    s.(links := s.links[token := s.links[token].(status := status)])
  }

  /** The new row is flushed before SUM is taken, and its amount is then added once more. */
  function Pay(s: Store, p: Payment): Store {
    var payments := s.payments + [p];
    var invoices :=
      if p.invoiceId in s.invoices
          && SumFor(payments, p.invoiceId) + p.amountCents >= s.invoices[p.invoiceId].totalCents
      then s.invoices[p.invoiceId := s.invoices[p.invoiceId].(status := Billing.InvoicePaid)]
      else s.invoices;
    s.(payments := payments, invoices := invoices)
  }

  /** mark_payment_link_paid; on an exception the first component is not yet committed. */
  function MarkPaid(s: Store, token: string, c: Completion, now: int): (Store, Outcome<Error>) {
    if token !in s.links then (s, Raised(LinkNotFound)) else
      var link := s.links[token];
      if link.status != Active then (s, Raised(NotActive(link.status)))
      else if IsPast(link.expiresAt, now) then (SetLink(s, token, Expired), Raised(LinkExpired))
      else
        var amount := if c.paidAmountCents.Some? && c.paidAmountCents.value != 0 then c.paidAmountCents.value
                      else link.amountCents + link.surchargeCents;
        var paid := link.(status := Paid, paidAt := Some(now), paidAmountCents := Some(amount),
                          reference := c.reference);
        (Pay(s.(links := s.links[token := paid]),
             Payment(link.invoiceId, link.amountCents, MethodFor(link.processor), Some(token))),
         Committed)
  }

  predicate Known(s: Store, d: Delivery) {
    Given(d.eventId) && exists e :: e in s.webhooks && e.eventId == d.eventId && e.processor == d.processor
  }

  function ActiveWith(s: Store, sessionId: string): set<string> {
    set t | t in s.links && s.links[t].sessionId == Some(sessionId) && s.links[t].status == Active
  }

  /** payload.get("id") or payload.get("session_id") */
  function SessionOf(p: Payload): Option<string> { if Given(p.id) then p.id else p.sessionId }

  /** _process_payment_webhook inside its try block: the exception, if any, is kept and the writes stay. */
  ghost function ProcessPayment(s: Store, p: Payload, now: int): (Store, Outcome<Error>) {
    if !Given(SessionOf(p)) then (s, Committed) else
      var tokens := ActiveWith(s, SessionOf(p).value);
      if tokens == {} then (s, Committed)
      else if |tokens| > 1 then (s, Raised(MultipleResults))
      else
        var t :| t in tokens;
        MarkPaid(s, t, Completion(None, SessionOf(p)), now)
  }

  ghost function WebhookCall(s: Store, d: Delivery, now: int): (Store, Outcome<Error>) {
    if Known(s, d) then (s, Raised(DuplicateEvent)) else
      var pays := d.eventType in PAYMENT_EVENTS && d.payload.Some?;
      var r := if pays then ProcessPayment(s, d.payload.value, now) else (s, Committed);
      var event := WebhookEvent(d.processor, d.eventType, d.eventId, pays && r.1.Committed?, r.1.Raised?);
      (r.0.(webhooks := s.webhooks + [event]), Committed)
  }

  function NewLinkCall(s: Store, token: string, invoiceId: Uuid, r: LinkRequest): (Store, Outcome<Error>) {
    if invoiceId !in s.invoices then (s, Raised(InvoiceNotFound))
    else if s.invoices[invoiceId].status == Billing.InvoicePaid then (s, Raised(InvoiceAlreadyPaid))
    else if s.invoices[invoiceId].status == Billing.InvoiceVoid then (s, Raised(InvoiceVoided))
    else if token in s.links then (s, Raised(IntegrityError))
    else
      (s.(links := s.links[token := LinkFor(invoiceId, s.invoices[invoiceId].totalCents, r)]), Committed)
  }

  ghost function Serve(s: Store, c: Call): (Store, Outcome<Error>) {
    match c
    case NewInvoice(id, total) =>
      if id in s.invoices then (s, Raised(IntegrityError))
      else (s.(invoices := s.invoices[id := Invoice(total, Billing.InvoiceDraft)]), Committed)
    case NewLink(token, invoiceId, request) => NewLinkCall(s, token, invoiceId, request)
    case AttachSession(token, sessionId) =>
      if token !in s.links then (s, Raised(LinkNotFound))
      else if s.links[token].status != Active then (s, Raised(NotActive(s.links[token].status)))
      else (s.(links := s.links[token := s.links[token].(sessionId := Some(sessionId))]), Committed)
    case CancelLink(token) =>
      if token !in s.links then (s, Raised(LinkNotFound))
      else if s.links[token].status != Active then (s, Raised(NotActive(s.links[token].status)))
      else (SetLink(s, token, Cancelled), Committed)
    case ViewPage(token, now) =>
      if token !in s.links then (s, Raised(LinkNotFound))
      else if IsPast(s.links[token].expiresAt, now) && s.links[token].status == Active
          then (SetLink(s, token, Expired), Committed)
      else (s, Committed)
    case Complete(token, completion, now) => MarkPaid(s, token, completion, now)
    case Webhook(delivery, now) => WebhookCall(s, delivery, now)
    case RecordPayment(invoiceId, amount, paidBy) =>
      if amount < 1 then (s, Raised(InvalidAmount))
      else if invoiceId !in s.invoices then (s, Raised(IntegrityError))
      else (Pay(s, Payment(invoiceId, amount, paidBy, None)), Committed)
  }

  ghost function Step(s: Store, c: Call): Store {
    Settle(s, Serve(s, c).0, Serve(s, c).1)
  }

  ghost function Run(s: Store, calls: seq<Call>): Store {
    if calls == [] then s else Step(Run(s, calls[..|calls| - 1]), calls[|calls| - 1])
  }

  // Every call is a change of one link, or one payment, or neither

  /** What a committed call can do to links and payments. */
  datatype Effect =
    | Nothing
    | LinkSet(token: string, link: PaymentLink)
    | PaidVia(token: string, paid: PaymentLink)
    | PaidDirectly(p: Payment)

  ghost predicate Allowed(s: Store, e: Effect) {
    match e
    case Nothing => true
    case LinkSet(token, link) =>
      link.status != Paid
      && (token in s.links ==> s.links[token].status == Active && link.invoiceId == s.links[token].invoiceId)
      && link.invoiceId in s.invoices
    case PaidVia(token, link) =>
      token in s.links && s.links[token].status == Active && link.status == Paid
      && link.invoiceId == s.links[token].invoiceId && link.amountCents == s.links[token].amountCents
    case PaidDirectly(p) => p.link == None && p.amountCents >= 0 && p.invoiceId in s.invoices
  }

  function Perform(s: Store, e: Effect): Store {
    match e
    case Nothing => s
    case LinkSet(token, link) => s.(links := s.links[token := link])
    case PaidVia(token, link) =>
      Pay(s.(links := s.links[token := link]),
          Payment(link.invoiceId, link.amountCents, MethodFor(link.processor), Some(token)))
    case PaidDirectly(p) => Pay(s, p)
  }

  /** The links of every store lead to invoices. */
  ghost predicate Resolved(s: Store) {
    forall t :: t in s.links ==> s.links[t].invoiceId in s.invoices
  }

  lemma MarkPaidEffect(s: Store, token: string, c: Completion, now: int) returns (e: Effect)
    requires Resolved(s)
    ensures Allowed(s, e) && MarkPaid(s, token, c, now).0 == Perform(s, e)
  {
    var after := MarkPaid(s, token, c, now).0;
    if token !in s.links || s.links[token].status != Active {
      e := Nothing;
    } else if IsPast(s.links[token].expiresAt, now) {
      e := LinkSet(token, after.links[token]);
    } else {
      e := PaidVia(token, after.links[token]);
    }
  }

  /** Up to new invoices and the webhook log, a call performs one allowed effect. */
  lemma StepEffect(s: Store, c: Call) returns (e: Effect)
    requires Resolved(s)
    ensures Allowed(s, e)
    ensures !c.NewInvoice? ==>
              Step(s, c) == Perform(s, e).(webhooks := Step(s, c).webhooks)
                  && (!c.Webhook? ==> Step(s, c).webhooks == s.webhooks)
    ensures c.NewInvoice? ==> e == Nothing
  {
    e := Nothing;
    match c
    case Complete(token, completion, now) =>
      if Serve(s, c).1.Committed? { e := MarkPaidEffect(s, token, completion, now); }
    case Webhook(d, now) =>
      if Serve(s, c).1.Committed? && d.eventType in PAYMENT_EVENTS && d.payload.Some?
          && Given(SessionOf(d.payload.value)) {
        var tokens := ActiveWith(s, SessionOf(d.payload.value).value);
        if |tokens| == 1 {
          var t :| t in tokens && ProcessPayment(s, d.payload.value, now)
              == MarkPaid(s, t, Completion(None, SessionOf(d.payload.value)), now);
          e := MarkPaidEffect(s, t, Completion(None, SessionOf(d.payload.value)), now);
        }
      }
    case RecordPayment(invoiceId, amount, paidBy) =>
      if Serve(s, c).1.Committed? { e := PaidDirectly(Payment(invoiceId, amount, paidBy, None)); }
    case NewInvoice(_, _) =>
    case _ =>
      if Step(s, c) != s { e := LinkSet(c.token, Step(s, c).links[c.token]); }
  }

  // Invariants

  function CountFor(payments: seq<Payment>, token: string): nat {
    if payments == [] then 0 else
      CountFor(payments[..|payments| - 1], token) + if payments[|payments| - 1].link == Some(token) then 1 else 0
  }

  /** A paid link has one payment row, any other link none. */
  ghost predicate LinkOk(s: Store, t: string) {
    t in s.links ==>
      s.links[t].invoiceId in s.invoices && CountFor(s.payments, t) == if s.links[t].status == Paid then 1 else 0
  }

  /** A row made for a link carries the link's invoice and amount. */
  ghost predicate PaymentOk(s: Store, p: Payment) {
    p.invoiceId in s.invoices && p.amountCents >= 0
    && (p.link.Some? ==>
          p.link.value in s.links && s.links[p.link.value].status == Paid
          && s.links[p.link.value].invoiceId == p.invoiceId && s.links[p.link.value].amountCents == p.amountCents)
  }

  ghost predicate HasPayment(payments: seq<Payment>, invoiceId: Uuid) {
    exists p :: p in payments && p.invoiceId == invoiceId
  }

  /** Payments that cover the total mark the invoice; a marked invoice has received at least half of it. */
  ghost predicate InvoiceOk(s: Store, id: Uuid) {
    id in s.invoices ==>
      (HasPayment(s.payments, id) && SumFor(s.payments, id) >= s.invoices[id].totalCents ==>
          s.invoices[id].status == Billing.InvoicePaid)
      && (s.invoices[id].status == Billing.InvoicePaid ==> 2 * SumFor(s.payments, id) >= s.invoices[id].totalCents)
  }

  ghost predicate Invariant(s: Store) {
    (forall t :: LinkOk(s, t)) && (forall p :: p in s.payments ==> PaymentOk(s, p)) && forall id :: InvoiceOk(s, id)
  }

  lemma InvariantResolves(s: Store)
    requires Invariant(s)
    ensures Resolved(s)
  {
    forall t | t in s.links ensures s.links[t].invoiceId in s.invoices {
      assert LinkOk(s, t);
    }
  }

  lemma PaymentAdded(payments: seq<Payment>, p: Payment)
    ensures forall t :: CountFor(payments + [p], t) == CountFor(payments, t) + if p.link == Some(t) then 1 else 0
    ensures forall id ::
              SumFor(payments + [p], id) == SumFor(payments, id) + if p.invoiceId == id then p.amountCents else 0
    ensures forall id :: HasPayment(payments + [p], id) <==> HasPayment(payments, id) || p.invoiceId == id
  {
    assert (payments + [p])[..|payments|] == payments;
    forall id ensures HasPayment(payments + [p], id) <==> HasPayment(payments, id) || p.invoiceId == id {
      if HasPayment(payments, id) {
        var q :| q in payments && q.invoiceId == id;
        assert q in payments + [p];
      }
      if p.invoiceId == id { assert p in payments + [p]; }
    }
  }

  lemma {:induction false} SumNonNegative(payments: seq<Payment>, id: Uuid)
    requires forall p :: p in payments ==> p.amountCents >= 0
    ensures SumFor(payments, id) >= 0
  {
    if payments != [] {
      SumNonNegative(payments[..|payments| - 1], id);
      assert payments[|payments| - 1] in payments;
    }
  }

  /** Recording a payment of an amount that is not negative keeps the invoice rules. */
  lemma PayInvoices(s: Store, before: Store, p: Payment)
    requires (forall id :: InvoiceOk(before, id)) && s.invoices == before.invoices && s.payments == before.payments
    requires p.amountCents >= 0 && p.invoiceId in s.invoices && forall q :: q in s.payments ==> q.amountCents >= 0
    ensures forall id :: InvoiceOk(Pay(s, p), id)
  {
    PaymentAdded(s.payments, p);
    SumNonNegative(s.payments, p.invoiceId);
    forall id ensures InvoiceOk(Pay(s, p), id) {
      assert InvoiceOk(before, id);
    }
  }

  lemma LinkSetKeeps(s: Store, token: string, link: PaymentLink)
    requires Invariant(s) && Allowed(s, LinkSet(token, link))
    ensures Invariant(Perform(s, LinkSet(token, link)))
  {
    var after := Perform(s, LinkSet(token, link));
    assert LinkOk(s, token);
    forall p | p in s.payments ensures PaymentOk(after, p) {
      assert PaymentOk(s, p);
    }
    if token !in s.links { NoRowsForNewLink(s, token); }
    forall t ensures LinkOk(after, t) {
      assert LinkOk(s, t);
    }
    forall id ensures InvoiceOk(after, id) {
      assert InvoiceOk(s, id);
    }
  }

  lemma {:induction false} CountAbsent(payments: seq<Payment>, t: string)
    requires forall p :: p in payments ==> p.link != Some(t)
    ensures CountFor(payments, t) == 0
  {
    if payments != [] {
      CountAbsent(payments[..|payments| - 1], t);
      assert payments[|payments| - 1] in payments;
    }
  }

  lemma NoRowsForNewLink(s: Store, token: string)
    requires Invariant(s) && token !in s.links
    ensures CountFor(s.payments, token) == 0
  {
    forall p | p in s.payments ensures p.link != Some(token) {
      assert PaymentOk(s, p);
    }
    CountAbsent(s.payments, token);
  }

  lemma PaidViaKeeps(s: Store, token: string, link: PaymentLink)
    requires Invariant(s) && Allowed(s, PaidVia(token, link))
    ensures Invariant(Perform(s, PaidVia(token, link)))
  {
    var after := Perform(s, PaidVia(token, link));
    var p := Payment(link.invoiceId, link.amountCents, MethodFor(link.processor), Some(token));
    assert LinkOk(s, token);
    PaymentAdded(s.payments, p);
    forall t ensures LinkOk(after, t) {
      assert LinkOk(s, t);
    }
    forall q | q in after.payments ensures PaymentOk(after, q) {
      if q in s.payments { assert PaymentOk(s, q); }
    }
    assert forall q :: q in s.payments ==> PaymentOk(s, q);
    PayInvoices(s.(links := s.links[token := link]), s, p);
  }

  lemma PaidDirectlyKeeps(s: Store, p: Payment)
    requires Invariant(s) && Allowed(s, PaidDirectly(p))
    ensures Invariant(Perform(s, PaidDirectly(p)))
  {
    var after := Perform(s, PaidDirectly(p));
    PaymentAdded(s.payments, p);
    forall t ensures LinkOk(after, t) {
      assert LinkOk(s, t);
    }
    forall q | q in after.payments ensures PaymentOk(after, q) {
      if q in s.payments { assert PaymentOk(s, q); }
    }
    assert forall q :: q in s.payments ==> PaymentOk(s, q);
    PayInvoices(s, s, p);
  }

  lemma {:induction false} SumAbsent(payments: seq<Payment>, id: Uuid)
    requires forall p :: p in payments ==> p.invoiceId != id
    ensures SumFor(payments, id) == 0
  {
    if payments != [] {
      SumAbsent(payments[..|payments| - 1], id);
      assert payments[|payments| - 1] in payments;
    }
  }

  lemma NewInvoiceKeeps(s: Store, id: Uuid, total: nat)
    requires Invariant(s) && id !in s.invoices
    ensures Invariant(s.(invoices := s.invoices[id := Invoice(total, Billing.InvoiceDraft)]))
  {
    var after := s.(invoices := s.invoices[id := Invoice(total, Billing.InvoiceDraft)]);
    forall p | p in s.payments ensures PaymentOk(after, p) && p.invoiceId != id {
      assert PaymentOk(s, p);
    }
    forall t ensures LinkOk(after, t) {
      assert LinkOk(s, t);
    }
    SumAbsent(s.payments, id);
    forall i ensures InvoiceOk(after, i) {
      assert InvoiceOk(s, i);
    }
  }

  lemma StepKeeps(s: Store, c: Call)
    requires Invariant(s)
    ensures Invariant(Step(s, c))
  {
    InvariantResolves(s);
    if c.NewInvoice? {
      if c.invoiceId !in s.invoices { NewInvoiceKeeps(s, c.invoiceId, c.totalCents); }
    } else {
      var e := StepEffect(s, c);
      match e {
        case Nothing =>
        case LinkSet(token, link) => LinkSetKeeps(s, token, link);
        case PaidVia(token, link) => PaidViaKeeps(s, token, link);
        case PaidDirectly(p) => PaidDirectlyKeeps(s, p);
      }
      WebhooksDoNotMatter(Perform(s, e), Step(s, c));
    }
  }

  lemma WebhooksDoNotMatter(s: Store, after: Store)
    requires Invariant(s) && after == s.(webhooks := after.webhooks)
    ensures Invariant(after)
  {
    forall t ensures LinkOk(after, t) { assert LinkOk(s, t); }
    forall p | p in after.payments ensures PaymentOk(after, p) { assert PaymentOk(s, p); }
    forall id ensures InvoiceOk(after, id) { assert InvoiceOk(s, id); }
  }

  lemma {:induction false} RunKeeps(s: Store, calls: seq<Call>)
    requires Invariant(s)
    ensures Invariant(Run(s, calls))
  {
    if calls != [] {
      RunKeeps(s, calls[..|calls| - 1]);
      StepKeeps(Run(s, calls[..|calls| - 1]), calls[|calls| - 1]);
    }
  }

  /** In every reachable state paid links and their payment rows correspond, and covered invoices are paid. */
  lemma ReachableStates(calls: seq<Call>, t: string, id: Uuid)
    ensures LinkOk(Run(NOTHING, calls), t) && InvoiceOk(Run(NOTHING, calls), id)
    ensures forall p :: p in Run(NOTHING, calls).payments ==> PaymentOk(Run(NOTHING, calls), p)
  {
    assert Invariant(NOTHING);
    RunKeeps(NOTHING, calls);
  }

  // What never changes again

  /** Paid, cancelled and expired links are frozen, and a paid invoice stays paid, whatever is called. */
  lemma StepFreezes(s: Store, c: Call, t: string, id: Uuid)
    requires Invariant(s)
    ensures t in s.links && s.links[t].status != Active ==> t in Step(s, c).links && Step(s, c).links[t] == s.links[t]
    ensures id in s.invoices && s.invoices[id].status == Billing.InvoicePaid ==>
              id in Step(s, c).invoices && Step(s, c).invoices[id] == s.invoices[id]
    ensures s.webhooks <= Step(s, c).webhooks && s.payments <= Step(s, c).payments
  {
    InvariantResolves(s);
    var e := StepEffect(s, c);
  }

  lemma {:induction false} RunFreezes(s: Store, calls: seq<Call>, t: string, id: Uuid)
    requires Invariant(s)
    ensures t in s.links && s.links[t].status != Active ==>
        t in Run(s, calls).links && Run(s, calls).links[t] == s.links[t]
    ensures id in s.invoices && s.invoices[id].status == Billing.InvoicePaid ==>
              id in Run(s, calls).invoices && Run(s, calls).invoices[id] == s.invoices[id]
    ensures s.webhooks <= Run(s, calls).webhooks && s.payments <= Run(s, calls).payments
  {
    if calls != [] {
      var init := calls[..|calls| - 1];
      RunFreezes(s, init, t, id);
      RunKeeps(s, init);
      StepFreezes(Run(s, init), calls[|calls| - 1], t, id);
    }
  }

  /** Once an event id was delivered, delivering it again changes nothing, however much happened in between. */
  lemma RedeliveryIsIdle(s: Store, d: Delivery, now: int, calls: seq<Call>, later: int)
    requires Invariant(s) && Given(d.eventId)
    ensures var reached := Run(Step(s, Webhook(d, now)), calls); Step(reached, Webhook(d, later)) == reached
  {
    var first := Step(s, Webhook(d, now));
    StepKeeps(s, Webhook(d, now));
    RunFreezes(first, calls, "", 0);
    var known: WebhookEvent;
    if Known(s, d) {
      known :| known in s.webhooks && known.eventId == d.eventId && known.processor == d.processor;
      assert known in first.webhooks;
    } else {
      known := first.webhooks[|first.webhooks| - 1];
      assert known in first.webhooks;
    }
    var i :| 0 <= i < |first.webhooks| && first.webhooks[i] == known;
    assert Run(first, calls).webhooks[i] == known;
    assert Known(Run(first, calls), d);
  }

  /** The expiry written while completing a link is rolled back, but the webhook handler keeps it. */
  lemma ExpiryPersistsOnlyThroughWebhook(s: Store, token: string, d: Delivery, c: Completion, now: int)
    requires token in s.links && s.links[token].status == Active && IsPast(s.links[token].expiresAt, now)
    requires !Known(s, d) && d.eventType in PAYMENT_EVENTS && d.payload.Some? && Given(SessionOf(d.payload.value))
    requires ActiveWith(s, SessionOf(d.payload.value).value) == {token}
    ensures Step(s, Complete(token, c, now)) == s
    ensures Step(s, Webhook(d, now)).links == s.links[token := s.links[token].(status := Expired)]
  {
  }

  // What each call does, told on the tables alone

  /** An active link over the invoice's total, refused for unknown, paid and void invoices and for a taken token. */
  /** The whole cents of amount times rate, with an enabled surcharge at a positive rate; else nothing. */
  ghost predicate IsSurcharge(settings: Option<Settings>, amountCents: nat, surchargeCents: int) {
    match settings
    case Some(ps) =>
      if ps.surchargeEnabled && ps.surchargeRate > 0.0
      then surchargeCents as real <= amountCents as real * ps.surchargeRate < surchargeCents as real + 1.0
      else surchargeCents == 0
    case None => surchargeCents == 0
  }

  lemma SurchargeIs(settings: Option<Settings>, amountCents: nat)
    ensures IsSurcharge(settings, amountCents, Surcharge(settings, amountCents))
  {
  }

  lemma NewLinkOutcome(s: Store, token: string, invoiceId: Uuid, q: LinkRequest)
    ensures Serve(s, NewLink(token, invoiceId, q)).1.Committed? <==>
              invoiceId in s.invoices && token !in s.links
              && s.invoices[invoiceId].status != Billing.InvoicePaid
              && s.invoices[invoiceId].status != Billing.InvoiceVoid
    ensures var after := Step(s, NewLink(token, invoiceId, q));
            if Serve(s, NewLink(token, invoiceId, q)).1.Committed? then
              && token in after.links && after == s.(links := s.links[token := after.links[token]])
              && var link := after.links[token];
                 && link.invoiceId == invoiceId && link.amountCents == s.invoices[invoiceId].totalCents
                 && link.status == Active && link.paidAt == None && link.paidAmountCents == None
                 && link.sessionId == None && IsSurcharge(q.settings, link.amountCents, link.surchargeCents)
                 && (link.processor == match q.settings
                                       case Some(ps) => if ps.isActive then ps.processor else Manual
                                       case None => Manual)
                 && (link.expiresAt.Some? <==> q.expiresInDays.Some? && q.expiresInDays.value != 0)
                 && (link.expiresAt.Some? ==> link.expiresAt.value == q.now + 86400 * q.expiresInDays.value)
            else after == s
  {
    if invoiceId in s.invoices { SurchargeIs(q.settings, s.invoices[invoiceId].totalCents); }
  }

  /** Only an active link gets a session; everything else about it stays. */
  lemma AttachSessionOutcome(s: Store, token: string, sessionId: string)
    ensures var after := Step(s, AttachSession(token, sessionId));
            after == if token in s.links && s.links[token].status == Active
                     then s.(links := s.links[token := s.links[token].(sessionId := Some(sessionId))]) else s
  {
  }

  lemma CancelLinkOutcome(s: Store, token: string)
    ensures Serve(s, CancelLink(token)).1.Committed? <==> token in s.links && s.links[token].status == Active
    ensures Step(s, CancelLink(token)) ==
            if Serve(s, CancelLink(token)).1.Committed?
            then s.(links := s.links[token := s.links[token].(status := Cancelled)]) else s
  {
  }

  /** The public page exists for every link; looking at an active one after its expiry expires it. */
  lemma ViewPageOutcome(s: Store, token: string, now: int)
    ensures Serve(s, ViewPage(token, now)).1.Committed? <==> token in s.links
    ensures var overdue := token in s.links && s.links[token].status == Active
                           && s.links[token].expiresAt.Some? && s.links[token].expiresAt.value < now;
            Step(s, ViewPage(token, now)) ==
            if overdue then s.(links := s.links[token := s.links[token].(status := Expired)]) else s
  {
  }

  /** The link can be paid: it is active, and its expiry, if any, is not before now. */
  ghost predicate Payable(s: Store, token: string, now: int) {
    token in s.links && s.links[token].status == Active
    && (s.links[token].expiresAt == None || now <= s.links[token].expiresAt.value)
  }

  /** One payment row more, of this amount; the invoice is marked if the earlier rows plus twice the amount reach its
      total, and is otherwise as before. */
  ghost predicate PaidOnce(s: Store, after: Store, p: Payment) {
    && after.payments == s.payments + [p]
    && (forall id :: id in after.invoices <==> id in s.invoices)
    && (forall id :: id in s.invoices && id != p.invoiceId ==> after.invoices[id] == s.invoices[id])
    && (p.invoiceId in s.invoices ==>
          after.invoices[p.invoiceId] ==
          if SumFor(s.payments, p.invoiceId) + 2 * p.amountCents >= s.invoices[p.invoiceId].totalCents
          then s.invoices[p.invoiceId].(status := Billing.InvoicePaid) else s.invoices[p.invoiceId])
  }

  /** Link token is paid at now: its row says so, and one payment row carries its invoice, amount, method and token. */
  ghost predicate LinkPaid(s: Store, after: Store, token: string, c: Completion, now: int)
    requires token in s.links
  {
    var link := s.links[token];
    && token in after.links && after.links == s.links[token := after.links[token]]
    && after.links[token] ==
       PaymentLink(link.invoiceId, link.amountCents, link.surchargeCents, link.processor, Paid, link.sessionId,
                   link.expiresAt, Some(now),
                   Some(if c.paidAmountCents.Some? && c.paidAmountCents.value != 0 then c.paidAmountCents.value
                        else link.amountCents + link.surchargeCents),
                   c.reference)
    && PaidOnce(s, after, Payment(link.invoiceId, link.amountCents,
                                  if link.processor == Manual then Other else CreditCard, Some(token)))
  }

  lemma PayOnce(s: Store, p: Payment)
    ensures PaidOnce(s, Pay(s, p), p) && Pay(s, p).links == s.links && Pay(s, p).webhooks == s.webhooks
  {
    PaymentAdded(s.payments, p);
  }

  /** Completing pays exactly a payable link, and otherwise changes nothing. */
  lemma CompleteOutcome(s: Store, token: string, c: Completion, now: int)
    ensures Serve(s, Complete(token, c, now)).1.Committed? <==> Payable(s, token, now)
    ensures var after := Step(s, Complete(token, c, now));
            if Payable(s, token, now) then LinkPaid(s, after, token, c, now) && after.webhooks == s.webhooks
            else after == s
  {
    MarkPaidOutcome(s, token, c, now);
  }

  lemma MarkPaidOutcome(s: Store, token: string, c: Completion, now: int)
    ensures MarkPaid(s, token, c, now).1.Committed? <==> Payable(s, token, now)
    ensures var after := MarkPaid(s, token, c, now).0;
            Payable(s, token, now) ==> LinkPaid(s, after, token, c, now) && after.webhooks == s.webhooks
  {
    if Payable(s, token, now) {
      var link, paid := s.links[token], MarkPaid(s, token, c, now).0.links[token];
      PayOnce(s.(links := s.links[token := paid]),
              Payment(link.invoiceId, link.amountCents, MethodFor(link.processor), Some(token)));
    }
  }

  /** No delivery of this processor with this event id, when it has one, was recorded before. */
  ghost predicate IsNew(s: Store, d: Delivery) {
    d.eventId.Some? && d.eventId.value != "" ==>
      forall e :: e in s.webhooks ==> e.eventId != d.eventId || e.processor != d.processor
  }

  /** A delivery is accepted exactly when it is new, and adds one row to the log of deliveries. */
  lemma WebhookCommitsIff(s: Store, d: Delivery, now: int)
    ensures Serve(s, Webhook(d, now)).1.Committed? <==> IsNew(s, d)
    ensures var after := Step(s, Webhook(d, now));
            if IsNew(s, d) then
              && |after.webhooks| == |s.webhooks| + 1 && after.webhooks[..|s.webhooks|] == s.webhooks
              && var e := after.webhooks[|s.webhooks|];
                 e.processor == d.processor && e.eventType == d.eventType && e.eventId == d.eventId
            else after == s
  {
    if IsNew(s, d) && d.payload.Some? && Given(SessionOf(d.payload.value)) {
      ProcessKeepsWebhooks(s, d.payload.value, now);
    }
  }

  lemma ProcessKeepsWebhooks(s: Store, p: Payload, now: int)
    ensures ProcessPayment(s, p, now).0.webhooks == s.webhooks
  {
  }

  /** The payment event types of the three processors. */
  ghost predicate IsPaymentEvent(name: string) {
    name == "payment_intent.succeeded" || name == "checkout.session.completed" || name == "charge.succeeded"
    || name == "transaction.completed"
  }

  lemma PaymentEventsAre(name: string)
    ensures name in PAYMENT_EVENTS <==> IsPaymentEvent(name)
  {
    assert PAYMENT_EVENTS[0] in PAYMENT_EVENTS && PAYMENT_EVENTS[1] in PAYMENT_EVENTS;
    assert PAYMENT_EVENTS[2] in PAYMENT_EVENTS && PAYMENT_EVENTS[3] in PAYMENT_EVENTS;
  }

  /** The session a payload names: its id, or else its session id; a blank one counts for nothing. */
  ghost predicate NamesSession(p: Payload, session: string) {
    session != "" && (p.id == Some(session) || ((p.id == None || p.id == Some("")) && p.sessionId == Some(session)))
  }

  /** A new payment event whose session belongs to exactly one active link pays that link, if it has not expired. */
  lemma WebhookPays(s: Store, d: Delivery, now: int, session: string, token: string)
    requires IsNew(s, d) && IsPaymentEvent(d.eventType) && d.payload.Some? && NamesSession(d.payload.value, session)
    requires token in s.links && s.links[token].sessionId == Some(session) && s.links[token].status == Active
    requires forall t :: t in s.links && s.links[t].sessionId == Some(session) && s.links[t].status == Active ==>
               t == token
    ensures var after := Step(s, Webhook(d, now));
            if Payable(s, token, now) then
              && LinkPaid(s, after.(webhooks := s.webhooks), token, Completion(None, Some(session)), now)
              && after.webhooks == s.webhooks + [WebhookEvent(d.processor, d.eventType, d.eventId, true, false)]
            else
              && after == s.(links := s.links[token := s.links[token].(status := Expired)], webhooks := after.webhooks)
              && after.webhooks == s.webhooks + [WebhookEvent(d.processor, d.eventType, d.eventId, false, true)]
  {
    PaymentEventsAre(d.eventType);
    assert SessionOf(d.payload.value) == Some(session);
    assert ActiveWith(s, session) == {token};
    assert ProcessPayment(s, d.payload.value, now) == MarkPaid(s, token, Completion(None, Some(session)), now);
    MarkPaidOutcome(s, token, Completion(None, Some(session)), now);
  }

  ghost predicate ActiveFor(s: Store, session: string, token: string) {
    token in s.links && s.links[token].sessionId == Some(session) && s.links[token].status == Active
  }

  /** The payload names a session with more than one active link. */
  ghost predicate Ambiguous(s: Store, p: Payload) {
    exists session, t, u :: NamesSession(p, session) && ActiveFor(s, session, t) && ActiveFor(s, session, u) && t != u
  }

  /** The payload names a session with exactly one active link. */
  ghost predicate NamesOne(s: Store, p: Payload) {
    (exists session, t :: NamesSession(p, session) && ActiveFor(s, session, t)) && !Ambiguous(s, p)
  }

  lemma SessionNamed(p: Payload, session: string)
    ensures NamesSession(p, session) <==> Given(SessionOf(p)) && SessionOf(p) == Some(session)
  {
  }

  lemma MoreThanOne(tokens: set<string>)
    ensures |tokens| > 1 <==> exists t, u :: t in tokens && u in tokens && t != u
  {
    if t :| t in tokens {
      assert tokens == {t} + (tokens - {t});
      if |tokens| > 1 {
        var u :| u in tokens - {t};
      }
    }
  }

  /** How many active links the named session has decides what becomes of a payload. */
  lemma ProcessIdles(s: Store, p: Payload, now: int)
    requires !NamesOne(s, p)
    ensures ProcessPayment(s, p, now).0 == s
    ensures ProcessPayment(s, p, now).1.Raised? <==> Ambiguous(s, p)
  {
    if Given(SessionOf(p)) {
      var session := SessionOf(p).value;
      var tokens := ActiveWith(s, session);
      SessionNamed(p, session);
      forall t ensures t in tokens <==> ActiveFor(s, session, t) {}
      MoreThanOne(tokens);
      if t :| t in tokens {
        assert NamesSession(p, session) && ActiveFor(s, session, t);
      }
    }
  }

  /** Every other new delivery changes nothing but the log: another event type, no payload, or a session with no active
      link or with several. Only the last of these is logged as failed, only the first two as not processed. */
  lemma WebhookIdles(s: Store, d: Delivery, now: int)
    requires IsNew(s, d)
    requires !IsPaymentEvent(d.eventType) || d.payload.None? || !NamesOne(s, d.payload.value)
    ensures var after := Step(s, Webhook(d, now));
            var pays := IsPaymentEvent(d.eventType) && d.payload.Some?;
            var failed := pays && Ambiguous(s, d.payload.value);
            after == s.(webhooks := s.webhooks + [WebhookEvent(d.processor, d.eventType, d.eventId, pays && !failed,
                                                               failed)])
  {
    PaymentEventsAre(d.eventType);
    if IsPaymentEvent(d.eventType) && d.payload.Some? { ProcessIdles(s, d.payload.value, now); }
  }

  /** A manual payment of at least one cent on a known invoice is recorded once. */
  lemma RecordPaymentOutcome(s: Store, invoiceId: Uuid, amountCents: int, paidBy: PaymentMethod)
    ensures Serve(s, RecordPayment(invoiceId, amountCents, paidBy)).1.Committed? <==>
              invoiceId in s.invoices && amountCents >= 1
    ensures var after := Step(s, RecordPayment(invoiceId, amountCents, paidBy));
            if invoiceId in s.invoices && amountCents >= 1 then
              && PaidOnce(s, after, Payment(invoiceId, amountCents, paidBy, None))
              && after.links == s.links && after.webhooks == s.webhooks
            else after == s
  {
    PayOnce(s, Payment(invoiceId, amountCents, paidBy, None));
  }

  // When an invoice becomes paid

  /** A payment marks an open invoice exactly when the earlier payments plus twice its own amount reach the total. */
  lemma MarkedPaidIff(s: Store, p: Payment)
    requires p.invoiceId in s.invoices && s.invoices[p.invoiceId].status != Billing.InvoicePaid
    ensures Pay(s, p).invoices[p.invoiceId].status == Billing.InvoicePaid
       <==> SumFor(s.payments, p.invoiceId) + 2 * p.amountCents >= s.invoices[p.invoiceId].totalCents
  {
    PaymentAdded(s.payments, p);
  }

  /** So "paid" means "covered" for a payment exactly unless it falls short by no more than its own amount. */
  lemma PaidIsCoveredIff(s: Store, p: Payment)
    requires p.invoiceId in s.invoices && s.invoices[p.invoiceId].status != Billing.InvoicePaid && p.amountCents >= 0
    ensures var left := s.invoices[p.invoiceId].totalCents - SumFor(s.payments, p.invoiceId);
            (Pay(s, p).invoices[p.invoiceId].status == Billing.InvoicePaid <==>
             SumFor(Pay(s, p).payments, p.invoiceId) >= s.invoices[p.invoiceId].totalCents)
            <==> !(p.amountCents < left <= 2 * p.amountCents)
  {
    PaymentAdded(s.payments, p);
  }

  /** Half of an invoice of one dollar is enough to mark it paid. */
  lemma HalfPaymentMarksPaid()
    ensures var s := Store(map[1 := Invoice(100, Billing.InvoiceDraft)], map[], [], []);
            var after := Step(s, RecordPayment(1, 50, Check));
            after.invoices[1].status == Billing.InvoicePaid && SumFor(after.payments, 1) == 50
  {
    var s := Store(map[1 := Invoice(100, Billing.InvoiceDraft)], map[], [], []);
    PaymentAdded(s.payments, Payment(1, 50, Check, None));
  }

  /** The service over its tables. An exception leaves the tables as written so far; Handle adds the session. */
  class PaymentService {
    var invoices: map<Uuid, Invoice>
    var links: map<string, PaymentLink>
    var payments: seq<Payment>
    var webhooks: seq<WebhookEvent>

    function Tables(): Store
      reads this
    {
      Store(invoices, links, payments, webhooks)
    }

    constructor ()
      ensures Tables() == NOTHING
    {
      invoices, links, payments, webhooks := map[], map[], [], [];
    }

    method TotalPaid(invoiceId: Uuid) returns (sum: int)
      ensures sum == SumFor(payments, invoiceId)
    {
      sum := 0;
      for i := 0 to |payments|
        invariant sum == SumFor(payments[..i], invoiceId)
      {
        assert payments[..i + 1][..i] == payments[..i];
        if payments[i].invoiceId == invoiceId { sum := sum + payments[i].amountCents; }
      }
      assert payments[..|payments|] == payments;
    }

    /** The end of create_payment and of mark_payment_link_paid: add the row, then compare. */
    method AddPayment(p: Payment)
      modifies this`invoices, this`payments
      ensures Tables() == Pay(old(Tables()), p)
    {
      payments := payments + [p];
      if p.invoiceId in invoices {
        var flushed := TotalPaid(p.invoiceId);
        var totalPaid := flushed + p.amountCents;
        if totalPaid >= invoices[p.invoiceId].totalCents {
          invoices := invoices[p.invoiceId := invoices[p.invoiceId].(status := Billing.InvoicePaid)];
        }
      }
    }

    method CreateInvoice(id: Uuid, totalCents: nat) returns (r: Outcome<Error>)
      modifies this
      ensures (Tables(), r) == Serve(old(Tables()), NewInvoice(id, totalCents))
    {
      if id in invoices { return Raised(IntegrityError); }
      invoices := invoices[id := Invoice(totalCents, Billing.InvoiceDraft)];
      return Committed;
    }

    method CreatePaymentLink(token: string, invoiceId: Uuid, q: LinkRequest) returns (r: Outcome<Error>)
      modifies this
      ensures (Tables(), r) == NewLinkCall(old(Tables()), token, invoiceId, q)
    {
      if invoiceId !in invoices { return Raised(InvoiceNotFound); }
      if invoices[invoiceId].status == Billing.InvoicePaid { return Raised(InvoiceAlreadyPaid); }
      if invoices[invoiceId].status == Billing.InvoiceVoid { return Raised(InvoiceVoided); }
      var total, processor, surcharge := invoices[invoiceId].totalCents, Manual, 0;
      var expiresAt: Option<int> := None;
      if q.settings.Some? {
        var ps := q.settings.value;
        if ps.isActive { processor := ps.processor; }
        if ps.surchargeEnabled && ps.surchargeRate > 0.0 { surcharge := WholePart(total, ps.surchargeRate); }
      }
      if q.expiresInDays.Some? && q.expiresInDays.value != 0 {
        expiresAt := Some(q.now + SECONDS_PER_DAY * q.expiresInDays.value);
      }
      if token in links { return Raised(IntegrityError); }
      links := links[token :=
          PaymentLink(invoiceId, total, surcharge, processor, Active, None, expiresAt, None, None, None)];
      return Committed;
    }

    /** A processor integration outside this program stores its session id on an active link. */
    method AttachProcessorSession(token: string, sessionId: string) returns (r: Outcome<Error>)
      modifies this
      ensures (Tables(), r) == Serve(old(Tables()), AttachSession(token, sessionId))
    {
      if token !in links { return Raised(LinkNotFound); }
      if links[token].status != Active { return Raised(NotActive(links[token].status)); }
      links := links[token := links[token].(sessionId := Some(sessionId))];
      return Committed;
    }

    method CancelPaymentLink(token: string) returns (r: Outcome<Error>)
      modifies this
      ensures (Tables(), r) == Serve(old(Tables()), CancelLink(token))
    {
      if token !in links { return Raised(LinkNotFound); }
      if links[token].status != Active { return Raised(NotActive(links[token].status)); }
      links := links[token := links[token].(status := Cancelled)];
      return Committed;
    }

    method GetPublicPaymentInfo(token: string, now: int) returns (r: Outcome<Error>)
      modifies this
      ensures (Tables(), r) == Serve(old(Tables()), ViewPage(token, now))
    {
      if token !in links { return Raised(LinkNotFound); }
      var link := links[token];
      if link.expiresAt.Some? {
        if link.expiresAt.value < now && link.status == Active {
          links := links[token := link.(status := Expired)];
        }
      }
      return Committed;
    }

    method MarkPaymentLinkPaid(token: string, c: Completion, now: int) returns (r: Outcome<Error>)
      modifies this
      ensures (Tables(), r) == MarkPaid(old(Tables()), token, c, now)
    {
      if token !in links { return Raised(LinkNotFound); }
      var link := links[token];
      if link.status != Active { return Raised(NotActive(link.status)); }
      if link.expiresAt.Some? && link.expiresAt.value < now {
        links := links[token := link.(status := Expired)];
        return Raised(LinkExpired);
      }
      var paidAmount := link.amountCents + link.surchargeCents;
      if c.paidAmountCents.Some? && c.paidAmountCents.value != 0 { paidAmount := c.paidAmountCents.value; }
      links := links[token := link.(status := Paid, paidAt := Some(now), paidAmountCents := Some(paidAmount),
                                    reference := c.reference)];
      AddPayment(Payment(link.invoiceId, link.amountCents, MethodFor(link.processor), Some(token)));
      return Committed;
    }

    method ProcessPaymentWebhook(p: Payload, now: int) returns (r: Outcome<Error>)
      modifies this
      ensures (Tables(), r) == ProcessPayment(old(Tables()), p, now)
    {
      var session := SessionOf(p);
      if !Given(session) { return Committed; }
      var tokens := ActiveWith(Tables(), session.value);
      if tokens == {} { return Committed; }
      if |tokens| > 1 { return Raised(MultipleResults); }
      var token :| token in tokens;
      OnlyOne(tokens, token);
      r := MarkPaymentLinkPaid(token, Completion(None, session), now);
    }

    method ProcessWebhook(d: Delivery, now: int) returns (r: Outcome<Error>)
      modifies this
      ensures (Tables(), r) == WebhookCall(old(Tables()), d, now)
    {
      if Known(Tables(), d) { return Raised(DuplicateEvent); }
      var processed, failed := false, false;
      if d.eventType in PAYMENT_EVENTS && d.payload.Some? {
        var inner := ProcessPaymentWebhook(d.payload.value, now);
        processed, failed := inner.Committed?, inner.Raised?;
      }
      webhooks := webhooks + [WebhookEvent(d.processor, d.eventType, d.eventId, processed, failed)];
      return Committed;
    }

    method CreatePayment(invoiceId: Uuid, amountCents: int, paidBy: PaymentMethod) returns (r: Outcome<Error>)
      modifies this
      ensures (Tables(), r) == Serve(old(Tables()), RecordPayment(invoiceId, amountCents, paidBy))
    {
      if amountCents < 1 { return Raised(InvalidAmount); }
      if invoiceId !in invoices { return Raised(IntegrityError); }
      AddPayment(Payment(invoiceId, amountCents, paidBy, None));
      return Committed;
    }

    /** One HTTP request: the service function, then commit, or rollback when it raised. */
    method Handle(c: Call) returns (r: Outcome<Error>)
      requires Invariant(Tables())
      modifies this
      ensures Tables() == Step(old(Tables()), c) && r == Serve(old(Tables()), c).1
      ensures Invariant(Tables())
    {
      StepKeeps(Tables(), c);
      var savedInvoices, savedLinks, savedPayments, savedWebhooks := invoices, links, payments, webhooks;
      match c {
        case NewInvoice(id, total) => r := CreateInvoice(id, total);
        case NewLink(token, id, request) => r := CreatePaymentLink(token, id, request);
        case AttachSession(token, sessionId) => r := AttachProcessorSession(token, sessionId);
        case CancelLink(token) => r := CancelPaymentLink(token);
        case ViewPage(token, now) => r := GetPublicPaymentInfo(token, now);
        case Complete(token, completion, now) => r := MarkPaymentLinkPaid(token, completion, now);
        case Webhook(delivery, now) => r := ProcessWebhook(delivery, now);
        case RecordPayment(id, amount, paidBy) => r := CreatePayment(id, amount, paidBy);
      }
      if r.Raised? {
        invoices, links, payments, webhooks := savedInvoices, savedLinks, savedPayments, savedWebhooks;
      }
    }
  }

  lemma OnlyOne(tokens: set<string>, token: string)
    requires |tokens| <= 1 && token in tokens
    ensures forall t :: t in tokens ==> t == token
  {
    assert |tokens - {token}| == |tokens| - 1;
    forall t | t in tokens ensures t == token {
      assert t !in tokens - {token};
    }
  }
}
