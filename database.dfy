/** The billing tables the backend keeps in MySQL, as the route handlers see
    them: the webhook dedup keys, the append-only payment event log, payment
    sessions, invoices and subscriptions. Each table is a field of `Db`; each
    SQL statement of a handler becomes one update of one field. */
module Database {
  import opened Common

  /** An abstract point in time: a month index and a position inside that
      month. Only the order and "one month later" matter to the handlers. */
  datatype Instant = Instant(month: int, offset: nat)

  predicate Before(a: Instant, b: Instant) {
    a.month < b.month || (a.month == b.month && a.offset < b.offset)
  }

  predicate NotAfter(a: Instant, b: Instant) { a == b || Before(a, b) }

  /** `d.setMonth(d.getMonth() + 1)`: the same position, one month on. */
  function AddMonth(t: Instant): (r: Instant)
    ensures Before(t, r)
    ensures r.offset == t.offset
  {
    Instant(t.month + 1, t.offset)
  }

  datatype Provider = Whish | Aps

  function ProviderName(p: Provider): (s: string)
    ensures s == "whish" || s == "aps"
  {
    match p
    case Whish => "whish"
    case Aps => "aps"
  }

  datatype SessionStatus = SessionCreated | SessionSucceeded | SessionFailed | SessionCancelled

  /** A row of `payment_sessions`. */
  datatype PaymentSession = PaymentSession(
    rowId: string,
    provider: Provider,
    sessionId: string,
    invoiceId: string,
    status: SessionStatus,
    amountCents: int,
    currency: string)

  datatype InvoiceStatus = InvoicePending | InvoicePaid | InvoiceFailed

  /** A row of `invoices`. */
  datatype Invoice = Invoice(
    id: string,
    amountCents: int,
    currency: string,
    status: InvoiceStatus,
    paidAt: Option<Instant>,
    subscriptionId: Option<nat>)

  datatype SubscriptionStatus = PendingPayment | Active | PastDue

  /** A row of `subscriptions`. */
  datatype Subscription = Subscription(
    id: nat,
    orgId: string,
    status: SubscriptionStatus,
    provider: Option<string>,
    providerSubId: Option<string>,
    periodStart: Option<Instant>,
    periodEnd: Option<Instant>,
    trialEnd: Option<Instant>)

  /** A row of `payment_events`: who sent it, the session identity it named
      and the serialised payload. */
  datatype PaymentEvent = PaymentEvent(provider: Provider, eventId: string, raw: string)

  /** The database. Sessions are keyed by their provider session id (the
      `session_id` column the handlers search by), invoices and subscriptions
      by their primary key. */
  class Db {
    var dedup: set<string>
    var events: seq<PaymentEvent>
    var sessions: map<string, PaymentSession>
    var invoices: map<string, Invoice>
    var subscriptions: map<nat, Subscription>

    /** Every row sits under its own key. */
    ghost predicate Valid()
      reads this
    {
      && (forall k :: k in sessions ==> sessions[k].sessionId == k)
      && (forall k :: k in invoices ==> invoices[k].id == k)
      && (forall k :: k in subscriptions ==> subscriptions[k].id == k)
    }

    /** A database holding the given invoices and subscriptions (created by
        signup and billing jobs outside this core) and nothing else. */
    constructor (invoices0: map<string, Invoice>, subscriptions0: map<nat, Subscription>)
      requires forall k :: k in invoices0 ==> invoices0[k].id == k
      requires forall k :: k in subscriptions0 ==> subscriptions0[k].id == k
      ensures Valid()
      ensures dedup == {} && events == [] && sessions == map[]
      ensures invoices == invoices0 && subscriptions == subscriptions0
    {
      dedup := {};
      events := [];
      sessions := map[];
      invoices := invoices0;
      subscriptions := subscriptions0;
    }
  }
}
