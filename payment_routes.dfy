/** The payment routes of backend/src/routes/payment.routes.js: invoice
    lookup, the two placeholder session factories (Whish and APS) and the
    provider webhook with its dedup key, event log and reconciliation of the
    session, invoice and subscription tables. The handler is modelled as the
    source runs it: one table write per SQL statement, no transaction, and an
    unhandled exception (no response) when the success branch cannot find the
    invoice's subscription. */
module PaymentRoutes {
  import opened Common
  import opened Database

  // ---------------------------------------------------------------------
  // Payload parsing and classification

  /** What the handler reads from a parsed webhook body: the three candidate
      session identities and the body's JSON serialisation. */
  datatype EventFields = EventFields(
    id: Option<string>,
    transactionId: Option<string>,
    fortId: Option<string>,
    json: string)

  /** The outcome of `JSON.parse` on the raw body. */
  datatype ParseOutcome = Parsed(fields: EventFields) | Threw

  /** `safeParse`: the parsed value, or null (None) when parsing throws. */
  function SafeParse(p: ParseOutcome): (r: Option<EventFields>)
    ensures r.None? <==> p.Threw?
    ensures r.Some? ==> r.value == p.fields
  {
    match p
    case Parsed(f) => Some(f)
    case Threw => None
  }

  /** `evt?.id || evt?.transactionId || evt?.fort_id`, falsy values dropped. */
  function SessionIdentity(evt: Option<EventFields>): (r: Option<string>)
    ensures evt.None? ==> r.None?
    ensures r.Some? ==> r.value != ""
    ensures evt.Some? && Truthy(evt.value.id) ==> r == evt.value.id
    ensures evt.Some? && !Truthy(evt.value.id) && Truthy(evt.value.transactionId) ==>
              r == evt.value.transactionId
    ensures evt.Some? && !Truthy(evt.value.id) && !Truthy(evt.value.transactionId) ==>
              (r.Some? <==> Truthy(evt.value.fortId)) && (r.Some? ==> r == evt.value.fortId)
  {
    match evt
    case None => None
    case Some(e) =>
      if Truthy(e.id) then e.id
      else if Truthy(e.transactionId) then e.transactionId
      else if Truthy(e.fortId) then e.fortId
      else None
  }

  datatype Outcome = Success | Cancelled | Failed

  function OutcomeName(o: Outcome): string {
    match o
    case Success => "SUCCESS"
    case Cancelled => "CANCELLED"
    case Failed => "FAILED"
  }

  /** The keyword search of `normalizeStatus` over an upper-cased text. */
  function Classify(upper: string): (o: Outcome)
    ensures o == Success <==> Includes(upper, "SUCCESS")
    ensures o == Cancelled <==> !Includes(upper, "SUCCESS") && Includes(upper, "CANCEL")
    ensures o == Failed <==> !Includes(upper, "SUCCESS") && !Includes(upper, "CANCEL")
  {
    if Includes(upper, "SUCCESS") then Success
    else if Includes(upper, "CANCEL") then Cancelled
    else Failed
  }

  /** `JSON.stringify(evt || "")`: a null payload serialises as `""`. */
  function StatusText(evt: Option<EventFields>): string {
    match evt
    case None => "\"\""
    case Some(e) => e.json
  }

  /** `normalizeStatus(provider, evt)`; the provider is not consulted. */
  function NormalizeStatus(evt: Option<EventFields>): (o: Outcome)
    ensures o == Success <==> Includes(Upper(StatusText(evt)), "SUCCESS")
    ensures o == Cancelled <==>
              !Includes(Upper(StatusText(evt)), "SUCCESS") && Includes(Upper(StatusText(evt)), "CANCEL")
    ensures o == Failed <==>
              !Includes(Upper(StatusText(evt)), "SUCCESS") && !Includes(Upper(StatusText(evt)), "CANCEL")
  {
    Classify(Upper(StatusText(evt)))
  }

  /** An unparsable body is classified FAILED. */
  lemma NullPayloadIsFailed()
    ensures NormalizeStatus(None) == Failed
  {
    var u := Upper("\"\"");
    assert |u| == 2;
    ShorterNotIncluded(u, "SUCCESS");
    ShorterNotIncluded(u, "CANCEL");
  }

  /** SUCCESS wins over CANCEL when a payload mentions both. */
  lemma SuccessWinsOverCancel(evt: Option<EventFields>)
    requires Includes(Upper(StatusText(evt)), "SUCCESS") && Includes(Upper(StatusText(evt)), "CANCEL")
    ensures NormalizeStatus(evt) == Success
  {
  }

  /** The lower-case session status an outcome is stored as. */
  function SessionStatusOf(o: Outcome): (s: SessionStatus)
    ensures o == Success <==> s == SessionSucceeded
    ensures o == Failed <==> s == SessionFailed
    ensures o == Cancelled <==> s == SessionCancelled
  {
    match o
    case Success => SessionSucceeded
    case Failed => SessionFailed
    case Cancelled => SessionCancelled
  }

  // ---------------------------------------------------------------------
  // Dedup key

  function OutcomeSuffix(o: Outcome): string { ":" + OutcomeName(o) }

  /** `${provider}:${sessionId}:${status}`. */
  function DedupKey(p: Provider, sessionId: string, o: Outcome): string {
    ProviderName(p) + ":" + sessionId + OutcomeSuffix(o)
  }

  lemma SuffixesDistinct(o1: Outcome, o2: Outcome, k: string)
    requires o1 != o2
    requires |OutcomeSuffix(o1)| <= |OutcomeSuffix(o2)| <= |k|
    requires k[|k| - |OutcomeSuffix(o2)|..] == OutcomeSuffix(o2)
    ensures k[|k| - |OutcomeSuffix(o1)|..] != OutcomeSuffix(o1)
  {
    var t1, t2 := OutcomeSuffix(o1), OutcomeSuffix(o2);
    assert k[|k| - |t1|..] == t2[|t2| - |t1|..];
    if o1 == Success || o1 == Failed {
      assert t2[|t2| - |t1|] != t1[0];
    }
  }

  /** The dedup key determines provider, session identity and outcome: the
      same session with another outcome is a different key, even when the
      session identity itself contains ':'. */
  lemma DedupKeyInjective(p1: Provider, s1: string, o1: Outcome, p2: Provider, s2: string, o2: Outcome)
    requires DedupKey(p1, s1, o1) == DedupKey(p2, s2, o2)
    ensures p1 == p2 && s1 == s2 && o1 == o2
  {
    var k := DedupKey(p1, s1, o1);
    assert k[0] == ProviderName(p1)[0] == ProviderName(p2)[0];
    var t1, t2 := OutcomeSuffix(o1), OutcomeSuffix(o2);
    assert k[|k| - |t1|..] == t1;
    assert k[|k| - |t2|..] == t2;
    if o1 != o2 {
      if |t1| <= |t2| {
        SuffixesDistinct(o1, o2, k);
      } else {
        SuffixesDistinct(o2, o1, k);
      }
    }
    var head := ProviderName(p1) + ":";
    assert k == head + s1 + t1;
    assert k == head + s2 + t2;
    assert s1 == k[|head|..|k| - |t1|];
    assert s2 == k[|head|..|k| - |t2|];
  }

  // ---------------------------------------------------------------------
  // The event log and the dedup set

  /** The dedup key a logged event was admitted under: the outcome is
      recomputed from the stored serialisation. */
  function EventKey(e: PaymentEvent): string {
    DedupKey(e.provider, e.eventId, Classify(Upper(e.raw)))
  }

  function KeysOf(evs: seq<PaymentEvent>): set<string> {
    if evs == [] then {} else KeysOf(evs[..|evs| - 1]) + {EventKey(evs[|evs| - 1])}
  }

  /** The dedup set holds exactly the keys of the logged events, one event
      per key. */
  ghost predicate LogMatchesDedup(db: Db)
    reads db
  {
    db.dedup == KeysOf(db.events) && |db.dedup| == |db.events|
  }

  lemma AppendEventKeys(evs: seq<PaymentEvent>, e: PaymentEvent)
    ensures KeysOf(evs + [e]) == KeysOf(evs) + {EventKey(e)}
  {
    assert (evs + [e])[..|evs|] == evs;
  }

  // ---------------------------------------------------------------------
  // Invoice lookup

  datatype InvoiceView = InvoiceView(id: string, amountCents: int, currency: string, status: InvoiceStatus)

  /** `GET /invoice/:id`: the public fields, or 404. */
  function InvoiceLookup(db: Db, id: string): (r: Result<InvoiceView, nat>)
    reads db
    ensures r.Err? <==> id !in db.invoices
    ensures r.Err? ==> r.error == 404
    ensures r.Ok? ==>
              var inv := db.invoices[id];
              r.value.id == inv.id && r.value.amountCents == inv.amountCents &&
              r.value.currency == inv.currency && r.value.status == inv.status
  {
    if id in db.invoices then
      var inv := db.invoices[id];
      Ok(InvoiceView(inv.id, inv.amountCents, inv.currency, inv.status))
    else Err(404)
  }

  // ---------------------------------------------------------------------
  // Session factories

  /** `whish_${Date.now()}` / `aps_${Date.now()}`. */
  function SessionIdFor(p: Provider, stamp: nat): (sid: string)
    ensures StartsWith(sid, ProviderName(p) + "_")
  {
    ProviderName(p) + "_" + NatToString(stamp)
  }

  /** `psn_${Date.now()}`. */
  function RowIdFor(stamp: nat): string { "psn_" + NatToString(stamp) }

  /** Sessions minted at different instants, or for different providers,
      get different session ids. */
  lemma SessionIdsDistinct(p1: Provider, t1: nat, p2: Provider, t2: nat)
    requires SessionIdFor(p1, t1) == SessionIdFor(p2, t2)
    ensures p1 == p2 && t1 == t2
  {
    var s := SessionIdFor(p1, t1);
    assert s[0] == ProviderName(p1)[0] == ProviderName(p2)[0];
    var head := ProviderName(p1) + "_";
    assert s == head + NatToString(t1) && s == head + NatToString(t2);
    assert NatToString(t1) == s[|head|..] == NatToString(t2);
    NatToStringInjective(t1, t2);
  }

  function PaymentUrlPrefix(p: Provider): string {
    match p
    case Whish => "whish://pay/"
    case Aps => "https://pay.example-aps/"
  }

  /** The payment URL a factory returns; it ends with the session id. */
  function PaymentUrl(p: Provider, sid: string): (url: string)
    ensures |url| >= |sid| && url[|url| - |sid|..] == sid
    ensures StartsWith(url, PaymentUrlPrefix(p))
  {
    PaymentUrlPrefix(p) + sid
  }

  /** The JSON reply `{ provider, sessionId, paymentUrl }`. */
  datatype CreatedSession = CreatedSession(provider: Provider, sessionId: string, paymentUrl: string)

  /** `POST /whish/create` and `POST /aps/create`. `invoiceId` is None when the
      body has none; `stamp` is the clock reading both ids are made from. */
  method CreateSession(db: Db, p: Provider, invoiceId: Option<string>, stamp: nat)
    returns (r: Result<CreatedSession, nat>)
    requires db.Valid()
    requires SessionIdFor(p, stamp) !in db.sessions
    modifies db`sessions
    ensures db.Valid()
    ensures invoiceId.None? || invoiceId.value !in db.invoices ==>
              r == Err(404) && db.sessions == old(db.sessions)
    ensures invoiceId.Some? && invoiceId.value in db.invoices ==>
              var sid := SessionIdFor(p, stamp);
              var inv := db.invoices[invoiceId.value];
              && r == Ok(CreatedSession(p, sid, PaymentUrl(p, sid)))
              && db.sessions == old(db.sessions)[sid := PaymentSession(RowIdFor(stamp), p, sid, inv.id,
                                                                        SessionCreated, inv.amountCents, inv.currency)]
  {
    if invoiceId.None? || invoiceId.value !in db.invoices {
      return Err(404);
    }
    var inv := db.invoices[invoiceId.value];
    var sid := SessionIdFor(p, stamp);
    db.sessions := db.sessions[sid := PaymentSession(RowIdFor(stamp), p, sid, invoiceId.value,
                                                     SessionCreated, inv.amountCents, inv.currency)];
    r := Ok(CreatedSession(p, sid, PaymentUrl(p, sid)));
  }

  // ---------------------------------------------------------------------
  // Webhook

  /** The reply text: "ok", "duplicate", or none at all when the handler
      throws (the promise rejects and no response is written). */
  datatype WebhookReply = Ack | Duplicate | Aborted

  /** `JSON.stringify(evt || {})`, the payload kept in the event log. */
  function RawOf(evt: Option<EventFields>): string {
    match evt
    case None => "{}"
    case Some(e) => e.json
  }

  /** `UPDATE invoices SET status='paid', paid_at=NOW() WHERE id=?`. */
  function PayInvoice(invoices: map<string, Invoice>, id: string, now: Instant): (r: map<string, Invoice>)
    ensures r.Keys == invoices.Keys
    ensures id in r ==> r[id].status == InvoicePaid && r[id].paidAt == Some(now)
    ensures forall k :: k in r && k != id ==> r[k] == invoices[k]
  {
    if id in invoices then invoices[id := invoices[id].(status := InvoicePaid, paidAt := Some(now))]
    else invoices
  }

  /** `UPDATE invoices SET status='failed' WHERE id=?`, whatever the current status. */
  function FailInvoice(invoices: map<string, Invoice>, id: string): (r: map<string, Invoice>)
    ensures r.Keys == invoices.Keys
    ensures id in r ==> r[id].status == InvoiceFailed && r[id].paidAt == invoices[id].paidAt
    ensures forall k :: k in r && k != id ==> r[k] == invoices[k]
  {
    if id in invoices then invoices[id := invoices[id].(status := InvoiceFailed)] else invoices
  }

  /** The subscription row a successful payment renews: the one the
      invoice's `subscription_id` names, when the invoice and that row exist. */
  function RenewalTarget(invoices: map<string, Invoice>, subs: map<nat, Subscription>, invoiceId: string): (t: Option<nat>)
    ensures t.Some? <==> invoiceId in invoices && invoices[invoiceId].subscriptionId.Some? &&
                         invoices[invoiceId].subscriptionId.value in subs
    ensures t.Some? ==> t == invoices[invoiceId].subscriptionId
  {
    if invoiceId in invoices && invoices[invoiceId].subscriptionId.Some? &&
       invoices[invoiceId].subscriptionId.value in subs
    then invoices[invoiceId].subscriptionId
    else None
  }

  /** `UPDATE subscriptions SET status='active', current_period_end=?,
      current_period_start=NOW()`: the new end is one month after the stored
      end, or after now when none is stored. */
  function Renew(sub: Subscription, now: Instant): (r: Subscription)
    ensures r.status == Active && r.periodStart == Some(now)
    ensures r.periodEnd.Some? && Before(sub.periodEnd.GetOr(now), r.periodEnd.value)
    ensures r.periodEnd == Some(AddMonth(if sub.periodEnd.Some? then sub.periodEnd.value else now))
    ensures r == sub.(status := Active, periodStart := Some(now), periodEnd := r.periodEnd)
  {
    var next := AddMonth(sub.periodEnd.GetOr(now));
    sub.(status := Active, periodEnd := Some(next), periodStart := Some(now))
  }

  /** The stored end wins over now even when it lies in the past: renewing a
      lapsed subscription leaves its period ending before it starts. */
  lemma RenewAfterLapseEndsBeforeStart(sub: Subscription, now: Instant)
    requires sub.periodEnd.Some? && Before(AddMonth(sub.periodEnd.value), now)
    ensures Before(Renew(sub, now).periodEnd.value, Renew(sub, now).periodStart.value)
  {
  }

  /** The provider webhook handler `handleWebhook(provider, evt, res)`. */
  method HandleWebhook(db: Db, p: Provider, evt: Option<EventFields>, now: Instant)
    returns (reply: WebhookReply)
    requires db.Valid()
    modifies db
    ensures db.Valid()
    // no session identity: acknowledged, nothing written
    ensures SessionIdentity(evt).None? ==> reply == Ack && unchanged(db)
    // a key already consumed: "duplicate", nothing written
    ensures SessionIdentity(evt).Some? &&
            DedupKey(p, SessionIdentity(evt).value, NormalizeStatus(evt)) in old(db.dedup) ==>
              reply == Duplicate && unchanged(db)
    // an admitted event: its key is consumed and exactly one event is logged
    ensures SessionIdentity(evt).Some? &&
            DedupKey(p, SessionIdentity(evt).value, NormalizeStatus(evt)) !in old(db.dedup) ==>
              var sid := SessionIdentity(evt).value;
              && db.dedup == old(db.dedup) + {DedupKey(p, sid, NormalizeStatus(evt))}
              && db.events == old(db.events) + [PaymentEvent(p, sid, RawOf(evt))]
              && reply != Duplicate
    // ... for an unknown session nothing else changes
    ensures SessionIdentity(evt).Some? &&
            DedupKey(p, SessionIdentity(evt).value, NormalizeStatus(evt)) !in old(db.dedup) &&
            SessionIdentity(evt).value !in old(db.sessions) ==>
              && reply == Ack
              && db.sessions == old(db.sessions)
              && db.invoices == old(db.invoices)
              && db.subscriptions == old(db.subscriptions)
    // ... SUCCESS: session succeeded, invoice paid, its subscription renewed
    ensures SessionIdentity(evt).Some? &&
            DedupKey(p, SessionIdentity(evt).value, NormalizeStatus(evt)) !in old(db.dedup) &&
            SessionIdentity(evt).value in old(db.sessions) && NormalizeStatus(evt) == Success ==>
              var sid := SessionIdentity(evt).value;
              var ps := old(db.sessions)[sid];
              var target := RenewalTarget(old(db.invoices), old(db.subscriptions), ps.invoiceId);
              && db.sessions == old(db.sessions)[sid := ps.(status := SessionSucceeded)]
              && db.invoices == PayInvoice(old(db.invoices), ps.invoiceId, now)
              && (target.Some? ==>
                    reply == Ack &&
                    db.subscriptions == old(db.subscriptions)[target.value := Renew(old(db.subscriptions)[target.value], now)])
              && (target.None? ==> reply == Aborted && db.subscriptions == old(db.subscriptions))
    // ... FAILED or CANCELLED: session takes the outcome, invoice failed, subscriptions untouched
    ensures SessionIdentity(evt).Some? &&
            DedupKey(p, SessionIdentity(evt).value, NormalizeStatus(evt)) !in old(db.dedup) &&
            SessionIdentity(evt).value in old(db.sessions) && NormalizeStatus(evt) != Success ==>
              var sid := SessionIdentity(evt).value;
              var ps := old(db.sessions)[sid];
              && reply == Ack
              && db.sessions == old(db.sessions)[sid := ps.(status := SessionStatusOf(NormalizeStatus(evt)))]
              && db.invoices == FailInvoice(old(db.invoices), ps.invoiceId)
              && db.subscriptions == old(db.subscriptions)
  {
    var sessionId := SessionIdentity(evt);
    var status := NormalizeStatus(evt);
    if sessionId.None? {
      return Ack;
    }
    var sid := sessionId.value;

    // idempotency: the insert fails on a key already present
    var key := DedupKey(p, sid, status);
    if key in db.dedup {
      return Duplicate;
    }
    db.dedup := db.dedup + {key};

    db.events := db.events + [PaymentEvent(p, sid, RawOf(evt))];

    if sid !in db.sessions {
      return Ack;
    }
    var ps := db.sessions[sid];

    if status == Success {
      db.sessions := db.sessions[sid := ps.(status := SessionSucceeded)];
      db.invoices := PayInvoice(db.invoices, ps.invoiceId, now);
      // `inv.subscription_id` and `sub.current_period_end` throw when the
      // invoice or the subscription row is missing
      if ps.invoiceId !in db.invoices {
        return Aborted;
      }
      var inv := db.invoices[ps.invoiceId];
      if inv.subscriptionId.None? || inv.subscriptionId.value !in db.subscriptions {
        return Aborted;
      }
      var sub := db.subscriptions[inv.subscriptionId.value];
      db.subscriptions := db.subscriptions[sub.id := Renew(sub, now)];
    } else {
      db.sessions := db.sessions[sid := ps.(status := SessionStatusOf(status))];
      db.invoices := FailInvoice(db.invoices, ps.invoiceId);
    }
    return Ack;
  }

  /** Every admitted webhook logs exactly one event under a fresh key, so the
      dedup set and the event log stay in step. */
  method HandleWebhookKeepsLog(db: Db, p: Provider, evt: Option<EventFields>, now: Instant)
    returns (reply: WebhookReply)
    requires db.Valid() && LogMatchesDedup(db)
    modifies db
    ensures db.Valid() && LogMatchesDedup(db)
    ensures |db.events| <= old(|db.events|) + 1
  {
    reply := HandleWebhook(db, p, evt, now);
    if |db.events| != old(|db.events|) {
      var sid := SessionIdentity(evt).value;
      var e := PaymentEvent(p, sid, RawOf(evt));
      assert SessionIdentity(evt).Some? && evt.Some?;
      assert EventKey(e) == DedupKey(p, sid, NormalizeStatus(evt));
      AppendEventKeys(old(db.events), e);
    }
  }

  // ---------------------------------------------------------------------
  // Scenarios over several deliveries

  /** Re-delivering an identical event is answered "duplicate" and changes
      nothing. */
  method RedeliveryIsDuplicate(db: Db, p: Provider, evt: Option<EventFields>, now: Instant, later: Instant)
    returns (first: WebhookReply, second: WebhookReply)
    requires db.Valid() && SessionIdentity(evt).Some?
    modifies db
    ensures second == Duplicate
  {
    first := HandleWebhook(db, p, evt, now);
    second := HandleWebhook(db, p, evt, later);
  }

  /** Success is not sticky: a CANCELLED or FAILED event delivered after a
      SUCCESS for the same session sets the paid invoice to failed. */
  method FailureAfterSuccessOverridesPaid(db: Db, p: Provider, ok: EventFields, ko: EventFields, now: Instant)
    returns (first: WebhookReply, second: WebhookReply)
    requires db.Valid()
    requires SessionIdentity(Some(ok)).Some? && SessionIdentity(Some(ok)) == SessionIdentity(Some(ko))
    requires NormalizeStatus(Some(ok)) == Success && NormalizeStatus(Some(ko)) != Success
    requires DedupKey(p, SessionIdentity(Some(ok)).value, Success) !in db.dedup
    requires DedupKey(p, SessionIdentity(Some(ok)).value, NormalizeStatus(Some(ko))) !in db.dedup
    requires SessionIdentity(Some(ok)).value in db.sessions
    requires db.sessions[SessionIdentity(Some(ok)).value].invoiceId in db.invoices
    modifies db
    ensures first != Duplicate && second == Ack
    ensures var invoiceId := old(db.sessions)[SessionIdentity(Some(ok)).value].invoiceId;
            invoiceId in db.invoices && db.invoices[invoiceId].status == InvoiceFailed
  {
    var sid := SessionIdentity(Some(ok)).value;
    first := HandleWebhook(db, p, Some(ok), now);
    assert DedupKey(p, sid, NormalizeStatus(Some(ko))) != DedupKey(p, sid, Success) by {
      if DedupKey(p, sid, NormalizeStatus(Some(ko))) == DedupKey(p, sid, Success) {
        DedupKeyInjective(p, sid, NormalizeStatus(Some(ko)), p, sid, Success);
      }
    }
    second := HandleWebhook(db, p, Some(ko), now);
  }
}
