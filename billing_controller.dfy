/** `confirmBilling` of backend/src/controllers/billing.controller.js: the
    guard sequence (400 missing session id, 401 no organisation, 400 invalid
    checkout session or no subscription, 500 on any thrown error) followed by
    the update of the newest `pending_payment` subscription row of the
    organisation. The two Stripe lookups are inputs. */
module BillingController {
  import opened Common
  import opened Database

  // ---------------------------------------------------------------------
  // Inputs from the payment provider

  /** A lookup that either returned a value or threw. */
  datatype Lookup<+T> = Threw | Found(value: T)

  /** `session.subscription`: a bare id, an expanded object with an optional
      id, or absent. */
  datatype SubscriptionRef = RefAbsent | RefId(id: string) | RefObject(objectId: Option<string>)

  /** The fields of a checkout session the handler reads. */
  datatype CheckoutSession = CheckoutSession(mode: string, subscription: SubscriptionRef)

  /** The fields of a provider subscription the handler reads; the epoch
      seconds are already converted to instants (`FROM_UNIXTIME`). */
  datatype ProviderSubscription = ProviderSubscription(periodEnd: Option<Instant>, trialEnd: Option<Instant>)

  /** `typeof s === "string" ? s : s?.id`, kept only when truthy. */
  function SubscriptionIdOf(ref: SubscriptionRef): (r: Option<string>)
    ensures r.Some? ==> r.value != ""
    ensures ref.RefAbsent? ==> r.None?
    ensures ref.RefId? ==> (r.Some? <==> ref.id != "") && (r.Some? ==> r.value == ref.id)
    ensures ref.RefObject? ==> (r.Some? <==> Truthy(ref.objectId)) && (r.Some? ==> r == ref.objectId)
  {
    match ref
    case RefAbsent => None
    case RefId(s) => if s != "" then Some(s) else None
    case RefObject(o) => if Truthy(o) then o else None
  }

  // ---------------------------------------------------------------------
  // Guard sequence

  /** The JSON reply and its HTTP status. */
  datatype ConfirmReply = ConfirmOk | ConfirmError(status: nat, message: string) {
    function Status(): nat {
      match this
      case ConfirmOk => 200
      case ConfirmError(s, _) => s
    }
  }

  const MissingSessionId := ConfirmError(400, "Missing session_id")
  const NotAuthorized := ConfirmError(401, "Unauthorized")
  const InvalidSession := ConfirmError(400, "Invalid session")
  const NoSubscription := ConfirmError(400, "No subscription found on session")
  const ServerError := ConfirmError(500, "Failed to confirm billing")

  /** What the guards decide: reply at once, or run the table update. */
  datatype Decision =
    | Reject(reply: ConfirmReply)
    | Apply(orgId: string, subId: string, periodEnd: Option<Instant>, trialEnd: Option<Instant>)

  /** The checks of `confirmBilling`, in source order. */
  function Decide(sessionId: Option<string>, orgId: Option<string>,
                  session: Lookup<Option<CheckoutSession>>, sub: Lookup<ProviderSubscription>): (d: Decision)
    // the missing session id is reported before anything else
    ensures !Truthy(sessionId) ==> d == Reject(MissingSessionId)
    // then the missing organisation
    ensures Truthy(sessionId) && !Truthy(orgId) ==> d == Reject(NotAuthorized)
    // then the checkout session lookup
    ensures Truthy(sessionId) && Truthy(orgId) && session.Threw? ==> d == Reject(ServerError)
    ensures Truthy(sessionId) && Truthy(orgId) && session.Found? &&
            (session.value.None? || session.value.value.mode != "subscription") ==>
              d == Reject(InvalidSession)
    ensures Truthy(sessionId) && Truthy(orgId) && session.Found? && session.value.Some? &&
            session.value.value.mode == "subscription" &&
            SubscriptionIdOf(session.value.value.subscription).None? ==>
              d == Reject(NoSubscription)
    // then the subscription lookup
    ensures Truthy(sessionId) && Truthy(orgId) && session.Found? && session.value.Some? &&
            session.value.value.mode == "subscription" &&
            SubscriptionIdOf(session.value.value.subscription).Some? && sub.Threw? ==>
              d == Reject(ServerError)
    // the table update runs only when every check passed
    ensures d.Apply? <==>
              && Truthy(sessionId) && Truthy(orgId)
              && session.Found? && session.value.Some? && session.value.value.mode == "subscription"
              && SubscriptionIdOf(session.value.value.subscription).Some?
              && sub.Found?
    ensures d.Apply? ==>
              && d.orgId == orgId.value
              && Some(d.subId) == SubscriptionIdOf(session.value.value.subscription)
              && d.periodEnd == sub.value.periodEnd && d.trialEnd == sub.value.trialEnd
    ensures d.Reject? ==> d.reply.ConfirmError?
  {
    if !Truthy(sessionId) then Reject(MissingSessionId)
    else if !Truthy(orgId) then Reject(NotAuthorized)
    else match session
      case Threw => Reject(ServerError)
      case Found(s) =>
        if s.None? || s.value.mode != "subscription" then Reject(InvalidSession)
        else match SubscriptionIdOf(s.value.subscription)
          case None => Reject(NoSubscription)
          case Some(subId) =>
            match sub
            case Threw => Reject(ServerError)
            case Found(ps) => Apply(orgId.value, subId, ps.periodEnd, ps.trialEnd)
  }

  // ---------------------------------------------------------------------
  // The table update

  predicate IsPendingFor(s: Subscription, org: string) {
    s.orgId == org && s.status == PendingPayment
  }

  /** The ids of the organisation's rows awaiting payment. */
  function PendingIds(subs: map<nat, Subscription>, org: string): set<nat> {
    set k | k in subs && IsPendingFor(subs[k], org)
  }

  /** `k` is the row `WHERE org_id=? AND status='pending_payment' ORDER BY id
      DESC LIMIT 1` selects. */
  ghost predicate IsNewestPending(subs: map<nat, Subscription>, org: string, k: nat) {
    k in PendingIds(subs, org) && forall j :: j in PendingIds(subs, org) ==> j <= k
  }

  lemma NewestUnique(subs: map<nat, Subscription>, org: string, a: nat, b: nat)
    requires IsNewestPending(subs, org, a) && IsNewestPending(subs, org, b)
    ensures a == b
  {
  }

  /** A non-empty finite set of ids has a largest element. */
  lemma {:induction false} LargestExists(ids: set<nat>)
    requires ids != {}
    ensures exists m :: m in ids && forall j :: j in ids ==> j <= m
  {
    var x :| x in ids;
    if ids != {x} {
      LargestExists(ids - {x});
      var m :| m in ids - {x} && forall j :: j in ids - {x} ==> j <= m;
      var top := if x > m then x else m;
      forall j | j in ids ensures j <= top {
        if j != x {
          assert j in ids - {x};
        }
      }
    } else {
      assert forall j :: j in ids ==> j <= x;
    }
  }

  lemma NewestExists(subs: map<nat, Subscription>, org: string)
    requires PendingIds(subs, org) != {}
    ensures exists k :: IsNewestPending(subs, org, k)
  {
    LargestExists(PendingIds(subs, org));
    var m :| m in PendingIds(subs, org) && forall j :: j in PendingIds(subs, org) ==> j <= m;
    assert IsNewestPending(subs, org, m);
  }

  /** The row the update selects, if any. */
  ghost function NewestPending(subs: map<nat, Subscription>, org: string): (r: Option<nat>)
    ensures r.None? <==> PendingIds(subs, org) == {}
    ensures r.Some? ==> IsNewestPending(subs, org, r.value)
  {
    if PendingIds(subs, org) == {} then None
    else
      NewestExists(subs, org);
      var k :| IsNewestPending(subs, org, k);
      Some(k)
  }

  /** The SET clause: active, provider "stripe", the provider's subscription
      id, and the two instants overwritten only when the provider sent one
      (`IFNULL(new, stored)`). */
  function Activate(s: Subscription, subId: string, periodEnd: Option<Instant>, trialEnd: Option<Instant>): (r: Subscription)
    ensures r.status == Active && r.provider == Some("stripe") && r.providerSubId == Some(subId)
    ensures periodEnd.Some? ==> r.periodEnd == periodEnd
    ensures periodEnd.None? ==> r.periodEnd == s.periodEnd
    ensures trialEnd.Some? ==> r.trialEnd == trialEnd
    ensures trialEnd.None? ==> r.trialEnd == s.trialEnd
    ensures r.id == s.id && r.orgId == s.orgId && r.periodStart == s.periodStart
  {
    s.(status := Active, provider := Some("stripe"), providerSubId := Some(subId),
       periodEnd := if periodEnd.Some? then periodEnd else s.periodEnd,
       trialEnd := if trialEnd.Some? then trialEnd else s.trialEnd)
  }

  /** The subscriptions table after the UPDATE. */
  ghost function Confirmed(subs: map<nat, Subscription>, org: string, subId: string,
                           periodEnd: Option<Instant>, trialEnd: Option<Instant>): (r: map<nat, Subscription>)
    ensures r.Keys == subs.Keys
    // every row except the selected one is untouched, other organisations included
    ensures forall k :: k in subs && Some(k) != NewestPending(subs, org) ==> r[k] == subs[k]
    // the selected row is activated and leaves the pending set; no row joins it
    ensures NewestPending(subs, org).Some? ==>
              var k := NewestPending(subs, org).value;
              r[k] == Activate(subs[k], subId, periodEnd, trialEnd) &&
              PendingIds(r, org) == PendingIds(subs, org) - {k}
    ensures NewestPending(subs, org).None? ==> r == subs
  {
    match NewestPending(subs, org)
    case None => subs
    case Some(k) => subs[k := Activate(subs[k], subId, periodEnd, trialEnd)]
  }

  /** The row selection, done as a scan over the table's ids. */
  method FindNewestPending(subs: map<nat, Subscription>, org: string) returns (r: Option<nat>)
    ensures r.None? <==> PendingIds(subs, org) == {}
    ensures r.Some? ==> IsNewestPending(subs, org, r.value)
  {
    r := None;
    var rest := subs.Keys;
    while rest != {}
      invariant rest <= subs.Keys
      invariant r.Some? ==> r.value in PendingIds(subs, org) && r.value !in rest
      invariant forall j :: j in PendingIds(subs, org) && j !in rest ==> r.Some? && j <= r.value
      decreases rest
    {
      var k :| k in rest;
      rest := rest - {k};
      if IsPendingFor(subs[k], org) && (r.None? || k > r.value) {
        r := Some(k);
      }
    }
  }

  /** `confirmBilling`: decides, then runs the UPDATE when the guards pass. */
  method ConfirmBilling(db: Db, sessionId: Option<string>, orgId: Option<string>,
                        session: Lookup<Option<CheckoutSession>>, sub: Lookup<ProviderSubscription>)
    returns (reply: ConfirmReply)
    requires db.Valid()
    modifies db`subscriptions
    ensures db.Valid()
    ensures var d := Decide(sessionId, orgId, session, sub);
            && (d.Reject? ==> reply == d.reply && db.subscriptions == old(db.subscriptions))
            && (d.Apply? ==>
                  reply == ConfirmOk &&
                  db.subscriptions == Confirmed(old(db.subscriptions), d.orgId, d.subId, d.periodEnd, d.trialEnd))
  {
    var d := Decide(sessionId, orgId, session, sub);
    if d.Reject? {
      return d.reply;
    }
    var target := FindNewestPending(db.subscriptions, d.orgId);
    if target.Some? {
      NewestUnique(db.subscriptions, d.orgId, target.value, NewestPending(db.subscriptions, d.orgId).value);
      var k := target.value;
      db.subscriptions := db.subscriptions[k := Activate(db.subscriptions[k], d.subId, d.periodEnd, d.trialEnd)];
    }
    // affectedRows === 0 only logs a warning
    return ConfirmOk;
  }

  // ---------------------------------------------------------------------
  // Properties across calls

  /** A confirmation for an organisation with no pending row changes nothing
      and still answers ok. */
  lemma NoPendingRowIsNoop(subs: map<nat, Subscription>, org: string, subId: string,
                           pe: Option<Instant>, te: Option<Instant>)
    requires PendingIds(subs, org) == {}
    ensures Confirmed(subs, org, subId, pe, te) == subs
  {
  }

  /** With at most one pending row, repeating a confirmation changes nothing
      more: the first activated the only candidate. */
  lemma {:induction false} ConfirmIdempotentWithOnePending(subs: map<nat, Subscription>, org: string, subId: string,
                                                           pe: Option<Instant>, te: Option<Instant>)
    requires |PendingIds(subs, org)| <= 1
    ensures var once := Confirmed(subs, org, subId, pe, te);
            Confirmed(once, org, subId, pe, te) == once
  {
    var once := Confirmed(subs, org, subId, pe, te);
    var n := NewestPending(subs, org);
    if n.Some? {
      assert |PendingIds(subs, org) - {n.value}| == |PendingIds(subs, org)| - 1;
    }
    assert PendingIds(once, org) == {};
  }

  /** With two or more pending rows the update is not idempotent: a repeated
      confirmation activates the next older pending row as well. */
  lemma {:induction false} ConfirmTwiceActivatesOlderRow(subs: map<nat, Subscription>, org: string, subId: string,
                                                         pe: Option<Instant>, te: Option<Instant>)
    requires |PendingIds(subs, org)| >= 2
    ensures var once := Confirmed(subs, org, subId, pe, te);
            Confirmed(once, org, subId, pe, te) != once
  {
    var once := Confirmed(subs, org, subId, pe, te);
    var n := NewestPending(subs, org).value;
    assert PendingIds(once, org) == PendingIds(subs, org) - {n};
    assert |PendingIds(once, org)| == |PendingIds(subs, org)| - 1;
    var m := NewestPending(once, org).value;
    var twice := Confirmed(once, org, subId, pe, te);
    assert once[m].status == PendingPayment;
    assert twice[m].status == Active;
  }

  /** A row of another organisation, or a row that is not pending, is never
      touched. */
  lemma OtherRowsUntouched(subs: map<nat, Subscription>, org: string, subId: string,
                           pe: Option<Instant>, te: Option<Instant>, k: nat)
    requires k in subs && !IsPendingFor(subs[k], org)
    ensures Confirmed(subs, org, subId, pe, te)[k] == subs[k]
  {
  }

  // ---------------------------------------------------------------------
  // The handler as written

  /** The module-level Stripe client is commented out, so the first lookup
      throws a ReferenceError on every call that passes the two guards. */
  function DecideAsWritten(sessionId: Option<string>, orgId: Option<string>): (d: Decision)
    ensures Truthy(sessionId) && Truthy(orgId) ==> d == Reject(ServerError)
    ensures !Truthy(sessionId) ==> d == Reject(MissingSessionId)
    ensures Truthy(sessionId) && !Truthy(orgId) ==> d == Reject(NotAuthorized)
  {
    Decide(sessionId, orgId, Threw, Threw)
  }

  /** As written, no call ever reaches the table update. */
  lemma AsWrittenNeverConfirms(sessionId: Option<string>, orgId: Option<string>)
    ensures !DecideAsWritten(sessionId, orgId).Apply?
  {
  }

  /** With a working client, a subscription-mode session that names a
      subscription reaches the update. */
  lemma ValidSessionReachesUpdate(sessionId: string, orgId: string, subId: string, ps: ProviderSubscription)
    requires sessionId != "" && orgId != "" && subId != ""
    ensures Decide(Some(sessionId), Some(orgId),
                   Found(Some(CheckoutSession("subscription", RefId(subId)))), Found(ps))
            == Apply(orgId, subId, ps.periodEnd, ps.trialEnd)
  {
  }
}
