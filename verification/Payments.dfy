/** What the payment and subscription handlers do to the stored rows, one function per handler.
    A handler runs as one step. Webhooks name rows by reference code; a lookup without an order may
    return any matching row, which is then part of the event. */
module Payments {
  import opened Common
  import opened Calendar
  import opened Schema

  /** SECONDS_IN_A_DAY of the payment module (45 minutes) and of the renew processor. */
  const RENEWAL_GAP_SECONDS: nat := 45 * 60
  const RENEW_GUARD_SECONDS: nat := 86400
  const JOB_ATTEMPTS: nat := 5

  datatype Outcome = Outcome(world: World, reply: Reply)

  // ---------------------------------------------------------------- lookups

  ghost predicate HasReference(l: Ledger, ref: string, t: nat) {
    t in l.trxs && l.trxs[t].referenceCode == ref
  }

  /** The newest transaction with a reference code: `findMany` with `take: -1`. */
  ghost predicate IsNewest(l: Ledger, ref: string, t: nat) {
    HasReference(l, ref, t) && forall u: nat :: HasReference(l, ref, u) ==> u <= t
  }

  ghost function Newest(l: Ledger, ref: string): (r: Option<nat>)
    ensures r.Some? ==> IsNewest(l, ref, r.value)
    ensures r.None? ==> forall t :: !HasReference(l, ref, t)
  {
    if t :| HasReference(l, ref, t) then
      var s := set u | u in l.trxs && HasReference(l, ref, u);
      assert t in s && forall u: nat :: HasReference(l, ref, u) ==> u in s;
      LargestExistsIn(s);
      var x :| IsLargest(s, x);
      Some(x)
    else None
  }

  ghost predicate BelongsTo(l: Ledger, affiliateId: nat, s: nat) {
    s in l.subs && l.subs[s].affiliateId == Some(affiliateId)
  }

  ghost function SubscriptionOf(l: Ledger, affiliateId: nat): (r: Option<nat>)
    ensures r.Some? ==> BelongsTo(l, affiliateId, r.value)
    ensures r.None? ==> forall s :: !BelongsTo(l, affiliateId, s)
  {
    if s :| BelongsTo(l, affiliateId, s) then Some(s) else None
  }

  /** `getAffiliateActiveSubscription`. */
  ghost function ActiveSubscriptionOf(l: Ledger, affiliateId: nat): (r: Option<nat>)
    ensures r.Some? ==> BelongsTo(l, affiliateId, r.value) && l.subs[r.value].active
    ensures r.None? ==> forall s :: BelongsTo(l, affiliateId, s) ==> !l.subs[s].active
  {
    if s :| BelongsTo(l, affiliateId, s) && l.subs[s].active then Some(s) else None
  }

  // ---------------------------------------------------------------- writes

  function Insert(l: Ledger, x: Transaction): Ledger {
    l.(trxs := l.trxs[l.nextTrx := x], nextTrx := l.nextTrx + 1)
  }

  predicate UserExists(p: People, id: Option<nat>) {
    id.Some? ==> id.value in p.users
  }

  /** The foreign keys of a new transaction row. */
  predicate CanInsert(p: People, x: Transaction) {
    UserExists(p, x.initiatedBy) && UserExists(p, x.referredBy)
  }

  /** `updateTransactionStatusAndProcessorTrxId`. */
  function SetStatus(l: Ledger, t: nat, status: Status, trxId: string): Ledger
    requires t in l.trxs
  {
    var x := l.trxs[t];
    if x.status == status then l
    else l.(trxs := l.trxs[t := x.(status := status, processorRef := x.processorRef.(trxId := Some(trxId)))])
  }

  function Activate(l: Ledger, s: nat): Ledger
    requires s in l.subs
  {
    l.(subs := l.subs[s := l.subs[s].(active := true, willRenew := true)])
  }

  /** `activateSubscriptionRelatedToTransaction`. */
  function ActivateRelated(l: Ledger, t: nat): Ledger
    requires t in l.trxs
  {
    match l.trxs[t].subscriptionId
    case Some(s) => if s in l.subs && !l.subs[s].active then Activate(l, s) else l
    case None => l
  }

  function Deactivate(l: Ledger, s: nat): Ledger
    requires s in l.subs
  {
    l.(subs := l.subs[s := l.subs[s].(active := false, activeTransactionId := None, willRenew := false)])
  }

  function Connect(l: Ledger, t: nat, s: nat): Ledger
    requires t in l.trxs
  {
    l.(trxs := l.trxs[t := l.trxs[t].(subscriptionId := Some(s))])
  }

  /** A year of subscription starting now, paid by transaction `t`. */
  function Period(sub: Subscription, t: nat, now: nat): Subscription {
    sub.(startDate := now, endDate := AddYear(now), activeTransactionId := Some(t))
  }

  /** `renewSubscriptionRelatedToTransaction`. */
  function RenewWith(l: Ledger, s: nat, t: nat, now: nat): Ledger
    requires s in l.subs && t in l.trxs
  {
    Connect(l.(subs := l.subs[s := Period(l.subs[s], t, now).(active := true, willRenew := true)]), t, s)
  }

  /** The end of `createAffiliateSubscription`: the affiliate's subscription row, existing or new,
      starts a year with the new transaction. */
  ghost function OpenPeriod(l: Ledger, t: nat, affiliateId: nat, now: nat): Ledger
    requires t in l.trxs
  {
    match SubscriptionOf(l, affiliateId)
    case Some(s) => Connect(l.(subs := l.subs[s := Period(l.subs[s], t, now)]), t, s)
    case None =>
      var s := l.nextSub;
      Connect(l.(subs := l.subs[s := Subscription(false, false, now, AddYear(now), Some(t), Some(affiliateId))],
                 nextSub := s + 1), t, s)
  }

  // ---------------------------------------------------------------- creating a subscription

  function FirstPayment(w: World, userId: nat, affiliateId: nat, processor: Processor, ref: string): Transaction
    requires affiliateId in w.people.affiliates
  {
    Transaction(Initiated, SubscriptionFee, ref, w.now, Some(userId),
      w.people.affiliates[affiliateId].referredBy, None, ProcessorRef(processor, None, None))
  }

  /** `createAffiliateSubscription`; `remoteOk` says whether the payment service answered. */
  ghost function Create(w: World, userId: nat, affiliateId: nat, processor: Processor, ref: string, remoteOk: bool)
    : Outcome
  {
    if affiliateId !in w.people.affiliates then Outcome(w, TypeError)
    else if !remoteOk then Outcome(w, RemoteFailure)
    else
      var x := FirstPayment(w, userId, affiliateId, processor, ref);
      if !CanInsert(w.people, x) then Outcome(w, Rejected)
      else Outcome(w.(ledger := OpenPeriod(Insert(w.ledger, x), w.ledger.nextTrx, affiliateId, w.now)), Done)
  }

  // ---------------------------------------------------------------- Flutterwave

  datatype ChargeStatus = Successful | Unsuccessful | OtherStatus

  datatype FlutterwaveEvent =
    | ChargeCompleted(status: ChargeStatus, trxId: string)
    | PlanCancelledEvent(email: string)
    | OtherEvent

  /** The transaction a recurring charge adds: a copy of the newest one, paid and not yet linked. */
  function RenewalPayment(x: Transaction, now: nat): Transaction {
    Transaction(Success, x.purpose, x.referenceCode, now, x.initiatedBy, x.referredBy, None,
      ProcessorRef(Flutterwave, None, None))
  }

  /** `onSuccessfulPayment`. */
  function OnSuccess(w: World, t: nat, isNew: bool, trxId: string): Outcome
    requires t in w.ledger.trxs
  {
    var l, x := w.ledger, w.ledger.trxs[t];
    if x.status != Success then
      Outcome(w.(ledger := ActivateRelated(SetStatus(l, t, Success, trxId), t)), Done)
    else if isNew then
      var y := RenewalPayment(x, w.now);
      if !CanInsert(w.people, y) then Outcome(w, Rejected)
      else
        var inserted := Insert(l, y);
        match x.subscriptionId {
          case Some(s) =>
            if s in l.subs then Outcome(w.(ledger := RenewWith(inserted, s, l.nextTrx, w.now)), Done)
            else Outcome(w.(ledger := inserted), Rejected)
          case None => Outcome(w.(ledger := inserted), TypeError)
        }
    else Outcome(w, Done)
  }

  /** `onFailedPayment`. */
  function OnFailure(w: World, t: nat, trxId: string): Outcome
    requires t in w.ledger.trxs
  {
    if w.ledger.trxs[t].status != Success then Outcome(w.(ledger := SetStatus(w.ledger, t, Failed, trxId)), Done)
    else Outcome(w, Done)
  }

  /** The `subscription.cancelled` event: the customer's subscription will not renew. */
  ghost function OnPlanCancelled(w: World, email: string): Outcome {
    if u :| HasEmail(w.people, email, u) then
      if a :| a in AffiliatesOf(w.people, u) then
        match SubscriptionOf(w.ledger, a) {
          case Some(s) =>
            Outcome(w.(ledger := w.ledger.(subs := w.ledger.subs[s := w.ledger.subs[s].(willRenew := false)])), Done)
          case None => Outcome(w, NotFound)
        }
      else Outcome(w, Done)
    else Outcome(w, TypeError)
  }

  /** `isNewTransaction`: the newest transaction is more than 2700 whole seconds old. */
  function IsNewCharge(x: Transaction, now: nat): bool {
    TruncatedSeconds(now - x.createdAt) > RENEWAL_GAP_SECONDS
  }

  /** FlutterwaveStrategy.useWebhook after the signature check. */
  ghost function FlutterwaveHook(w: World, ref: string, event: FlutterwaveEvent): Outcome {
    match Newest(w.ledger, ref)
    case None => Outcome(w, TypeError)
    case Some(t) =>
      match event
      case ChargeCompleted(Successful, trxId) => OnSuccess(w, t, IsNewCharge(w.ledger.trxs[t], w.now), trxId)
      case ChargeCompleted(Unsuccessful, trxId) => OnFailure(w, t, trxId)
      case ChargeCompleted(OtherStatus, _) => Outcome(w, Done)
      case PlanCancelledEvent(email) => OnPlanCancelled(w, email)
      case OtherEvent => Outcome(w, Done)
  }

  // ---------------------------------------------------------------- redirect verification

  /** What the payment service reports; `Reported(None)` is a status the database has no name for. */
  datatype RemoteStatus = Paid(asExpected: bool) | Reported(status: Option<Status>)

  /** `verifyTransaction` on the row the lookup returned. */
  ghost function Verify(w: World, ref: string, row: nat, remote: RemoteStatus, trxId: string): Outcome {
    if !HasReference(w.ledger, ref, row) then Outcome(w, TypeError)
    else match remote
      case Paid(_) => Outcome(w.(ledger := ActivateRelated(SetStatus(w.ledger, row, Success, trxId), row)), Done)
      case Reported(Some(status)) => Outcome(w.(ledger := SetStatus(w.ledger, row, status, trxId)), Done)
      case Reported(None) => Outcome(w, Rejected)
  }

  // ---------------------------------------------------------------- Coinbase

  datatype CoinbaseEvent = ChargeCreated(chargeId: string) | ChargePending | ChargeConfirmed

  /** CoinbaseStrategy.useWebhook after the signature check. */
  ghost function CoinbaseHook(w: World, ref: string, row: nat, event: CoinbaseEvent): Outcome {
    if !HasReference(w.ledger, ref, row) then Outcome(w, TypeError)
    else
      var l, x := w.ledger, w.ledger.trxs[row];
      match event
      case ChargeCreated(chargeId) =>
        Outcome(w.(ledger := l.(trxs := l.trxs[row := x.(processorRef :=
          x.processorRef.(trxId := Some(chargeId), referenceCode := Some(ref)))])), Done)
      case ChargePending => Outcome(w.(ledger := l.(trxs := l.trxs[row := x.(status := Pending)])), Done)
      case ChargeConfirmed =>
        var paid := l.(trxs := l.trxs[row := x.(status := Success)]);
        if x.subscriptionId.Some? && x.subscriptionId.value in l.subs then
          var s := x.subscriptionId.value;
          Outcome(w.(ledger := Activate(paid, s),
                     queues := w.queues.(terminate := AddOnce(w.queues.terminate, s, l.subs[s].endDate))), Done)
        else Outcome(w.(ledger := paid), Done)
  }

  /** Adding a job under an id that is already in the queue does nothing. */
  function AddOnce<T>(queue: map<nat, T>, id: nat, job: T): map<nat, T> {
    if id in queue then queue else queue[id := job]
  }

  // ---------------------------------------------------------------- cancelling and renewing

  /** The processor's plan behind the active transaction, as `getPaymentSubscription` finds it;
      `accepts` says whether the request to cancel it succeeds. */
  datatype Plan = PlanCancelled | PlanLive(accepts: bool) | NoPlan | PlanUnreachable

  /** `cancelAffiliateActiveSubscription`. */
  function Cancel(w: World, subId: nat, affiliateId: nat, plan: Plan): Outcome {
    var l, q := w.ledger, w.queues;
    if subId !in l.subs || l.subs[subId].affiliateId != Some(affiliateId) then Outcome(w, NotFound)
    else
      var sub := l.subs[subId];
      if !sub.active || !sub.willRenew then Outcome(w, BadRequest)
      else if sub.activeTransactionId.None? then Outcome(w, TypeError)
      else if plan.NoPlan? then Outcome(w, Conflict)
      else if plan.PlanUnreachable? || (plan.PlanLive? && !plan.accepts) then Outcome(w, RemoteFailure)
      else if plan.PlanCancelled? && subId !in q.renew then Outcome(w, TypeError)
      else Outcome(
        w.(ledger := l.(subs := l.subs[subId := sub.(willRenew := false)]),
           queues := if plan.PlanCancelled? then q.(renew := q.renew - {subId}) else q), Done)
  }

  /** `renewSubscription`. */
  function Renew(w: World, subId: nat, userId: nat, affiliateId: nat): Outcome {
    var l, q := w.ledger, w.queues;
    if subId !in l.subs || l.subs[subId].affiliateId != Some(affiliateId) then Outcome(w, NotFound)
    else
      var sub := l.subs[subId];
      if sub.willRenew then Outcome(w, BadRequest)
      else if sub.activeTransactionId.None? || sub.activeTransactionId.value !in l.trxs then Outcome(w, TypeError)
      else
        var processor := l.trxs[sub.activeTransactionId.value].processorRef.processor;
        var job := Job(userId, affiliateId, processor, sub.endDate, JOB_ATTEMPTS);
        Outcome(
          w.(ledger := l.(subs := l.subs[subId := sub.(willRenew := true)]),
             queues := q.(renew := AddOnce(q.renew, subId, job))), Done)
  }

  // ---------------------------------------------------------------- the renew job

  /** The guard of the renew job: more than 86400 whole seconds are left. */
  predicate TooEarlyToRenew(sub: Subscription, now: nat) {
    TruncatedSeconds(sub.endDate - now) > RENEW_GUARD_SECONDS
  }

  /** RenewSubscriptionConsumer.process. A failing creation leaves the deactivation in place. */
  ghost function Process(w: World, job: Job, ref: string, remoteOk: bool): Outcome {
    match ActiveSubscriptionOf(w.ledger, job.affiliateId)
    case Some(s) =>
      if TooEarlyToRenew(w.ledger.subs[s], w.now) then Outcome(w, TooEarly)
      else Create(w.(ledger := Deactivate(w.ledger, s)), job.userId, job.affiliateId, job.processor, ref, remoteOk)
    case None => Create(w, job.userId, job.affiliateId, job.processor, ref, remoteOk)
  }

  /** One attempt of a queued job: it is finished when it succeeds or has no attempts left. */
  ghost function RunJob(w: World, subId: nat, ref: string, remoteOk: bool): Outcome
    requires subId in w.queues.renew && w.queues.renew[subId].attemptsLeft > 0
  {
    var job := w.queues.renew[subId];
    var o := Process(w, job, ref, remoteOk);
    var left := if o.reply == Done then 0 else job.attemptsLeft - 1;
    Outcome(o.world.(queues := w.queues.(renew := w.queues.renew[subId := job.(attemptsLeft := left)])), o.reply)
  }

  // ---------------------------------------------------------------- events

  datatype Event =
    | CreateEvent(userId: nat, affiliateId: nat, processor: Processor, ref: string, remoteOk: bool)
    | FlutterwaveHookEvent(ref: string, flutterwave: FlutterwaveEvent)
    | VerifyEvent(ref: string, row: nat, remote: RemoteStatus, trxId: string)
    | CoinbaseHookEvent(ref: string, row: nat, coinbase: CoinbaseEvent)
    | CancelEvent(subId: nat, affiliateId: nat, plan: Plan)
    | RenewEvent(subId: nat, userId: nat, affiliateId: nat)
    | JobEvent(subId: nat, ref: string, remoteOk: bool)

  /** A generated reference code that no row carries yet. */
  ghost predicate IsFresh(l: Ledger, ref: string) {
    forall t :: t in l.trxs ==> l.trxs[t].referenceCode != ref
  }

  /** What the environment guarantees: fresh codes, lookups that return a matching row if there is
      one, and jobs that run only when due. */
  ghost predicate Possible(w: World, e: Event) {
    match e
    case CreateEvent(_, _, _, ref, _) => IsFresh(w.ledger, ref)
    case JobEvent(subId, ref, _) =>
      IsFresh(w.ledger, ref) && subId in w.queues.renew &&
      w.queues.renew[subId].attemptsLeft > 0 && w.queues.renew[subId].fireAt <= w.now
    case VerifyEvent(ref, row, _, _) => ReturnsMatch(w.ledger, ref, row)
    case CoinbaseHookEvent(ref, row, _) => ReturnsMatch(w.ledger, ref, row)
    case _ => true
  }

  ghost predicate ReturnsMatch(l: Ledger, ref: string, row: nat) {
    (exists t :: HasReference(l, ref, t)) ==> HasReference(l, ref, row)
  }

  ghost function Handle(w: World, e: Event): Outcome
    requires Possible(w, e)
  {
    match e
    case CreateEvent(userId, affiliateId, processor, ref, remoteOk) =>
      Create(w, userId, affiliateId, processor, ref, remoteOk)
    case FlutterwaveHookEvent(ref, event) => FlutterwaveHook(w, ref, event)
    case VerifyEvent(ref, row, remote, trxId) => Verify(w, ref, row, remote, trxId)
    case CoinbaseHookEvent(ref, row, event) => CoinbaseHook(w, ref, row, event)
    case CancelEvent(subId, affiliateId, plan) => Cancel(w, subId, affiliateId, plan)
    case RenewEvent(subId, userId, affiliateId) => Renew(w, subId, userId, affiliateId)
    case JobEvent(subId, ref, remoteOk) => RunJob(w, subId, ref, remoteOk)
  }
}
