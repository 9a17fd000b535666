/** When the current period of an active subscription is paid for. */
module Periods {
  import opened Common
  import opened Calendar
  import opened Schema
  import opened Payments
  import opened PaymentInvariants
  import opened PaymentTheorems
  import opened Accounts
  import opened AccountInvariants
  import opened Runs

  ghost predicate IsPaid(l: Ledger, t: nat) {
    t in l.trxs && l.trxs[t].status == Success
  }

  /** Transaction `t` pays for the current period of `s`, or would. */
  ghost predicate IsActiveOf(l: Ledger, t: nat, s: nat) {
    s in l.subs && l.subs[s].activeTransactionId == Some(t)
  }

  ghost predicate PeriodPaid(l: Ledger, s: nat) {
    exists t :: IsActiveOf(l, t, s) && IsPaid(l, t)
  }

  // ---------------------------------------------------------------- the events that matter

  /** A creation that is accepted for the affiliate of `s`. */
  ghost predicate Reopens(w: World, e: Event, s: nat) {
    && e.CreateEvent? && e.remoteOk && BelongsTo(w.ledger, e.affiliateId, s)
    && e.affiliateId in w.people.affiliates
    && CanInsert(w.people, FirstPayment(w, e.userId, e.affiliateId, e.processor, e.ref))
  }

  /** A charge that is accepted as new, for the newest transaction of a reference code, linked to `s`. */
  ghost predicate Renews(w: World, e: Event, s: nat) {
    && e.FlutterwaveHookEvent? && e.flutterwave.ChargeCompleted? && e.flutterwave.status == Successful
    && exists t :: IsNewest(w.ledger, e.ref, t) && w.ledger.trxs[t].status == Success &&
         IsNewCharge(w.ledger.trxs[t], w.now) && w.ledger.trxs[t].subscriptionId == Some(s)
  }

  /** The event says of transaction `t` that it is paid. */
  ghost predicate Confirms(w: World, e: Event, t: nat) {
    match e
    case FlutterwaveHookEvent(ref, ChargeCompleted(Successful, _)) => IsNewest(w.ledger, ref, t)
    case VerifyEvent(ref, row, Paid(_), _) => row == t && HasReference(w.ledger, ref, t)
    case VerifyEvent(ref, row, Reported(Some(status)), _) =>
      row == t && HasReference(w.ledger, ref, t) && status == Success
    case CoinbaseHookEvent(ref, row, ChargeConfirmed) => row == t && HasReference(w.ledger, ref, t)
    case _ => false
  }

  /** What the period of `s` comes to with the event: its active transaction stays the same, unless the
      period is reopened or renewed, and a renewal is paid. */
  ghost predicate PaidAfter(w: World, e: Event, s: nat) {
    && !Reopens(w, e, s)
    && (Renews(w, e, s) ||
        exists t :: IsActiveOf(w.ledger, t, s) && (Confirms(w, e, t) || (IsPaid(w.ledger, t) && !Withdraws(w, e, t))))
  }

  // ---------------------------------------------------------------- handler by handler

  /** The rows of `s` and of its active transaction are as before, up to flags and other columns. */
  ghost predicate SamePayment(l: Ledger, l': Ledger, s: nat) {
    && s in l.subs && s in l'.subs && l'.subs[s].activeTransactionId == l.subs[s].activeTransactionId
    && forall t :: IsActiveOf(l, t, s) ==> (IsPaid(l', t) <==> IsPaid(l, t))
  }

  lemma SamePaymentPaid(l: Ledger, l': Ledger, s: nat)
    requires SamePayment(l, l', s)
    ensures PeriodPaid(l', s) <==> PeriodPaid(l, s)
  {
  }

  lemma CreatePays(w: World, userId: nat, affiliateId: nat, processor: Processor, ref: string, remoteOk: bool, s: nat)
    requires Inv(w) && s in w.ledger.subs
    ensures var l' := Create(w, userId, affiliateId, processor, ref, remoteOk).world.ledger;
      if Reopens(w, CreateEvent(userId, affiliateId, processor, ref, remoteOk), s)
      then s in l'.subs && !PeriodPaid(l', s) && IsActiveOf(l', w.ledger.nextTrx, s)
      else SamePayment(w.ledger, l', s)
  {
    hide AddYear, Lineage, PeriodsAreYears, NoDangling;
    var l := w.ledger;
    if affiliateId in w.people.affiliates && remoteOk {
      var x := FirstPayment(w, userId, affiliateId, processor, ref);
      assert forall r: nat :: BelongsTo(Insert(l, x), affiliateId, r) <==> BelongsTo(l, affiliateId, r);
    }
  }

  /** `l'` has the payment of `s` as before, except that transaction `t` is paid now. */
  ghost predicate NowPaid(l: Ledger, l': Ledger, s: nat, t: nat) {
    && s in l.subs && s in l'.subs && l'.subs[s].activeTransactionId == l.subs[s].activeTransactionId
    && forall u :: IsActiveOf(l, u, s) ==> (IsPaid(l', u) <==> u == t || IsPaid(l, u))
  }

  lemma MarkedPaid(l: Ledger, t: nat, trxId: string, s: nat)
    requires t in l.trxs && s in l.subs
    ensures NowPaid(l, ActivateRelated(SetStatus(l, t, Success, trxId), t), s, t)
  {
  }

  lemma SuccessPays(w: World, ref: string, t: nat, trxId: string, s: nat)
    requires Inv(w) && s in w.ledger.subs && IsNewest(w.ledger, ref, t)
    ensures var l, x := w.ledger, w.ledger.trxs[t];
      var l' := OnSuccess(w, t, IsNewCharge(x, w.now), trxId).world.ledger;
      if x.status == Success && IsNewCharge(x, w.now) && x.subscriptionId == Some(s)
      then IsActiveOf(l', l.nextTrx, s) && IsPaid(l', l.nextTrx)
      else NowPaid(l, l', s, t)
  {
    hide AddYear, OneEach, Lineage, PeriodsAreYears, SetStatus, ActivateRelated;
    var x := w.ledger.trxs[t];
    if x.status != Success {
      MarkedPaid(w.ledger, t, trxId, s);
    } else {
      assert CanInsert(w.people, RenewalPayment(x, w.now));
    }
  }

  lemma OthersPay(w: World, ref: string, event: FlutterwaveEvent, s: nat)
    requires s in w.ledger.subs && !(event.ChargeCompleted? && event.status == Successful)
    ensures SamePayment(w.ledger, FlutterwaveHook(w, ref, event).world.ledger, s)
  {
    hide OnSuccess;
  }

  lemma WebhookPays(w: World, ref: string, event: FlutterwaveEvent, s: nat)
    requires Inv(w) && s in w.ledger.subs
    ensures var e, l' := FlutterwaveHookEvent(ref, event), FlutterwaveHook(w, ref, event).world.ledger;
      if Renews(w, e, s) then IsActiveOf(l', w.ledger.nextTrx, s) && IsPaid(l', w.ledger.nextTrx)
      else Confirmed(w, e, l', s)
  {
    hide Inv, OnSuccess, OnFailure, OnPlanCancelled;
    match Newest(w.ledger, ref)
    case None =>
    case Some(t) =>
      assert forall u :: IsNewest(w.ledger, ref, u) ==> u == t;
      if event.ChargeCompleted? && event.status == Successful {
        SuccessPays(w, ref, t, event.trxId, s);
      } else {
        OthersPay(w, ref, event, s);
      }
  }

  /** The active transaction is the same, and paid as the event says. */
  ghost predicate Confirmed(w: World, e: Event, l': Ledger, s: nat) {
    && s in w.ledger.subs && s in l'.subs && l'.subs[s].activeTransactionId == w.ledger.subs[s].activeTransactionId
    && forall t :: IsActiveOf(w.ledger, t, s) && t in w.ledger.trxs ==>
         (IsPaid(l', t) <==> Confirms(w, e, t) || (IsPaid(w.ledger, t) && !Withdraws(w, e, t)))
  }

  lemma VerifyPays(w: World, ref: string, row: nat, remote: RemoteStatus, trxId: string, s: nat)
    requires s in w.ledger.subs
    ensures Confirmed(w, VerifyEvent(ref, row, remote, trxId), Verify(w, ref, row, remote, trxId).world.ledger, s)
  {
    hide SetStatus, ActivateRelated;
    if HasReference(w.ledger, ref, row) {
      if remote.Paid? {
        MarkedPaid(w.ledger, row, trxId, s);
      } else if remote.status.Some? {
        MarkedAs(w.ledger, row, remote.status.value, trxId, s);
      }
    }
  }

  lemma MarkedAs(l: Ledger, t: nat, status: Status, trxId: string, s: nat)
    requires t in l.trxs && s in l.subs
    ensures var l' := SetStatus(l, t, status, trxId);
      l'.subs == l.subs && forall u :: IsPaid(l', u) <==> if u == t then status == Success else IsPaid(l, u)
  {
  }

  lemma CoinbasePays(w: World, ref: string, row: nat, event: CoinbaseEvent, s: nat)
    requires s in w.ledger.subs
    ensures Confirmed(w, CoinbaseHookEvent(ref, row, event), CoinbaseHook(w, ref, row, event).world.ledger, s)
  {
  }

  /** The job takes an active subscription out of service or leaves it alone. */
  lemma JobPays(w: World, subId: nat, ref: string, remoteOk: bool, s: nat)
    requires Inv(w) && Possible(w, JobEvent(subId, ref, remoteOk)) && s in w.ledger.subs
    requires IsActive(RunJob(w, subId, ref, remoteOk).world.ledger, s)
    ensures IsActive(w.ledger, s) && SamePayment(w.ledger, RunJob(w, subId, ref, remoteOk).world.ledger, s)
  {
    hide AddYear, Inv, Create, PeriodPaid;
    var job := w.queues.renew[subId];
    match ActiveSubscriptionOf(w.ledger, job.affiliateId)
    case None => CreateLeaves(w, job, ref, remoteOk, s);
    case Some(r) =>
      if !TooEarlyToRenew(w.ledger.subs[r], w.now) {
        DeactivateKeeps(w, r);
        NoneActive(w, job.affiliateId, r);
        CreateLeaves(w.(ledger := Deactivate(w.ledger, r)), job, ref, remoteOk, s);
      }
  }

  lemma NoneActive(w: World, affiliateId: nat, r: nat)
    requires Inv(w) && BelongsTo(w.ledger, affiliateId, r)
    ensures forall q :: BelongsTo(Deactivate(w.ledger, r), affiliateId, q) ==> !Deactivate(w.ledger, r).subs[q].active
  {
    hide AddYear, Ordered, PeriodsAreYears, Linked, Lineage, NoDangling;
    forall q | BelongsTo(Deactivate(w.ledger, r), affiliateId, q) ensures q == r {
      assert BelongsTo(w.ledger, affiliateId, q);
    }
  }

  lemma CreateLeaves(w: World, job: Job, ref: string, remoteOk: bool, s: nat)
    requires Inv(w) && IsFresh(w.ledger, ref) && s in w.ledger.subs
    requires forall r :: BelongsTo(w.ledger, job.affiliateId, r) ==> !w.ledger.subs[r].active
    requires IsActive(Create(w, job.userId, job.affiliateId, job.processor, ref, remoteOk).world.ledger, s)
    ensures IsActive(w.ledger, s)
    ensures SamePayment(w.ledger, Create(w, job.userId, job.affiliateId, job.processor, ref, remoteOk).world.ledger, s)
  {
    hide Inv, Create, PeriodPaid, SamePayment;
    CreateKeeps(w, job.userId, job.affiliateId, job.processor, ref, remoteOk);
    CreatePays(w, job.userId, job.affiliateId, job.processor, ref, remoteOk, s);
  }

  // ---------------------------------------------------------------- one event

  /** After any event, the current period of a subscription that is active is paid for exactly when the
      event did not reopen it, and either renewed it, or its transaction was paid already or is
      confirmed by the event, and is not withdrawn. */
  lemma PeriodPaidIff(w: World, e: Event, s: nat)
    requires Inv(w) && Possible(w, e) && IsActive(Handle(w, e).world.ledger, s)
    ensures PeriodPaid(Handle(w, e).world.ledger, s) <==> PaidAfter(w, e, s)
    ensures Reopens(w, e, s) || Renews(w, e, s) ||
      (forall t :: IsActiveOf(Handle(w, e).world.ledger, t, s) <==> IsActiveOf(w.ledger, t, s))
  {
    hide AddYear, Inv, Create, FlutterwaveHook, Verify, CoinbaseHook, Cancel, Renew, RunJob, Reopens, Renews, IsPaid;
    WasThere(w, e, s);
    ActiveIsKnown(w, s);
    match e
    case CreateEvent(userId, affiliateId, processor, ref, remoteOk) =>
      CreatePays(w, userId, affiliateId, processor, ref, remoteOk, s);
      NotRenewed(w, e, s);
    case FlutterwaveHookEvent(ref, event) =>
      WebhookPays(w, ref, event, s);
      NotReopened(w, e, s);
    case VerifyEvent(ref, row, remote, trxId) =>
      VerifyPays(w, ref, row, remote, trxId, s);
      NotRenewed(w, e, s);
      NotReopened(w, e, s);
    case CoinbaseHookEvent(ref, row, event) =>
      CoinbasePays(w, ref, row, event, s);
      NotRenewed(w, e, s);
      NotReopened(w, e, s);
    case CancelEvent(subId, affiliateId, plan) =>
      CancelPays(w, subId, affiliateId, plan, s);
      NotRenewed(w, e, s);
      NotReopened(w, e, s);
    case RenewEvent(subId, userId, affiliateId) =>
      RenewPays(w, subId, userId, affiliateId, s);
      NotRenewed(w, e, s);
      NotReopened(w, e, s);
    case JobEvent(subId, ref, remoteOk) =>
      JobPays(w, subId, ref, remoteOk, s);
      NotRenewed(w, e, s);
      NotReopened(w, e, s);
  }

  lemma CancelPays(w: World, subId: nat, affiliateId: nat, plan: Plan, s: nat)
    requires s in w.ledger.subs
    ensures SamePayment(w.ledger, Cancel(w, subId, affiliateId, plan).world.ledger, s)
  {
  }

  lemma RenewPays(w: World, subId: nat, userId: nat, affiliateId: nat, s: nat)
    requires s in w.ledger.subs
    ensures SamePayment(w.ledger, Renew(w, subId, userId, affiliateId).world.ledger, s)
  {
  }

  lemma NotRenewed(w: World, e: Event, s: nat)
    requires !e.FlutterwaveHookEvent?
    ensures !Renews(w, e, s)
  {
  }

  lemma NotReopened(w: World, e: Event, s: nat)
    requires !e.CreateEvent?
    ensures !Reopens(w, e, s)
  {
  }

  lemma ActiveIsKnown(w: World, s: nat)
    requires Inv(w)
    ensures forall t :: IsActiveOf(w.ledger, t, s) ==> t in w.ledger.trxs
  {
    hide AddYear, Ordered, PeriodsAreYears, OneEach, Lineage, NoDangling;
  }

  /** Only a subscription that existed can be active after an event: a new row starts inactive. */
  lemma WasThere(w: World, e: Event, s: nat)
    requires Inv(w) && Possible(w, e) && IsActive(Handle(w, e).world.ledger, s)
    ensures s in w.ledger.subs
  {
    hide AddYear, Inv, Create, Process, FlutterwaveHook;
    match e
    case CreateEvent(userId, affiliateId, processor, ref, remoteOk) =>
      CreateKeeps(w, userId, affiliateId, processor, ref, remoteOk);
    case FlutterwaveHookEvent(ref, event) => WebhookAddsNone(w, ref, event);
    case JobEvent(subId, ref, remoteOk) => ProcessAddsNoneActive(w, w.queues.renew[subId], ref, remoteOk, s);
    case _ =>
  }

  lemma WebhookAddsNone(w: World, ref: string, event: FlutterwaveEvent)
    ensures FlutterwaveHook(w, ref, event).world.ledger.subs.Keys == w.ledger.subs.Keys
  {
    hide AddYear;
  }

  lemma ProcessAddsNoneActive(w: World, job: Job, ref: string, remoteOk: bool, s: nat)
    requires Inv(w) && IsFresh(w.ledger, ref) && IsActive(Process(w, job, ref, remoteOk).world.ledger, s)
    ensures s in w.ledger.subs
  {
    hide Inv, Create;
    match ActiveSubscriptionOf(w.ledger, job.affiliateId)
    case None => CreateKeeps(w, job.userId, job.affiliateId, job.processor, ref, remoteOk);
    case Some(r) =>
      if !TooEarlyToRenew(w.ledger.subs[r], w.now) {
        DeactivateKeeps(w, r);
        var v := w.(ledger := Deactivate(w.ledger, r));
        CreateKeeps(v, job.userId, job.affiliateId, job.processor, ref, remoteOk);
      }
  }

  // ---------------------------------------------------------------- whole runs

  ghost predicate EverPaid(tr: seq<Sys>, j: nat, t: nat)
    requires j < |tr|
  {
    exists i: nat :: i <= j && IsPaid(LedgerAt(tr, i), t)
  }

  /** Between the two points a creation reopened the period of `s`, which was active. */
  ghost predicate ReopensIn(s: Sys, s': Sys, sub: nat) {
    && IsActive(s.store.world.ledger, sub)
    && exists e :: Possible(s.store.world, e) && Reopens(s.store.world, e, sub) &&
         s'.store.world == Handle(s.store.world, e).world
  }

  /** Between the two points `s` became active, by a payment that is linked to it. */
  ghost predicate ActivatesIn(s: Sys, s': Sys, sub: nat) {
    !IsActive(s.store.world.ledger, sub) && PaidFor(s'.store.world.ledger, sub)
  }

  ghost predicate StartsUnpaid(tr: seq<Sys>, i: nat, s: nat, t: nat)
    requires i + 1 < |tr|
  {
    && (ReopensIn(tr[i], tr[i + 1], s) || ActivatesIn(tr[i], tr[i + 1], s))
    && IsActive(LedgerAt(tr, i + 1), s) && IsActiveOf(LedgerAt(tr, i + 1), t, s)
  }

  lemma AccountStepPays(s: Sys, s': Sys, pid: nat, row: nat, sub: nat)
    requires SysOk(s) && pid in s.tasks && LookupOk(s.store, s.tasks[pid], row) && s' == Perform(s, Continue(pid, row))
    requires sub in s'.store.world.ledger.subs
    ensures var l, l' := s.store.world.ledger, s'.store.world.ledger;
      sub in l.subs && l'.subs[sub].active == l.subs[sub].active &&
      l'.subs[sub].activeTransactionId == l.subs[sub].activeTransactionId
  {
    hide SysOk, Advance;
    AdvanceAndLedger(s.store, s.tasks[pid], row);
  }

  lemma UnpaidStep(s: Sys, s': Sys, sub: nat, t: nat)
    requires SysOk(s) && StepTo(s, s') && SysOk(s')
    requires IsActive(s'.store.world.ledger, sub) && IsActiveOf(s'.store.world.ledger, t, sub)
    requires !IsPaid(s'.store.world.ledger, t)
    ensures ReopensIn(s, s', sub) || ActivatesIn(s, s', sub) ||
      (IsActive(s.store.world.ledger, sub) && IsActiveOf(s.store.world.ledger, t, sub))
  {
    hide Inv, PeopleOk, StoreOk, TasksOk, Advance, Handle, Possible, Reopens, Renews, PaidFor, RowsStay, TakesGuarded;
    StepKeeps(s, s');
    if IsActive(s.store.world.ledger, sub) {
      var a :| Allowed(s, a) && s' == Perform(s, a);
      match a
      case Continue(pid, row) => AccountStepPays(s, s', pid, row, sub);
      case Pay(event) =>
        PeriodPaidIff(s.store.world, event, sub);
        if Reopens(s.store.world, event, sub) {
          assert ReopensIn(s, s', sub);
        }
      case _ =>
    }
  }

  /** Over every run: when the transaction of an active subscription has never been paid, either a
      creation reopened the period while it was active, or another payment made it active. */
  lemma {:induction false} UnpaidPeriodComesFrom(tr: seq<Sys>, j: nat, s: nat, t: nat)
    requires IsRun(tr) && j < |tr| && IsActive(LedgerAt(tr, j), s) && IsActiveOf(LedgerAt(tr, j), t, s)
    requires !EverPaid(tr, j, t)
    ensures exists i: nat :: i < j && StartsUnpaid(tr, i, s, t)
    decreases j
  {
    hide StepTo, SysOk, ReopensIn, ActivatesIn;
    assert !IsPaid(LedgerAt(tr, j), t);
    if j > 0 {
      RunStep(tr, j - 1);
      UnpaidStep(tr[j - 1], tr[j], s, t);
      if StartsUnpaid(tr, j - 1, s, t) {
        assert j - 1 < j;
      } else {
        assert forall i: nat :: i <= j - 1 && IsPaid(LedgerAt(tr, i), t) ==> EverPaid(tr, j, t);
        UnpaidPeriodComesFrom(tr, j - 1, s, t);
        var i: nat :| i < j - 1 && StartsUnpaid(tr, i, s, t);
        assert i < j;
      }
    }
  }
}
