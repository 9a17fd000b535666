/** What every payment event leaves behind, row by row, with the limits of the source written out. */
module PaymentEffects {
  import opened Common
  import opened Calendar
  import opened Schema
  import opened Payments
  import opened PaymentInvariants

  // ---------------------------------------------------------------- limits

  /** The renew job refuses while more than a day is left, to the whole second, and only then. */
  lemma TooEarlyIff(sub: Subscription, now: nat)
    ensures TooEarlyToRenew(sub, now) <==> sub.endDate - now >= 86_401_000
  {
    GuardInMilliseconds(sub.endDate - now, 86400);
  }

  /** A charge on a paid transaction is a new one after more than 45 minutes, to the whole second. */
  lemma NewChargeIff(x: Transaction, now: nat)
    ensures IsNewCharge(x, now) <==> now - x.createdAt >= 2_701_000
  {
    GuardInMilliseconds(now - x.createdAt, 2700);
  }

  // ---------------------------------------------------------------- Flutterwave

  lemma NewestIs(l: Ledger, ref: string, t: nat)
    requires IsNewest(l, ref, t)
    ensures Newest(l, ref) == Some(t)
  {
  }

  /** Without a transaction of that code every event is answered by an error. */
  lemma UnknownReference(w: World, ref: string, event: FlutterwaveEvent)
    requires forall t :: !HasReference(w.ledger, ref, t)
    ensures Handle(w, FlutterwaveHookEvent(ref, event)) == Outcome(w, TypeError)
  {
  }

  /** The first success of the newest transaction marks it as paid and opens its subscription, if that
      was not active. */
  lemma FirstCharge(w: World, ref: string, t: nat, trxId: string)
    requires IsNewest(w.ledger, ref, t) && w.ledger.trxs[t].status != Success
    ensures var l, x := w.ledger, w.ledger.trxs[t];
      Handle(w, FlutterwaveHookEvent(ref, ChargeCompleted(Successful, trxId))) == Outcome(w.(ledger := l.(
        trxs := l.trxs[t := x.(status := Success, processorRef := x.processorRef.(trxId := Some(trxId)))],
        subs := OpenedFor(l, x.subscriptionId))), Done)
  {
    NewestIs(w.ledger, ref, t);
  }

  /** The subscription rows once a payment linked to `s` has come in. */
  function OpenedFor(l: Ledger, s: Option<nat>): map<nat, Subscription> {
    if s.Some? && s.value in l.subs && !l.subs[s.value].active then
      l.subs[s.value := l.subs[s.value].(active := true, willRenew := true)]
    else l.subs
  }

  /** A recurring charge adds a paid copy of the newest transaction and starts a year from now, active
      and renewing, whatever the subscription was before. */
  lemma RecurringCharge(w: World, ref: string, t: nat, s: nat, trxId: string)
    requires Inv(w) && IsNewest(w.ledger, ref, t) && w.ledger.trxs[t].status == Success
    requires w.ledger.trxs[t].subscriptionId == Some(s) && w.now - w.ledger.trxs[t].createdAt >= 2_701_000
    ensures s in w.ledger.subs
    ensures var l, x := w.ledger, w.ledger.trxs[t];
      Handle(w, FlutterwaveHookEvent(ref, ChargeCompleted(Successful, trxId))) == Outcome(w.(ledger := l.(
        trxs := l.trxs[l.nextTrx := Transaction(Success, x.purpose, ref, w.now, x.initiatedBy, x.referredBy, Some(s),
          ProcessorRef(Flutterwave, None, None))],
        subs := l.subs[s := Subscription(true, true, w.now, AddYear(w.now), Some(l.nextTrx), l.subs[s].affiliateId)],
        nextTrx := l.nextTrx + 1)), Done)
  {
    hide AddYear, Ordered, PeriodsAreYears, OneEach, Lineage;
    NewestIs(w.ledger, ref, t);
    NewChargeIff(w.ledger.trxs[t], w.now);
    assert CanInsert(w.people, RenewalPayment(w.ledger.trxs[t], w.now));
  }

  /** The same for a transaction that belongs to no subscription: the copy stays, and the call throws. */
  lemma RecurringChargeUnlinked(w: World, ref: string, t: nat, trxId: string)
    requires Inv(w) && IsNewest(w.ledger, ref, t) && w.ledger.trxs[t].status == Success
    requires w.ledger.trxs[t].subscriptionId == None && w.now - w.ledger.trxs[t].createdAt >= 2_701_000
    ensures var l, x := w.ledger, w.ledger.trxs[t];
      Handle(w, FlutterwaveHookEvent(ref, ChargeCompleted(Successful, trxId))) == Outcome(w.(ledger := l.(
        trxs := l.trxs[l.nextTrx := Transaction(Success, x.purpose, ref, w.now, x.initiatedBy, x.referredBy, None,
          ProcessorRef(Flutterwave, None, None))],
        nextTrx := l.nextTrx + 1)), TypeError)
  {
    hide AddYear, Ordered, PeriodsAreYears, OneEach, Lineage;
    NewestIs(w.ledger, ref, t);
    NewChargeIff(w.ledger.trxs[t], w.now);
    assert CanInsert(w.people, RenewalPayment(w.ledger.trxs[t], w.now));
  }

  lemma RepeatedCharge(w: World, ref: string, t: nat, trxId: string)
    requires IsNewest(w.ledger, ref, t) && w.ledger.trxs[t].status == Success
    requires w.now - w.ledger.trxs[t].createdAt < 2_701_000
    ensures Handle(w, FlutterwaveHookEvent(ref, ChargeCompleted(Successful, trxId))) == Outcome(w, Done)
  {
    NewestIs(w.ledger, ref, t);
    NewChargeIff(w.ledger.trxs[t], w.now);
  }

  /** A failed charge marks the newest transaction, unless it is paid or marked already. */
  lemma FailedCharge(w: World, ref: string, t: nat, trxId: string)
    requires IsNewest(w.ledger, ref, t)
    ensures var l, x := w.ledger, w.ledger.trxs[t];
      Handle(w, FlutterwaveHookEvent(ref, ChargeCompleted(Unsuccessful, trxId))) == Outcome(
        if x.status == Success || x.status == Failed then w
        else w.(ledger := l.(trxs :=
          l.trxs[t := x.(status := Failed, processorRef := x.processorRef.(trxId := Some(trxId)))])),
        Done)
  {
    NewestIs(w.ledger, ref, t);
  }

  lemma IgnoredEvents(w: World, ref: string, t: nat, trxId: string)
    requires IsNewest(w.ledger, ref, t)
    ensures Handle(w, FlutterwaveHookEvent(ref, ChargeCompleted(OtherStatus, trxId))) == Outcome(w, Done)
    ensures Handle(w, FlutterwaveHookEvent(ref, OtherEvent)) == Outcome(w, Done)
  {
    NewestIs(w.ledger, ref, t);
  }

  /** A plan cancelled at the processor: the customer's subscription stops renewing, and nothing else
      changes. The reply says how far the lookups came. */
  lemma PlanCancelledAtProcessor(w: World, ref: string, t: nat, email: string, u: nat, a: nat, s: nat)
    requires UniqueRows(w.people) && Inv(w) && HasReference(w.ledger, ref, t) && HasEmail(w.people, email, u)
    requires a in AffiliatesOf(w.people, u) && BelongsTo(w.ledger, a, s)
    ensures Handle(w, FlutterwaveHookEvent(ref, PlanCancelledEvent(email))) ==
      Outcome(w.(ledger := w.ledger.(subs := w.ledger.subs[s := w.ledger.subs[s].(willRenew := false)])), Done)
  {
    hide AddYear, Ordered, PeriodsAreYears, Linked, Lineage, NoDangling;
    assert Newest(w.ledger, ref).Some?;
    assert forall v :: HasEmail(w.people, email, v) ==> v == u;
    assert forall b :: b in AffiliatesOf(w.people, u) ==> b == a;
    assert forall r :: BelongsTo(w.ledger, a, r) ==> r == s;
  }

  /** Without a customer the call throws, without a subscription nothing is found, and a customer who
      is no affiliate is passed over. */
  lemma PlanCancelledForNobody(w: World, ref: string, t: nat, email: string)
    requires UniqueRows(w.people) && HasReference(w.ledger, ref, t)
    requires forall u, a, s :: HasEmail(w.people, email, u) && a in AffiliatesOf(w.people, u) ==> !BelongsTo(w.ledger, a, s)
    ensures Handle(w, FlutterwaveHookEvent(ref, PlanCancelledEvent(email))) ==
      Outcome(w, if forall u :: !HasEmail(w.people, email, u) then TypeError
                 else if exists u, a :: HasEmail(w.people, email, u) && a in AffiliatesOf(w.people, u) then NotFound
                 else Done)
  {
    assert Newest(w.ledger, ref).Some?;
    assert forall u, v :: HasEmail(w.people, email, u) && HasEmail(w.people, email, v) ==> u == v;
  }

  // ---------------------------------------------------------------- verification and Coinbase

  /** Verifying a transaction writes the reported status, and opens the subscription when it is paid. A
      row that has the status already is not written. */
  lemma Verification(w: World, ref: string, row: nat, remote: RemoteStatus, trxId: string)
    requires HasReference(w.ledger, ref, row) && remote != Reported(None)
    ensures var l, x := w.ledger, w.ledger.trxs[row];
      var status := if remote.Paid? then Success else remote.status.value;
      Handle(w, VerifyEvent(ref, row, remote, trxId)) == Outcome(w.(ledger := l.(
        trxs := if x.status == status then l.trxs
                else l.trxs[row := x.(status := status, processorRef := x.processorRef.(trxId := Some(trxId)))],
        subs := if remote.Paid? then OpenedFor(l, x.subscriptionId) else l.subs)), Done)
  {
  }

  lemma VerificationFails(w: World, ref: string, row: nat, remote: RemoteStatus, trxId: string)
    requires Possible(w, VerifyEvent(ref, row, remote, trxId))
    requires (forall t :: !HasReference(w.ledger, ref, t)) || remote == Reported(None)
    ensures Handle(w, VerifyEvent(ref, row, remote, trxId)) ==
      Outcome(w, if exists t :: HasReference(w.ledger, ref, t) then Rejected else TypeError)
  {
  }

  /** The three Coinbase events: the charge is recorded, set back to pending, or paid. A paid charge
      opens its subscription again and queues the job of its end, unless one is queued. */
  lemma CoinbaseCharge(w: World, ref: string, row: nat, chargeId: string)
    requires HasReference(w.ledger, ref, row)
    ensures var l, x := w.ledger, w.ledger.trxs[row];
      && Handle(w, CoinbaseHookEvent(ref, row, ChargeCreated(chargeId))) == Outcome(w.(ledger := l.(
           trxs := l.trxs[row :=
             x.(processorRef := ProcessorRef(x.processorRef.processor, Some(chargeId), Some(ref)))])), Done)
      && Handle(w, CoinbaseHookEvent(ref, row, ChargePending)) ==
           Outcome(w.(ledger := l.(trxs := l.trxs[row := x.(status := Pending)])), Done)
    ensures w.ledger.trxs[row].subscriptionId == None ==>
      Handle(w, CoinbaseHookEvent(ref, row, ChargeConfirmed)) ==
        Outcome(w.(ledger := w.ledger.(trxs := w.ledger.trxs[row := w.ledger.trxs[row].(status := Success)])), Done)
  {
  }

  lemma CoinbaseConfirmed(w: World, ref: string, row: nat, s: nat)
    requires HasReference(w.ledger, ref, row) && w.ledger.trxs[row].subscriptionId == Some(s) && s in w.ledger.subs
    ensures var l, q := w.ledger, w.queues;
      var o := Handle(w, CoinbaseHookEvent(ref, row, ChargeConfirmed));
      && o.reply == Done && o.world.people == w.people && o.world.now == w.now
      && o.world.ledger == l.(trxs := l.trxs[row := l.trxs[row].(status := Success)],
                              subs := l.subs[s := l.subs[s].(active := true, willRenew := true)])
      && o.world.queues.renew == q.renew && s in o.world.queues.terminate
      && o.world.queues.terminate == q.terminate[s := if s in q.terminate then q.terminate[s] else l.subs[s].endDate]
  {
  }

  lemma CoinbaseUnknown(w: World, ref: string, row: nat, event: CoinbaseEvent)
    requires forall t :: !HasReference(w.ledger, ref, t)
    ensures Handle(w, CoinbaseHookEvent(ref, row, event)) == Outcome(w, TypeError)
  {
  }

  // ---------------------------------------------------------------- creating

  /** The payment service answers, and the payer and the referrer are users. */
  ghost predicate CanCreate(w: World, userId: nat, a: nat, remoteOk: bool) {
    && a in w.people.affiliates && remoteOk && userId in w.people.users
    && (w.people.affiliates[a].referredBy.Some? ==> w.people.affiliates[a].referredBy.value in w.people.users)
  }

  /** The first or the next transaction of affiliate `a`, linked to subscription `s`. */
  ghost predicate IsOrder(w: World, x: Transaction, userId: nat, a: nat, processor: Processor, ref: string, s: nat)
    requires a in w.people.affiliates
  {
    x == Transaction(Initiated, SubscriptionFee, ref, w.now, Some(userId), w.people.affiliates[a].referredBy, Some(s),
      ProcessorRef(processor, None, None))
  }

  /** A creation that is accepted adds one initiated transaction, with the affiliate's referrer, and
      starts a year with it: in the row the affiliate has, whose flags stay, or in a new inactive one. */
  lemma Creation(w: World, userId: nat, a: nat, processor: Processor, ref: string)
    requires Inv(w) && IsFresh(w.ledger, ref) && CanCreate(w, userId, a, true)
    ensures var l, o := w.ledger, Handle(w, CreateEvent(userId, a, processor, ref, true));
      && o.reply == Done && o.world == w.(ledger := o.world.ledger)
      && l.nextTrx in o.world.ledger.trxs && o.world.ledger.trxs == l.trxs[l.nextTrx := o.world.ledger.trxs[l.nextTrx]]
      && o.world.ledger.nextTrx == l.nextTrx + 1
    ensures var l, l' := w.ledger, Handle(w, CreateEvent(userId, a, processor, ref, true)).world.ledger;
      forall s: nat :: BelongsTo(l, a, s) ==>
        && IsOrder(w, l'.trxs[l.nextTrx], userId, a, processor, ref, s) && l'.nextSub == l.nextSub
        && l'.subs == l.subs[s :=
             Subscription(l.subs[s].active, l.subs[s].willRenew, w.now, AddYear(w.now), Some(l.nextTrx), Some(a))]
    ensures var l, l' := w.ledger, Handle(w, CreateEvent(userId, a, processor, ref, true)).world.ledger;
      (forall s :: !BelongsTo(l, a, s)) ==>
        && IsOrder(w, l'.trxs[l.nextTrx], userId, a, processor, ref, l.nextSub) && l'.nextSub == l.nextSub + 1
        && l'.subs == l.subs[l.nextSub := Subscription(false, false, w.now, AddYear(w.now), Some(l.nextTrx), Some(a))]
  {
    hide AddYear, Ordered, PeriodsAreYears, Linked, Lineage, NoDangling;
    var x := FirstPayment(w, userId, a, processor, ref);
    assert forall s: nat :: BelongsTo(Insert(w.ledger, x), a, s) <==> BelongsTo(w.ledger, a, s);
    assert forall s: nat, r: nat :: BelongsTo(w.ledger, a, s) && BelongsTo(w.ledger, a, r) ==> s == r;
  }

  lemma CreationFails(w: World, userId: nat, a: nat, processor: Processor, ref: string, remoteOk: bool)
    requires IsFresh(w.ledger, ref) && !CanCreate(w, userId, a, remoteOk)
    ensures Handle(w, CreateEvent(userId, a, processor, ref, remoteOk)) ==
      Outcome(w, if a !in w.people.affiliates then TypeError else if !remoteOk then RemoteFailure else Rejected)
  {
  }

  // ---------------------------------------------------------------- cancelling and renewing

  /** The replies of a cancellation. Nothing changes unless it is Done. */
  lemma CancellationReplies(w: World, s: nat, a: nat, plan: Plan)
    ensures var o, l := Handle(w, CancelEvent(s, a, plan)), w.ledger;
      && (o.reply == NotFound <==> !BelongsTo(l, a, s))
      && (o.reply == BadRequest <==> BelongsTo(l, a, s) && !(l.subs[s].active && l.subs[s].willRenew))
      && (o.reply == Conflict <==> CanCancel(l, a, s) && l.subs[s].activeTransactionId.Some? && plan == NoPlan)
      && (o.reply == RemoteFailure <==>
           CanCancel(l, a, s) && l.subs[s].activeTransactionId.Some? && plan in {PlanUnreachable, PlanLive(false)})
      && (o.reply == TypeError <==>
           CanCancel(l, a, s) && (l.subs[s].activeTransactionId == None || (plan == PlanCancelled && s !in w.queues.renew)))
      && o.reply in {Done, NotFound, BadRequest, Conflict, RemoteFailure, TypeError}
      && (o.reply != Done ==> o.world == w)
  {
  }

  ghost predicate CanCancel(l: Ledger, a: nat, s: nat) {
    BelongsTo(l, a, s) && l.subs[s].active && l.subs[s].willRenew
  }

  lemma Cancellation(w: World, s: nat, a: nat, plan: Plan)
    requires Handle(w, CancelEvent(s, a, plan)).reply == Done
    ensures s in w.ledger.subs && (plan == PlanCancelled || plan == PlanLive(true))
    ensures Handle(w, CancelEvent(s, a, plan)).world ==
      w.(ledger := w.ledger.(subs := w.ledger.subs[s := w.ledger.subs[s].(willRenew := false)]),
         queues := w.queues.(renew := if plan == PlanCancelled then w.queues.renew - {s} else w.queues.renew))
  {
  }

  /** The replies of a renewal. Nothing changes unless it is Done. */
  lemma RenewalReplies(w: World, s: nat, userId: nat, a: nat)
    requires Inv(w)
    ensures var o, l := Handle(w, RenewEvent(s, userId, a)), w.ledger;
      && (o.reply == NotFound <==> !BelongsTo(l, a, s))
      && (o.reply == BadRequest <==> BelongsTo(l, a, s) && l.subs[s].willRenew)
      && (o.reply == TypeError <==> BelongsTo(l, a, s) && !l.subs[s].willRenew && l.subs[s].activeTransactionId == None)
      && o.reply in {Done, NotFound, BadRequest, TypeError} && (o.reply != Done ==> o.world == w)
  {
    hide AddYear, Ordered, PeriodsAreYears, OneEach, Lineage, NoDangling;
  }

  /** A renewal sets the flag and queues a job for the end of the period, with five attempts and the
      processor of the active transaction, unless a job has the id already. */
  lemma Renewal(w: World, s: nat, userId: nat, a: nat)
    requires Handle(w, RenewEvent(s, userId, a)).reply == Done
    ensures s in w.ledger.subs && w.ledger.subs[s].activeTransactionId.Some?
    ensures w.ledger.subs[s].activeTransactionId.value in w.ledger.trxs
    ensures var x := w.ledger.trxs[w.ledger.subs[s].activeTransactionId.value];
      Handle(w, RenewEvent(s, userId, a)).world ==
        w.(ledger := w.ledger.(subs := w.ledger.subs[s := w.ledger.subs[s].(willRenew := true)]),
           queues := w.queues.(renew :=
             if s in w.queues.renew then w.queues.renew
             else w.queues.renew[s := Job(userId, a, x.processorRef.processor, w.ledger.subs[s].endDate, 5)]))
  {
  }

  // ---------------------------------------------------------------- the renew job

  lemma OnlyOne(w: World, a: nat, s: nat)
    requires Inv(w) && BelongsTo(w.ledger, a, s)
    ensures SubscriptionOf(w.ledger, a) == Some(s)
    ensures ActiveSubscriptionOf(w.ledger, a) == if w.ledger.subs[s].active then Some(s) else None
  {
    hide AddYear, Ordered, PeriodsAreYears, Linked, Lineage, NoDangling;
    assert forall r: nat :: BelongsTo(w.ledger, a, r) ==> r == s;
  }

  ghost predicate IsDue(w: World, j: nat, ref: string, s: nat) {
    Inv(w) && Possible(w, JobEvent(j, ref, true)) && BelongsTo(w.ledger, w.queues.renew[j].affiliateId, s)
  }

  /** The job refuses exactly while the subscription is active and more than a day is left. Only an
      attempt is used up. */
  lemma JobIsTooEarly(w: World, j: nat, ref: string, remoteOk: bool, s: nat)
    requires IsDue(w, j, ref, s)
    ensures var o, job := Handle(w, JobEvent(j, ref, remoteOk)), w.queues.renew[j];
      && (o.reply == TooEarly <==> w.ledger.subs[s].active && w.ledger.subs[s].endDate - w.now >= 86_401_000)
      && (o.reply == TooEarly ==>
           o.world == w.(queues := w.queues.(renew := w.queues.renew[j := job.(attemptsLeft := job.attemptsLeft - 1)])))
  {
    hide Inv, Create;
    var a := w.queues.renew[j].affiliateId;
    OnlyOne(w, a, s);
    TooEarlyIff(w.ledger.subs[s], w.now);
    CreateNeverTooEarly(w, j, ref, remoteOk);
    CreateNeverTooEarly(w.(ledger := Deactivate(w.ledger, s)), j, ref, remoteOk);
  }

  lemma CreateNeverTooEarly(w: World, j: nat, ref: string, remoteOk: bool)
    requires j in w.queues.renew
    ensures var job := w.queues.renew[j];
      Create(w, job.userId, job.affiliateId, job.processor, ref, remoteOk).reply != TooEarly
  {
  }

  /** Otherwise it closes the subscription if it is active. With that done, a creation that fails leaves
      it closed and uses up an attempt, and one that succeeds starts an unpaid year and ends the job. */
  lemma JobCloses(w: World, j: nat, ref: string, remoteOk: bool, s: nat)
    requires IsDue(w, j, ref, s) && (w.ledger.subs[s].active ==> w.ledger.subs[s].endDate - w.now < 86_401_000)
    ensures var l, job := w.ledger, w.queues.renew[j];
      var o, sub := Handle(w, JobEvent(j, ref, remoteOk)), l.subs[s];
      var closed := if sub.active then sub.(active := false, willRenew := false, activeTransactionId := None) else sub;
      var q := w.queues;
      if CanCreate(w, job.userId, job.affiliateId, remoteOk) then
        && o.reply == Done && l.nextTrx in o.world.ledger.trxs
        && IsOrder(w, o.world.ledger.trxs[l.nextTrx], job.userId, job.affiliateId, job.processor, ref, s)
        && o.world == w.(
             ledger := l.(trxs := l.trxs[l.nextTrx := o.world.ledger.trxs[l.nextTrx]], nextTrx := l.nextTrx + 1,
               subs := l.subs[s :=
                 closed.(startDate := w.now, endDate := AddYear(w.now), activeTransactionId := Some(l.nextTrx))]),
             queues := q.(renew := q.renew[j := job.(attemptsLeft := 0)]))
      else
        && o.reply in {TypeError, RemoteFailure, Rejected}
        && o.world == w.(ledger := l.(subs := l.subs[s := closed]),
             queues := q.(renew := q.renew[j := job.(attemptsLeft := job.attemptsLeft - 1)]))
  {
    hide AddYear, Inv, Create;
    var l, job := w.ledger, w.queues.renew[j];
    OnlyOne(w, job.affiliateId, s);
    TooEarlyIff(l.subs[s], w.now);
    assert l.subs[s := l.subs[s]] == l.subs;
    var v := if l.subs[s].active then w.(ledger := Deactivate(l, s)) else w;
    assert Inv(v) by {
      if l.subs[s].active {
        DeactivateKeeps(w, s);
      }
    }
    assert BelongsTo(v.ledger, job.affiliateId, s);
    var restarted := v.ledger.subs[s].(
      startDate := w.now, endDate := AddYear(w.now), activeTransactionId := Some(l.nextTrx));
    assert v.ledger.subs[s := restarted] == l.subs[s := restarted];
    if CanCreate(w, job.userId, job.affiliateId, remoteOk) {
      Creation(v, job.userId, job.affiliateId, job.processor, ref);
    } else {
      CreationFails(v, job.userId, job.affiliateId, job.processor, ref, remoteOk);
    }
  }

  /** A job for an affiliate without a subscription does what a creation does, and counts attempts. */
  lemma JobWithoutSubscription(w: World, j: nat, ref: string, remoteOk: bool)
    requires Inv(w) && Possible(w, JobEvent(j, ref, remoteOk))
    requires forall s :: !BelongsTo(w.ledger, w.queues.renew[j].affiliateId, s)
    ensures var q, job := w.queues, w.queues.renew[j];
      var c := Handle(w, CreateEvent(job.userId, job.affiliateId, job.processor, ref, remoteOk));
      var left := if CanCreate(w, job.userId, job.affiliateId, remoteOk) then 0 else job.attemptsLeft - 1;
      Handle(w, JobEvent(j, ref, remoteOk)) ==
        Outcome(c.world.(queues := q.(renew := q.renew[j := job.(attemptsLeft := left)])), c.reply)
  {
    hide Inv, Create;
    var job := w.queues.renew[j];
    if CanCreate(w, job.userId, job.affiliateId, remoteOk) {
      Creation(w, job.userId, job.affiliateId, job.processor, ref);
    } else {
      CreationFails(w, job.userId, job.affiliateId, job.processor, ref, remoteOk);
    }
  }
}
