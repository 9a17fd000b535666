/** What holds of the payment tables over every run of the system. */
module PaymentTheorems {
  import opened Common
  import opened Calendar
  import opened Schema
  import opened Payments
  import opened PaymentInvariants
  import opened Runs

  // ---------------------------------------------------------------- rows and periods

  lemma UnchangedStays(l: Ledger)
    ensures RowsStay(l, l)
  {
  }

  lemma RowsStayTransitive(l: Ledger, m: Ledger, n: Ledger)
    requires RowsStay(l, m) && RowsStay(m, n)
    ensures RowsStay(l, n)
  {
  }

  /** No transaction, with its processor reference, and no subscription is ever removed, and what
      identifies a transaction never changes. */
  lemma {:induction false} RowsStayOverRuns(tr: seq<Sys>, i: nat, j: nat)
    requires IsRun(tr) && i <= j < |tr|
    ensures RowsStay(LedgerAt(tr, i), LedgerAt(tr, j)) && Now(tr, i) <= Now(tr, j)
    decreases j
  {
    hide AddYear, StepTo, SysOk, RowsStay, TakesGuarded, GivesPaid, IsRun;
    if i < j {
      RowsStayOverRuns(tr, i, j - 1);
      RunStep(tr, j - 1);
      RowsStayTransitive(LedgerAt(tr, i), LedgerAt(tr, j - 1), LedgerAt(tr, j));
    } else {
      UnchangedStays(LedgerAt(tr, i));
    }
  }

  /** Across any number of rewrites the end of a period never falls a day or more below an earlier
      value. */
  lemma EndNeverFallsADay(tr: seq<Sys>, i: nat, j: nat, s: nat)
    requires IsRun(tr) && i <= j < |tr| && s in LedgerAt(tr, i).subs
    ensures s in LedgerAt(tr, j).subs
    ensures LedgerAt(tr, j).subs[s].endDate > LedgerAt(tr, i).subs[s].endDate - MS_PER_DAY
  {
    hide AddYear, StepTo;
    RowsStayOverRuns(tr, i, j);
    RunOk(tr, i);
    RunOk(tr, j);
    YearLosesLessThanADay(LedgerAt(tr, i).subs[s].startDate, LedgerAt(tr, j).subs[s].startDate);
  }

  // ---------------------------------------------------------------- access is never taken early

  /** The guard of the renew job and the day by which an end may fall, in milliseconds. */
  const GRACE_MS: int := 172_801_000

  /** A subscription that is active with some end date stays active at least until 172801 seconds
      before that date, whatever else happens. */
  lemma {:induction false} AccessIsNeverTakenEarly(tr: seq<Sys>, i: nat, j: nat, s: nat)
    requires IsRun(tr) && i <= j < |tr| && IsActive(LedgerAt(tr, i), s)
    requires Now(tr, j) <= LedgerAt(tr, i).subs[s].endDate - GRACE_MS
    ensures IsActive(LedgerAt(tr, j), s)
    decreases j
  {
    hide AddYear, StepTo, SysOk, RowsStay, GivesPaid;
    if i < j {
      RunStep(tr, j - 1);
      AccessIsNeverTakenEarly(tr, i, j - 1, s);
      EndNeverFallsADay(tr, i, j - 1, s);
      GuardInMilliseconds(LedgerAt(tr, j - 1).subs[s].endDate - Now(tr, j - 1), RENEW_GUARD_SECONDS);
    }
  }

  // ---------------------------------------------------------------- no unpaid activation

  /** Transaction `t` was marked as paid at point `i` and is linked to `s` at point `j`. */
  ghost predicate PaysFor(tr: seq<Sys>, i: nat, j: nat, t: nat, s: nat)
    requires i <= j < |tr|
  {
    && t in LedgerAt(tr, i).trxs && LedgerAt(tr, i).trxs[t].status == Success
    && t in LedgerAt(tr, j).trxs && LedgerAt(tr, j).trxs[t].subscriptionId == Some(s)
  }

  lemma {:induction false} ActivationPoint(tr: seq<Sys>, j: nat, s: nat) returns (i: nat)
    requires IsRun(tr) && j < |tr| && IsActive(LedgerAt(tr, j), s)
    ensures i <= j && PaidFor(LedgerAt(tr, i), s)
  {
    hide AddYear, StepTo, SysOk, RowsStay, TakesGuarded, PaidFor;
    if j > 0 {
      RunStep(tr, j - 1);
      if IsActive(LedgerAt(tr, j - 1), s) {
        i := ActivationPoint(tr, j - 1, s);
        return;
      }
    }
    i := j;
  }

  /** Every active subscription was paid for: a transaction that is linked to it was confirmed at
      some earlier point, even if a later event lowered its status again. */
  lemma NoUnpaidActivation(tr: seq<Sys>, j: nat, s: nat)
    requires IsRun(tr) && j < |tr| && IsActive(LedgerAt(tr, j), s)
    ensures exists i: nat, t: nat :: i <= j && PaysFor(tr, i, j, t, s)
  {
    hide StepTo, AddYear;
    var i := ActivationPoint(tr, j, s);
    RowsStayOverRuns(tr, i, j);
    var t :| t in LedgerAt(tr, i).trxs && LedgerAt(tr, i).trxs[t].subscriptionId == Some(s) &&
      LedgerAt(tr, i).trxs[t].status == Success;
    assert KeepsTransaction(LedgerAt(tr, i).trxs[t], LedgerAt(tr, j).trxs[t]);
    assert PaysFor(tr, i, j, t, s);
  }

  /** The events that say of a paid transaction that it is not paid. */
  ghost predicate Withdraws(w: World, e: Event, t: nat) {
    match e
    case CoinbaseHookEvent(ref, row, ChargePending) => row == t && HasReference(w.ledger, ref, t)
    case VerifyEvent(ref, row, Reported(Some(status)), _) => row == t && HasReference(w.ledger, ref, t) && status != Success
    case _ => false
  }

  lemma CreateKeepsStatus(w: World, userId: nat, affiliateId: nat, processor: Processor, ref: string, remoteOk: bool, t: nat)
    requires Inv(w) && t in w.ledger.trxs
    ensures var l' := Create(w, userId, affiliateId, processor, ref, remoteOk).world.ledger;
      t in l'.trxs && l'.trxs[t].status == w.ledger.trxs[t].status
  {
    hide AddYear, Linked, OneEach, Lineage, PeriodsAreYears, NoDangling;
  }

  lemma WebhookKeepsPaid(w: World, ref: string, event: FlutterwaveEvent, t: nat)
    requires Inv(w) && t in w.ledger.trxs && w.ledger.trxs[t].status == Success
    ensures var l' := FlutterwaveHook(w, ref, event).world.ledger; t in l'.trxs && l'.trxs[t].status == Success
  {
    hide AddYear, Linked, OneEach, Lineage, PeriodsAreYears, NoDangling;
  }

  /** Confirmed is not final, and these are exactly the events that take it back: a pending Coinbase
      charge and a verification that reports another status, for that very row. */
  lemma PaidIsWithdrawnIff(w: World, e: Event, t: nat)
    requires Inv(w) && Possible(w, e) && t in w.ledger.trxs && w.ledger.trxs[t].status == Success
    ensures t in Handle(w, e).world.ledger.trxs
    ensures Handle(w, e).world.ledger.trxs[t].status != Success <==> Withdraws(w, e, t)
  {
    hide AddYear, Inv, Create, FlutterwaveHook, Process;
    match e
    case CreateEvent(userId, affiliateId, processor, ref, remoteOk) =>
      CreateKeepsStatus(w, userId, affiliateId, processor, ref, remoteOk, t);
    case FlutterwaveHookEvent(ref, event) => WebhookKeepsPaid(w, ref, event, t);
    case VerifyEvent(_, _, _, _) =>
    case CoinbaseHookEvent(_, _, _) =>
    case CancelEvent(_, _, _) =>
    case RenewEvent(_, _, _) =>
    case JobEvent(subId, ref, remoteOk) => ProcessKeepsStatus(w, w.queues.renew[subId], ref, remoteOk, t);
  }

  lemma ProcessKeepsStatus(w: World, job: Job, ref: string, remoteOk: bool, t: nat)
    requires Inv(w) && t in w.ledger.trxs && IsFresh(w.ledger, ref)
    ensures var l' := Process(w, job, ref, remoteOk).world.ledger;
      t in l'.trxs && l'.trxs[t].status == w.ledger.trxs[t].status
  {
    hide AddYear, Inv, Create;
    match ActiveSubscriptionOf(w.ledger, job.affiliateId)
    case None => CreateKeepsStatus(w, job.userId, job.affiliateId, job.processor, ref, remoteOk, t);
    case Some(s) =>
      if !TooEarlyToRenew(w.ledger.subs[s], w.now) {
        DeactivateKeeps(w, s);
        var v := w.(ledger := Deactivate(w.ledger, s));
        CreateKeepsStatus(v, job.userId, job.affiliateId, job.processor, ref, remoteOk, t);
      }
  }

  // ---------------------------------------------------------------- links and lineage

  /** In every reachable state: at most one subscription for each affiliate, the active transaction of a
      subscription exists, points back to it and is active for no other, and one reference code means
      one subscription, one purpose, one payer and one referrer. */
  lemma LinksHold(tr: seq<Sys>, i: nat)
    requires IsRun(tr) && i < |tr|
    ensures var l := LedgerAt(tr, i);
      && (forall a, s, r :: BelongsTo(l, a, s) && BelongsTo(l, a, r) ==> s == r)
      && (forall s, r :: s in l.subs && r in l.subs && l.subs[s].activeTransactionId.Some? ==>
           (l.subs[s].activeTransactionId == l.subs[r].activeTransactionId ==> s == r))
      && (forall s :: s in l.subs && l.subs[s].activeTransactionId.Some? ==>
           l.subs[s].activeTransactionId.value in l.trxs &&
           l.trxs[l.subs[s].activeTransactionId.value].subscriptionId == Some(s))
      && (forall t, u, ref :: HasReference(l, ref, t) && HasReference(l, ref, u) ==> SameLineage(l.trxs[t], l.trxs[u]))
  {
    hide StepTo, AddYear, Ordered, PeriodsAreYears, NoDangling;
    RunOk(tr, i);
    var l := LedgerAt(tr, i);
    forall s, r | s in l.subs && r in l.subs && l.subs[s].activeTransactionId.Some? &&
      l.subs[s].activeTransactionId == l.subs[r].activeTransactionId
      ensures s == r
    {
      var t := l.subs[s].activeTransactionId.value;
      assert l.trxs[t].subscriptionId == Some(s) && l.trxs[t].subscriptionId == Some(r);
    }
    forall t: nat, u: nat, ref | HasReference(l, ref, t) && HasReference(l, ref, u)
      ensures SameLineage(l.trxs[t], l.trxs[u])
    {
      assert t < u || u < t || t == u;
    }
  }

  // ---------------------------------------------------------------- the rate of renewals

  function WithReference(l: Ledger, ref: string): set<nat> {
    set t | t in l.trxs && l.trxs[t].referenceCode == ref
  }

  /** Of any set of transactions with one reference code, the newest is at least 2701 seconds later
      than the oldest for every other member. */
  lemma {:induction false} Spacing(l: Ledger, ref: string, s: set<nat>, oldest: nat, newest: nat)
    requires Lineage(l) && s <= WithReference(l, ref) && oldest in s && IsLargest(s, newest)
    requires forall t :: t in s ==> oldest <= t
    ensures (|s| - 1) * RENEWAL_GAP_MS <= l.trxs[newest].createdAt - l.trxs[oldest].createdAt
    decreases |s|
  {
    if oldest == newest {
      assert s == {oldest};
    } else {
      var rest := s - {newest};
      assert oldest in rest;
      var previous := LargestExists(rest);
      Spacing(l, ref, rest, oldest, previous);
      assert previous in s && previous < newest;
      assert l.trxs[newest].createdAt - l.trxs[previous].createdAt >= RENEWAL_GAP_MS;
      assert (|s| - 1) * RENEWAL_GAP_MS == (|rest| - 1) * RENEWAL_GAP_MS + RENEWAL_GAP_MS;
    }
  }

  /** `n` transactions with one reference code need (n - 1) * 2701 seconds since the first of them. */
  lemma RenewalRateIsBounded(tr: seq<Sys>, i: nat, ref: string, oldest: nat)
    requires IsRun(tr) && i < |tr|
    requires var s := WithReference(LedgerAt(tr, i), ref); oldest in s && forall t :: t in s ==> oldest <= t
    ensures (|WithReference(LedgerAt(tr, i), ref)| - 1) * RENEWAL_GAP_MS <=
      Now(tr, i) - LedgerAt(tr, i).trxs[oldest].createdAt
  {
    hide StepTo, AddYear, Linked, OneEach, PeriodsAreYears, NoDangling;
    RunOk(tr, i);
    var s := WithReference(LedgerAt(tr, i), ref);
    var newest := LargestExists(s);
    Spacing(LedgerAt(tr, i), ref, s, oldest, newest);
  }

  /** First payment, renewal or repetition: what a success delivery does to the subscription of the
      newest transaction `t`, and to the number of transactions. A repetition gives nothing, not even
      to a subscription that has been closed since. */
  lemma SuccessDelivery(w: World, ref: string, t: nat, s: nat, trxId: string)
    requires Inv(w) && IsNewest(w.ledger, ref, t) && w.ledger.trxs[t].subscriptionId == Some(s)
    ensures var x := w.ledger.trxs[t];
      var l, l' := w.ledger, FlutterwaveHook(w, ref, ChargeCompleted(Successful, trxId)).world.ledger;
      && (IsActive(l', s) <==> IsActive(l, s) || x.status != Success || IsNewCharge(x, w.now))
      && (l'.nextTrx > l.nextTrx <==> x.status == Success && IsNewCharge(x, w.now))
      && (l'.nextTrx > l.nextTrx ==>
           s in l'.subs && l'.subs[s].willRenew && l'.subs[s].activeTransactionId == Some(l.nextTrx) &&
           l'.subs[s].endDate == AddYear(w.now))
      && (l'.nextTrx == l.nextTrx && IsActive(l, s) ==> l'.subs == l.subs)
  {
    hide AddYear, Ordered, PeriodsAreYears, OneEach, Lineage;
    var x := w.ledger.trxs[t];
    assert Newest(w.ledger, ref) == Some(t);
    assert CanInsert(w.people, RenewalPayment(x, w.now));
    assert s in w.ledger.subs;
  }

  /** Success deliveries for `ref`, each at its own time and with its own processor id. */
  ghost function Burst(w: World, ref: string, times: seq<nat>, ids: seq<string>): World
    requires |ids| == |times|
    decreases |times|
  {
    if times == [] then w
    else
      var v := FlutterwaveHook(w.(now := times[0]), ref, ChargeCompleted(Successful, ids[0])).world;
      Burst(v, ref, times[1..], ids[1..])
  }

  /** While the newest transaction is paid and at most 2700 seconds old, success deliveries change
      nothing but the clock. */
  lemma {:induction false} BurstChangesNothing(w: World, ref: string, times: seq<nat>, ids: seq<string>, t: nat)
    requires |ids| == |times| && IsNewest(w.ledger, ref, t) && w.ledger.trxs[t].status == Success
    requires forall k :: 0 <= k < |times| ==> !IsNewCharge(w.ledger.trxs[t], times[k])
    ensures Burst(w, ref, times, ids) == w.(now := if times == [] then w.now else times[|times| - 1])
    decreases |times|
  {
    if times != [] {
      var v := w.(now := times[0]);
      assert Newest(v.ledger, ref) == Some(t);
      BurstChangesNothing(v, ref, times[1..], ids[1..], t);
    }
  }
}
