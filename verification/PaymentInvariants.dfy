/** What every payment event keeps, and how far it may move the rows. */
module PaymentInvariants {
  import opened Common
  import opened Calendar
  import opened Schema
  import opened Payments

  const RENEWAL_GAP_MS: int := 2_701_000

  // ---------------------------------------------------------------- the invariant

  /** Ids are given out in order and creation times follow them. */
  ghost predicate Ordered(l: Ledger, now: nat) {
    && (forall t :: t in l.trxs ==> t < l.nextTrx && l.trxs[t].createdAt <= now)
    && (forall s :: s in l.subs ==> s < l.nextSub)
  }

  /** Every period started in the past and ends a calendar year after its start. */
  ghost predicate PeriodsAreYears(l: Ledger, now: nat) {
    forall s :: s in l.subs ==> l.subs[s].startDate <= now && l.subs[s].endDate == AddYear(l.subs[s].startDate)
  }

  /** Links between the two tables hold in both directions. */
  ghost predicate Linked(l: Ledger) {
    && (forall t :: t in l.trxs && l.trxs[t].subscriptionId.Some? ==> l.trxs[t].subscriptionId.value in l.subs)
    && (forall s :: s in l.subs && l.subs[s].activeTransactionId.Some? ==>
         l.subs[s].activeTransactionId.value in l.trxs &&
         l.trxs[l.subs[s].activeTransactionId.value].subscriptionId == Some(s))
  }

  /** An affiliate has at most one subscription. */
  ghost predicate OneEach(l: Ledger) {
    forall s, r :: s in l.subs && r in l.subs && l.subs[s].affiliateId.Some? ==>
      (l.subs[s].affiliateId == l.subs[r].affiliateId ==> s == r)
  }

  ghost predicate SameLineage(x: Transaction, y: Transaction) {
    && x.subscriptionId == y.subscriptionId && x.purpose == y.purpose
    && x.initiatedBy == y.initiatedBy && x.referredBy == y.referredBy
  }

  /** Transactions with one reference code agree on what they are for and are spaced out in time. */
  ghost predicate Lineage(l: Ledger) {
    forall t, u :: t in l.trxs && u in l.trxs && t < u && l.trxs[t].referenceCode == l.trxs[u].referenceCode ==>
      SameLineage(l.trxs[t], l.trxs[u]) && l.trxs[u].createdAt - l.trxs[t].createdAt >= RENEWAL_GAP_MS
  }

  /** No column names a missing user or affiliate. */
  ghost predicate NoDangling(p: People, l: Ledger) {
    && (forall t :: t in l.trxs ==> CanInsert(p, l.trxs[t]))
    && (forall s :: s in l.subs && l.subs[s].affiliateId.Some? ==> l.subs[s].affiliateId.value in p.affiliates)
  }

  ghost predicate Inv(w: World) {
    && Ordered(w.ledger, w.now)
    && PeriodsAreYears(w.ledger, w.now)
    && Linked(w.ledger)
    && OneEach(w.ledger)
    && Lineage(w.ledger)
    && NoDangling(w.people, w.ledger)
  }

  // ---------------------------------------------------------------- how a step moves the rows

  ghost predicate KeepsTransaction(x: Transaction, y: Transaction) {
    && y.referenceCode == x.referenceCode && y.createdAt == x.createdAt && y.purpose == x.purpose
    && y.subscriptionId == x.subscriptionId && y.processorRef.processor == x.processorRef.processor
    && (y.initiatedBy == x.initiatedBy || y.initiatedBy == None)
    && (y.referredBy == x.referredBy || y.referredBy == None)
  }

  ghost predicate IsActive(l: Ledger, s: nat) {
    s in l.subs && l.subs[s].active
  }

  /** Some transaction linked to `s` is marked as paid. */
  ghost predicate PaidFor(l: Ledger, s: nat) {
    exists t :: t in l.trxs && l.trxs[t].subscriptionId == Some(s) && l.trxs[t].status == Success
  }

  /** No row disappears, transactions keep what identifies them, periods only move forward. */
  ghost predicate RowsStay(l: Ledger, l': Ledger) {
    && (forall t :: t in l.trxs ==> t in l'.trxs && KeepsTransaction(l.trxs[t], l'.trxs[t]))
    && (forall s :: s in l.subs ==> s in l'.subs && l.subs[s].startDate <= l'.subs[s].startDate)
  }

  /** Access is taken only inside the guard of the renew job. */
  ghost predicate TakesGuarded(l: Ledger, l': Ledger, now: nat) {
    forall s :: IsActive(l, s) && !IsActive(l', s) ==> !TooEarlyToRenew(l.subs[s], now)
  }

  /** Access is given only with a paid transaction. */
  ghost predicate GivesPaid(l: Ledger, l': Ledger) {
    forall s :: IsActive(l', s) && !IsActive(l, s) ==> PaidFor(l', s)
  }

  ghost predicate Evolves(l: Ledger, l': Ledger, now: nat) {
    RowsStay(l, l') && TakesGuarded(l, l', now) && GivesPaid(l, l')
  }

  // ---------------------------------------------------------------- writes that move no link

  ghost predicate SameTransaction(x: Transaction, y: Transaction) {
    && y.referenceCode == x.referenceCode && y.createdAt == x.createdAt && y.purpose == x.purpose
    && y.subscriptionId == x.subscriptionId && y.initiatedBy == x.initiatedBy && y.referredBy == x.referredBy
    && y.processorRef.processor == x.processorRef.processor
  }

  ghost predicate SamePeriod(x: Subscription, y: Subscription) {
    && y.startDate == x.startDate && y.endDate == x.endDate && y.affiliateId == x.affiliateId
    && (y.activeTransactionId == x.activeTransactionId || y.activeTransactionId == None)
  }

  /** Only statuses, processor references and the flags of subscriptions change, and the active
      transaction may be dropped. */
  ghost predicate Touches(l: Ledger, l': Ledger) {
    && l'.nextTrx == l.nextTrx && l'.nextSub == l.nextSub
    && l'.trxs.Keys == l.trxs.Keys && l'.subs.Keys == l.subs.Keys
    && (forall t :: t in l.trxs ==> SameTransaction(l.trxs[t], l'.trxs[t]))
    && (forall s :: s in l.subs ==> SamePeriod(l.subs[s], l'.subs[s]))
  }

  lemma TouchKeepsLinks(l: Ledger, l': Ledger)
    requires Touches(l, l') && Linked(l)
    ensures Linked(l')
  {
  }

  lemma TouchKeepsOwners(l: Ledger, l': Ledger)
    requires Touches(l, l') && OneEach(l)
    ensures OneEach(l')
  {
    forall s, r | s in l'.subs && r in l'.subs && l'.subs[s].affiliateId.Some? &&
      l'.subs[s].affiliateId == l'.subs[r].affiliateId
      ensures s == r
    {
      assert SamePeriod(l.subs[s], l'.subs[s]) && SamePeriod(l.subs[r], l'.subs[r]);
    }
  }

  lemma TouchKeepsLineage(l: Ledger, l': Ledger)
    requires Touches(l, l') && Lineage(l)
    ensures Lineage(l')
  {
  }

  lemma TouchKeepsRest(w: World, l': Ledger)
    requires Touches(w.ledger, l')
    ensures Ordered(w.ledger, w.now) ==> Ordered(l', w.now)
    ensures PeriodsAreYears(w.ledger, w.now) ==> PeriodsAreYears(l', w.now)
    ensures NoDangling(w.people, w.ledger) ==> NoDangling(w.people, l')
  {
    hide AddYear;
  }

  lemma TouchKeeps(w: World, l': Ledger)
    requires Inv(w) && Touches(w.ledger, l')
    ensures Inv(w.(ledger := l'))
  {
    hide AddYear, Touches, Linked, OneEach, Lineage, Ordered, PeriodsAreYears, NoDangling;
    TouchKeepsRest(w, l');
    TouchKeepsLinks(w.ledger, l');
    TouchKeepsOwners(w.ledger, l');
    TouchKeepsLineage(w.ledger, l');
  }

  lemma TouchStays(l: Ledger, l': Ledger, now: nat)
    requires Touches(l, l') && TakesGuarded(l, l', now) && GivesPaid(l, l')
    ensures Evolves(l, l', now)
  {
  }

  lemma SetStatusTouches(l: Ledger, t: nat, status: Status, trxId: string)
    requires t in l.trxs
    ensures var l' := SetStatus(l, t, status, trxId);
      Touches(l, l') && t in l'.trxs && l'.trxs[t].status == status && l'.subs == l.subs
  {
  }

  lemma SetStatusKeeps(w: World, t: nat, status: Status, trxId: string)
    requires Inv(w) && t in w.ledger.trxs
    ensures var l' := SetStatus(w.ledger, t, status, trxId); Inv(w.(ledger := l')) && Evolves(w.ledger, l', w.now)
  {
    hide AddYear, Inv, Linked, Lineage, OneEach;
    SetStatusTouches(w.ledger, t, status, trxId);
    TouchKeeps(w, SetStatus(w.ledger, t, status, trxId));
  }

  /** Marking a transaction as paid and then activating its subscription. */
  lemma PayAndActivate(l: Ledger, t: nat, trxId: string, now: nat)
    requires t in l.trxs
    ensures var l' := ActivateRelated(SetStatus(l, t, Success, trxId), t); Touches(l, l') && Evolves(l, l', now)
  {
    hide AddYear;
    SetStatusTouches(l, t, Success, trxId);
    var m := SetStatus(l, t, Success, trxId);
    var l' := ActivateRelated(m, t);
    assert l'.trxs == m.trxs;
    assert Touches(m, l');
    assert Touches(l, l');
    forall s: nat | IsActive(l', s) && !IsActive(l, s) ensures PaidFor(l', s) {
      assert l'.trxs[t].subscriptionId == Some(s) && l'.trxs[t].status == Success;
    }
    TouchStays(l, l', now);
  }

  // ---------------------------------------------------------------- writes that add a transaction

  /** `x` may join the transactions that carry its reference code. */
  ghost predicate Joins(l: Ledger, x: Transaction) {
    forall u :: u in l.trxs && l.trxs[u].referenceCode == x.referenceCode ==>
      SameLineage(l.trxs[u], x) && x.createdAt - l.trxs[u].createdAt >= RENEWAL_GAP_MS
  }

  lemma InsertKeeps(w: World, x: Transaction)
    requires Inv(w) && CanInsert(w.people, x) && Joins(w.ledger, x) && x.createdAt == w.now && x.subscriptionId == None
    ensures Inv(w.(ledger := Insert(w.ledger, x))) && Evolves(w.ledger, Insert(w.ledger, x), w.now)
  {
    hide AddYear, Lineage, Joins;
    LineageInsert(w.ledger, Insert(w.ledger, x), x, w.now);
  }

  lemma LineageInsert(l: Ledger, l': Ledger, x: Transaction, now: nat)
    requires Ordered(l, now) && Lineage(l) && Joins(l, x) && l'.trxs == l.trxs[l.nextTrx := x]
    ensures Lineage(l')
  {
  }

  /** A new transaction `x` starts a year of subscription `s`, which may be a new row. */
  ghost predicate Starts(l: Ledger, l': Ledger, x: Transaction, s: nat, now: nat) {
    && l'.trxs == l.trxs[l.nextTrx := x] && l'.nextTrx == l.nextTrx + 1
    && x.subscriptionId == Some(s) && x.createdAt == now
    && s in l'.subs && l'.subs == l.subs[s := l'.subs[s]]
    && l'.subs[s].startDate == now && l'.subs[s].endDate == AddYear(now)
    && l'.subs[s].activeTransactionId == Some(l.nextTrx)
    && l.nextSub <= l'.nextSub && s < l'.nextSub
    && (s in l.subs ==> l'.subs[s].affiliateId == l.subs[s].affiliateId)
    && (s !in l.subs ==> forall r :: r in l.subs ==> l.subs[r].affiliateId != l'.subs[s].affiliateId)
  }

  lemma StartKeepsLinks(l: Ledger, l': Ledger, x: Transaction, s: nat, now: nat)
    requires Starts(l, l', x, s, now) && Ordered(l, now) && Linked(l)
    ensures Linked(l')
  {
    hide AddYear;
    forall r | r in l'.subs && l'.subs[r].activeTransactionId.Some?
      ensures l'.subs[r].activeTransactionId.value in l'.trxs &&
        l'.trxs[l'.subs[r].activeTransactionId.value].subscriptionId == Some(r)
    {
      if r != s {
        assert l.subs[r].activeTransactionId.value in l.trxs;
      }
    }
  }

  lemma StartKeepsOwners(l: Ledger, l': Ledger, x: Transaction, s: nat, now: nat)
    requires Starts(l, l', x, s, now) && OneEach(l)
    ensures OneEach(l')
  {
    hide AddYear;
  }

  lemma StartKeeps(w: World, l': Ledger, x: Transaction, s: nat)
    requires Inv(w) && Starts(w.ledger, l', x, s, w.now) && Joins(w.ledger, x) && CanInsert(w.people, x)
    requires l'.subs[s].affiliateId.Some? ==> l'.subs[s].affiliateId.value in w.people.affiliates
    ensures Inv(w.(ledger := l'))
    ensures RowsStay(w.ledger, l')
  {
    hide AddYear, Linked, OneEach, Lineage, Joins;
    StartKeepsLinks(w.ledger, l', x, s, w.now);
    StartKeepsOwners(w.ledger, l', x, s, w.now);
    LineageInsert(w.ledger, l', x, w.now);
  }

  lemma OpenPeriodKeeps(w: World, x: Transaction, affiliateId: nat)
    requires Inv(w) && CanInsert(w.people, x) && IsFresh(w.ledger, x.referenceCode)
    requires x.createdAt == w.now && x.subscriptionId == None && affiliateId in w.people.affiliates
    ensures var l' := OpenPeriod(Insert(w.ledger, x), w.ledger.nextTrx, affiliateId, w.now);
      Inv(w.(ledger := l')) && RowsStay(w.ledger, l') && forall s :: IsActive(l', s) <==> IsActive(w.ledger, s)
  {
    hide AddYear, Linked, Lineage, OneEach;
    var l := w.ledger;
    var l' := OpenPeriod(Insert(l, x), l.nextTrx, affiliateId, w.now);
    match SubscriptionOf(Insert(l, x), affiliateId)
    case Some(s) =>
      assert BelongsTo(l, affiliateId, s);
      StartKeeps(w, l', x.(subscriptionId := Some(s)), s);
    case None =>
      assert forall r :: r in l.subs ==> !BelongsTo(Insert(l, x), affiliateId, r);
      StartKeeps(w, l', x.(subscriptionId := Some(l.nextSub)), l.nextSub);
  }

  // ---------------------------------------------------------------- the webhooks

  /** A charge accepted as new may join the lineage of the newest transaction it copies. */
  lemma RenewalJoins(l: Ledger, t: nat, now: nat)
    requires Ordered(l, now) && Lineage(l) && t in l.trxs && IsNewest(l, l.trxs[t].referenceCode, t)
    requires IsNewCharge(l.trxs[t], now)
    ensures Joins(l, RenewalPayment(l.trxs[t], now).(subscriptionId := l.trxs[t].subscriptionId))
  {
    var x := l.trxs[t];
    GuardInMilliseconds(now - x.createdAt, RENEWAL_GAP_SECONDS);
    forall u | u in l.trxs && l.trxs[u].referenceCode == x.referenceCode
      ensures SameLineage(l.trxs[u], x) && now - l.trxs[u].createdAt >= RENEWAL_GAP_MS
    {
      assert HasReference(l, x.referenceCode, u);
    }
  }

  lemma RenewWithKeeps(w: World, t: nat, s: nat)
    requires Inv(w) && t in w.ledger.trxs && IsNewest(w.ledger, w.ledger.trxs[t].referenceCode, t)
    requires IsNewCharge(w.ledger.trxs[t], w.now) && w.ledger.trxs[t].subscriptionId == Some(s)
    requires CanInsert(w.people, RenewalPayment(w.ledger.trxs[t], w.now))
    ensures s in w.ledger.subs
    ensures var l := w.ledger;
      var l' := RenewWith(Insert(l, RenewalPayment(l.trxs[t], w.now)), s, l.nextTrx, w.now);
      Inv(w.(ledger := l')) && Evolves(l, l', w.now)
  {
    hide AddYear;
    var l := w.ledger;
    var x := RenewalPayment(l.trxs[t], w.now).(subscriptionId := Some(s));
    RenewalJoins(l, t, w.now);
    var l' := RenewWith(Insert(l, RenewalPayment(l.trxs[t], w.now)), s, l.nextTrx, w.now);
    assert l'.trxs == l.trxs[l.nextTrx := x];
    assert l'.subs == l.subs[s := l'.subs[s]];
    StartKeeps(w, l', x, s);
    forall r: nat | IsActive(l', r) && !IsActive(l, r) ensures PaidFor(l', r) {
      assert r == s && l'.trxs[l.nextTrx] == x;
    }
  }

  lemma OnSuccessKeeps(w: World, t: nat, trxId: string)
    requires Inv(w) && t in w.ledger.trxs && IsNewest(w.ledger, w.ledger.trxs[t].referenceCode, t)
    ensures var w' := OnSuccess(w, t, IsNewCharge(w.ledger.trxs[t], w.now), trxId).world;
      Inv(w') && Evolves(w.ledger, w'.ledger, w.now) && w' == w.(ledger := w'.ledger)
  {
    hide AddYear, Evolves, RenewWith, CanInsert;
    UnchangedKeeps(w);
    var l, x := w.ledger, w.ledger.trxs[t];
    if x.status != Success {
      PayAndActivate(l, t, trxId, w.now);
      TouchKeeps(w, ActivateRelated(SetStatus(l, t, Success, trxId), t));
    } else if IsNewCharge(x, w.now) && CanInsert(w.people, RenewalPayment(x, w.now)) {
      RenewalJoins(l, t, w.now);
      match x.subscriptionId
      case Some(s) => RenewWithKeeps(w, t, s);
      case None => InsertKeeps(w, RenewalPayment(x, w.now));
    }
  }

  lemma WillRenewKeeps(w: World, s: nat, flag: bool)
    requires Inv(w) && s in w.ledger.subs
    ensures var l' := w.ledger.(subs := w.ledger.subs[s := w.ledger.subs[s].(willRenew := flag)]);
      Inv(w.(ledger := l')) && Evolves(w.ledger, l', w.now)
  {
    hide AddYear, Inv;
    var l' := w.ledger.(subs := w.ledger.subs[s := w.ledger.subs[s].(willRenew := flag)]);
    assert Touches(w.ledger, l');
    TouchKeeps(w, l');
    TouchStays(w.ledger, l', w.now);
  }

  lemma UnchangedKeeps(w: World)
    requires Inv(w)
    ensures Evolves(w.ledger, w.ledger, w.now)
  {
  }

  /** The queues are not part of the invariant. */
  lemma QueuesKeep(w: World, w': World)
    requires Inv(w) && w' == w.(queues := w'.queues)
    ensures Inv(w')
  {
  }

  lemma PlanCancelledKeeps(w: World, email: string)
    requires Inv(w)
    ensures var w' := OnPlanCancelled(w, email).world;
      Inv(w') && Evolves(w.ledger, w'.ledger, w.now) && w' == w.(ledger := w'.ledger)
  {
    hide AddYear, Inv, Evolves;
    UnchangedKeeps(w);
    if u: nat :| HasEmail(w.people, email, u) && OnPlanCancelled(w, email).reply == Done {
      forall s | s in w.ledger.subs
        ensures var l' := w.ledger.(subs := w.ledger.subs[s := w.ledger.subs[s].(willRenew := false)]);
          Inv(w.(ledger := l')) && Evolves(w.ledger, l', w.now)
      {
        WillRenewKeeps(w, s, false);
      }
    }
  }

  lemma FlutterwaveHookKeeps(w: World, ref: string, event: FlutterwaveEvent)
    requires Inv(w)
    ensures var w' := FlutterwaveHook(w, ref, event).world;
      Inv(w') && Evolves(w.ledger, w'.ledger, w.now) && w' == w.(ledger := w'.ledger)
  {
    hide AddYear, Inv, Evolves, OnSuccess, SetStatus, OnPlanCancelled;
    UnchangedKeeps(w);
    match Newest(w.ledger, ref)
    case None =>
    case Some(t) =>
      match event
      case ChargeCompleted(Successful, trxId) => OnSuccessKeeps(w, t, trxId);
      case ChargeCompleted(Unsuccessful, trxId) => SetStatusKeeps(w, t, Failed, trxId);
      case ChargeCompleted(OtherStatus, _) =>
      case PlanCancelledEvent(email) => PlanCancelledKeeps(w, email);
      case OtherEvent =>
  }

  lemma VerifyKeeps(w: World, ref: string, row: nat, remote: RemoteStatus, trxId: string)
    requires Inv(w)
    ensures var w' := Verify(w, ref, row, remote, trxId).world; Inv(w') && Evolves(w.ledger, w'.ledger, w.now)
  {
    hide AddYear;
    if HasReference(w.ledger, ref, row) {
      match remote
      case Paid(_) =>
        PayAndActivate(w.ledger, row, trxId, w.now);
        TouchKeeps(w, ActivateRelated(SetStatus(w.ledger, row, Success, trxId), row));
      case Reported(Some(status)) => SetStatusKeeps(w, row, status, trxId);
      case Reported(None) =>
    }
  }

  lemma CoinbaseHookTouches(w: World, ref: string, row: nat, event: CoinbaseEvent)
    ensures var l' := CoinbaseHook(w, ref, row, event).world.ledger;
      Touches(w.ledger, l') && GivesPaid(w.ledger, l') && TakesGuarded(w.ledger, l', w.now)
  {
    if HasReference(w.ledger, ref, row) {
      var l, l' := w.ledger, CoinbaseHook(w, ref, row, event).world.ledger;
      forall s: nat | IsActive(l', s) && !IsActive(l, s) ensures PaidFor(l', s) {
        assert l'.trxs[row].subscriptionId == Some(s) && l'.trxs[row].status == Success;
      }
    }
  }

  lemma CoinbaseHookKeeps(w: World, ref: string, row: nat, event: CoinbaseEvent)
    requires Inv(w)
    ensures var w' := CoinbaseHook(w, ref, row, event).world; Inv(w') && Evolves(w.ledger, w'.ledger, w.now)
  {
    hide AddYear, Inv, Touches;
    var w' := CoinbaseHook(w, ref, row, event).world;
    CoinbaseHookTouches(w, ref, row, event);
    TouchKeeps(w, w'.ledger);
    TouchStays(w.ledger, w'.ledger, w.now);
    QueuesKeep(w.(ledger := w'.ledger), w');
  }

  // ---------------------------------------------------------------- requests and the renew job

  lemma CancelKeeps(w: World, subId: nat, affiliateId: nat, plan: Plan)
    requires Inv(w)
    ensures var w' := Cancel(w, subId, affiliateId, plan).world; Inv(w') && Evolves(w.ledger, w'.ledger, w.now)
  {
    hide AddYear, Inv, Evolves;
    UnchangedKeeps(w);
    var o := Cancel(w, subId, affiliateId, plan);
    if o.reply == Done {
      WillRenewKeeps(w, subId, false);
      QueuesKeep(w.(ledger := o.world.ledger), o.world);
    }
  }

  lemma RenewKeeps(w: World, subId: nat, userId: nat, affiliateId: nat)
    requires Inv(w)
    ensures var w' := Renew(w, subId, userId, affiliateId).world; Inv(w') && Evolves(w.ledger, w'.ledger, w.now)
  {
    hide AddYear, Inv, Evolves;
    UnchangedKeeps(w);
    var o := Renew(w, subId, userId, affiliateId);
    if o.reply == Done {
      WillRenewKeeps(w, subId, true);
      QueuesKeep(w.(ledger := o.world.ledger), o.world);
    }
  }

  lemma CreateKeeps(w: World, userId: nat, affiliateId: nat, processor: Processor, ref: string, remoteOk: bool)
    requires Inv(w) && IsFresh(w.ledger, ref)
    ensures var w' := Create(w, userId, affiliateId, processor, ref, remoteOk).world;
      Inv(w') && w' == w.(ledger := w'.ledger) && RowsStay(w.ledger, w'.ledger) &&
      forall s :: IsActive(w'.ledger, s) <==> IsActive(w.ledger, s)
  {
    hide AddYear, OpenPeriod;
    var o := Create(w, userId, affiliateId, processor, ref, remoteOk);
    if o.reply == Done {
      OpenPeriodKeeps(w, FirstPayment(w, userId, affiliateId, processor, ref), affiliateId);
    }
  }

  lemma DeactivateKeeps(w: World, s: nat)
    requires Inv(w) && s in w.ledger.subs && !TooEarlyToRenew(w.ledger.subs[s], w.now)
    ensures Inv(w.(ledger := Deactivate(w.ledger, s))) && Evolves(w.ledger, Deactivate(w.ledger, s), w.now)
  {
    hide AddYear, Inv;
    assert Touches(w.ledger, Deactivate(w.ledger, s));
    TouchKeeps(w, Deactivate(w.ledger, s));
    TouchStays(w.ledger, Deactivate(w.ledger, s), w.now);
  }

  lemma ProcessKeeps(w: World, job: Job, ref: string, remoteOk: bool)
    requires Inv(w) && IsFresh(w.ledger, ref)
    ensures var w' := Process(w, job, ref, remoteOk).world;
      Inv(w') && Evolves(w.ledger, w'.ledger, w.now) && w'.people == w.people && w'.now == w.now
  {
    hide AddYear, Create, Inv;
    match ActiveSubscriptionOf(w.ledger, job.affiliateId)
    case None => CreateKeeps(w, job.userId, job.affiliateId, job.processor, ref, remoteOk);
    case Some(s) =>
      if !TooEarlyToRenew(w.ledger.subs[s], w.now) {
        DeactivateKeeps(w, s);
        CreateKeeps(w.(ledger := Deactivate(w.ledger, s)), job.userId, job.affiliateId, job.processor, ref, remoteOk);
      }
  }

  /** Every payment event keeps the invariant and moves the ledger only as `Evolves` allows. */
  lemma HandleKeeps(w: World, e: Event)
    requires Inv(w) && Possible(w, e)
    ensures var w' := Handle(w, e).world;
      Inv(w') && Evolves(w.ledger, w'.ledger, w.now) && w'.people == w.people && w'.now == w.now
  {
    hide AddYear, Inv, Evolves, Create, FlutterwaveHook, Process, OnSuccess, OnPlanCancelled;
    match e
    case CreateEvent(userId, affiliateId, processor, ref, remoteOk) =>
      CreateKeeps(w, userId, affiliateId, processor, ref, remoteOk);
      SameAccessEvolves(w.ledger, Handle(w, e).world.ledger, w.now);
    case FlutterwaveHookEvent(ref, event) => FlutterwaveHookKeeps(w, ref, event);
    case VerifyEvent(ref, row, remote, trxId) => VerifyKeeps(w, ref, row, remote, trxId);
    case CoinbaseHookEvent(ref, row, event) => CoinbaseHookKeeps(w, ref, row, event);
    case CancelEvent(subId, affiliateId, plan) => CancelKeeps(w, subId, affiliateId, plan);
    case RenewEvent(subId, userId, affiliateId) => RenewKeeps(w, subId, userId, affiliateId);
    case JobEvent(subId, ref, remoteOk) =>
      var o := Process(w, w.queues.renew[subId], ref, remoteOk);
      ProcessKeeps(w, w.queues.renew[subId], ref, remoteOk);
      QueuesKeep(o.world, Handle(w, e).world);
  }

  lemma SameAccessEvolves(l: Ledger, l': Ledger, now: nat)
    requires RowsStay(l, l') && forall s :: IsActive(l', s) <==> IsActive(l, s)
    ensures Evolves(l, l', now)
  {
  }

  // ---------------------------------------------------------------- deleting a user

  lemma DeleteKeepsLinks(w: World, userId: nat)
    requires Linked(w.ledger) && OneEach(w.ledger)
    ensures Linked(DeleteUser(w, userId).ledger) && OneEach(DeleteUser(w, userId).ledger)
  {
  }

  lemma DeleteKeepsLineage(w: World, userId: nat)
    requires Lineage(w.ledger)
    ensures Lineage(DeleteUser(w, userId).ledger)
  {
    var l, l' := w.ledger, DeleteUser(w, userId).ledger;
    forall t, u | t in l'.trxs && u in l'.trxs && t < u && l'.trxs[t].referenceCode == l'.trxs[u].referenceCode
      ensures SameLineage(l'.trxs[t], l'.trxs[u]) && l'.trxs[u].createdAt - l'.trxs[t].createdAt >= RENEWAL_GAP_MS
    {
      assert SameLineage(l.trxs[t], l.trxs[u]);
    }
  }

  lemma DeleteLeavesNothingDangling(w: World, userId: nat)
    requires NoDangling(w.people, w.ledger)
    ensures NoDangling(DeleteUser(w, userId).people, DeleteUser(w, userId).ledger)
  {
  }

  /** Deleting a user keeps the invariant of the ledger and changes nobody's access. */
  lemma DeleteUserKeeps(w: World, userId: nat)
    requires Inv(w)
    ensures var w' := DeleteUser(w, userId);
      Inv(w') && RowsStay(w.ledger, w'.ledger) && forall s :: IsActive(w'.ledger, s) <==> IsActive(w.ledger, s)
  {
    hide AddYear, Linked, OneEach, Lineage, NoDangling;
    DeleteKeepsLinks(w, userId);
    DeleteKeepsLineage(w, userId);
    DeleteLeavesNothingDangling(w, userId);
  }
}
