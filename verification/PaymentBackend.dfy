/** The payment, subscription and queue services as objects that update their tables in place. Each
    handler is proved against the function of module Payments that the other results are about. */
module PaymentBackend {
  import opened Common
  import opened Calendar
  import opened Schema
  import opened Payments
  import opened PaymentInvariants

  class Backend {
    var people: People
    var trxs: map<nat, Transaction>
    var subs: map<nat, Subscription>
    var nextTrx: nat
    var nextSub: nat
    var renewJobs: map<nat, Job>
    var terminateJobs: map<nat, int>
    var now: nat

    ghost function Rows(): Ledger
      reads this
    {
      Ledger(trxs, subs, nextTrx, nextSub)
    }

    ghost function View(): World
      reads this
    {
      World(people, Rows(), Queues(renewJobs, terminateJobs), now)
    }

    /** Everything but the transactions and subscriptions is as it was. */
    twostate predicate OnlyRowsChange()
      reads this
    {
      View() == old(View()).(ledger := Rows())
    }

    constructor (people: People, now: nat)
      ensures View() == World(people, Ledger(map[], map[], 0, 0), Queues(map[], map[]), now)
      ensures Inv(View())
    {
      this.people, this.now := people, now;
      trxs, subs, nextTrx, nextSub := map[], map[], 0, 0;
      renewJobs, terminateJobs := map[], map[];
    }

    // -------------------------------------------------------------- queries

    method FindNewest(ref: string) returns (t: Option<nat>)
      ensures t == Newest(Rows(), ref)
    {
      hide Newest;
      ghost var newest := Newest(Rows(), ref);
      assert forall u: nat :: u in trxs && trxs[u].referenceCode == ref <==> HasReference(Rows(), ref, u);
      if exists u :: u in trxs && trxs[u].referenceCode == ref {
        var x :| x in trxs && trxs[x].referenceCode == ref &&
          forall u :: u in trxs && trxs[u].referenceCode == ref ==> u <= x;
        assert IsNewest(Rows(), ref, x);
        t := Some(x);
      } else {
        t := None;
      }
    }

    method FindSubscription(affiliateId: nat) returns (s: Option<nat>)
      requires OneEach(Rows())
      ensures s == SubscriptionOf(Rows(), affiliateId)
    {
      if exists r :: r in subs && subs[r].affiliateId == Some(affiliateId) {
        var x :| x in subs && subs[x].affiliateId == Some(affiliateId);
        assert BelongsTo(Rows(), affiliateId, x);
        s := Some(x);
      } else {
        s := None;
      }
    }

    method GetAffiliateActiveSubscription(affiliateId: nat) returns (s: Option<nat>)
      requires OneEach(Rows())
      ensures s == ActiveSubscriptionOf(Rows(), affiliateId)
    {
      if exists r :: r in subs && subs[r].affiliateId == Some(affiliateId) && subs[r].active {
        var x :| x in subs && subs[x].affiliateId == Some(affiliateId) && subs[x].active;
        assert BelongsTo(Rows(), affiliateId, x);
        s := Some(x);
      } else {
        s := None;
      }
    }

    // -------------------------------------------------------------- the payment service

    method CreateNewTransaction(x: Transaction) returns (t: Option<nat>)
      modifies this
      ensures OnlyRowsChange()
      ensures CanInsert(people, x) ==> t == Some(old(nextTrx)) && Rows() == Insert(old(Rows()), x)
      ensures !CanInsert(people, x) ==> t == None && Rows() == old(Rows())
    {
      if !CanInsert(people, x) {
        return None;
      }
      t := Some(nextTrx);
      trxs := trxs[nextTrx := x];
      nextTrx := nextTrx + 1;
    }

    method UpdateTransactionStatusAndProcessorTrxId(t: nat, status: Status, trxId: string)
      requires t in trxs
      modifies this
      ensures OnlyRowsChange() && Rows() == SetStatus(old(Rows()), t, status, trxId)
    {
      var x := trxs[t];
      if x.status != status {
        trxs := trxs[t := x.(status := status, processorRef := x.processorRef.(trxId := Some(trxId)))];
      }
    }

    method ActivateSubscriptionRelatedToTransaction(t: nat)
      requires t in trxs
      modifies this
      ensures OnlyRowsChange() && Rows() == ActivateRelated(old(Rows()), t)
    {
      var link := trxs[t].subscriptionId;
      if link.Some? && link.value in subs && !subs[link.value].active {
        subs := subs[link.value := subs[link.value].(active := true, willRenew := true)];
      }
    }

    method VerifyTransaction(ref: string, row: nat, remote: RemoteStatus, trxId: string) returns (reply: Reply)
      modifies this
      ensures View() == Verify(old(View()), ref, row, remote, trxId).world
      ensures reply == Verify(old(View()), ref, row, remote, trxId).reply
    {
      hide AddYear;
      if row !in trxs || trxs[row].referenceCode != ref {
        return TypeError;
      }
      if remote.Paid? {
        if remote.asExpected {
          UpdateTransactionStatusAndProcessorTrxId(row, Success, trxId);
          ActivateSubscriptionRelatedToTransaction(row);
        } else {
          UpdateTransactionStatusAndProcessorTrxId(row, Success, trxId);
          ActivateSubscriptionRelatedToTransaction(row);
        }
      } else if remote.status.Some? {
        UpdateTransactionStatusAndProcessorTrxId(row, remote.status.value, trxId);
      } else {
        return Rejected;
      }
      reply := Done;
    }

    // -------------------------------------------------------------- the Flutterwave webhook

    method RenewSubscriptionRelatedToTransaction(oldTrx: nat, newTrx: nat) returns (reply: Reply)
      requires oldTrx in trxs && newTrx in trxs
      modifies this
      ensures OnlyRowsChange()
      ensures old(trxs)[oldTrx].subscriptionId.None? ==> reply == TypeError && Rows() == old(Rows())
      ensures old(trxs)[oldTrx].subscriptionId.Some? && old(trxs)[oldTrx].subscriptionId.value !in old(subs) ==>
        reply == Rejected && Rows() == old(Rows())
      ensures old(trxs)[oldTrx].subscriptionId.Some? && old(trxs)[oldTrx].subscriptionId.value in old(subs) ==>
        reply == Done && Rows() == RenewWith(old(Rows()), old(trxs)[oldTrx].subscriptionId.value, newTrx, now)
    {
      hide AddYear;
      var link := trxs[oldTrx].subscriptionId;
      if link.None? {
        return TypeError;
      }
      var s := link.value;
      if s !in subs {
        return Rejected;
      }
      subs := subs[s := subs[s].(active := true, willRenew := true, activeTransactionId := Some(newTrx),
                                 startDate := now, endDate := AddYear(now))];
      trxs := trxs[newTrx := trxs[newTrx].(subscriptionId := Some(s))];
      reply := Done;
    }

    method OnSuccessfulPayment(t: nat, isNew: bool, trxId: string) returns (reply: Reply)
      requires t in trxs && Ordered(Rows(), now)
      modifies this
      ensures View() == OnSuccess(old(View()), t, isNew, trxId).world
      ensures reply == OnSuccess(old(View()), t, isNew, trxId).reply
    {
      hide AddYear, RenewWith, ActivateRelated;
      var x := trxs[t];
      reply := Done;
      if x.status != Success {
        UpdateTransactionStatusAndProcessorTrxId(t, Success, trxId);
        ActivateSubscriptionRelatedToTransaction(t);
      } else if isNew {
        var created := CreateNewTransaction(RenewalPayment(x, now));
        if created.None? {
          return Rejected;
        }
        assert t != created.value;
        reply := RenewSubscriptionRelatedToTransaction(t, created.value);
      }
    }

    method OnFailedPayment(t: nat, trxId: string)
      requires t in trxs
      modifies this
      ensures View() == OnFailure(old(View()), t, trxId).world
    {
      if trxs[t].status != Success {
        UpdateTransactionStatusAndProcessorTrxId(t, Failed, trxId);
      }
    }

    method OnSubscriptionCancelled(email: string) returns (reply: Reply)
      requires Inv(View()) && UniqueRows(people)
      modifies this
      ensures View() == OnPlanCancelled(old(View()), email).world
      ensures reply == OnPlanCancelled(old(View()), email).reply
    {
      hide AddYear;
      if !exists u :: u in people.users && people.users[u].email == email {
        assert forall u :: !HasEmail(people, email, u);
        return TypeError;
      }
      var u :| u in people.users && people.users[u].email == email;
      assert HasEmail(people, email, u);
      var owned := AffiliatesOf(people, u);
      if owned == {} {
        return Done;
      }
      var a :| a in owned;
      var s := FindSubscription(a);
      if s.None? {
        return NotFound;
      }
      subs := subs[s.value := subs[s.value].(willRenew := false)];
      reply := Done;
    }

    method UseFlutterwaveWebhook(ref: string, event: FlutterwaveEvent) returns (reply: Reply)
      requires Inv(View()) && UniqueRows(people)
      modifies this
      ensures View() == FlutterwaveHook(old(View()), ref, event).world
      ensures reply == FlutterwaveHook(old(View()), ref, event).reply
    {
      hide AddYear, OnSuccess, OnFailure, OnPlanCancelled, Linked, OneEach, Lineage, NoDangling;
      var newest := FindNewest(ref);
      if newest.None? {
        return TypeError;
      }
      var t := newest.value;
      assert HasReference(Rows(), ref, t);
      var age := TruncatedSeconds(now - trxs[t].createdAt);
      reply := Done;
      match event
      case ChargeCompleted(status, trxId) =>
        if status == Successful {
          reply := OnSuccessfulPayment(t, age > RENEWAL_GAP_SECONDS, trxId);
        } else if status == Unsuccessful {
          OnFailedPayment(t, trxId);
          FailureIsDone(old(View()), t, trxId);
        }
      case PlanCancelledEvent(email) => reply := OnSubscriptionCancelled(email);
      case OtherEvent =>
    }

    // -------------------------------------------------------------- the Coinbase webhook

    method UseCoinbaseWebhook(ref: string, row: nat, event: CoinbaseEvent) returns (reply: Reply)
      modifies this
      ensures View() == CoinbaseHook(old(View()), ref, row, event).world
      ensures reply == CoinbaseHook(old(View()), ref, row, event).reply
    {
      if row !in trxs || trxs[row].referenceCode != ref {
        return TypeError;
      }
      var x := trxs[row];
      match event {
        case ChargeCreated(chargeId) =>
          trxs := trxs[row := x.(processorRef := x.processorRef.(trxId := Some(chargeId), referenceCode := Some(ref)))];
        case ChargePending =>
          trxs := trxs[row := x.(status := Pending)];
        case ChargeConfirmed =>
          trxs := trxs[row := x.(status := Success)];
          if x.subscriptionId.Some? && x.subscriptionId.value in subs {
            var s := x.subscriptionId.value;
            var ends := subs[s].endDate;
            subs := subs[s := subs[s].(active := true, willRenew := true)];
            terminateJobs := if s in terminateJobs then terminateJobs else terminateJobs[s := ends];
          }
      }
      reply := Done;
    }

    // -------------------------------------------------------------- subscriptions

    method CreateAffiliateSubscription(userId: nat, affiliateId: nat, processor: Processor, ref: string, remoteOk: bool)
      returns (reply: Reply)
      requires OneEach(Rows())
      modifies this
      ensures View() == Create(old(View()), userId, affiliateId, processor, ref, remoteOk).world
      ensures reply == Create(old(View()), userId, affiliateId, processor, ref, remoteOk).reply
    {
      hide AddYear;
      if affiliateId !in people.affiliates {
        return TypeError;
      }
      if !remoteOk {
        return RemoteFailure;
      }
      var created := CreateNewTransaction(Transaction(Initiated, SubscriptionFee, ref, now, Some(userId),
        people.affiliates[affiliateId].referredBy, None, ProcessorRef(processor, None, None)));
      if created.None? {
        return Rejected;
      }
      var t := created.value;
      label Recorded:
      var existing := FindSubscription(affiliateId);
      if existing.Some? {
        var s := existing.value;
        subs := subs[s := subs[s].(startDate := now, endDate := AddYear(now), activeTransactionId := Some(t))];
        trxs := trxs[t := trxs[t].(subscriptionId := Some(s))];
      } else {
        var s := nextSub;
        subs := subs[s := Subscription(false, false, now, AddYear(now), Some(t), Some(affiliateId))];
        trxs := trxs[t := trxs[t].(subscriptionId := Some(s))];
        nextSub := s + 1;
      }
      reply := Done;
      assert Rows() == OpenPeriod(old@Recorded(Rows()), t, affiliateId, now);
    }

    method CancelAffiliateActiveSubscription(subId: nat, affiliateId: nat, plan: Plan) returns (reply: Reply)
      modifies this
      ensures View() == Cancel(old(View()), subId, affiliateId, plan).world
      ensures reply == Cancel(old(View()), subId, affiliateId, plan).reply
    {
      if subId !in subs || subs[subId].affiliateId != Some(affiliateId) {
        return NotFound;
      }
      var sub := subs[subId];
      if !sub.active || !sub.willRenew {
        return BadRequest;
      }
      if sub.activeTransactionId.None? {
        return TypeError;
      }
      if plan.NoPlan? {
        return Conflict;
      }
      if plan.PlanUnreachable? {
        return RemoteFailure;
      }
      if plan.PlanCancelled? {
        var known := GetQueueJob(subId);
        if !known {
          return TypeError;
        }
        RemoveQueueJob(subId);
      } else if !plan.accepts {
        return RemoteFailure;
      }
      subs := subs[subId := sub.(willRenew := false)];
      reply := Done;
    }

    method RenewSubscription(subId: nat, userId: nat, affiliateId: nat) returns (reply: Reply)
      modifies this
      ensures View() == Renew(old(View()), subId, userId, affiliateId).world
      ensures reply == Renew(old(View()), subId, userId, affiliateId).reply
    {
      if subId !in subs || subs[subId].affiliateId != Some(affiliateId) {
        return NotFound;
      }
      var sub := subs[subId];
      if sub.willRenew {
        return BadRequest;
      }
      if sub.activeTransactionId.None? || sub.activeTransactionId.value !in trxs {
        return TypeError;
      }
      var processor := trxs[sub.activeTransactionId.value].processorRef.processor;
      AddRenewSubscriptionJob(subId, Job(userId, affiliateId, processor, sub.endDate, JOB_ATTEMPTS));
      subs := subs[subId := sub.(willRenew := true)];
      reply := Done;
    }

    method DeactivateSubscription(subId: nat)
      requires subId in subs
      modifies this
      ensures OnlyRowsChange() && Rows() == Deactivate(old(Rows()), subId)
    {
      subs := subs[subId := subs[subId].(active := false, activeTransactionId := None, willRenew := false)];
    }

    // -------------------------------------------------------------- queues

    /** Throws, with `known` false, when the job does not exist: its name is logged first. */
    method GetQueueJob(subId: nat) returns (known: bool)
      ensures known <==> subId in renewJobs
    {
      known := subId in renewJobs;
    }

    method RemoveQueueJob(subId: nat)
      modifies this`renewJobs
      ensures renewJobs == old(renewJobs) - {subId}
    {
      renewJobs := renewJobs - {subId};
    }

    method AddRenewSubscriptionJob(subId: nat, job: Job)
      modifies this`renewJobs
      ensures renewJobs == AddOnce(old(renewJobs), subId, job)
    {
      if subId !in renewJobs {
        renewJobs := renewJobs[subId := job];
      }
    }

    method ProcessRenewJob(job: Job, ref: string, remoteOk: bool) returns (reply: Reply)
      requires OneEach(Rows())
      modifies this
      ensures View() == Process(old(View()), job, ref, remoteOk).world
      ensures reply == Process(old(View()), job, ref, remoteOk).reply
    {
      hide AddYear, Create;
      var current := GetAffiliateActiveSubscription(job.affiliateId);
      if current.Some? && TruncatedSeconds(subs[current.value].endDate - now) > RENEW_GUARD_SECONDS {
        return TooEarly;
      }
      if current.Some? {
        DeactivateSubscription(current.value);
      }
      reply := CreateAffiliateSubscription(job.userId, job.affiliateId, job.processor, ref, remoteOk);
    }

    method RunDueJob(subId: nat, ref: string, remoteOk: bool) returns (reply: Reply)
      requires OneEach(Rows()) && subId in renewJobs && renewJobs[subId].attemptsLeft > 0
      modifies this
      ensures View() == RunJob(old(View()), subId, ref, remoteOk).world
      ensures reply == RunJob(old(View()), subId, ref, remoteOk).reply
    {
      hide Process;
      var job := renewJobs[subId];
      ProcessKeepsQueues(View(), job, ref, remoteOk);
      reply := ProcessRenewJob(job, ref, remoteOk);
      renewJobs := renewJobs[subId := job.(attemptsLeft := if reply == Done then 0 else job.attemptsLeft - 1)];
    }

    // -------------------------------------------------------------- all events

    /** Every handler does what the model says of its event, and so keeps the invariant and moves the
        tables only as the theorems about runs assume. */
    method Dispatch(e: Event) returns (reply: Reply)
      requires Inv(View()) && UniqueRows(people) && Possible(View(), e)
      modifies this
      ensures View() == Handle(old(View()), e).world && reply == Handle(old(View()), e).reply
      ensures Inv(View()) && Evolves(old(Rows()), Rows(), now) && people == old(people) && now == old(now)
    {
      hide Evolves, Create, FlutterwaveHook, Verify, CoinbaseHook, Cancel, Renew, RunJob, Ordered, PeriodsAreYears,
        Linked, OneEach, Lineage, NoDangling;
      HandleKeeps(View(), e);
      match e
      case CreateEvent(userId, affiliateId, processor, ref, remoteOk) =>
        reply := CreateAffiliateSubscription(userId, affiliateId, processor, ref, remoteOk);
      case FlutterwaveHookEvent(ref, event) => reply := UseFlutterwaveWebhook(ref, event);
      case VerifyEvent(ref, row, remote, trxId) => reply := VerifyTransaction(ref, row, remote, trxId);
      case CoinbaseHookEvent(ref, row, event) => reply := UseCoinbaseWebhook(ref, row, event);
      case CancelEvent(subId, affiliateId, plan) => reply := CancelAffiliateActiveSubscription(subId, affiliateId, plan);
      case RenewEvent(subId, userId, affiliateId) => reply := RenewSubscription(subId, userId, affiliateId);
      case JobEvent(subId, ref, remoteOk) => reply := RunDueJob(subId, ref, remoteOk);
    }
  }

  lemma FailureIsDone(w: World, t: nat, trxId: string)
    requires t in w.ledger.trxs
    ensures OnFailure(w, t, trxId).reply == Done
  {
  }

  lemma ProcessKeepsQueues(w: World, job: Job, ref: string, remoteOk: bool)
    ensures Process(w, job, ref, remoteOk).world.queues == w.queues
  {
  }
}
