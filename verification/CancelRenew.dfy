/** Cancelling and renewing a subscription, any number of times. */
module CancelRenew {
  import opened Common
  import opened Schema
  import opened Payments

  datatype Call = CallRenew | CallCancel(plan: Plan) | CallWait(ms: nat)

  /** The caller and the subscription the calls are about. */
  datatype Caller = Caller(subId: nat, userId: nat, affiliateId: nat)

  function Apply(w: World, c: Caller, call: Call): World {
    match call
    case CallRenew => Renew(w, c.subId, c.userId, c.affiliateId).world
    case CallCancel(plan) => Cancel(w, c.subId, c.affiliateId, plan).world
    case CallWait(ms) => w.(now := w.now + ms)
  }

  function ApplyAll(w: World, c: Caller, calls: seq<Call>): World
    decreases |calls|
  {
    if calls == [] then w else Apply(ApplyAll(w, c, calls[..|calls| - 1]), c, calls[|calls| - 1])
  }

  // ---------------------------------------------------------------- what matters of the calls

  /** The plan is cancelled already, or the processor agrees to cancel it. */
  predicate Accepts(plan: Plan) {
    plan == PlanCancelled || plan == PlanLive(true)
  }

  /** The last call that is neither a wait nor a cancellation that fails at the processor is a renewal. */
  function EndsRenewed(calls: seq<Call>): bool
    decreases |calls|
  {
    calls != [] &&
    var rest := calls[..|calls| - 1];
    match calls[|calls| - 1]
    case CallRenew => true
    case CallCancel(plan) => !Accepts(plan) && EndsRenewed(rest)
    case CallWait(_) => EndsRenewed(rest)
  }

  function Elapsed(calls: seq<Call>): nat
    decreases |calls|
  {
    if calls == [] then 0
    else
      var last := calls[|calls| - 1];
      Elapsed(calls[..|calls| - 1]) + if last.CallWait? then last.ms else 0
  }

  /** Call `k` takes back a renewal, with the plan in this state. */
  ghost predicate TakesBack(calls: seq<Call>, k: nat, plan: Plan) {
    k < |calls| && calls[k] == CallCancel(plan) && EndsRenewed(calls[..k])
  }

  /** Some renewal was taken back while the plan was already cancelled, which removes the job. */
  ghost predicate JobRemoved(calls: seq<Call>) {
    exists k: nat :: TakesBack(calls, k, PlanCancelled)
  }

  ghost predicate RenewsAfter(calls: seq<Call>, k: nat) {
    exists m :: k < m < |calls| && calls[m] == CallRenew
  }

  /** The last renewal was taken back while the plan was live, which leaves the job. */
  ghost predicate EndsTakenBackLive(calls: seq<Call>) {
    exists k: nat :: TakesBack(calls, k, PlanLive(true)) && !RenewsAfter(calls, k)
  }

  lemma TakesBackAtLast(calls: seq<Call>, k: nat, plan: Plan)
    requires calls != []
    ensures var rest, last := calls[..|calls| - 1], calls[|calls| - 1];
      TakesBack(calls, k, plan) <==>
        TakesBack(rest, k, plan) || (k == |rest| && last == CallCancel(plan) && EndsRenewed(rest))
  {
    var rest := calls[..|calls| - 1];
    if k < |rest| {
      assert rest[..k] == calls[..k];
    }
  }

  lemma RenewsAfterAtLast(calls: seq<Call>, k: nat)
    requires calls != [] && k < |calls|
    ensures RenewsAfter(calls, k) <==>
      RenewsAfter(calls[..|calls| - 1], k) || (k < |calls| - 1 && calls[|calls| - 1] == CallRenew)
  {
    var rest := calls[..|calls| - 1];
    if m :| k < m < |calls| && calls[m] == CallRenew {
      assert m < |rest| ==> rest[m] == CallRenew;
    }
    if m :| k < m < |rest| && rest[m] == CallRenew {
      assert calls[m] == CallRenew;
    }
  }

  lemma JobRemovedAtLast(calls: seq<Call>)
    requires calls != []
    ensures var rest, last := calls[..|calls| - 1], calls[|calls| - 1];
      JobRemoved(calls) <==> JobRemoved(rest) || (last == CallCancel(PlanCancelled) && EndsRenewed(rest))
  {
    hide TakesBack;
    var rest := calls[..|calls| - 1];
    if k: nat :| TakesBack(calls, k, PlanCancelled) {
      TakesBackAtLast(calls, k, PlanCancelled);
    }
    if k: nat :| TakesBack(rest, k, PlanCancelled) {
      TakesBackAtLast(calls, k, PlanCancelled);
    }
    TakesBackAtLast(calls, |rest|, PlanCancelled);
  }

  lemma TakenBackLiveAtLast(calls: seq<Call>)
    requires calls != []
    ensures var rest, last := calls[..|calls| - 1], calls[|calls| - 1];
      EndsTakenBackLive(calls) <==>
        (EndsTakenBackLive(rest) && last != CallRenew) || (last == CallCancel(PlanLive(true)) && EndsRenewed(rest))
  {
    hide TakesBack, RenewsAfter;
    var live, n := PlanLive(true), |calls| - 1;
    var rest := calls[..n];
    if k: nat :| TakesBack(calls, k, live) && !RenewsAfter(calls, k) {
      TakesBackAtLast(calls, k, live);
      TakenBackBelow(calls, k, live);
      RenewsAfterAtLast(calls, k);
    }
    if k: nat :| TakesBack(rest, k, live) && !RenewsAfter(rest, k) {
      TakesBackAtLast(calls, k, live);
      TakenBackBelow(rest, k, live);
      RenewsAfterAtLast(calls, k);
    }
    if calls[n] == CallCancel(live) && EndsRenewed(rest) {
      TakesBackAtLast(calls, n, live);
      NothingAfterLast(calls);
    }
  }

  lemma TakenBackBelow(calls: seq<Call>, k: nat, plan: Plan)
    requires TakesBack(calls, k, plan)
    ensures k < |calls| && calls[k] == CallCancel(plan)
  {
  }

  lemma NothingAfterLast(calls: seq<Call>)
    requires calls != []
    ensures !RenewsAfter(calls, |calls| - 1)
  {
  }

  // ---------------------------------------------------------------- the states the calls lead to

  predicate JobPending(w: World, subId: nat) {
    subId in w.queues.renew && w.queues.renew[subId].attemptsLeft > 0
  }

  /** A job that has run still occupies the id. */
  predicate JobFinished(w: World, subId: nat) {
    subId in w.queues.renew && w.queues.renew[subId].attemptsLeft == 0
  }

  /** A job is pending and due when the current period ends. */
  predicate Scheduled(w: World, subId: nat) {
    JobPending(w, subId) && subId in w.ledger.subs && w.queues.renew[subId].fireAt == w.ledger.subs[subId].endDate
  }

  /** Active, paid by a known transaction and not renewing. A job, pending or finished, may be left under
      the id. */
  predicate AtRest(w: World, c: Caller) {
    && c.subId in w.ledger.subs
    && var sub := w.ledger.subs[c.subId];
       sub.affiliateId == Some(c.affiliateId) && sub.active && !sub.willRenew &&
       sub.activeTransactionId.Some? && sub.activeTransactionId.value in w.ledger.trxs
  }

  function NewJob(w: World, c: Caller): Job
    requires AtRest(w, c)
  {
    var sub := w.ledger.subs[c.subId];
    var processor := w.ledger.trxs[sub.activeTransactionId.value].processorRef.processor;
    Job(c.userId, c.affiliateId, processor, sub.endDate, JOB_ATTEMPTS)
  }

  /** What the queue holds under the id: nothing, the job of a renewal, or what was there at the start. */
  datatype Slot = Empty | Own | Left

  function SlotOf(w: World, c: Caller): Slot {
    if c.subId in w.queues.renew then Left else Empty
  }

  function SlotAfter(slot: Slot, calls: seq<Call>): Slot
    decreases |calls|
  {
    if calls == [] then slot
    else
      var rest := calls[..|calls| - 1];
      SlotThen(SlotAfter(slot, rest), EndsRenewed(rest), calls[|calls| - 1])
  }

  /** A renewal takes an empty slot, and a cancellation of a renewal empties it if the plan is cancelled. */
  function SlotThen(slot: Slot, renewed: bool, call: Call): Slot {
    if call == CallRenew && slot == Empty then Own
    else if call == CallCancel(PlanCancelled) && renewed then Empty
    else slot
  }

  function StateWith(w: World, c: Caller, slot: Slot, renewed: bool, now: nat): World
    requires AtRest(w, c)
  {
    var q := w.queues;
    w.(ledger := w.ledger.(subs := w.ledger.subs[c.subId := w.ledger.subs[c.subId].(willRenew := renewed)]),
       queues := match slot
         case Empty => q.(renew := q.renew - {c.subId})
         case Own => q.(renew := q.renew[c.subId := NewJob(w, c)])
         case Left => q,
       now := now)
  }

  /** One call from any of these states leads to another. */
  lemma ApplyOne(w: World, c: Caller, slot: Slot, renewed: bool, now: nat, call: Call)
    requires AtRest(w, c) && (renewed ==> slot != Empty) && (slot == Left ==> c.subId in w.queues.renew)
    ensures Apply(StateWith(w, c, slot, renewed, now), c, call) ==
      match call {
        case CallRenew => StateWith(w, c, if slot == Empty then Own else slot, true, now)
        case CallCancel(plan) =>
          StateWith(w, c, if plan == PlanCancelled && renewed then Empty else slot, renewed && !Accepts(plan), now)
        case CallWait(ms) => StateWith(w, c, slot, renewed, now + ms)
      }
  {
    var v := StateWith(w, c, slot, renewed, now);
    assert v.ledger.subs[c.subId := v.ledger.subs[c.subId]] == v.ledger.subs;
    assert v.ledger.subs == w.ledger.subs[c.subId := w.ledger.subs[c.subId].(willRenew := renewed)];
    assert v.queues.renew - {c.subId} == w.queues.renew - {c.subId};
    assert (w.queues.renew - {c.subId})[c.subId := NewJob(w, c)] == w.queues.renew[c.subId := NewJob(w, c)];
  }

  lemma StartState(w: World, c: Caller)
    requires AtRest(w, c)
    ensures StateWith(w, c, SlotOf(w, c), false, w.now) == w
  {
    assert w.ledger.subs[c.subId := w.ledger.subs[c.subId]] == w.ledger.subs;
    assert c.subId !in w.queues.renew ==> w.queues.renew - {c.subId} == w.queues.renew;
  }

  lemma {:induction false} SlotsFollow(slot: Slot, calls: seq<Call>)
    requires slot != Own
    ensures SlotAfter(slot, calls) == Left <==> slot == Left && !JobRemoved(calls)
    ensures SlotAfter(slot, calls) == Own ==> EndsRenewed(calls) || EndsTakenBackLive(calls)
    ensures SlotAfter(slot, calls) == Empty ==> !EndsRenewed(calls) && !EndsTakenBackLive(calls)
    ensures EndsTakenBackLive(calls) ==> !EndsRenewed(calls)
    decreases |calls|
  {
    hide JobRemoved, EndsTakenBackLive;
    if calls == [] {
      NoCalls();
    } else {
      SlotsFollow(slot, calls[..|calls| - 1]);
      JobRemovedAtLast(calls);
      TakenBackLiveAtLast(calls);
    }
  }

  lemma NoCalls()
    ensures !JobRemoved([]) && !EndsTakenBackLive([])
  {
  }

  /** Any sequence of calls leads to a state that is determined by what the slot held at the start and
      by the last call that counts. */
  lemma {:induction false} CallsLeadTo(w: World, c: Caller, calls: seq<Call>)
    requires AtRest(w, c)
    ensures ApplyAll(w, c, calls) ==
      StateWith(w, c, SlotAfter(SlotOf(w, c), calls), EndsRenewed(calls), w.now + Elapsed(calls))
    decreases |calls|
  {
    hide AtRest, StateWith, JobRemoved, EndsTakenBackLive, Apply;
    if calls == [] {
      StartState(w, c);
    } else {
      var rest := calls[..|calls| - 1];
      CallsLeadTo(w, c, rest);
      SlotsFollow(SlotOf(w, c), rest);
      ApplyOne(w, c, SlotAfter(SlotOf(w, c), rest), EndsRenewed(rest), w.now + Elapsed(rest), calls[|calls| - 1]);
    }
  }

  /** After any sequence of calls the subscription will renew iff the last call that counts is a renewal.
      That a job is pending iff it will renew holds exactly in these cases. While a job left from before
      is not removed: if that job was pending and the calls end renewed, or neither. Otherwise: if the
      last renewal was not taken back with a live plan. The same goes for a job that is due in time. */
  lemma PendingIffWillRenew(w: World, c: Caller, calls: seq<Call>)
    requires AtRest(w, c)
    ensures var v := ApplyAll(w, c, calls);
      var kept := c.subId in w.queues.renew && !JobRemoved(calls);
      && c.subId in v.ledger.subs && (v.ledger.subs[c.subId].willRenew <==> EndsRenewed(calls))
      && ((JobPending(v, c.subId) <==> v.ledger.subs[c.subId].willRenew) <==>
           if kept then JobPending(w, c.subId) == EndsRenewed(calls) else !EndsTakenBackLive(calls))
      && ((Scheduled(v, c.subId) <==> v.ledger.subs[c.subId].willRenew) <==>
           if kept then Scheduled(w, c.subId) == EndsRenewed(calls) else !EndsTakenBackLive(calls))
  {
    hide JobRemoved, EndsTakenBackLive;
    CallsLeadTo(w, c, calls);
    SlotsFollow(SlotOf(w, c), calls);
  }

  /** With no job left under the id, the last call that counts decides the state, unless the last
      renewal was taken back with a live plan: a renewal leaves the armed state, a cancellation the
      exact state before. */
  lemma OnlyLastCallMatters(w: World, c: Caller, calls: seq<Call>)
    requires AtRest(w, c) && c.subId !in w.queues.renew
    ensures var now := w.now + Elapsed(calls);
      ApplyAll(w, c, calls) == (if EndsRenewed(calls) then StateWith(w, c, Own, true, now) else w.(now := now)) <==>
        !EndsTakenBackLive(calls)
  {
    hide JobRemoved, EndsTakenBackLive;
    CallsLeadTo(w, c, calls);
    SlotsFollow(SlotOf(w, c), calls);
    StartState(w, c);
  }

  /** Renewing and then cancelling restores the exact state, once the plan is cancelled. */
  lemma RenewThenCancel(w: World, c: Caller)
    requires AtRest(w, c) && c.subId !in w.queues.renew
    ensures ApplyAll(w, c, [CallRenew, CallCancel(PlanCancelled)]) == w
  {
    var calls := [CallRenew, CallCancel(PlanCancelled)];
    assert calls[..1] == [CallRenew] && [CallRenew][..0] == [];
    CallsLeadTo(w, c, calls);
    StartState(w, c);
  }

  /** A job that is in the queue keeps its id, so a renewal that is accepted is not always scheduled. A
      job is pending exactly when no finished one is left, and it is due at the end of the current
      period exactly when the id was free or its job was due then already. */
  lemma RenewalIsScheduledIff(w: World, c: Caller)
    requires Renew(w, c.subId, c.userId, c.affiliateId).reply == Done
    ensures var v := Renew(w, c.subId, c.userId, c.affiliateId).world;
      && c.subId in v.ledger.subs && v.ledger.subs[c.subId].willRenew
      && (JobPending(v, c.subId) <==> !JobFinished(w, c.subId))
      && (Scheduled(v, c.subId) <==> c.subId !in w.queues.renew || Scheduled(w, c.subId))
  {
  }

  /** With the plan already cancelled, cancelling works exactly when some job is queued under the id:
      otherwise the lookup of the job throws and the subscription goes on renewing. */
  lemma CancelWorksIff(w: World, c: Caller)
    requires c.subId in w.ledger.subs
    requires var sub := w.ledger.subs[c.subId];
      sub.affiliateId == Some(c.affiliateId) && sub.active && sub.willRenew && sub.activeTransactionId.Some?
    ensures var o := Cancel(w, c.subId, c.affiliateId, PlanCancelled);
      && (o.reply == Done <==> c.subId in w.queues.renew)
      && (o.reply == Done <==> !o.world.ledger.subs[c.subId].willRenew)
      && (o.reply != Done ==> o.world == w)
  {
  }
}
