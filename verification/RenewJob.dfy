/** The renew job, split at every await, with attempts that may stop after any of them. */
module RenewJob {
  import opened Common
  import opened Calendar
  import opened Schema
  import opened Payments
  import opened PaymentInvariants

  // ---------------------------------------------------------------- one attempt, step by step

  datatype Point =
    | AtStart
    | Checked(found: Option<nat>)   // the active subscription has been read, the guard passed
    | Closed                        // it has been deactivated, or there was none
    | Charged                       // the payment service answered
    | Recorded(trx: nat)            // the transaction row exists
    | Opened                        // the subscription row starts its new year
    | Thrown(reply: Reply)

  datatype Attempt = Attempt(world: World, point: Point)

  /** One awaited call of RenewSubscriptionConsumer.process and of createAffiliateSubscription. */
  ghost function Advance(a: Attempt, job: Job, ref: string): Attempt {
    var w := a.world;
    match a.point
    case AtStart =>
      (match ActiveSubscriptionOf(w.ledger, job.affiliateId)
       case Some(s) =>
         if TooEarlyToRenew(w.ledger.subs[s], w.now) then Attempt(w, Thrown(TooEarly))
         else Attempt(w, Checked(Some(s)))
       case None => Attempt(w, Checked(None)))
    case Checked(Some(s)) =>
      if s in w.ledger.subs then Attempt(w.(ledger := Deactivate(w.ledger, s)), Closed) else Attempt(w, Thrown(NotFound))
    case Checked(None) => Attempt(w, Closed)
    case Closed => if job.affiliateId in w.people.affiliates then Attempt(w, Charged) else Attempt(w, Thrown(TypeError))
    case Charged =>
      if job.affiliateId !in w.people.affiliates then Attempt(w, Thrown(TypeError))
      else
        var x := FirstPayment(w, job.userId, job.affiliateId, job.processor, ref);
        if CanInsert(w.people, x) then Attempt(w.(ledger := Insert(w.ledger, x)), Recorded(w.ledger.nextTrx))
        else Attempt(w, Thrown(Rejected))
    case Recorded(t) =>
      if t in w.ledger.trxs then Attempt(w.(ledger := OpenPeriod(w.ledger, t, job.affiliateId, w.now)), Opened)
      else Attempt(w, Thrown(Rejected))
    case Opened => a
    case Thrown(_) => a
  }

  /** How many calls a whole attempt makes. */
  const CALLS: nat := 5

  /** An attempt that gets through its first `calls` calls. */
  ghost function After(w: World, job: Job, ref: string, calls: nat): Attempt {
    if calls == 0 then Attempt(w, AtStart) else Advance(After(w, job, ref, calls - 1), job, ref)
  }

  /** Uninterrupted, the calls add up to the handler that the other results take as one step. */
  lemma AttemptIsProcess(w: World, job: Job, ref: string)
    ensures var a, o := After(w, job, ref, CALLS), Process(w, job, ref, true);
      a.world == o.world && a.point == (if o.reply == Done then Opened else Thrown(o.reply))
  {
    hide AddYear, OpenPeriod;
    var a1 := After(w, job, ref, 1);
    var a2 := After(w, job, ref, 2);
    var a3 := After(w, job, ref, 3);
    var a4 := After(w, job, ref, 4);
    assert After(w, job, ref, 0) == Attempt(w, AtStart);
    assert a1 == Advance(After(w, job, ref, 0), job, ref);
    assert a2 == Advance(a1, job, ref);
    assert a3 == Advance(a2, job, ref);
    assert a4 == Advance(a3, job, ref);
    assert After(w, job, ref, 5) == Advance(a4, job, ref);
  }

  // ---------------------------------------------------------------- failed attempts

  /** An attempt at time `at` with reference code `ref` that stops after `calls` calls. */
  datatype Failure = Failure(at: nat, ref: string, calls: nat)

  ghost function AfterFailures(w: World, job: Job, fs: seq<Failure>): World
    decreases |fs|
  {
    if fs == [] then w
    else
      var last := fs[|fs| - 1];
      var v := AfterFailures(w, job, fs[..|fs| - 1]);
      After(v.(now := last.at), job, last.ref, last.calls).world
  }

  /** The affiliate's active subscription `s` may be renewed now and at every later time, and the
      payment rows can be written. */
  ghost predicate Renewable(w: World, job: Job, s: nat) {
    && Ordered(w.ledger, w.now) && OneEach(w.ledger) && BelongsTo(w.ledger, job.affiliateId, s) && w.ledger.subs[s].active
    && !TooEarlyToRenew(w.ledger.subs[s], w.now)
    && job.affiliateId in w.people.affiliates
    && job.userId in w.people.users && UserExists(w.people, w.people.affiliates[job.affiliateId].referredBy)
  }

  /** What `n` failed attempts may have left: the subscription still open as it was or closed, other
      subscriptions and old transactions untouched, and at most `n` new transactions. */
  ghost predicate LeftBy(l: Ledger, l': Ledger, s: nat, n: nat) {
    && s in l.subs && s in l'.subs && l'.nextSub == l.nextSub
    && l'.subs == l.subs[s := l'.subs[s]]
    && l'.subs[s].affiliateId == l.subs[s].affiliateId
    && (l'.subs[s] == l.subs[s] || (!l'.subs[s].active && !l'.subs[s].willRenew))
    && l.nextTrx <= l'.nextTrx <= l.nextTrx + n
    && (forall t :: t in l.trxs ==> t in l'.trxs && l'.trxs[t] == l.trxs[t])
    && (forall t :: t in l'.trxs && t !in l.trxs ==> l.nextTrx <= t < l'.nextTrx && l'.trxs[t].status == Initiated)
  }

  ghost predicate SameBut(w: World, v: World) {
    v == w.(ledger := v.ledger, now := v.now)
  }

  lemma GuardStays(sub: Subscription, now: nat, later: nat)
    requires !TooEarlyToRenew(sub, now) && now <= later
    ensures !TooEarlyToRenew(sub, later)
  {
    GuardInMilliseconds(sub.endDate - now, RENEW_GUARD_SECONDS);
    GuardInMilliseconds(sub.endDate - later, RENEW_GUARD_SECONDS);
  }

  lemma OnlySubscription(w: World, l': Ledger, job: Job, s: nat, n: nat)
    requires Renewable(w, job, s) && LeftBy(w.ledger, l', s, n)
    ensures SubscriptionOf(l', job.affiliateId) == Some(s)
    ensures ActiveSubscriptionOf(l', job.affiliateId) == if l'.subs[s].active then Some(s) else None
    ensures forall t :: t in l'.trxs ==> t < l'.nextTrx
  {
    hide AddYear;
    assert BelongsTo(l', job.affiliateId, s);
    forall r: nat | BelongsTo(l', job.affiliateId, r) ensures r == s {
    }
  }

  /** Subscription `s` starts a year at `at`, not yet active, with the newest transaction. */
  ghost predicate Renewed(l: Ledger, l': Ledger, s: nat, at: nat) {
    && s in l'.subs && l'.nextTrx > l.nextTrx
    && var t := l'.nextTrx - 1;
       t in l'.trxs && t !in l.trxs && l'.trxs[t].subscriptionId == Some(s) &&
       l'.subs[s] == Subscription(false, false, at, AddYear(at), Some(t),
         if s in l.subs then l.subs[s].affiliateId else None)
  }

  ghost predicate IsClosed(l: Ledger, s: nat) {
    s in l.subs && !l.subs[s].active && !l.subs[s].willRenew
  }

  /** The states an attempt goes through when `n` attempts came before it. */
  ghost predicate OnTheWay(w: World, a: Attempt, s: nat, n: nat, at: nat) {
    var l, l' := w.ledger, a.world.ledger;
    && SameBut(w, a.world) && a.world.now == at
    && match a.point
       case AtStart => LeftBy(l, l', s, n)
       case Checked(found) => LeftBy(l, l', s, n) && found == (if l'.subs[s].active then Some(s) else None)
       case Closed => LeftBy(l, l', s, n) && IsClosed(l', s)
       case Charged => LeftBy(l, l', s, n) && IsClosed(l', s)
       case Recorded(t) => LeftBy(l, l', s, n + 1) && IsClosed(l', s) && IsNewestRow(l, l', t)
       case Opened => LeftBy(l, l', s, n + 1) && Renewed(l, l', s, at)
       case Thrown(_) => false
  }

  ghost predicate IsNewestRow(l: Ledger, l': Ledger, t: nat) {
    t in l'.trxs && t !in l.trxs && t + 1 == l'.nextTrx
  }

  lemma CheckStep(w: World, a: Attempt, job: Job, ref: string, s: nat, n: nat, at: nat)
    requires Renewable(w, job, s) && w.now <= at && OnTheWay(w, a, s, n, at)
    requires a.point.AtStart? || a.point.Checked?
    ensures OnTheWay(w, Advance(a, job, ref), s, n, at)
  {
    hide AddYear, Ordered, OneEach;
    OnlySubscription(w, a.world.ledger, job, s, n);
    GuardStays(w.ledger.subs[s], w.now, at);
  }

  lemma RecordStep(w: World, a: Attempt, job: Job, ref: string, s: nat, n: nat, at: nat)
    requires Renewable(w, job, s) && OnTheWay(w, a, s, n, at)
    requires a.point.Closed? || a.point.Charged?
    ensures OnTheWay(w, Advance(a, job, ref), s, n, at)
  {
    hide AddYear, Ordered, OneEach;
    OnlySubscription(w, a.world.ledger, job, s, n);
  }

  lemma OpenStep(w: World, a: Attempt, job: Job, ref: string, s: nat, n: nat, at: nat)
    requires Renewable(w, job, s) && OnTheWay(w, a, s, n, at) && a.point.Recorded?
    ensures OnTheWay(w, Advance(a, job, ref), s, n, at)
  {
    hide AddYear, Ordered, OneEach;
    OnlySubscription(w, a.world.ledger, job, s, n + 1);
  }

  lemma {:induction false} AttemptOnTheWay(w: World, v: World, job: Job, ref: string, s: nat, n: nat, calls: nat)
    requires Renewable(w, job, s) && SameBut(w, v) && w.now <= v.now && LeftBy(w.ledger, v.ledger, s, n)
    ensures OnTheWay(w, After(v, job, ref, calls), s, n, v.now)
  {
    hide Renewable, LeftBy, Advance, Renewed, IsClosed, IsNewestRow;
    if calls > 0 {
      AttemptOnTheWay(w, v, job, ref, s, n, calls - 1);
      var a := After(v, job, ref, calls - 1);
      match a.point
      case AtStart => CheckStep(w, a, job, ref, s, n, v.now);
      case Checked(_) => CheckStep(w, a, job, ref, s, n, v.now);
      case Closed => RecordStep(w, a, job, ref, s, n, v.now);
      case Charged => RecordStep(w, a, job, ref, s, n, v.now);
      case Recorded(_) => OpenStep(w, a, job, ref, s, n, v.now);
      case Opened => OpenedStays(a, job, ref);
    }
  }

  lemma OpenedStays(a: Attempt, job: Job, ref: string)
    requires a.point.Opened?
    ensures Advance(a, job, ref) == a
  {
  }

  lemma OnTheWayLeaves(w: World, a: Attempt, s: nat, n: nat, at: nat)
    requires OnTheWay(w, a, s, n, at)
    ensures SameBut(w, a.world) && LeftBy(w.ledger, a.world.ledger, s, n + 1) && a.world.now == at
  {
  }

  lemma {:induction false} FailuresLeave(w: World, job: Job, s: nat, fs: seq<Failure>)
    requires Renewable(w, job, s) && forall f :: f in fs ==> w.now <= f.at
    ensures SameBut(w, AfterFailures(w, job, fs)) && LeftBy(w.ledger, AfterFailures(w, job, fs).ledger, s, |fs|)
    decreases |fs|
  {
    hide After, OnTheWay;
    if fs == [] {
      hide LeftBy;
      NothingLeft(w, job, s);
    } else {
      hide LeftBy, Renewable;
      var last := fs[|fs| - 1];
      FailuresLeave(w, job, s, fs[..|fs| - 1]);
      var v := AfterFailures(w, job, fs[..|fs| - 1]).(now := last.at);
      AttemptOnTheWay(w, v, job, last.ref, s, |fs| - 1, last.calls);
      OnTheWayLeaves(w, After(v, job, last.ref, last.calls), s, |fs| - 1, last.at);
    }
  }

  lemma NothingLeft(w: World, job: Job, s: nat)
    requires Renewable(w, job, s)
    ensures LeftBy(w.ledger, w.ledger, s, 0)
  {
  }

  // ---------------------------------------------------------------- partial failures do not matter

  function NewUnlinked(l: Ledger, l': Ledger): set<nat> {
    set t | t in l'.trxs && t !in l.trxs && l'.trxs[t].subscriptionId == None
  }

  lemma {:induction false} IntervalSize(s: set<nat>, lo: nat, hi: nat)
    requires lo <= hi && forall t :: t in s ==> lo <= t < hi
    ensures |s| <= hi - lo
    decreases hi - lo
  {
    if lo == hi {
      assert s == {};
    } else {
      IntervalSize(s - {hi - 1}, lo, hi - 1);
    }
  }

  lemma FewUnlinked(l: Ledger, l': Ledger, s: nat, n: nat, at: nat)
    requires LeftBy(l, l', s, n + 1) && Renewed(l, l', s, at)
    ensures |NewUnlinked(l, l')| <= n
    ensures forall t :: t in NewUnlinked(l, l') ==> l'.trxs[t].status == Initiated
  {
    IntervalSize(NewUnlinked(l, l'), l.nextTrx, l'.nextTrx - 1);
  }

  /** The whole attempt after `n` failed ones, or after none. */
  lemma CompleteAttempt(w: World, v: World, job: Job, ref: string, s: nat, n: nat)
    requires Renewable(w, job, s) && SameBut(w, v) && w.now <= v.now && LeftBy(w.ledger, v.ledger, s, n)
    ensures var o := Process(v, job, ref, true);
      && o.reply == Done && SameBut(w, o.world) && o.world.now == v.now
      && LeftBy(w.ledger, o.world.ledger, s, n + 1) && Renewed(w.ledger, o.world.ledger, s, v.now)
  {
    hide Renewable, LeftBy, Advance, Renewed, IsClosed, IsNewestRow, After, Process;
    AttemptOnTheWay(w, v, job, ref, s, n, CALLS);
    AttemptIsProcess(v, job, ref);
  }

  /** Any number of attempts that stop after any call, followed by one that completes at time `at`,
      leave the subscription as one clean run at that time does, up to the id of its transaction. No
      old transaction and no other subscription differs, and each failed attempt leaves at most one
      unlinked transaction, which is merely initiated. */
  lemma FailedAttemptsDoNotMatter(w: World, job: Job, s: nat, fs: seq<Failure>, at: nat, ref: string)
    requires Renewable(w, job, s) && w.now <= at && forall f :: f in fs ==> w.now <= f.at
    ensures var done := Process(AfterFailures(w, job, fs).(now := at), job, ref, true);
      var clean := Process(w.(now := at), job, ref, true);
      var l, l' := done.world.ledger, clean.world.ledger;
      && done.reply == Done && clean.reply == Done
      && done.world == clean.world.(ledger := l)
      && s in l.subs && s in l'.subs && l.nextTrx > 0
      && l.subs == l'.subs[s := l'.subs[s].(activeTransactionId := Some(l.nextTrx - 1))]
      && (forall t :: t in w.ledger.trxs ==>
           t in l.trxs && t in l'.trxs && l.trxs[t] == w.ledger.trxs[t] && l'.trxs[t] == w.ledger.trxs[t])
      && |NewUnlinked(w.ledger, l)| <= |fs| && |NewUnlinked(w.ledger, l')| == 0
      && forall t :: t in NewUnlinked(w.ledger, l) ==> l.trxs[t].status == Initiated
  {
    hide Renewable, Process, AfterFailures, AddYear;
    FailuresLeave(w, job, s, fs);
    CompleteAttempt(w, AfterFailures(w, job, fs).(now := at), job, ref, s, |fs|);
    var done := Process(AfterFailures(w, job, fs).(now := at), job, ref, true);
    FewUnlinked(w.ledger, done.world.ledger, s, |fs|, at);
    NothingLeft(w, job, s);
    CompleteAttempt(w, w.(now := at), job, ref, s, 0);
    var clean := Process(w.(now := at), job, ref, true);
    FewUnlinked(w.ledger, clean.world.ledger, s, 0, at);
    assert done.world.ledger.subs == clean.world.ledger.subs[s := done.world.ledger.subs[s]];
  }
}
