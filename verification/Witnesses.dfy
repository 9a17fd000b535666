/** Concrete runs of payment events that end where the code does not do what its callers may expect. */
module Witnesses {
  import opened Common
  import opened Calendar
  import opened Schema
  import opened Payments
  import opened CancelRenew
  import Accounts

  ghost predicate Leads(w: World, e: Event, v: World, reply: Reply) {
    Possible(w, e) && Handle(w, e) == Outcome(v, reply)
  }

  /** The same at a later time. */
  ghost predicate LeadsAt(w: World, now: nat, e: Event, v: World, reply: Reply) {
    w.now <= now && Leads(w.(now := now), e, v, reply)
  }

  predicate WillRenewFirst(w: World) {
    0 in w.ledger.subs && w.ledger.subs[0].willRenew
  }

  // ---------------------------------------------------------------- one affiliate and one subscription

  /** One affiliate, no payments. */
  const START: World := World(
    People(map[0 := User("a", 0)], map[0 := Affiliate(0, "x", true, None)],
           map[0 := Token(0, "s", Accounts.DAY_MS)], [], 1, 1, 1),
    Ledger(map[], map[], 0, 0), Queues(map[], map[]), 0)

  function Row(processor: Processor, ref: string, status: Status, trxId: Option<string>, createdAt: nat): Transaction {
    Transaction(status, SubscriptionFee, ref, createdAt, Some(0), None, Some(0), ProcessorRef(processor, trxId, None))
  }

  /** The first subscription, which ends at `end`, with its only transaction. */
  function First(end: nat, row: Transaction, active: bool, willRenew: bool): World {
    START.(ledger := Ledger(map[0 := row], map[0 := Subscription(active, willRenew, 0, end, Some(0), Some(0))], 1, 1))
  }

  lemma FirstLookups(end: nat, row: Transaction, active: bool, willRenew: bool)
    ensures var l := First(end, row, active, willRenew).ledger;
      && Newest(l, row.referenceCode) == Some(0) && HasReference(l, row.referenceCode, 0)
      && SubscriptionOf(l, 0) == Some(0) && ActiveSubscriptionOf(l, 0) == if active then Some(0) else None
  {
    var l := First(end, row, active, willRenew).ledger;
    assert HasReference(l, row.referenceCode, 0) && BelongsTo(l, 0, 0);
    assert active ==> l.subs[0].active;
  }

  lemma YearEnds(now: nat) returns (end: nat)
    ensures end == AddYear(now)
  {
    hide AddYear;
    YearIs365Or366Days(now);
    end := AddYear(now);
  }

  lemma Created(end: nat, processor: Processor, ref: string)
    requires end == AddYear(0)
    ensures Leads(START, CreateEvent(0, 0, processor, ref, true),
      First(end, Row(processor, ref, Initiated, None, 0), false, false), Done)
  {
    hide AddYear;
    var x := FirstPayment(START, 0, 0, processor, ref);
    assert forall s: nat :: !BelongsTo(Insert(START.ledger, x), 0, s);
  }

  lemma Charged(end: nat, ref: string, trxId: string)
    ensures Leads(First(end, Row(Flutterwave, ref, Initiated, None, 0), false, false),
      FlutterwaveHookEvent(ref, ChargeCompleted(Successful, trxId)),
      First(end, Row(Flutterwave, ref, Success, Some(trxId), 0), true, true), Done)
  {
    hide AddYear;
    FirstLookups(end, Row(Flutterwave, ref, Initiated, None, 0), false, false);
  }

  // ---------------------------------------------------------------- a cancellation that throws

  /** A subscription that was created and paid cannot be cancelled once its plan is cancelled at the
      processor: no job is queued, so the call throws and the subscription goes on renewing. */
  lemma CancelThrows(ref: string, trxId: string)
    ensures exists created, paid ::
      && Leads(START, CreateEvent(0, 0, Flutterwave, ref, true), created, Done)
      && Leads(created, FlutterwaveHookEvent(ref, ChargeCompleted(Successful, trxId)), paid, Done)
      && Leads(paid, CancelEvent(0, 0, PlanCancelled), paid, TypeError)
      && WillRenewFirst(paid)
  {
    hide AddYear;
    var end := YearEnds(0);
    Created(end, Flutterwave, ref);
    Charged(end, ref, trxId);
    var paid := First(end, Row(Flutterwave, ref, Success, Some(trxId), 0), true, true);
    assert Leads(paid, CancelEvent(0, 0, PlanCancelled), paid, TypeError);
  }

  // ---------------------------------------------------------------- a payment that is withdrawn

  /** The status of the first transaction, behind an active subscription. */
  predicate FirstIs(w: World, status: Status) {
    0 in w.ledger.trxs && w.ledger.trxs[0].status == status && 0 in w.ledger.subs && w.ledger.subs[0].active &&
    w.ledger.subs[0].activeTransactionId == Some(0)
  }

  /** A confirmed charge that is reported as pending afterwards: the row is no longer paid, while the
      subscription stays active. */
  lemma PaidIsWithdrawn(ref: string)
    ensures exists created, paid, pending ::
      && Leads(START, CreateEvent(0, 0, Coinbase, ref, true), created, Done)
      && Leads(created, CoinbaseHookEvent(ref, 0, ChargeConfirmed), paid, Done)
      && Leads(paid, CoinbaseHookEvent(ref, 0, ChargePending), pending, Done)
      && FirstIs(paid, Success) && FirstIs(pending, Pending)
  {
    hide AddYear;
    var end := YearEnds(0);
    Created(end, Coinbase, ref);
    var created := First(end, Row(Coinbase, ref, Initiated, None, 0), false, false);
    var queues := Queues(map[], map[0 := end]);
    var paid := First(end, Row(Coinbase, ref, Success, None, 0), true, true).(queues := queues);
    var pending := First(end, Row(Coinbase, ref, Pending, None, 0), true, true).(queues := queues);
    assert HasReference(created.ledger, ref, 0) && HasReference(paid.ledger, ref, 0);
    assert Leads(created, CoinbaseHookEvent(ref, 0, ChargeConfirmed), paid, Done);
    assert Leads(paid, CoinbaseHookEvent(ref, 0, ChargePending), pending, Done);
  }

  // ---------------------------------------------------------------- a renewal that is not scheduled

  function Paid(end: nat, ref: string, trxId: string, willRenew: bool): World {
    First(end, Row(Flutterwave, ref, Success, Some(trxId), 0), true, willRenew)
  }

  /** A renewal was requested, and may have been cancelled again while the plan was live. */
  function Requested(end: nat, ref: string, trxId: string, willRenew: bool, now: nat): World {
    Paid(end, ref, trxId, willRenew).(
      queues := Queues(map[0 := Job(0, 0, Flutterwave, end, JOB_ATTEMPTS)], map[]), now := now)
  }

  /** The job has run: a second transaction opens a year that ends at `next`, and the job is finished. */
  function Restarted(end: nat, next: int, ref: string, trxId: string, code: string, willRenew: bool): World
  {
    START.(
      ledger := Ledger(map[0 := Row(Flutterwave, ref, Success, Some(trxId), 0),
                           1 := Row(Flutterwave, code, Initiated, None, end)],
                       map[0 := Subscription(false, willRenew, end, next, Some(1), Some(0))], 2, 1),
      queues := Queues(map[0 := Job(0, 0, Flutterwave, end, 0)], map[]), now := end)
  }

  lemma CancelledAndRequested(end: nat, ref: string, trxId: string)
    ensures Leads(Paid(end, ref, trxId, true), CancelEvent(0, 0, PlanLive(true)), Paid(end, ref, trxId, false), Done)
    ensures Leads(Paid(end, ref, trxId, false), RenewEvent(0, 0, 0), Requested(end, ref, trxId, true, 0), Done)
  {
  }

  lemma JobRuns(end: nat, next: int, ref: string, trxId: string, willRenew: bool, code: string)
    requires next == AddYear(end) && code != ref
    ensures Leads(Requested(end, ref, trxId, willRenew, end), JobEvent(0, code, true),
      Restarted(end, next, ref, trxId, code, false), Done)
  {
    hide AddYear;
    var w := Requested(end, ref, trxId, willRenew, end);
    FirstLookups(end, w.ledger.trxs[0], true, willRenew);
    assert w.ledger == Paid(end, ref, trxId, willRenew).ledger;
    assert !TooEarlyToRenew(w.ledger.subs[0], w.now);
    var closed := w.(ledger := Deactivate(w.ledger, 0));
    var x := FirstPayment(closed, 0, 0, Flutterwave, code);
    assert BelongsTo(Insert(closed.ledger, x), 0, 0);
    assert SubscriptionOf(Insert(closed.ledger, x), 0) == Some(0);
    assert Create(closed, 0, 0, Flutterwave, code, true).world.ledger ==
      Restarted(end, next, ref, trxId, code, false).ledger;
  }

  lemma RenewedAgain(end: nat, next: int, ref: string, trxId: string, code: string)
    ensures var again := Restarted(end, next, ref, trxId, code, true);
      && Leads(Restarted(end, next, ref, trxId, code, false), RenewEvent(0, 0, 0), again, Done)
      && WillRenewFirst(again) && !JobPending(again, 0)
  {
  }

  /** The subscription is created, paid, cancelled and renewed, and the job of the renewal runs when
      it is due. A second renewal is then accepted, but nothing is queued for it. */
  lemma RenewalIsNotScheduled(ref: string, trxId: string, code: string)
    requires code != ref
    ensures exists created, paid, stopped, requested, now: nat, restarted, again ::
      && Leads(START, CreateEvent(0, 0, Flutterwave, ref, true), created, Done)
      && Leads(created, FlutterwaveHookEvent(ref, ChargeCompleted(Successful, trxId)), paid, Done)
      && Leads(paid, CancelEvent(0, 0, PlanLive(true)), stopped, Done)
      && Leads(stopped, RenewEvent(0, 0, 0), requested, Done)
      && LeadsAt(requested, now, JobEvent(0, code, true), restarted, Done)
      && Leads(restarted, RenewEvent(0, 0, 0), again, Done)
      && WillRenewFirst(again) && !JobPending(again, 0)
  {
    hide AddYear, Leads;
    var end := YearEnds(0);
    var next := AddYear(end);
    var created, paid, stopped := First(end, Row(Flutterwave, ref, Initiated, None, 0), false, false),
      Paid(end, ref, trxId, true), Paid(end, ref, trxId, false);
    var requested := Requested(end, ref, trxId, true, 0);
    var restarted, again := Restarted(end, next, ref, trxId, code, false), Restarted(end, next, ref, trxId, code, true);
    Created(end, Flutterwave, ref);
    Charged(end, ref, trxId);
    CancelledAndRequested(end, ref, trxId);
    JobRuns(end, next, ref, trxId, true, code);
    RenewedAgain(end, next, ref, trxId, code);
    assert LeadsAt(requested, end, JobEvent(0, code, true), restarted, Done);
  }

  // ---------------------------------------------------------------- a cancellation that a job ignores

  lemma TakenBack(end: nat, ref: string, trxId: string)
    ensures Leads(Requested(end, ref, trxId, true, 0), CancelEvent(0, 0, PlanLive(true)),
      Requested(end, ref, trxId, false, 0), Done)
    ensures JobPending(Requested(end, ref, trxId, false, 0), 0)
  {
  }

  /** A renewal is requested and cancelled again while the plan is live. The job stays, and when it is
      due it closes the subscription and opens a year that nobody wants. */
  lemma CancelledJobRuns(ref: string, trxId: string, code: string)
    requires code != ref
    ensures exists created, paid, stopped, requested, cancelled, now: nat, restarted ::
      && Leads(START, CreateEvent(0, 0, Flutterwave, ref, true), created, Done)
      && Leads(created, FlutterwaveHookEvent(ref, ChargeCompleted(Successful, trxId)), paid, Done)
      && Leads(paid, CancelEvent(0, 0, PlanLive(true)), stopped, Done)
      && Leads(stopped, RenewEvent(0, 0, 0), requested, Done)
      && Leads(requested, CancelEvent(0, 0, PlanLive(true)), cancelled, Done)
      && !WillRenewFirst(cancelled) && JobPending(cancelled, 0)
      && LeadsAt(cancelled, now, JobEvent(0, code, true), restarted, Done)
      && restarted.ledger.nextTrx > cancelled.ledger.nextTrx
  {
    hide AddYear, Leads;
    var end := YearEnds(0);
    var next := AddYear(end);
    Created(end, Flutterwave, ref);
    Charged(end, ref, trxId);
    CancelledAndRequested(end, ref, trxId);
    TakenBack(end, ref, trxId);
    JobRuns(end, next, ref, trxId, false, code);
    assert LeadsAt(Requested(end, ref, trxId, false, 0), end, JobEvent(0, code, true),
      Restarted(end, next, ref, trxId, code, false), Done);
  }

  // ---------------------------------------------------------------- creating a second time

  const LATER: nat := 3 * MS_PER_DAY

  /** A subscription was created a second time: its period starts at `start`, ends at `end` and belongs
      to the second transaction. */
  function Twice(start: nat, end: int, first: Transaction, second: Transaction, active: bool, willRenew: bool,
      jobs: map<nat, Job>): World {
    START.(
      ledger := Ledger(map[0 := first, 1 := second],
                       map[0 := Subscription(active, willRenew, start, end, Some(1), Some(0))], 2, 1),
      queues := Queues(jobs, map[]), now := start)
  }

  lemma TwiceLookups(w: World, code: string)
    requires w.ledger.trxs.Keys == {0, 1} && w.ledger.subs.Keys == {0} && w.ledger.subs[0].affiliateId == Some(0)
    requires w.ledger.trxs[1].referenceCode == code
    ensures Newest(w.ledger, code) == Some(1) && SubscriptionOf(w.ledger, 0) == Some(0)
    ensures ActiveSubscriptionOf(w.ledger, 0) == if w.ledger.subs[0].active then Some(0) else None
  {
    assert HasReference(w.ledger, code, 1) && BelongsTo(w.ledger, 0, 0);
  }

  lemma CreatedAgain(start: nat, end: nat, next: int, first: Transaction, code: string, active: bool, jobs: map<nat, Job>)
    requires next == AddYear(start) && first.referenceCode != code
    ensures Leads(First(end, first, active, active).(queues := Queues(jobs, map[]), now := start),
      CreateEvent(0, 0, Flutterwave, code, true),
      Twice(start, next, first, Row(Flutterwave, code, Initiated, None, start), active, active, jobs), Done)
  {
    hide AddYear;
    var w := First(end, first, active, active).(queues := Queues(jobs, map[]), now := start);
    var x := FirstPayment(w, 0, 0, Flutterwave, code);
    assert BelongsTo(Insert(w.ledger, x), 0, 0);
    assert SubscriptionOf(Insert(w.ledger, x), 0) == Some(0);
  }

  /** A paid subscription that is created again stays active, in a year that nobody has paid for. */
  lemma UnpaidYear(ref: string, trxId: string, code: string)
    requires code != ref
    ensures exists created, paid, again ::
      && Leads(START, CreateEvent(0, 0, Flutterwave, ref, true), created, Done)
      && Leads(created, FlutterwaveHookEvent(ref, ChargeCompleted(Successful, trxId)), paid, Done)
      && LeadsAt(paid, LATER, CreateEvent(0, 0, Flutterwave, code, true), again, Done)
      && EndsUnpaid(again)
  {
    hide AddYear, Leads;
    var end := YearEnds(0);
    var first := Row(Flutterwave, ref, Success, Some(trxId), 0);
    Created(end, Flutterwave, ref);
    Charged(end, ref, trxId);
    CreatedAgain(LATER, end, AddYear(LATER), first, code, true, map[]);
    assert LeadsAt(First(end, first, true, true), LATER, CreateEvent(0, 0, Flutterwave, code, true),
      Twice(LATER, AddYear(LATER), first, Row(Flutterwave, code, Initiated, None, LATER), true, true, map[]), Done);
  }

  /** The subscription is active and its active transaction is not paid. */
  predicate EndsUnpaid(w: World) {
    && 0 in w.ledger.subs && w.ledger.subs[0].active && w.ledger.subs[0].activeTransactionId == Some(1)
    && 1 in w.ledger.trxs && w.ledger.trxs[1].status == Initiated
  }

  /** A subscription is created twice before it is paid, and the first transaction is the one that is. */
  lemma PaidByAnother(ref: string, trxId: string, code: string)
    requires code != ref
    ensures exists created, again, paid ::
      && Leads(START, CreateEvent(0, 0, Flutterwave, ref, true), created, Done)
      && Leads(created, CreateEvent(0, 0, Flutterwave, code, true), again, Done)
      && Leads(again, FlutterwaveHookEvent(ref, ChargeCompleted(Successful, trxId)), paid, Done)
      && EndsUnpaid(paid)
  {
    hide AddYear, Leads;
    var end := YearEnds(0);
    var first := Row(Flutterwave, ref, Initiated, None, 0);
    Created(end, Flutterwave, ref);
    CreatedAgain(0, end, end, first, code, false, map[]);
    assert First(end, first, false, false) == First(end, first, false, false).(queues := Queues(map[], map[]), now := 0);
    FirstOfTwoCharged(end, ref, trxId, code);
  }

  lemma FirstOfTwoCharged(end: int, ref: string, trxId: string, code: string)
    requires code != ref
    ensures var second := Row(Flutterwave, code, Initiated, None, 0);
      Leads(Twice(0, end, Row(Flutterwave, ref, Initiated, None, 0), second, false, false, map[]),
        FlutterwaveHookEvent(ref, ChargeCompleted(Successful, trxId)),
        Twice(0, end, Row(Flutterwave, ref, Success, Some(trxId), 0), second, true, true, map[]), Done)
  {
    var second := Row(Flutterwave, code, Initiated, None, 0);
    var w := Twice(0, end, Row(Flutterwave, ref, Initiated, None, 0), second, false, false, map[]);
    assert HasReference(w.ledger, ref, 0);
  }

  // ---------------------------------------------------------------- a renewal that finds an older job

  function OldJobs(end: int, attempts: nat): map<nat, Job> {
    map[0 := Job(0, 0, Flutterwave, end, attempts)]
  }

  function PaidTwice(end: int, next: int, ref: string, code: string, trxId: string, willRenew: bool, attempts: nat): World {
    Twice(LATER, next, Row(Flutterwave, ref, Success, Some(trxId), 0), Row(Flutterwave, code, Success, Some(trxId), LATER),
      true, willRenew, OldJobs(end, attempts))
  }

  lemma PaidAgain(end: int, next: int, ref: string, code: string, trxId: string)
    requires code != ref
    ensures Leads(
      Twice(LATER, next, Row(Flutterwave, ref, Success, Some(trxId), 0), Row(Flutterwave, code, Initiated, None, LATER),
        true, true, OldJobs(end, JOB_ATTEMPTS)),
      FlutterwaveHookEvent(code, ChargeCompleted(Successful, trxId)),
      PaidTwice(end, next, ref, code, trxId, true, JOB_ATTEMPTS), Done)
  {
    var w := Twice(LATER, next,
      Row(Flutterwave, ref, Success, Some(trxId), 0), Row(Flutterwave, code, Initiated, None, LATER),
      true, true, OldJobs(end, JOB_ATTEMPTS));
    TwiceLookups(w, code);
  }

  lemma RenewedOverOldJob(end: int, next: int, ref: string, code: string, trxId: string)
    ensures var v := PaidTwice(end, next, ref, code, trxId, false, JOB_ATTEMPTS);
      var v' := PaidTwice(end, next, ref, code, trxId, true, JOB_ATTEMPTS);
      && Leads(v', CancelEvent(0, 0, PlanLive(true)), v, Done) && Leads(v, RenewEvent(0, 0, 0), v', Done)
      && !JobFinished(v, 0) && JobPending(v', 0) && (end != next ==> !Scheduled(v', 0))
  {
  }

  lemma OldJobIsTooEarly(end: nat, next: int, ref: string, code: string, trxId: string, third: string)
    requires third != ref && third != code && next - end >= 2 * MS_PER_DAY
    ensures Leads(PaidTwice(end, next, ref, code, trxId, true, JOB_ATTEMPTS).(now := end), JobEvent(0, third, true),
      PaidTwice(end, next, ref, code, trxId, true, JOB_ATTEMPTS - 1).(now := end), TooEarly)
  {
    var w := PaidTwice(end, next, ref, code, trxId, true, JOB_ATTEMPTS).(now := end);
    TwiceLookups(w, code);
    GuardInMilliseconds(next - end, RENEW_GUARD_SECONDS);
  }

  lemma LaterYearEndsLater()
    ensures AddYear(LATER) - AddYear(0) >= 2 * MS_PER_DAY && AddYear(0) >= LATER
  {
    hide AddYear;
    YearIs365Or366Days(0);
    YearIs365Or366Days(LATER);
  }

  /** With the job of an earlier renewal still pending, the subscription is created again and paid,
      which moves its end. It is then cancelled while the plan is live and renewed. The renewal is
      accepted, no finished job is in its way, and yet none is scheduled: the old job comes days too
      early and only uses up an attempt. */
  lemma OldJobTakesRenewal(ref: string, trxId: string, code: string, third: string)
    requires code != ref && third != ref && third != code
    ensures exists created, paid, stopped, requested, again, charged, cancelled, renewed, now: nat, tried ::
      && Leads(START, CreateEvent(0, 0, Flutterwave, ref, true), created, Done)
      && Leads(created, FlutterwaveHookEvent(ref, ChargeCompleted(Successful, trxId)), paid, Done)
      && Leads(paid, CancelEvent(0, 0, PlanLive(true)), stopped, Done)
      && Leads(stopped, RenewEvent(0, 0, 0), requested, Done)
      && LeadsAt(requested, LATER, CreateEvent(0, 0, Flutterwave, code, true), again, Done)
      && Leads(again, FlutterwaveHookEvent(code, ChargeCompleted(Successful, trxId)), charged, Done)
      && Leads(charged, CancelEvent(0, 0, PlanLive(true)), cancelled, Done)
      && Leads(cancelled, RenewEvent(0, 0, 0), renewed, Done)
      && !JobFinished(cancelled, 0) && JobPending(renewed, 0) && !Scheduled(renewed, 0)
      && LeadsAt(renewed, now, JobEvent(0, third, true), tried, TooEarly) && tried.ledger == renewed.ledger
  {
    hide AddYear, Leads;
    var end := YearEnds(0);
    var next, first := AddYear(LATER), Row(Flutterwave, ref, Success, Some(trxId), 0);
    LaterYearEndsLater();
    Created(end, Flutterwave, ref);
    Charged(end, ref, trxId);
    CancelledAndRequested(end, ref, trxId);
    CreatedAgain(LATER, end, next, first, code, true, OldJobs(end, JOB_ATTEMPTS));
    PaidAgain(end, next, ref, code, trxId);
    RenewedOverOldJob(end, next, ref, code, trxId);
    OldJobIsTooEarly(end, next, ref, code, trxId, third);
    assert LeadsAt(Requested(end, ref, trxId, true, 0), LATER, CreateEvent(0, 0, Flutterwave, code, true),
      Twice(LATER, next, first, Row(Flutterwave, code, Initiated, None, LATER), true, true,
        OldJobs(end, JOB_ATTEMPTS)), Done);
    assert LeadsAt(PaidTwice(end, next, ref, code, trxId, true, JOB_ATTEMPTS), end, JobEvent(0, third, true),
      PaidTwice(end, next, ref, code, trxId, true, JOB_ATTEMPTS - 1).(now := end), TooEarly);
  }
}
