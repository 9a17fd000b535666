/** The tables of prisma/schema.prisma that the model keeps, the job queues and the clock.
    A table is a map from ids to rows together with the next id. */
module Schema {
  import opened Common

  // ---------------------------------------------------------------- people

  datatype User = User(email: string, kcId: nat)

  datatype Affiliate = Affiliate(userId: nat, code: string, active: bool, referredBy: Option<nat>)

  /** A confirmation token. The stored hash is ideal: it matches exactly one plaintext. */
  datatype Token = Token(userId: nat, secret: string, expiresAt: int)

  /** `audits` lists the users of the USER entries of the audit log. */
  datatype People = People(
    users: map<nat, User>, affiliates: map<nat, Affiliate>, tokens: map<nat, Token>, audits: seq<nat>,
    nextUser: nat, nextAffiliate: nat, nextToken: nat)

  /** The unique columns: addresses of users and owners of affiliates. */
  ghost predicate UniqueRows(p: People) {
    && (forall u, v :: u in p.users && v in p.users && p.users[u].email == p.users[v].email ==> u == v)
    && (forall a, b :: a in p.affiliates && b in p.affiliates && p.affiliates[a].userId == p.affiliates[b].userId ==> a == b)
  }

  ghost predicate HasEmail(p: People, email: string, u: nat) {
    u in p.users && p.users[u].email == email
  }

  // ---------------------------------------------------------------- payments

  datatype Processor = Flutterwave | Coinbase

  datatype Status = Initiated | Success | Failed | Pending

  datatype Purpose = SubscriptionFee | ProductPurchase | StoreWithdrawal | AffiliateWithdrawal

  datatype ProcessorRef = ProcessorRef(processor: Processor, trxId: Option<string>, referenceCode: Option<string>)

  datatype Transaction = Transaction(
    status: Status, purpose: Purpose, referenceCode: string, createdAt: nat,
    initiatedBy: Option<nat>, referredBy: Option<nat>, subscriptionId: Option<nat>, processorRef: ProcessorRef)

  datatype Subscription = Subscription(
    active: bool, willRenew: bool, startDate: nat, endDate: int,
    activeTransactionId: Option<nat>, affiliateId: Option<nat>)

  datatype Ledger = Ledger(
    trxs: map<nat, Transaction>, subs: map<nat, Subscription>, nextTrx: nat, nextSub: nat)

  // ---------------------------------------------------------------- queues

  /** A renew job. Finished jobs stay in the queue under their id, with no attempts left. */
  datatype Job = Job(userId: nat, affiliateId: nat, processor: Processor, fireAt: int, attemptsLeft: nat)

  /** Both queues are keyed by the subscription id. A terminate job is its due time only, since no
      worker is registered for that queue. */
  datatype Queues = Queues(renew: map<nat, Job>, terminate: map<nat, int>)

  datatype World = World(people: People, ledger: Ledger, queues: Queues, now: nat)

  // ---------------------------------------------------------------- deleting a user row

  function Without(o: Option<nat>, gone: set<nat>): Option<nat> {
    if o.Some? && o.value in gone then None else o
  }

  function AffiliatesOf(p: People, userId: nat): set<nat> {
    set a | a in p.affiliates && p.affiliates[a].userId == userId
  }

  /** Deletes a user row and writes the audit entry. The affiliate and the tokens go with it;
      references to it from transactions, subscriptions and referred affiliates become null. */
  function DeleteUser(w: World, userId: nat): World {
    var gone := AffiliatesOf(w.people, userId);
    var p, l := w.people, w.ledger;
    w.(people := p.(
         users := p.users - {userId},
         affiliates := map a | a in p.affiliates && a !in gone ::
           p.affiliates[a].(referredBy := Without(p.affiliates[a].referredBy, gone)),
         tokens := map t | t in p.tokens && p.tokens[t].userId != userId :: p.tokens[t],
         audits := p.audits + [userId]),
       ledger := l.(
         trxs := map t | t in l.trxs ::
           l.trxs[t].(initiatedBy := Without(l.trxs[t].initiatedBy, {userId}),
                      referredBy := Without(l.trxs[t].referredBy, {userId})),
         subs := map s | s in l.subs ::
           l.subs[s].(affiliateId := Without(l.subs[s].affiliateId, gone))))
  }
}
