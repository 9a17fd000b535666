/** What every account request leaves behind when nothing interrupts it, row by row and in every case,
    with the lifetimes of the source written out. */
module AccountEffects {
  import opened Common
  import opened Schema
  import opened Accounts

  ghost predicate AddressTaken(p: People, email: string) {
    exists u :: HasEmail(p, email, u)
  }

  /** A request of `calls` calls ends with this reply and leaves these two stores. */
  ghost predicate Leaves(st: Store, task: Task, row: nat, calls: nat,
      people: People, kc: map<nat, KcUser>, nextKc: nat, reply: Reply) {
    RunFor(st, task, row, calls) == Step(Store(st.world.(people := people), kc, nextKc), End(reply))
  }

  // ---------------------------------------------------------------- creating accounts

  /** The rows of a new affiliate: user, inactive affiliate and a token for a day. */
  function WithAffiliate(p: People, email: string, kcId: nat, code: string, referrer: Option<nat>, secret: string,
      now: nat): People {
    p.(users := p.users[p.nextUser := User(email, kcId)], nextUser := p.nextUser + 1,
       affiliates := p.affiliates[p.nextAffiliate := Affiliate(p.nextUser, code, false, referrer)],
       nextAffiliate := p.nextAffiliate + 1,
       tokens := p.tokens[p.nextToken := Token(p.nextUser, secret, now + 86_400_000)], nextToken := p.nextToken + 1)
  }

  /** A registration of three calls makes an unverified Keycloak user and, if the address is free, the
      rows of an affiliate. The lookup of the referrer found `referrer`. */
  lemma RegistrationRuns(st: Store, code: string, ref: Option<string>, secret: string, email: string, password: string,
      row: nat, referrer: Option<nat>)
    requires referrer == if ref.Some? && HasCode(st.world.people, ref.value, row) then Some(row) else None
    ensures var p, k := st.world.people, st.nextKc;
      Leaves(st, CreateStart(AffiliateAccount(code, ref, secret), email, password), row, 3,
        if AddressTaken(p, email) then p else WithAffiliate(p, email, k, code, referrer, secret, st.world.now),
        st.kc[k := KcUser(email, false, password)], k + 1,
        if AddressTaken(p, email) then Rejected else Done)
  {
    hide UserByEmail;
    var k, kind := st.nextKc, AffiliateAccount(code, ref, secret);
    var made := st.(kc := st.kc[k := KcUser(email, false, password)], nextKc := k + 1);
    assert RunFor(st, CreateStart(kind, email, password), row, 3) == RunFor(made, CreateLookup(kind, email, k), row, 2);
    assert RunFor(made, CreateLookup(kind, email, k), row, 2) == RunFor(made, CreateRow(kind, email, k, referrer), row, 1);
  }

  /** The affiliate that has the referrer code is recorded as the referrer. */
  lemma ReferredRegistration(st: Store, code: string, ref: string, secret: string, email: string, password: string, row: nat)
    requires HasCode(st.world.people, ref, row) && !AddressTaken(st.world.people, email)
    ensures Leaves(st, CreateStart(AffiliateAccount(code, Some(ref), secret), email, password), row, 3,
      WithAffiliate(st.world.people, email, st.nextKc, code, Some(row), secret, st.world.now),
      st.kc[st.nextKc := KcUser(email, false, password)], st.nextKc + 1, Done)
  {
    RegistrationRuns(st, code, Some(ref), secret, email, password, row, Some(row));
  }

  /** Without a code, or with one that no affiliate has, there is no referrer. */
  lemma UnreferredRegistration(st: Store, code: string, ref: Option<string>, secret: string, email: string, password: string,
      row: nat)
    requires ref.Some? ==> forall a :: !HasCode(st.world.people, ref.value, a)
    requires !AddressTaken(st.world.people, email)
    ensures Leaves(st, CreateStart(AffiliateAccount(code, ref, secret), email, password), row, 3,
      WithAffiliate(st.world.people, email, st.nextKc, code, None, secret, st.world.now),
      st.kc[st.nextKc := KcUser(email, false, password)], st.nextKc + 1, Done)
  {
    RegistrationRuns(st, code, ref, secret, email, password, row, None);
  }

  /** Sellers and managers get a verified Keycloak user and, if the address is free, a user row. */
  lemma PlainCreation(st: Store, email: string, password: string, row: nat)
    ensures var p, k := st.world.people, st.nextKc;
      Leaves(st, CreateStart(PlainAccount, email, password), row, 2,
        if AddressTaken(p, email) then p else p.(users := p.users[p.nextUser := User(email, k)], nextUser := p.nextUser + 1),
        st.kc[k := KcUser(email, true, password)], k + 1,
        if AddressTaken(p, email) then Rejected else Done)
  {
    hide UserByEmail;
    var k := st.nextKc;
    var made := st.(kc := st.kc[k := KcUser(email, true, password)], nextKc := k + 1);
    assert RunFor(st, CreateStart(PlainAccount, email, password), row, 2) ==
      RunFor(made, CreateRow(PlainAccount, email, k, None), row, 1);
  }

  // ---------------------------------------------------------------- verifying

  lemma OwnerLookups(p: People, email: string, u: nat, a: nat)
    requires UniqueRows(p) && HasEmail(p, email, u) && IsAffiliateOf(p, u, a)
    ensures UserByEmail(p, email) == Some(u) && AffiliateOf(p, u) == Some(a)
  {
  }

  /** The token that the lookup returned is for the address, has not expired and carries the plaintext. */
  ghost predicate IsGoodToken(st: Store, email: string, secret: string, row: nat) {
    && row in st.world.people.tokens && HasEmail(st.world.people, email, st.world.people.tokens[row].userId)
    && st.world.now <= st.world.people.tokens[row].expiresAt && st.world.people.tokens[row].secret == secret
  }

  /** A verification with a good token sets the flag in Keycloak and activates the affiliate. An active
      one is left alone, and any other token is refused. */
  lemma VerificationRuns(st: Store, email: string, secret: string, row: nat, u: nat, a: nat)
    requires UniqueRows(st.world.people) && HasEmail(st.world.people, email, u) && IsAffiliateOf(st.world.people, u, a)
    requires st.world.people.users[u].kcId in st.kc
    ensures var p, k := st.world.people, st.world.people.users[u].kcId;
      var activates := !p.affiliates[a].active && IsGoodToken(st, email, secret, row);
      Leaves(st, VerifyStart(email, secret), row, 4,
        if activates then p.(affiliates := p.affiliates[a := p.affiliates[a].(active := true)]) else p,
        if activates then st.kc[k := st.kc[k].(emailVerified := true)] else st.kc, st.nextKc,
        if p.affiliates[a].active || activates then Done else BadRequest)
  {
    hide UniqueRows, UserByEmail, AffiliateOf;
    OwnerLookups(st.world.people, email, u, a);
    var k := st.world.people.users[u].kcId;
    if !st.world.people.affiliates[a].active {
      assert RunFor(st, VerifyStart(email, secret), row, 4) == RunFor(st, VerifyCheck(email, secret, u, k), row, 3);
      if IsGoodToken(st, email, secret, row) {
        var marked := st.(kc := st.kc[k := st.kc[k].(emailVerified := true)]);
        assert RunFor(st, VerifyCheck(email, secret, u, k), row, 3) == RunFor(st, VerifyRemote(u, k), row, 2);
        assert RunFor(st, VerifyRemote(u, k), row, 2) == RunFor(marked, VerifyRow(u, k), row, 1);
      }
    }
  }

  /** An address of nobody, or of a user without an affiliate, makes the call throw. */
  lemma VerificationOfNobody(st: Store, email: string, secret: string, row: nat)
    requires forall u, a :: HasEmail(st.world.people, email, u) ==> !IsAffiliateOf(st.world.people, u, a)
    ensures Leaves(st, VerifyStart(email, secret), row, 4, st.world.people, st.kc, st.nextKc, TypeError)
  {
  }

  // ---------------------------------------------------------------- tokens

  /** User `u` has this token and no other; the tokens of others are as before. */
  ghost predicate OnlyTokenIs(p: People, p': People, u: nat, token: Token) {
    && p' == p.(tokens := p'.tokens, nextToken := p.nextToken + 1)
    && token.userId == u
    && (forall t :: t in p'.tokens <==> t == p.nextToken || (t in p.tokens && p.tokens[t].userId != u))
    && (forall t :: t in p'.tokens ==> p'.tokens[t] == if t == p.nextToken then token else p.tokens[t])
  }

  /** A reset request replaces the user's tokens by one for a quarter of an hour. */
  lemma ResetRuns(st: Store, email: string, secret: string, row: nat, u: nat)
    requires UniqueRows(st.world.people) && HasEmail(st.world.people, email, u)
    ensures var run := RunFor(st, ResetStart(email, secret), row, 2);
      && run.next == End(Done) && run.store == st.(world := st.world.(people := run.store.world.people))
      && OnlyTokenIs(st.world.people, run.store.world.people, u, Token(u, secret, st.world.now + 900_000))
  {
    hide UniqueRows, UserByEmail;
    assert UserByEmail(st.world.people, email) == Some(u) by { UserIs(st.world.people, email, u); }
    assert RunFor(st, ResetStart(email, secret), row, 2) == RunFor(st, ResetIssue(u, secret), row, 1);
  }

  lemma UserIs(p: People, email: string, u: nat)
    requires UniqueRows(p) && HasEmail(p, email, u)
    ensures UserByEmail(p, email) == Some(u)
  {
  }

  lemma ResetOfNobody(st: Store, email: string, secret: string, row: nat)
    requires !AddressTaken(st.world.people, email)
    ensures Leaves(st, ResetStart(email, secret), row, 2, st.world.people, st.kc, st.nextKc, BadRequest)
  {
  }

  /** A resend replaces them by one for a day. */
  lemma ResendRuns(st: Store, u: nat, secret: string, row: nat)
    requires u in st.world.people.users
    ensures var run := RunFor(st, ResendStart(u, secret), row, 2);
      && run.next == End(Done) && run.store == st.(world := st.world.(people := run.store.world.people))
      && OnlyTokenIs(st.world.people, run.store.world.people, u, Token(u, secret, st.world.now + 86_400_000))
  {
    hide CreateStep, VerifyStep, DeleteStep, AddressStep;
    var p := st.world.people;
    var cleared := st.(world := st.world.(people := WithoutTokensOf(p, u)));
    assert RunFor(st, ResendStart(u, secret), row, 2) == RunFor(cleared, ResendIssue(u, secret), row, 1);
  }

  /** A confirmation with the newest token of the address, not expired, sets the password of the owner in
      Keycloak. Every other one leaves both stores alone. */
  lemma ConfirmationRuns(st: Store, email: string, secret: string, password: string, row: nat)
    requires forall u :: u in st.world.people.users ==> st.world.people.users[u].kcId in st.kc
    ensures var p := st.world.people;
      match NewestTokenFor(p, email) {
        case None => Leaves(st, ConfirmStart(email, secret, password), row, 2, p, st.kc, st.nextKc, TypeError)
        case Some(t) =>
          var k := p.users[p.tokens[t].userId].kcId;
          if st.world.now <= p.tokens[t].expiresAt && p.tokens[t].secret == secret then
            Leaves(st, ConfirmStart(email, secret, password), row, 2,
              p, st.kc[k := st.kc[k].(password := password)], st.nextKc, Done)
          else Leaves(st, ConfirmStart(email, secret, password), row, 2, p, st.kc, st.nextKc, BadRequest)
      }
  {
    hide NewestTokenFor, CreateStep, VerifyStep, DeleteStep, AddressStep;
    var p := st.world.people;
    match NewestTokenFor(p, email)
    case None =>
    case Some(t) =>
      var k := p.users[p.tokens[t].userId].kcId;
      if st.world.now <= p.tokens[t].expiresAt && p.tokens[t].secret == secret {
        assert RunFor(st, ConfirmStart(email, secret, password), row, 2) == RunFor(st, ConfirmRemote(k, password), row, 1);
      }
  }

  // ---------------------------------------------------------------- changing the address

  /** A change of address needs a free address, the caller's password and an affiliate. Then Keycloak and
      the row get it, and nothing else changes. */
  lemma AddressRuns(st: Store, caller: nat, password: string, u: nat, email: string, row: nat)
    requires forall v :: v in st.world.people.users ==> st.world.people.users[v].kcId in st.kc
    ensures var p, task := st.world.people, AddressStart(caller, password, u, email);
      if AddressTaken(p, email) || caller !in st.kc || st.kc[caller].password != password then
        Leaves(st, task, row, 5, p, st.kc, st.nextKc, BadRequest)
      else if u !in p.users then Leaves(st, task, row, 5, p, st.kc, st.nextKc, NotFound)
      else if forall a :: !IsAffiliateOf(p, u, a) then Leaves(st, task, row, 5, p, st.kc, st.nextKc, TypeError)
      else
        var k := p.users[u].kcId;
        Leaves(st, task, row, 5,
          p.(users := p.users[u := User(email, k)]), st.kc[k := st.kc[k].(email := email)], st.nextKc, Done)
  {
    hide UserByEmail, AffiliateOf, CreateStep, VerifyStep, TokenStep, DeleteStep;
    var p := st.world.people;
    if !AddressTaken(p, email) {
      assert RunFor(st, AddressStart(caller, password, u, email), row, 5) ==
        RunFor(st, AddressLogin(caller, password, u, email), row, 4);
      if caller in st.kc && st.kc[caller].password == password {
        assert RunFor(st, AddressLogin(caller, password, u, email), row, 4) == RunFor(st, AddressRead(u, email), row, 3);
        if u in p.users && AffiliateOf(p, u).Some? {
          var k := p.users[u].kcId;
          var moved := st.(kc := st.kc[k := st.kc[k].(email := email)]);
          assert RunFor(st, AddressRead(u, email), row, 3) == RunFor(st, AddressRemote(u, k, email), row, 2);
          assert RunFor(st, AddressRemote(u, k, email), row, 2) == RunFor(moved, AddressRow(u, k, email), row, 1);
        }
      }
    }
  }

  // ---------------------------------------------------------------- deleting

  /** Deleting `u` removes its own rows, its affiliates `gone` and its tokens. Everybody else's stay, but
      for references to those affiliates. */
  ghost predicate DeletesPeople(p: People, p': People, u: nat, gone: set<nat>) {
    && p'.nextUser == p.nextUser && p'.nextAffiliate == p.nextAffiliate && p'.nextToken == p.nextToken
    && p'.audits == p.audits + [u]
    && (forall v :: v in p'.users <==> v in p.users && v != u)
    && (forall v :: v in p'.users ==> p'.users[v] == p.users[v])
    && (forall t :: t in p'.tokens <==> t in p.tokens && p.tokens[t].userId != u)
    && (forall t :: t in p'.tokens ==> p'.tokens[t] == p.tokens[t])
    && (forall a :: a in p'.affiliates <==> a in p.affiliates && p.affiliates[a].userId != u)
    && (forall a :: a in p'.affiliates ==>
         p'.affiliates[a] == p.affiliates[a].(referredBy := Emptied(p.affiliates[a].referredBy, gone)))
  }

  /** Of the payment tables only the references to `u` and to its affiliates are emptied. */
  ghost predicate EmptiesReferences(l: Ledger, l': Ledger, u: nat, gone: set<nat>) {
    && l'.nextTrx == l.nextTrx && l'.nextSub == l.nextSub && l'.trxs.Keys == l.trxs.Keys && l'.subs.Keys == l.subs.Keys
    && (forall t :: t in l.trxs ==>
         l'.trxs[t] == l.trxs[t].(initiatedBy := Emptied(l.trxs[t].initiatedBy, {u}),
                                  referredBy := Emptied(l.trxs[t].referredBy, {u})))
    && (forall s :: s in l.subs ==> l'.subs[s] == l.subs[s].(affiliateId := Emptied(l.subs[s].affiliateId, gone)))
  }

  ghost predicate DeletesOnly(w: World, w': World, u: nat) {
    var gone := set a | a in w.people.affiliates && w.people.affiliates[a].userId == u;
    w'.queues == w.queues && w'.now == w.now &&
    DeletesPeople(w.people, w'.people, u, gone) && EmptiesReferences(w.ledger, w'.ledger, u, gone)
  }

  function Emptied(o: Option<nat>, gone: set<nat>): Option<nat> {
    match o
    case None => None
    case Some(x) => if x in gone then None else Some(x)
  }

  lemma DeleteUserPeople(w: World, u: nat)
    ensures DeletesPeople(w.people, DeleteUser(w, u).people, u, AffiliatesOf(w.people, u))
  {
  }

  lemma DeleteUserReferences(w: World, u: nat)
    ensures EmptiesReferences(w.ledger, DeleteUser(w, u).ledger, u, AffiliatesOf(w.people, u))
  {
  }

  lemma DeleteUserOnly(w: World, u: nat)
    ensures DeletesOnly(w, DeleteUser(w, u), u)
  {
    hide DeletesPeople, EmptiesReferences;
    DeleteUserPeople(w, u);
    DeleteUserReferences(w, u);
  }

  /** A deletion with the right password removes the user's rows, and in the end the Keycloak user. With
      a wrong one nothing changes. */
  lemma DeletionRuns(st: Store, u: nat, password: string, row: nat)
    requires u in st.world.people.users && st.world.people.users[u].kcId in st.kc
    ensures var run, k := RunFor(st, DeleteStart(u, password), row, 5), st.world.people.users[u].kcId;
      if st.kc[k].password == password then
        && run.next == End(Done) && run.store.kc == st.kc - {k} && run.store.nextKc == st.nextKc
        && DeletesOnly(st.world, run.store.world, u)
      else run == Step(st, End(BadRequest))
  {
    hide DeleteUser, DeletesOnly;
    DeleteUserOnly(st.world, u);
    var k := st.world.people.users[u].kcId;
    assert RunFor(st, DeleteStart(u, password), row, 5) == RunFor(st, DeleteLogin(u, k, password), row, 4);
    if st.kc[k].password == password {
      var gone := st.(world := DeleteUser(st.world, u));
      assert RunFor(st, DeleteLogin(u, k, password), row, 4) == RunFor(st, DeleteRow(u, k), row, 3);
      assert RunFor(st, DeleteRow(u, k), row, 3) == RunFor(gone, DeleteLogout(k), row, 2);
      assert RunFor(gone, DeleteLogout(k), row, 2) == RunFor(gone, DeleteRemote(k), row, 1);
    }
  }

  lemma DeletionOfNobody(st: Store, u: nat, password: string, row: nat)
    requires u !in st.world.people.users
    ensures RunFor(st, DeleteStart(u, password), row, 5) == Step(st, End(NotFound))
  {
  }

  // ---------------------------------------------------------------- with other requests in between

  /** Whatever ran in between, a call that ends its request with an error changes nothing. */
  lemma ErrorsChangeNothing(st: Store, task: Task, row: nat)
    requires Advance(st, task, row).next.End? && Advance(st, task, row).next.reply != Done
    ensures Advance(st, task, row).store == st
  {
  }

  /** What the user of a request that ends well finds afterwards. */
  ghost predicate Achieved(st: Store, task: Task) {
    var p, now := st.world.people, st.world.now;
    match task
    case CreateRow(_, email, k, _) => exists u :: u in p.users && p.users[u] == User(email, k)
    case VerifyStart(email, _) => exists u, a :: HasEmail(p, email, u) && IsAffiliateOf(p, u, a) && p.affiliates[a].active
    case VerifyRow(u, _) => exists a :: IsAffiliateOf(p, u, a) && p.affiliates[a].active
    case ResetIssue(u, secret) => exists t :: t in p.tokens && p.tokens[t] == Token(u, secret, now + 900_000)
    case ConfirmRemote(k, password) => k in st.kc && st.kc[k].password == password
    case ResendIssue(u, secret) => exists t :: t in p.tokens && p.tokens[t] == Token(u, secret, now + 86_400_000)
    case DeleteRemote(k) => k !in st.kc
    case AddressRow(u, _, email) => HasEmail(p, email, u)
    case _ => false
  }

  /** Whatever ran in between, a request that is answered with success has done what it is for. */
  lemma DoneMeansDone(st: Store, task: Task, row: nat)
    requires Advance(st, task, row).next == End(Done)
    ensures Achieved(Advance(st, task, row).store, task)
  {
    hide VerifyStep, TokenStep;
    if task.CreateRow? {
      CreateIsDone(st, task, row);
    } else if task.VerifyStart? || task.VerifyCheck? || task.VerifyRemote? || task.VerifyRow? {
      VerifyIsDone(st, task, row);
    } else if !(task.CreateStart? || task.CreateLookup? || task.DeleteStart? || task.DeleteLogin? || task.DeleteRow? ||
                task.DeleteLogout? || task.DeleteRemote? || ChangesAddress(task)) {
      TokenIsDone(st, task);
    }
  }

  lemma CreateIsDone(st: Store, task: Task, row: nat)
    requires task.CreateRow? && CreateStep(st, task, row).next == End(Done)
    ensures Achieved(CreateStep(st, task, row).store, task)
  {
    var p, p' := st.world.people, CreateStep(st, task, row).store.world.people;
    assert p.nextUser in p'.users && p'.users[p.nextUser] == User(task.email, task.kcId);
  }

  lemma VerifyIsDone(st: Store, task: Task, row: nat)
    requires task.VerifyStart? || task.VerifyCheck? || task.VerifyRemote? || task.VerifyRow?
    requires VerifyStep(st, task, row).next == End(Done)
    ensures Achieved(VerifyStep(st, task, row).store, task)
  {
    var p, p' := st.world.people, VerifyStep(st, task, row).store.world.people;
    if task.VerifyStart? {
      var u := UserByEmail(p, task.email).value;
      assert HasEmail(p', task.email, u) && IsAffiliateOf(p', u, AffiliateOf(p, u).value);
    } else if task.VerifyRow? {
      assert IsAffiliateOf(p', task.userId, AffiliateOf(p, task.userId).value);
    }
  }

  lemma TokenIsDone(st: Store, task: Task)
    requires task.ResetStart? || task.ResetIssue? || task.ConfirmStart? || task.ConfirmRemote? ||
      task.ResendStart? || task.ResendIssue?
    requires TokenStep(st, task).next == End(Done)
    ensures Achieved(TokenStep(st, task).store, task)
  {
    var p, p' := st.world.people, TokenStep(st, task).store.world.people;
    if task.ResetIssue? || task.ResendIssue? {
      assert p.nextToken in p'.tokens;
    }
  }

  /** The replies when other requests have removed the Keycloak user that a request still needs. */
  lemma KeycloakUserIsGone(st: Store, u: nat, k: nat, row: nat, password: string, email: string)
    requires k !in st.kc
    ensures Advance(st, VerifyRemote(u, k), row).next == End(RemoteFailure)
    ensures Advance(st, ConfirmRemote(k, password), row).next == End(RemoteFailure)
    ensures Advance(st, DeleteLogout(k), row).next == End(RemoteFailure)
    ensures Advance(st, DeleteRemote(k), row).next == End(RemoteFailure)
    ensures Advance(st, AddressRemote(u, k, email), row).next == End(RemoteFailure)
  {
  }

  /** The replies when they have removed the row of the user. */
  lemma UserIsGone(st: Store, u: nat, k: nat, row: nat, secret: string, email: string)
    requires u !in st.world.people.users
    ensures Advance(st, ResetIssue(u, secret), row).next == End(Rejected)
    ensures Advance(st, ResendIssue(u, secret), row).next == End(Rejected)
    ensures Advance(st, DeleteRow(u, k), row).next == End(NotFound)
    ensures Advance(st, AddressRow(u, k, email), row).next == End(NotFound)
  {
  }

  lemma AffiliateIsGone(st: Store, u: nat, k: nat, row: nat, email: string)
    requires forall a :: !IsAffiliateOf(st.world.people, u, a)
    ensures Advance(st, VerifyRow(u, k), row).next == End(NotFound)
    ensures Advance(st, AddressRow(u, k, email), row).next == End(NotFound)
  {
  }

  /** The reply when another user has taken the address. */
  lemma AddressIsTaken(st: Store, u: nat, k: nat, row: nat, email: string, v: nat, a: nat)
    requires UniqueRows(st.world.people) && HasEmail(st.world.people, email, v) && v != u
    requires u in st.world.people.users && IsAffiliateOf(st.world.people, u, a)
    ensures Advance(st, AddressRow(u, k, email), row).next == End(Rejected)
  {
  }

  /** The last call of a creation is rejected iff the address has been taken or the referrer is gone. */
  lemma CreationIsRejectedIff(st: Store, task: Task, row: nat)
    requires task.CreateRow?
    ensures Advance(st, task, row).next.End? && Advance(st, task, row).next.reply in {Done, Rejected}
    ensures Advance(st, task, row).next.reply == Rejected <==>
      AddressTaken(st.world.people, task.email) || !ReferrerExists(st.world.people, task.referrer)
  {
  }
}
