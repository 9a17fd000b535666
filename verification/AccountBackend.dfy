/** The account and user services as an object that updates the local tables and Keycloak in place.
    Each request is proved against the steps of module Accounts that the other results are about. */
module AccountBackend {
  import opened Common
  import opened Schema
  import opened Accounts
  import opened AccountInvariants
  import opened Referrals
  import opened Tokens

  /** A request that started in `st` as `task`, made at most `calls` calls and then failed if it had not
      ended, left `st'` and replied `reply`. */
  ghost predicate Ran(st: Store, task: Task, row: nat, calls: nat, st': Store, reply: Reply) {
    var run := RunFor(st, task, row, calls);
    st' == run.store && reply == if run.next.End? then run.next.reply else RemoteFailure
  }

  /** Whatever request ran and wherever it failed, both stores stay consistent and no user gets a
      second token. */
  lemma RequestsKeepStores(st: Store, task: Task, row: nat, calls: nat, st': Store, reply: Reply)
    requires StateOk(st) && IsStart(task) && Ran(st, task, row, calls, st', reply)
    ensures StateOk(st') && TokensMove(st.world.people, st'.world.people)
  {
    hide StateOk, TokensMove, RunFor;
    assert AtomicStep(st, st');
    AtomicStepOk(st, st');
  }

  lemma StateIsUnique(st: Store)
    requires StateOk(st)
    ensures UniqueRows(st.world.people)
  {
  }

  /** `calls` remaining calls of `task` do what the whole request does. */
  ghost predicate Rest(st0: Store, start: Task, row: nat, all: nat, st: Store, task: Task, calls: nat) {
    RunFor(st0, start, row, all) == RunFor(st, task, row, calls)
  }

  lemma DeleteUserFrame(w: World, userId: nat)
    ensures var v := DeleteUser(w, userId);
      && v.queues == w.queues && v.now == w.now && v.people.nextUser == w.people.nextUser
      && v.people.nextAffiliate == w.people.nextAffiliate && v.people.nextToken == w.people.nextToken
  {
  }

  /** What happens to the people does not depend on the ledger. */
  lemma SamePeople(w: World, v: World, userId: nat)
    requires v.people == w.people
    ensures DeleteUser(v, userId).people == DeleteUser(w, userId).people
  {
  }

  class Backend {
    var users: map<nat, User>
    var affiliates: map<nat, Affiliate>
    var tokens: map<nat, Token>
    var audits: seq<nat>
    var nextUser: nat
    var nextAffiliate: nat
    var nextToken: nat
    var ledger: Ledger
    var queues: Queues
    var now: nat
    var kc: map<nat, KcUser>
    var nextKc: nat

    ghost function Tables(): People
      reads this
    {
      People(users, affiliates, tokens, audits, nextUser, nextAffiliate, nextToken)
    }

    ghost function State(): Store
      reads this
    {
      Store(World(Tables(), ledger, queues, now), kc, nextKc)
    }

    // -------------------------------------------------------------- queries

    method FindUserByEmail(email: string) returns (u: Option<nat>)
      requires UniqueRows(Tables())
      ensures u == UserByEmail(Tables(), email)
    {
      if exists x :: x in users && users[x].email == email {
        var x :| x in users && users[x].email == email;
        assert HasEmail(Tables(), email, x);
        u := Some(x);
      } else {
        u := None;
      }
    }

    method FindAffiliateOf(userId: nat) returns (a: Option<nat>)
      requires UniqueRows(Tables())
      ensures a == AffiliateOf(Tables(), userId)
    {
      if exists x :: x in affiliates && affiliates[x].userId == userId {
        var x :| x in affiliates && affiliates[x].userId == userId;
        assert IsAffiliateOf(Tables(), userId, x);
        a := Some(x);
      } else {
        a := None;
      }
    }

    predicate Matches(email: string, t: nat)
      reads this
    {
      t in tokens && tokens[t].userId in users && users[tokens[t].userId].email == email
    }

    method FindNewestToken(email: string) returns (t: Option<nat>)
      ensures t == NewestTokenFor(Tables(), email)
    {
      hide NewestTokenFor;
      ghost var newest := NewestTokenFor(Tables(), email);
      assert forall y: nat :: Matches(email, y) <==> IsTokenFor(Tables(), email, y);
      if exists x :: x in tokens && Matches(email, x) {
        var x :| x in tokens && Matches(email, x) && forall y :: y in tokens && Matches(email, y) ==> y <= x;
        assert IsNewestTokenFor(Tables(), email, x);
        t := Some(x);
      } else {
        t := None;
      }
    }

    // -------------------------------------------------------------- creating accounts

    /** The nested insert of the create flows; false when a unique or foreign key is violated. */
    method InsertAccount(kind: Kind, email: string, kcId: nat, referrer: Option<nat>) returns (ok: bool)
      requires UniqueRows(Tables())
      modifies this`users, this`nextUser, this`affiliates, this`nextAffiliate, this`tokens, this`nextToken
      ensures ok <==> UserByEmail(old(Tables()), email).None? && ReferrerExists(old(Tables()), referrer)
      ensures Tables() == if ok then AddUser(old(Tables()), kind, email, kcId, referrer, now) else old(Tables())
    {
      hide UniqueRows;
      var taken := FindUserByEmail(email);
      ok := taken.None? && (referrer.Some? ==> referrer.value in affiliates);
      if !ok {
        return;
      }
      hide UserByEmail;
      var u := nextUser;
      users := users[u := User(email, kcId)];
      nextUser := u + 1;
      if kind.AffiliateAccount? {
        affiliates := affiliates[nextAffiliate := Affiliate(u, kind.code, false, referrer)];
        nextAffiliate := nextAffiliate + 1;
        CreateToken(Token(u, kind.secret, now + DAY_MS));
      }
    }

    /** `createAffiliateUser`. */
    method CreateAffiliateUser(kind: Kind, email: string, password: string, row: nat, calls: nat) returns (reply: Reply)
      requires kind.AffiliateAccount? && UniqueRows(Tables())
      modifies this
      ensures Ran(old(State()), CreateStart(kind, email, password), row, calls, State(), reply)
    {
      hide UniqueRows, VerifyStep, TokenStep, DeleteStep, AddressStep;
      reply := RemoteFailure;
      ghost var st, start := State(), CreateStart(kind, email, password);
      if calls == 0 {
        return;
      }
      var kcId := nextKc;
      kc := kc[kcId := KcUser(email, false, password)];
      nextKc := nextKc + 1;
      assert Rest(st, start, row, calls, State(), CreateLookup(kind, email, kcId), calls - 1);
      if calls == 1 {
        return;
      }
      var referrer: Option<nat> := None;
      if kind.referrerCode.Some? && row in affiliates && affiliates[row].code == kind.referrerCode.value {
        referrer := Some(row);
      }
      assert Rest(st, start, row, calls, State(), CreateRow(kind, email, kcId, referrer), calls - 2);
      if calls == 2 {
        return;
      }
      var ok := InsertAccount(kind, email, kcId, referrer);
      reply := if ok then Done else Rejected;
    }

    /** `createSellerUser` and `createPlatformManager`, whose address counts as verified. */
    method CreateVerifiedUser(email: string, password: string, row: nat, calls: nat) returns (reply: Reply)
      requires UniqueRows(Tables())
      modifies this
      ensures Ran(old(State()), CreateStart(PlainAccount, email, password), row, calls, State(), reply)
    {
      hide UniqueRows, VerifyStep, TokenStep, DeleteStep, AddressStep;
      reply := RemoteFailure;
      ghost var st, start := State(), CreateStart(PlainAccount, email, password);
      if calls == 0 {
        return;
      }
      var kcId := nextKc;
      kc := kc[kcId := KcUser(email, true, password)];
      nextKc := nextKc + 1;
      assert Rest(st, start, row, calls, State(), CreateRow(PlainAccount, email, kcId, None), calls - 1);
      if calls == 1 {
        return;
      }
      var ok := InsertAccount(PlainAccount, email, kcId, None);
      reply := if ok then Done else Rejected;
    }

    // -------------------------------------------------------------- verifying

    method VerifyAccount(email: string, secret: string, row: nat, calls: nat) returns (reply: Reply)
      requires UniqueRows(Tables())
      modifies this
      ensures Ran(old(State()), VerifyStart(email, secret), row, calls, State(), reply)
    {
      hide UserByEmail, AffiliateOf, UniqueRows, CreateStep, TokenStep, DeleteStep, AddressStep;
      reply := RemoteFailure;
      ghost var st, start := State(), VerifyStart(email, secret);
      if calls == 0 {
        return;
      }
      var user := FindUserByEmail(email);
      if user.None? {
        return TypeError;
      }
      var u := user.value;
      var affiliate := FindAffiliateOf(u);
      if affiliate.None? {
        return TypeError;
      }
      var a := affiliate.value;
      if affiliates[a].active {
        return Done;
      }
      var kcId := users[u].kcId;
      assert Rest(st, start, row, calls, State(), VerifyCheck(email, secret, u, kcId), calls - 1);
      if calls == 1 {
        return;
      }
      if row !in tokens || tokens[row].userId !in users || users[tokens[row].userId].email != email {
        return BadRequest;
      }
      if tokens[row].expiresAt < now {
        return BadRequest;
      }
      if tokens[row].secret != secret {
        return BadRequest;
      }
      assert Rest(st, start, row, calls, State(), VerifyRemote(u, kcId), calls - 2);
      if calls == 2 || kcId !in kc {
        return;
      }
      kc := kc[kcId := kc[kcId].(emailVerified := true)];
      assert Rest(st, start, row, calls, State(), VerifyRow(u, kcId), calls - 3);
      if calls == 3 {
        return;
      }
      affiliates := affiliates[a := affiliates[a].(active := true)];
      reply := Done;
    }

    // -------------------------------------------------------------- tokens

    method DeleteTokensOf(userId: nat)
      modifies this`tokens
      ensures Tables() == WithoutTokensOf(old(Tables()), userId)
    {
      tokens := map t | t in tokens && tokens[t].userId != userId :: tokens[t];
    }

    method CreateToken(token: Token)
      modifies this`tokens, this`nextToken
      ensures Tables() == AddToken(old(Tables()), token)
    {
      tokens := tokens[nextToken := token];
      nextToken := nextToken + 1;
    }

    method ReplaceTokens(userId: nat, token: Token)
      modifies this`tokens, this`nextToken
      ensures Tables() == AddToken(WithoutTokensOf(old(Tables()), userId), token)
    {
      DeleteTokensOf(userId);
      CreateToken(token);
    }

    method SendResetPasswordToken(email: string, secret: string, row: nat, calls: nat) returns (reply: Reply)
      requires UniqueRows(Tables())
      modifies this
      ensures Ran(old(State()), ResetStart(email, secret), row, calls, State(), reply)
    {
      hide UserByEmail, AffiliateOf, UniqueRows, CreateStep, VerifyStep, DeleteStep, AddressStep;
      reply := RemoteFailure;
      ghost var st, start := State(), ResetStart(email, secret);
      if calls == 0 {
        return;
      }
      var user := FindUserByEmail(email);
      if user.None? {
        return BadRequest;
      }
      var u := user.value;
      assert Rest(st, start, row, calls, State(), ResetIssue(u, secret), calls - 1);
      if calls == 1 {
        return;
      }
      assert u in users;
      ReplaceTokens(u, Token(u, secret, now + QUARTER_HOUR_MS));
      reply := Done;
    }

    method ConfirmPasswordReset(email: string, secret: string, password: string, row: nat, calls: nat) returns (reply: Reply)
      modifies this`kc
      ensures Ran(old(State()), ConfirmStart(email, secret, password), row, calls, State(), reply)
    {
      hide CreateStep, VerifyStep, DeleteStep, AddressStep;
      reply := RemoteFailure;
      ghost var st, start := State(), ConfirmStart(email, secret, password);
      if calls == 0 {
        return;
      }
      var newest := FindNewestToken(email);
      if newest.None? {
        return TypeError;
      }
      var token := tokens[newest.value];
      if token.expiresAt < now {
        return BadRequest;
      }
      if token.secret != secret {
        return BadRequest;
      }
      var kcId := users[token.userId].kcId;
      assert Rest(st, start, row, calls, State(), ConfirmRemote(kcId, password), calls - 1);
      if calls == 1 || kcId !in kc {
        return;
      }
      kc := kc[kcId := kc[kcId].(password := password)];
      reply := Done;
    }

    method ResendAffiliateVerificationLink(userId: nat, secret: string, row: nat, calls: nat) returns (reply: Reply)
      modifies this`tokens, this`nextToken
      ensures Ran(old(State()), ResendStart(userId, secret), row, calls, State(), reply)
    {
      hide CreateStep, VerifyStep, DeleteStep, AddressStep;
      reply := RemoteFailure;
      ghost var st, start := State(), ResendStart(userId, secret);
      if calls == 0 {
        return;
      }
      DeleteTokensOf(userId);
      assert Rest(st, start, row, calls, State(), ResendIssue(userId, secret), calls - 1);
      if calls == 1 {
        return;
      }
      if userId !in users {
        return Rejected;
      }
      CreateToken(Token(userId, secret, now + DAY_MS));
      reply := Done;
    }

    // -------------------------------------------------------------- users

    /** The rows of a deleted user: its own, its affiliate and its tokens go, and affiliates it had
        referred lose their referrer. */
    method DeletePeopleOf(userId: nat)
      modifies this`users, this`affiliates, this`tokens, this`audits
      ensures Tables() == DeleteUser(old(State()).world, userId).people
    {
      var gone := set a | a in affiliates && affiliates[a].userId == userId;
      assert gone == AffiliatesOf(Tables(), userId);
      users := users - {userId};
      affiliates := map a | a in affiliates && a !in gone ::
        affiliates[a].(referredBy := Without(affiliates[a].referredBy, gone));
      tokens := map t | t in tokens && tokens[t].userId != userId :: tokens[t];
      audits := audits + [userId];
    }

    /** References to the user and to its affiliate become null. */
    method ClearReferences(userId: nat)
      modifies this`ledger
      ensures ledger == DeleteUser(old(State()).world, userId).ledger
    {
      var gone := set a | a in affiliates && affiliates[a].userId == userId;
      assert gone == AffiliatesOf(Tables(), userId);
      var trxs := map t | t in ledger.trxs ::
        ledger.trxs[t].(initiatedBy := Without(ledger.trxs[t].initiatedBy, {userId}),
                        referredBy := Without(ledger.trxs[t].referredBy, {userId}));
      var subs := map s | s in ledger.subs ::
        ledger.subs[s].(affiliateId := Without(ledger.subs[s].affiliateId, gone));
      ledger := ledger.(trxs := trxs, subs := subs);
    }

    /** `user.delete` and `auditLog.create` in one transaction; the database does the cascade. */
    method DeleteRowOf(userId: nat)
      requires userId in users
      modifies this
      ensures State() == old(State()).(world := DeleteUser(old(State()).world, userId))
    {
      hide DeleteUser;
      ghost var w := State().world;
      ClearReferences(userId);
      DeletePeopleOf(userId);
      SamePeople(w, State().world.(people := w.people), userId);
      DeleteUserFrame(w, userId);
    }

    method DeleteUserAccount(userId: nat, password: string, row: nat, calls: nat) returns (reply: Reply)
      modifies this
      ensures Ran(old(State()), DeleteStart(userId, password), row, calls, State(), reply)
    {
      hide DeleteUser, CreateStep, VerifyStep, TokenStep, AddressStep;
      reply := RemoteFailure;
      ghost var st, start := State(), DeleteStart(userId, password);
      if calls == 0 {
        return;
      }
      if userId !in users {
        return NotFound;
      }
      var kcId := users[userId].kcId;
      assert Rest(st, start, row, calls, State(), DeleteLogin(userId, kcId, password), calls - 1);
      if calls == 1 {
        return;
      }
      if kcId !in kc || kc[kcId].password != password {
        return BadRequest;
      }
      assert Rest(st, start, row, calls, State(), DeleteRow(userId, kcId), calls - 2);
      if calls == 2 {
        return;
      }
      DeleteRowOf(userId);
      assert Rest(st, start, row, calls, State(), DeleteLogout(kcId), calls - 3);
      if calls == 3 {
        return;
      }
      assert Rest(st, start, row, calls, State(), DeleteRemote(kcId), calls - 4);
      if calls == 4 {
        return;
      }
      kc := kc - {kcId};
      reply := Done;
    }

    /** `user.update` with a new address; false when another user has it. */
    method UpdateAddress(userId: nat, email: string) returns (ok: bool)
      requires userId in users && UniqueRows(Tables())
      modifies this`users
      ensures ok <==> UserByEmail(old(Tables()), email).None? || UserByEmail(old(Tables()), email) == Some(userId)
      ensures Tables() == if ok then WithAddress(old(Tables()), userId, email) else old(Tables())
    {
      hide UniqueRows, UserByEmail;
      var taken := FindUserByEmail(email);
      ok := taken.None? || taken == Some(userId);
      if ok {
        users := users[userId := users[userId].(email := email)];
      }
    }

    /** The two writes of `updateAffiliateUserInfo`: Keycloak first, then the row. */
    method WriteAddress(userId: nat, kcId: nat, email: string, row: nat, calls: nat) returns (reply: Reply)
      requires UniqueRows(Tables()) && userId in users && AffiliateOf(Tables(), userId).Some?
      modifies this`users, this`kc
      ensures Ran(old(State()), AddressRemote(userId, kcId, email), row, calls, State(), reply)
    {
      hide WithAddress, UserByEmail, AffiliateOf, UniqueRows, CreateStep, VerifyStep, TokenStep, DeleteStep;
      reply := RemoteFailure;
      ghost var st, start := State(), AddressRemote(userId, kcId, email);
      if calls == 0 || kcId !in kc {
        return;
      }
      kc := kc[kcId := kc[kcId].(email := email)];
      assert Rest(st, start, row, calls, State(), AddressRow(userId, kcId, email), calls - 1);
      if calls == 1 {
        return;
      }
      var ok := UpdateAddress(userId, email);
      reply := if ok then Done else Rejected;
    }

    /** `updateAffiliateUserInfo` with a new address. */
    method UpdateAffiliateUserInfo(userId: nat, email: string, row: nat, calls: nat) returns (reply: Reply)
      requires UniqueRows(Tables())
      modifies this`users, this`kc
      ensures Ran(old(State()), AddressRead(userId, email), row, calls, State(), reply)
    {
      hide UniqueRows, CreateStep, VerifyStep, TokenStep, DeleteStep;
      reply := RemoteFailure;
      ghost var st, start := State(), AddressRead(userId, email);
      if calls == 0 {
        return;
      }
      if userId !in users {
        return NotFound;
      }
      var affiliate := FindAffiliateOf(userId);
      if affiliate.None? {
        return TypeError;
      }
      var kcId := users[userId].kcId;
      assert Rest(st, start, row, calls, State(), AddressRemote(userId, kcId, email), calls - 1);
      reply := WriteAddress(userId, kcId, email, row, calls - 1);
    }

    /** `verifyUserEmailAndPassword` and then `updateAffiliateUserInfo`; the password is the caller's. */
    method UpdateUserEmail(callerKc: nat, password: string, userId: nat, email: string, row: nat, calls: nat)
      returns (reply: Reply)
      requires UniqueRows(Tables())
      modifies this`users, this`kc
      ensures Ran(old(State()), AddressStart(callerKc, password, userId, email), row, calls, State(), reply)
    {
      hide UserByEmail, AffiliateOf, UniqueRows, CreateStep, VerifyStep, TokenStep, DeleteStep;
      reply := RemoteFailure;
      ghost var st, start := State(), AddressStart(callerKc, password, userId, email);
      if calls == 0 {
        return;
      }
      var taken := FindUserByEmail(email);
      if taken.Some? {
        return BadRequest;
      }
      assert Rest(st, start, row, calls, State(), AddressLogin(callerKc, password, userId, email), calls - 1);
      if calls == 1 {
        return;
      }
      if callerKc !in kc || kc[callerKc].password != password {
        return BadRequest;
      }
      assert Rest(st, start, row, calls, State(), AddressRead(userId, email), calls - 2);
      reply := UpdateAffiliateUserInfo(userId, email, row, calls - 2);
    }

    /** Every request keeps both stores consistent, wherever it fails. */
    method Dispatch(start: Task, row: nat, calls: nat) returns (reply: Reply)
      requires IsStart(start) && StateOk(State())
      modifies this
      ensures Ran(old(State()), start, row, calls, State(), reply)
      ensures StateOk(State()) && TokensMove(old(Tables()), Tables())
    {
      hide Ran, StateOk, TokensMove;
      ghost var st := State();
      assert UniqueRows(Tables()) by { StateIsUnique(st); }
      match start {
        case CreateStart(kind, email, password) =>
          if kind.AffiliateAccount? {
            reply := CreateAffiliateUser(kind, email, password, row, calls);
          } else {
            reply := CreateVerifiedUser(email, password, row, calls);
          }
        case VerifyStart(email, secret) => reply := VerifyAccount(email, secret, row, calls);
        case ResetStart(email, secret) => reply := SendResetPasswordToken(email, secret, row, calls);
        case ConfirmStart(email, secret, password) => reply := ConfirmPasswordReset(email, secret, password, row, calls);
        case ResendStart(userId, secret) => reply := ResendAffiliateVerificationLink(userId, secret, row, calls);
        case DeleteStart(userId, password) => reply := DeleteUserAccount(userId, password, row, calls);
        case AddressStart(callerKc, password, userId, email) =>
          reply := UpdateUserEmail(callerKc, password, userId, email, row, calls);
      }
      RequestsKeepStores(st, start, row, calls, State(), reply);
    }

    /** The counts of `fetchAffiliateReferredUsers`: each is what it is called, and they add up. */
    method FetchAffiliateReferredUsers(affiliateId: nat) returns (total: nat, unverified: nat, verified: nat)
      ensures total == |Referred(Tables(), affiliateId)| && verified + unverified == total
      ensures verified == |ReferredWith(Tables(), affiliateId, true)|
    {
      total := |set b | b in affiliates && affiliates[b].referredBy == Some(affiliateId)|;
      unverified := |set b | b in affiliates && affiliates[b].referredBy == Some(affiliateId) && !affiliates[b].active|;
      verified := |set b | b in affiliates && affiliates[b].referredBy == Some(affiliateId) && affiliates[b].active|;
      VerifiedAndUnverified(Tables(), affiliateId);
      assert (set b | b in affiliates && affiliates[b].referredBy == Some(affiliateId)) == Referred(Tables(), affiliateId);
      assert (set b | b in affiliates && affiliates[b].referredBy == Some(affiliateId) && !affiliates[b].active) ==
        ReferredWith(Tables(), affiliateId, false);
      assert (set b | b in affiliates && affiliates[b].referredBy == Some(affiliateId) && affiliates[b].active) ==
        ReferredWith(Tables(), affiliateId, true);
    }
  }
}
