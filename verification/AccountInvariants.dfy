/** What every step of every account request keeps, whatever other requests are halfway through. */
module AccountInvariants {
  import opened Common
  import opened Schema
  import opened Accounts

  // ---------------------------------------------------------------- the people tables

  /** Every column that names a user or an affiliate names an existing row. */
  ghost predicate OwnersExist(p: People) {
    && (forall a :: a in p.affiliates ==> p.affiliates[a].userId in p.users && ReferrerExists(p, p.affiliates[a].referredBy))
    && (forall t :: t in p.tokens ==> p.tokens[t].userId in p.users)
  }

  /** A referrer registered before the affiliates it referred. */
  ghost predicate ReferrersAreOlder(p: People) {
    forall a :: a in p.affiliates && p.affiliates[a].referredBy.Some? ==> p.affiliates[a].referredBy.value < a
  }

  ghost predicate IdsBelow(p: People) {
    && (forall u :: u in p.users ==> u < p.nextUser)
    && (forall a :: a in p.affiliates ==> a < p.nextAffiliate)
    && (forall t :: t in p.tokens ==> t < p.nextToken)
  }

  /** The audit log names each deleted user once and no live one. */
  ghost predicate AuditsOk(p: People) {
    && (forall i :: 0 <= i < |p.audits| ==> p.audits[i] < p.nextUser && p.audits[i] !in p.users)
    && (forall i, j :: 0 <= i < j < |p.audits| ==> p.audits[i] != p.audits[j])
  }

  ghost predicate PeopleOk(p: People) {
    OwnersExist(p) && ReferrersAreOlder(p) && UniqueRows(p) && IdsBelow(p) && AuditsOk(p)
  }

  lemma AddTokenKeeps(p: People, token: Token)
    requires PeopleOk(p) && token.userId in p.users
    ensures PeopleOk(AddToken(p, token))
  {
  }

  lemma WithoutTokensKeeps(p: People, userId: nat)
    requires PeopleOk(p)
    ensures PeopleOk(WithoutTokensOf(p, userId))
  {
  }

  lemma AddPlainUserKeeps(p: People, email: string, kcId: nat)
    requires PeopleOk(p) && (forall u :: !HasEmail(p, email, u))
    ensures PeopleOk(InsertUser(p, User(email, kcId)))
  {
    forall v | v in p.users ensures p.users[v].email != email {
      assert !HasEmail(p, email, v);
    }
  }

  lemma AddAffiliateUnique(p: People, a: Affiliate)
    requires UniqueRows(p) && IdsBelow(p) && forall b :: b in p.affiliates ==> p.affiliates[b].userId != a.userId
    ensures UniqueRows(InsertAffiliate(p, a)) && IdsBelow(InsertAffiliate(p, a))
  {
  }

  lemma AddAffiliateKeeps(p: People, a: Affiliate)
    requires PeopleOk(p) && a.userId in p.users && ReferrerExists(p, a.referredBy)
    requires forall b :: b in p.affiliates ==> p.affiliates[b].userId != a.userId
    ensures PeopleOk(InsertAffiliate(p, a))
  {
    hide AuditsOk, UniqueRows;
    AuditsKeep(p, InsertAffiliate(p, a));
    AddAffiliateUnique(p, a);
  }

  lemma AuditsKeep(p: People, q: People)
    requires AuditsOk(p) && q.audits == p.audits && q.users == p.users && q.nextUser == p.nextUser
    ensures AuditsOk(q)
  {
  }

  lemma NextUserOwnsNothing(p: People)
    requires PeopleOk(p)
    ensures forall b :: b in p.affiliates ==> p.affiliates[b].userId != p.nextUser
  {
  }

  lemma AddUserKeeps(p: People, kind: Kind, email: string, kcId: nat, referrer: Option<nat>, now: int)
    requires PeopleOk(p) && (forall u :: !HasEmail(p, email, u)) && ReferrerExists(p, referrer)
    ensures PeopleOk(AddUser(p, kind, email, kcId, referrer, now))
  {
    hide PeopleOk;
    AddPlainUserKeeps(p, email, kcId);
    NextUserOwnsNothing(p);
    if kind.AffiliateAccount? {
      var u, q := p.nextUser, InsertUser(p, User(email, kcId));
      var a := Affiliate(u, kind.code, false, referrer);
      AddAffiliateKeeps(q, a);
      AddTokenKeeps(InsertAffiliate(q, a), Token(u, kind.secret, now + DAY_MS));
    }
  }

  lemma DeleteUserKeepsOwners(w: World, userId: nat)
    requires OwnersExist(w.people)
    ensures OwnersExist(DeleteUser(w, userId).people)
  {
  }

  lemma DeleteUserKeepsUnique(w: World, userId: nat)
    requires UniqueRows(w.people)
    ensures UniqueRows(DeleteUser(w, userId).people)
  {
  }

  lemma DeleteUserKeepsAudits(w: World, userId: nat)
    requires AuditsOk(w.people) && userId in w.people.users && userId < w.people.nextUser
    ensures AuditsOk(DeleteUser(w, userId).people)
  {
  }

  lemma DeleteUserKeepsPeople(w: World, userId: nat)
    requires PeopleOk(w.people) && userId in w.people.users
    ensures PeopleOk(DeleteUser(w, userId).people)
  {
    hide OwnersExist, UniqueRows, AuditsOk;
    DeleteUserKeepsOwners(w, userId);
    DeleteUserKeepsUnique(w, userId);
    DeleteUserKeepsAudits(w, userId);
  }

  // ---------------------------------------------------------------- the two stores

  /** The Keycloak user a request holds. */
  function HeldKc(task: Task): Option<nat> {
    match task
    case CreateLookup(_, _, k) => Some(k)
    case CreateRow(_, _, k, _) => Some(k)
    case VerifyCheck(_, _, _, k) => Some(k)
    case VerifyRemote(_, k) => Some(k)
    case VerifyRow(_, k) => Some(k)
    case ConfirmRemote(k, _) => Some(k)
    case DeleteLogin(_, k, _) => Some(k)
    case DeleteRow(_, k) => Some(k)
    case DeleteLogout(k) => Some(k)
    case DeleteRemote(k) => Some(k)
    case AddressRemote(_, k, _) => Some(k)
    case AddressRow(_, k, _) => Some(k)
    case _ => None
  }

  /** The local user a request has read together with its Keycloak user. */
  function HeldUser(task: Task): Option<nat> {
    match task
    case VerifyCheck(_, _, u, _) => Some(u)
    case VerifyRemote(u, _) => Some(u)
    case VerifyRow(u, _) => Some(u)
    case DeleteLogin(u, _, _) => Some(u)
    case DeleteRow(u, _) => Some(u)
    case AddressRemote(u, _, _) => Some(u)
    case AddressRow(u, _, _) => Some(u)
    case _ => None
  }

  predicate IsCreating(task: Task) {
    task.CreateLookup? || task.CreateRow?
  }

  predicate IsRemoving(task: Task) {
    task.DeleteLogout? || task.DeleteRemote?
  }

  ghost predicate NobodyHas(p: People, k: nat) {
    forall u :: u in p.users ==> p.users[u].kcId != k
  }

  ghost predicate IsVerified(st: Store, k: nat) {
    k in st.kc && st.kc[k].emailVerified
  }

  /** Every local user exists in Keycloak, each in a place of its own, and active affiliates have
      the verified flag there. */
  ghost predicate StoreOk(st: Store) {
    var p := st.world.people;
    && (forall u :: u in p.users ==> p.users[u].kcId in st.kc)
    && (forall u, v :: u in p.users && v in p.users && p.users[u].kcId == p.users[v].kcId ==> u == v)
    && (forall k :: k in st.kc ==> k < st.nextKc)
    && (forall a :: a in p.affiliates && p.affiliates[a].active && p.affiliates[a].userId in p.users ==>
         IsVerified(st, p.users[p.affiliates[a].userId].kcId))
  }

  /** What a halfway request may rely on when it is resumed. */
  ghost predicate TaskOk(st: Store, task: Task) {
    var p := st.world.people;
    && (HeldKc(task).Some? ==> HeldKc(task).value < st.nextKc)
    && (HeldUser(task).Some? ==> HeldUser(task).value < p.nextUser)
    && (IsCreating(task) ==> task.kcId in st.kc && NobodyHas(p, task.kcId))
    && (IsRemoving(task) ==> NobodyHas(p, task.kcId))
    && (HeldUser(task).Some? && HeldUser(task).value in p.users ==>
         HeldKc(task) == Some(p.users[HeldUser(task).value].kcId))
    && (task.VerifyRow? && task.userId in p.users ==> IsVerified(st, task.kcId))
  }

  /** Two halfway requests do not get in each other's way: nobody else holds the Keycloak user of an
      account that is being created. */
  ghost predicate Apart(task: Task, other: Task) {
    IsCreating(task) || IsCreating(other) ==> HeldKc(task).None? || HeldKc(task) != HeldKc(other)
  }

  // ---------------------------------------------------------------- one step

  /** How a step may change what other requests rely on. */
  ghost predicate Gentle(st: Store, st': Store, task: Task) {
    var p, p' := st.world.people, st'.world.people;
    && st.nextKc <= st'.nextKc && p.nextUser <= p'.nextUser
    && (forall k :: k in st.kc && k !in st'.kc ==> IsRemoving(task) && HeldKc(task) == Some(k))
    && (forall k :: IsVerified(st, k) && k in st'.kc ==> IsVerified(st', k))
    && (forall u :: u in p'.users && u in p.users ==> p'.users[u].kcId == p.users[u].kcId)
    && (forall u :: u in p'.users && u !in p.users ==>
         u >= p.nextUser && IsCreating(task) && HeldKc(task) == Some(p'.users[u].kcId))
  }

  /** A step gives a Keycloak user away only if its own request holds it. */
  lemma OthersKeepApart(st: Store, st': Store, task: Task, other: Task)
    requires StoreOk(st) && TaskOk(st, task) && TaskOk(st, other) && Apart(task, other) && Gentle(st, st', task)
    ensures IsCreating(other) ==> other.kcId in st'.kc
    ensures IsCreating(other) || IsRemoving(other) ==> NobodyHas(st'.world.people, other.kcId)
  {
    if IsCreating(other) || IsRemoving(other) {
      forall u | u in st'.world.people.users ensures st'.world.people.users[u].kcId != other.kcId {
        assert HeldKc(other) == Some(other.kcId);
      }
    }
  }

  lemma OthersKeepUsers(st: Store, st': Store, task: Task, other: Task)
    requires StoreOk(st) && TaskOk(st, task) && TaskOk(st, other) && Gentle(st, st', task)
    requires HeldUser(other).Some? && HeldUser(other).value in st'.world.people.users
    ensures HeldUser(other).value in st.world.people.users
    ensures st'.world.people.users[HeldUser(other).value].kcId == st.world.people.users[HeldUser(other).value].kcId
    ensures other.VerifyRow? ==> IsVerified(st', other.kcId)
  {
  }

  lemma OthersStayOk(st: Store, st': Store, task: Task, other: Task)
    requires StoreOk(st) && TaskOk(st, task) && TaskOk(st, other) && Apart(task, other) && Gentle(st, st', task)
    ensures TaskOk(st', other)
  {
    OthersKeepApart(st, st', task, other);
    var held := HeldUser(other);
    if held.Some? && held.value in st'.world.people.users {
      OthersKeepUsers(st, st', task, other);
    }
    hide StoreOk, NobodyHas, IsVerified, Apart;
  }

  /** `next` is all right after the step, and keeps apart from whatever `task` was apart from. */
  ghost predicate NextOk(st: Store, st': Store, task: Task, next: Next) {
    next.Goto? ==>
      && TaskOk(st', next.task)
      && (HeldKc(next.task).None? || HeldKc(next.task) == HeldKc(task) || HeldKc(next.task).value == st.nextKc ||
          !NobodyHas(st.world.people, HeldKc(next.task).value))
      && (IsCreating(next.task) ==>
           (IsCreating(task) && HeldKc(next.task) == HeldKc(task)) || HeldKc(next.task) == Some(st.nextKc))
  }

  lemma NextStaysApart(st: Store, st': Store, task: Task, next: Task, other: Task)
    requires TaskOk(st, other) && Apart(task, other) && NextOk(st, st', task, Goto(next))
    ensures Apart(next, other)
  {
  }

  ghost predicate StepOk(st: Store, task: Task, step: Step) {
    StoreOk(step.store) && PeopleOk(step.store.world.people) && Gentle(st, step.store, task) &&
    NextOk(st, step.store, task, step.next)
  }

  lemma UnchangedOk(st: Store, task: Task, next: Next)
    requires StoreOk(st) && PeopleOk(st.world.people) && NextOk(st, st, task, next)
    ensures StepOk(st, task, Step(st, next))
  {
    hide StoreOk, PeopleOk, NextOk;
  }

  /** Only Keycloak changes, and keeps its users. */
  lemma KeycloakStepOk(st: Store, st': Store, task: Task, next: Next)
    requires StoreOk(st) && PeopleOk(st.world.people) && NextOk(st, st', task, next)
    requires st'.world == st.world && st.nextKc <= st'.nextKc
    requires forall k :: k in st'.kc ==> k < st'.nextKc
    requires forall k :: k in st.kc ==> k in st'.kc && (st.kc[k].emailVerified ==> st'.kc[k].emailVerified)
    ensures StepOk(st, task, Step(st', next))
  {
    hide PeopleOk, NextOk;
  }

  /** Only tokens change. */
  lemma TokensStepOk(st: Store, p': People, task: Task, next: Next)
    requires StoreOk(st) && PeopleOk(p')
    requires p'.users == st.world.people.users && p'.affiliates == st.world.people.affiliates
    requires p'.nextUser == st.world.people.nextUser
    requires NextOk(st, st.(world := st.world.(people := p')), task, next)
    ensures StepOk(st, task, Step(st.(world := st.world.(people := p')), next))
  {
    hide PeopleOk, NextOk;
  }

  lemma CreateRowOk(st: Store, task: Task)
    requires task.CreateRow? && StoreOk(st) && PeopleOk(st.world.people) && TaskOk(st, task)
    requires UserByEmail(st.world.people, task.email).None? && ReferrerExists(st.world.people, task.referrer)
    ensures StepOk(st, task, CreateStep(st, task, 0))
  {
    var p := st.world.people;
    var p' := AddUser(p, task.kind, task.email, task.kcId, task.referrer, st.world.now);
    AddUserKeeps(p, task.kind, task.email, task.kcId, task.referrer, st.world.now);
    assert p'.users == p.users[p.nextUser := User(task.email, task.kcId)];
    assert forall a :: a in p'.affiliates && p'.affiliates[a].active ==>
      a in p.affiliates && p'.affiliates[a] == p.affiliates[a];
    var next: Next := End(Done);
    assert NextOk(st, st.(world := st.world.(people := p')), task, next);
    hide PeopleOk, TaskOk, NextOk;
    AddedStoreOk(st, p', task);
  }

  lemma AddedStoreOk(st: Store, p': People, task: Task)
    requires StoreOk(st) && IdsBelow(st.world.people) && OwnersExist(st.world.people)
    requires task.CreateRow? && task.kcId in st.kc && NobodyHas(st.world.people, task.kcId)
    requires p'.users == st.world.people.users[st.world.people.nextUser := User(task.email, task.kcId)]
    requires p'.nextUser == st.world.people.nextUser + 1
    requires forall a :: a in p'.affiliates && p'.affiliates[a].active ==>
      a in st.world.people.affiliates && p'.affiliates[a] == st.world.people.affiliates[a]
    ensures StoreOk(st.(world := st.world.(people := p'))) && Gentle(st, st.(world := st.world.(people := p')), task)
  {
  }

  lemma CreateStepOk(st: Store, task: Task, row: nat)
    requires task.CreateStart? || task.CreateLookup? || task.CreateRow?
    requires StoreOk(st) && PeopleOk(st.world.people) && TaskOk(st, task)
    ensures StepOk(st, task, CreateStep(st, task, row))
  {
    hide PeopleOk, StepOk, AddUser;
    var step := CreateStep(st, task, row);
    match task
    case CreateStart(kind, email, password) =>
      assert NextOk(st, step.store, task, step.next) by {
        assert step.store.world == st.world && st.nextKc !in st.kc;
      }
      KeycloakStepOk(st, step.store, task, step.next);
    case CreateLookup(_, _, _) => UnchangedOk(st, task, step.next);
    case CreateRow(kind, email, k, referrer) =>
      if step.next == End(Done) {
        CreateRowOk(st, task);
      } else {
        UnchangedOk(st, task, step.next);
      }
  }

  lemma ActivatedPeopleOk(p: People, a: nat)
    requires PeopleOk(p) && a in p.affiliates
    ensures PeopleOk(Activated(p, a))
  {
    hide AuditsOk;
    AuditsKeep(p, Activated(p, a));
  }

  lemma ActivatedStoreOk(st: Store, task: Task, a: nat)
    requires task.VerifyRow? && StoreOk(st) && TaskOk(st, task) && IsAffiliateOf(st.world.people, task.userId, a)
    ensures var st' := st.(world := st.world.(people := Activated(st.world.people, a)));
      StoreOk(st') && Gentle(st, st', task)
  {
  }

  lemma ActivateOk(st: Store, task: Task, a: nat)
    requires task.VerifyRow? && StoreOk(st) && PeopleOk(st.world.people) && TaskOk(st, task)
    requires IsAffiliateOf(st.world.people, task.userId, a)
    ensures StepOk(st, task, Step(st.(world := st.world.(people := Activated(st.world.people, a))), End(Done)))
  {
    ActivatedPeopleOk(st.world.people, a);
    ActivatedStoreOk(st, task, a);
    hide StoreOk, PeopleOk, Gentle, TaskOk;
  }

  lemma VerifyStepOk(st: Store, task: Task, row: nat)
    requires task.VerifyStart? || task.VerifyCheck? || task.VerifyRemote? || task.VerifyRow?
    requires StoreOk(st) && PeopleOk(st.world.people) && TaskOk(st, task)
    ensures StepOk(st, task, VerifyStep(st, task, row))
  {
    hide StepOk, OwnersExist, ReferrersAreOlder, UniqueRows, AuditsOk;
    var step := VerifyStep(st, task, row);
    match task
    case VerifyStart(_, _) => UnchangedOk(st, task, step.next);
    case VerifyCheck(_, _, _, _) => UnchangedOk(st, task, step.next);
    case VerifyRemote(u, k) =>
      if k in st.kc {
        KeycloakStepOk(st, step.store, task, step.next);
      } else {
        UnchangedOk(st, task, step.next);
      }
    case VerifyRow(u, k) =>
      match AffiliateOf(st.world.people, u)
      case None => UnchangedOk(st, task, step.next);
      case Some(a) => ActivateOk(st, task, a);
  }

  lemma KeycloakIdsBelow(st: Store)
    requires StoreOk(st)
    ensures forall k :: k in st.kc ==> k < st.nextKc
  {
  }

  lemma TokenReadOk(st: Store, task: Task)
    requires task.ResetStart? || task.ConfirmStart?
    requires StoreOk(st) && PeopleOk(st.world.people) && TaskOk(st, task)
    ensures StepOk(st, task, TokenStep(st, task))
  {
    hide StepOk, PeopleOk;
    UnchangedOk(st, task, TokenStep(st, task).next);
  }

  lemma TokenStepOk(st: Store, task: Task)
    requires task.ResetStart? || task.ResetIssue? || task.ConfirmStart? || task.ConfirmRemote? ||
      task.ResendStart? || task.ResendIssue?
    requires StoreOk(st) && PeopleOk(st.world.people) && TaskOk(st, task)
    ensures StepOk(st, task, TokenStep(st, task))
  {
    hide StepOk, PeopleOk, StoreOk, AddToken, WithoutTokensOf;
    KeycloakIdsBelow(st);
    var p := st.world.people;
    var step := TokenStep(st, task);
    match task
    case ResetIssue(u, secret) =>
      if u in p.users {
        WithoutTokensKeeps(p, u);
        TokenRowsOnly(p, u, Token(u, secret, st.world.now + QUARTER_HOUR_MS));
        AddTokenKeeps(WithoutTokensOf(p, u), Token(u, secret, st.world.now + QUARTER_HOUR_MS));
        TokensStepOk(st, step.store.world.people, task, step.next);
      } else {
        UnchangedOk(st, task, step.next);
      }
    case ResendStart(u, secret) =>
      WithoutTokensKeeps(p, u);
      TokenRowsOnly(p, u, Token(u, secret, 0));
      TokensStepOk(st, step.store.world.people, task, step.next);
    case ResendIssue(u, secret) =>
      if u in p.users {
        AddTokenKeeps(p, Token(u, secret, st.world.now + DAY_MS));
        TokenRowsOnly(p, u, Token(u, secret, st.world.now + DAY_MS));
        TokensStepOk(st, step.store.world.people, task, step.next);
      } else {
        UnchangedOk(st, task, step.next);
      }
    case ResetStart(_, _) => TokenReadOk(st, task);
    case ConfirmStart(_, _, _) => TokenReadOk(st, task);
    case ConfirmRemote(k, _) =>
      if k in st.kc {
        KeycloakStepOk(st, step.store, task, step.next);
      } else {
        UnchangedOk(st, task, step.next);
      }
  }

  lemma TokenRowsOnly(p: People, u: nat, token: Token)
    ensures var q := WithoutTokensOf(p, u); q == p.(tokens := q.tokens)
    ensures var q := AddToken(p, token); q == p.(tokens := q.tokens, nextToken := q.nextToken)
    ensures var q := AddToken(WithoutTokensOf(p, u), token); q == p.(tokens := q.tokens, nextToken := q.nextToken)
  {
  }

  lemma DeletedRows(w: World, userId: nat)
    ensures var p, p' := w.people, DeleteUser(w, userId).people;
      && p'.users == p.users - {userId} && p'.nextUser == p.nextUser
      && forall a :: a in p'.affiliates ==>
           && a in p.affiliates && p'.affiliates[a].userId == p.affiliates[a].userId
           && p'.affiliates[a].active == p.affiliates[a].active
  {
  }

  lemma DeletedGentle(st: Store, task: Task)
    requires task.DeleteRow? && task.userId in st.world.people.users && StoreOk(st) && TaskOk(st, task)
    ensures var st' := st.(world := DeleteUser(st.world, task.userId));
      Gentle(st, st', task) && NobodyHas(st'.world.people, task.kcId)
  {
    DeletedRows(st.world, task.userId);
    hide DeleteUser;
  }

  lemma DeletedStoreOk(st: Store, userId: nat)
    requires StoreOk(st)
    ensures StoreOk(st.(world := DeleteUser(st.world, userId)))
  {
    DeletedRows(st.world, userId);
    hide DeleteUser;
  }

  lemma DeleteStepOk(st: Store, task: Task)
    requires task.DeleteStart? || task.DeleteLogin? || task.DeleteRow? || task.DeleteLogout? || task.DeleteRemote?
    requires StoreOk(st) && PeopleOk(st.world.people) && TaskOk(st, task)
    ensures StepOk(st, task, DeleteStep(st, task))
  {
    hide StepOk, DeleteUser, OwnersExist, ReferrersAreOlder, UniqueRows, AuditsOk;
    var step := DeleteStep(st, task);
    if task.DeleteRow? && task.userId in st.world.people.users {
      DeletedRowOk(st, task);
    } else if task.DeleteRemote? && task.kcId in st.kc {
      RemovedOk(st, task);
    } else {
      UnchangedOk(st, task, step.next);
    }
  }

  lemma DeletedRowOk(st: Store, task: Task)
    requires task.DeleteRow? && task.userId in st.world.people.users
    requires StoreOk(st) && PeopleOk(st.world.people) && TaskOk(st, task)
    ensures StepOk(st, task, DeleteStep(st, task))
  {
    hide DeleteUser, PeopleOk, StoreOk, Gentle, TaskOk;
    DeleteUserKeepsPeople(st.world, task.userId);
    DeletedGentle(st, task);
    DeletedStoreOk(st, task.userId);
    DeletedTaskOk(st, task);
  }

  lemma DeletedTaskOk(st: Store, task: Task)
    requires task.DeleteRow? && TaskOk(st, task)
    requires NobodyHas(DeleteUser(st.world, task.userId).people, task.kcId)
    ensures TaskOk(st.(world := DeleteUser(st.world, task.userId)), DeleteLogout(task.kcId))
  {
    hide DeleteUser;
  }

  lemma RemovedOk(st: Store, task: Task)
    requires task.DeleteRemote? && StoreOk(st) && PeopleOk(st.world.people) && TaskOk(st, task)
    ensures StepOk(st, task, DeleteStep(st, task))
  {
    hide OwnersExist, ReferrersAreOlder, UniqueRows, AuditsOk;
  }

  lemma WithAddressPeopleOk(p: People, u: nat, email: string)
    requires PeopleOk(p) && u in p.users && forall v :: HasEmail(p, email, v) ==> v == u
    ensures PeopleOk(WithAddress(p, u, email))
  {
    forall v | v in p.users && v != u ensures p.users[v].email != email {
      assert HasEmail(p, email, v) || p.users[v].email != email;
    }
  }

  lemma WithAddressStoreOk(st: Store, task: Task)
    requires task.AddressRow? && StoreOk(st) && task.userId in st.world.people.users
    ensures var st' := st.(world := st.world.(people := WithAddress(st.world.people, task.userId, task.email)));
      StoreOk(st') && Gentle(st, st', task)
  {
  }

  lemma AddressRowOk(st: Store, task: Task)
    requires task.AddressRow? && StoreOk(st) && PeopleOk(st.world.people) && TaskOk(st, task)
    requires AddressStep(st, task).next == End(Done)
    ensures StepOk(st, task, AddressStep(st, task))
  {
    hide StoreOk, PeopleOk, Gentle, TaskOk;
    var p := st.world.people;
    UniqueAddress(p, task.email);
    WithAddressPeopleOk(p, task.userId, task.email);
    WithAddressStoreOk(st, task);
  }

  lemma UniqueAddress(p: People, email: string)
    requires PeopleOk(p)
    ensures forall v: nat :: HasEmail(p, email, v) ==> UserByEmail(p, email) == Some(v)
  {
    hide OwnersExist, ReferrersAreOlder, IdsBelow, AuditsOk;
  }

  lemma AddressReadOk(st: Store, task: Task)
    requires task.AddressStart? || task.AddressLogin? || task.AddressRead?
    requires StoreOk(st) && PeopleOk(st.world.people) && TaskOk(st, task)
    ensures StepOk(st, task, AddressStep(st, task))
  {
    hide StepOk, OwnersExist, ReferrersAreOlder, UniqueRows, AuditsOk, UserByEmail, AffiliateOf;
    UnchangedOk(st, task, AddressStep(st, task).next);
  }

  lemma AddressStepOk(st: Store, task: Task)
    requires ChangesAddress(task) && StoreOk(st) && PeopleOk(st.world.people) && TaskOk(st, task)
    ensures StepOk(st, task, AddressStep(st, task))
  {
    hide StepOk, OwnersExist, ReferrersAreOlder, UniqueRows, AuditsOk;
    var step := AddressStep(st, task);
    if task.AddressStart? || task.AddressLogin? || task.AddressRead? {
      AddressReadOk(st, task);
    } else if task.AddressRow? && step.next == End(Done) {
      AddressRowOk(st, task);
    } else if task.AddressRemote? && task.kcId in st.kc {
      KeycloakStepOk(st, step.store, task, step.next);
    } else {
      UnchangedOk(st, task, step.next);
    }
  }

  lemma AdvanceOk(st: Store, task: Task, row: nat)
    requires StoreOk(st) && PeopleOk(st.world.people) && TaskOk(st, task)
    ensures StepOk(st, task, Advance(st, task, row))
  {
    hide StoreOk, PeopleOk, TaskOk, StepOk, CreateStep, VerifyStep, TokenStep, DeleteStep, AddressStep;
    if task.CreateStart? || task.CreateLookup? || task.CreateRow? {
      CreateStepOk(st, task, row);
    } else if task.VerifyStart? || task.VerifyCheck? || task.VerifyRemote? || task.VerifyRow? {
      VerifyStepOk(st, task, row);
    } else if task.DeleteStart? || task.DeleteLogin? || task.DeleteRow? || task.DeleteLogout? || task.DeleteRemote? {
      DeleteStepOk(st, task);
    } else if ChangesAddress(task) {
      AddressStepOk(st, task);
    } else {
      TokenStepOk(st, task);
    }
  }

  // ---------------------------------------------------------------- how a step moves the people tables

  /** Users leave only into the audit log, and an affiliate becomes active only in the last step of
      verifying its own user. */
  ghost predicate PeopleMove(p: People, p': People, task: Task) {
    && (p'.audits == p.audits || (task.DeleteRow? && task.userId in p.users && p'.audits == p.audits + [task.userId]))
    && (forall u :: u in p.users && u !in p'.users ==> p'.audits == p.audits + [u])
    && p.nextAffiliate <= p'.nextAffiliate
    && (forall a :: a in p'.affiliates && a !in p.affiliates ==> a >= p.nextAffiliate)
    && (forall a :: a in p'.affiliates && a in p.affiliates ==>
         p'.affiliates[a].userId == p.affiliates[a].userId && (p.affiliates[a].active ==> p'.affiliates[a].active))
    && (forall a :: a in p'.affiliates && p'.affiliates[a].active && !(a in p.affiliates && p.affiliates[a].active) ==>
         task.VerifyRow? && p'.affiliates[a].userId == task.userId)
  }

  lemma SamePeopleMove(p: People, p': People, task: Task)
    requires p'.users.Keys == p.users.Keys && p'.affiliates == p.affiliates && p'.audits == p.audits
    requires p'.nextAffiliate == p.nextAffiliate
    ensures PeopleMove(p, p', task)
  {
  }

  lemma CreateMoves(st: Store, task: Task, row: nat)
    requires task.CreateStart? || task.CreateLookup? || task.CreateRow?
    requires PeopleOk(st.world.people)
    ensures PeopleMove(st.world.people, CreateStep(st, task, row).store.world.people, task)
  {
    hide OwnersExist, ReferrersAreOlder, UniqueRows, AuditsOk;
  }

  lemma VerifyMoves(st: Store, task: Task, row: nat)
    requires task.VerifyStart? || task.VerifyCheck? || task.VerifyRemote? || task.VerifyRow?
    ensures PeopleMove(st.world.people, VerifyStep(st, task, row).store.world.people, task)
  {
  }

  lemma TokenMoves(st: Store, task: Task)
    requires task.ResetStart? || task.ResetIssue? || task.ConfirmStart? || task.ConfirmRemote? ||
      task.ResendStart? || task.ResendIssue?
    ensures PeopleMove(st.world.people, TokenStep(st, task).store.world.people, task)
  {
    hide PeopleMove;
    SamePeopleMove(st.world.people, TokenStep(st, task).store.world.people, task);
  }

  lemma DeleteMoves(st: Store, task: Task)
    requires task.DeleteStart? || task.DeleteLogin? || task.DeleteRow? || task.DeleteLogout? || task.DeleteRemote?
    ensures PeopleMove(st.world.people, DeleteStep(st, task).store.world.people, task)
  {
    var p, p' := st.world.people, DeleteStep(st, task).store.world.people;
    if task.DeleteRow? && task.userId in p.users {
      DeletedRows(st.world, task.userId);
      assert p'.audits == p.audits + [task.userId];
    } else {
      SamePeopleMove(p, p', task);
    }
  }

  lemma AddressMoves(st: Store, task: Task)
    requires ChangesAddress(task)
    ensures PeopleMove(st.world.people, AddressStep(st, task).store.world.people, task)
  {
    hide PeopleMove;
    SamePeopleMove(st.world.people, AddressStep(st, task).store.world.people, task);
  }

  lemma AdvanceMoves(st: Store, task: Task, row: nat)
    requires PeopleOk(st.world.people)
    ensures PeopleMove(st.world.people, Advance(st, task, row).store.world.people, task)
  {
    hide PeopleOk, PeopleMove, CreateStep, VerifyStep, TokenStep, DeleteStep, AddressStep;
    if task.CreateStart? || task.CreateLookup? || task.CreateRow? {
      CreateMoves(st, task, row);
    } else if task.VerifyStart? || task.VerifyCheck? || task.VerifyRemote? || task.VerifyRow? {
      VerifyMoves(st, task, row);
    } else if task.DeleteStart? || task.DeleteLogin? || task.DeleteRow? || task.DeleteLogout? || task.DeleteRemote? {
      DeleteMoves(st, task);
    } else if ChangesAddress(task) {
      AddressMoves(st, task);
    } else {
      TokenMoves(st, task);
    }
  }

  /** The payment tables are touched by account requests only when a user row is deleted. */
  lemma AdvanceAndLedger(st: Store, task: Task, row: nat)
    ensures var w, w' := st.world, Advance(st, task, row).store.world;
      (task.DeleteRow? && task.userId in w.people.users && w' == DeleteUser(w, task.userId)) ||
      (w' == w.(people := w'.people) && w.people.users.Keys <= w'.people.users.Keys &&
       w.people.affiliates.Keys <= w'.people.affiliates.Keys)
  {
    hide DeleteUser;
  }
}
