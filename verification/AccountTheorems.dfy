/** What holds of accounts over every run of the system, at every point between two calls. */
module AccountTheorems {
  import opened Common
  import opened Schema
  import opened Accounts
  import opened AccountEffects
  import opened AccountInvariants
  import opened PaymentInvariants
  import opened Payments
  import opened Runs

  // ---------------------------------------------------------------- identity containment

  /** At every point of every run, with requests halfway through or abandoned anywhere, each local
      user exists in Keycloak and no two share a Keycloak user. */
  lemma IdentityContainment(tr: seq<Sys>, i: nat, u: nat)
    requires IsRun(tr) && i < |tr| && u in PeopleAt(tr, i).users
    ensures PeopleAt(tr, i).users[u].kcId in tr[i].store.kc
    ensures forall v :: v in PeopleAt(tr, i).users && v != u ==>
      PeopleAt(tr, i).users[v].kcId != PeopleAt(tr, i).users[u].kcId
  {
    hide StepTo, Inv, PeopleOk, TasksOk;
    RunOk(tr, i);
  }

  /** In every reachable state no transaction, subscription, affiliate or token names a user or an
      affiliate that is gone. */
  lemma NothingDangles(tr: seq<Sys>, i: nat)
    requires IsRun(tr) && i < |tr|
    ensures NoDangling(PeopleAt(tr, i), LedgerAt(tr, i)) && OwnersExist(PeopleAt(tr, i))
  {
    hide StepTo, StoreOk, TasksOk, NoDangling, OwnersExist;
    RunOk(tr, i);
  }

  // ---------------------------------------------------------------- one step of the people tables

  /** The request that a step continues, if it continues one. */
  ghost predicate Continues(s: Sys, s': Sys, pid: nat, row: nat) {
    pid in s.tasks && LookupOk(s.store, s.tasks[pid], row) && s' == Perform(s, Continue(pid, row))
  }

  lemma StepIsContinueOrQuiet(s: Sys, s': Sys)
    requires SysOk(s) && StepTo(s, s')
    ensures (exists pid, row :: Continues(s, s', pid, row)) ||
      (s'.store.world.people == s.store.world.people && s'.store.kc == s.store.kc &&
       forall q :: q in s'.tasks && !IsStart(s'.tasks[q]) ==> q in s.tasks && s.tasks[q] == s'.tasks[q])
  {
    hide SysOk, Inv, Handle, Possible, Accounts.Advance, LookupOk;
    var a :| Allowed(s, a) && s' == Perform(s, a);
    match a
    case Continue(pid, row) => assert Continues(s, s', pid, row);
    case Pay(event) => PayKeepsPeople(s, event);
    case _ =>
  }

  lemma PayKeepsPeople(s: Sys, event: Event)
    requires SysOk(s) && Possible(s.store.world, event)
    ensures Handle(s.store.world, event).world.people == s.store.world.people
  {
    hide Inv, PeopleOk, StoreOk, TasksOk, Handle, Possible;
    HandleKeeps(s.store.world, event);
  }

  lemma ContinueMoves(s: Sys, s': Sys, pid: nat, row: nat)
    requires SysOk(s) && Continues(s, s', pid, row)
    ensures PeopleMove(s.store.world.people, s'.store.world.people, s.tasks[pid])
    ensures Gentle(s.store, s'.store, s.tasks[pid])
  {
    hide Inv, PeopleOk, StoreOk, TaskOk, PeopleMove, Gentle, NextOk, Accounts.Advance;
    AdvanceMoves(s.store, s.tasks[pid], row);
    AdvanceOk(s.store, s.tasks[pid], row);
  }

  // ---------------------------------------------------------------- deletion conserves users

  function Audited(p: People): set<nat> {
    Elements(p.audits)
  }

  /** Every user id that was live at some point of the run. */
  function EverCreated(tr: seq<Sys>): set<nat>
    decreases |tr|
  {
    if tr == [] then {} else EverCreated(tr[..|tr| - 1]) + tr[|tr| - 1].store.world.people.users.Keys
  }

  lemma AuditStep(s: Sys, s': Sys)
    requires SysOk(s) && StepTo(s, s')
    ensures var p, p' := s.store.world.people, s'.store.world.people;
      p'.users.Keys + Audited(p') == p.users.Keys + Audited(p) + p'.users.Keys
  {
    hide SysOk, StepTo, Gentle;
    StepIsContinueOrQuiet(s, s');
    if pid: nat, row: nat :| Continues(s, s', pid, row) {
      ContinueMoves(s, s', pid, row);
    }
  }

  lemma {:induction false} EverCreatedIs(tr: seq<Sys>, j: nat)
    requires IsRun(tr) && j < |tr|
    ensures EverCreated(tr[..j + 1]) == PeopleAt(tr, j).users.Keys + Audited(PeopleAt(tr, j))
  {
    hide SysOk, StepTo, Audited;
    assert tr[..j + 1][..j] == tr[..j];
    if j == 0 {
      assert tr[..0] == [];
      NoAudits(tr[0]);
    } else {
      EverCreatedIs(tr, j - 1);
      RunStep(tr, j - 1);
      AuditStep(tr[j - 1], tr[j]);
    }
  }

  lemma NoAudits(s: Sys)
    requires IsInitial(s)
    ensures Audited(s.store.world.people) == {} && s.store.world.people.users.Keys == {}
  {
  }

  function Elements(s: seq<nat>): set<nat> {
    set u | u in s
  }

  lemma {:induction false} DistinctSize(s: seq<nat>)
    requires forall i, j :: 0 <= i < j < |s| ==> s[i] != s[j]
    ensures |Elements(s)| == |s|
  {
    if s != [] {
      var rest, last := s[..|s| - 1], s[|s| - 1];
      DistinctSize(rest);
      assert s == rest + [last] && last !in rest;
      assert Elements(s) == Elements(rest) + {last};
    }
  }

  /** Over every run, the users ever created are the live ones and the ones in the audit log, and none
      is counted twice. */
  lemma DeletionConserves(tr: seq<Sys>, j: nat)
    requires IsRun(tr) && j < |tr|
    ensures var p := PeopleAt(tr, j);
      && EverCreated(tr[..j + 1]) == p.users.Keys + Audited(p) && p.users.Keys !! Audited(p)
      && |EverCreated(tr[..j + 1])| == |p.users| + |p.audits|
  {
    hide StepTo, Inv, StoreOk, TasksOk;
    EverCreatedIs(tr, j);
    RunOk(tr, j);
    var p := PeopleAt(tr, j);
    DistinctSize(p.audits);
    assert |p.users.Keys + Audited(p)| == |p.users.Keys| + |Audited(p)|;
  }

  // ---------------------------------------------------------------- verification comes first

  /** Between the two points a request of user `u` presented, for the address `email` that it was
      started with, the plaintext of token `row`, which had not expired and whose owner has that
      address. */
  ghost predicate Presents(s: Sys, s': Sys, u: nat, email: string, row: nat) {
    && u in s.store.world.people.users && IsTokenFor(s.store.world.people, email, row)
    && exists pid :: Continues(s, s', pid, row) && s.tasks[pid].VerifyCheck? && s.tasks[pid].userId == u &&
         s.tasks[pid].email == email && Opens(s.store.world.people.tokens[row], s.tasks[pid].secret, s.store.world.now)
  }

  ghost predicate SomePresents(s: Sys, s': Sys, u: nat) {
    exists email, row :: Presents(s, s', u, email, row)
  }

  /** User `u` had the address `email` at point `i`. */
  ghost predicate HadAddress(tr: seq<Sys>, i: nat, u: nat, email: string)
    requires i < |tr|
  {
    HasEmail(PeopleAt(tr, i), email, u)
  }

  ghost predicate PresentsAt(tr: seq<Sys>, i: nat, u: nat, email: string, row: nat)
    requires i + 1 < |tr|
  {
    Presents(tr[i], tr[i + 1], u, email, row) && exists k: nat :: k <= i && HadAddress(tr, k, u, email)
  }

  ghost predicate Presented(tr: seq<Sys>, j: nat, u: nat)
    requires j < |tr|
  {
    exists i: nat, email, row: nat :: i < j && PresentsAt(tr, i, u, email, row)
  }

  predicate PastCheck(task: Task, u: nat) {
    (task.VerifyRemote? || task.VerifyRow?) && task.userId == u
  }

  /** A request that is past the check, for a user that still exists. */
  ghost predicate IsPastCheck(s: Sys, u: nat) {
    u in s.store.world.people.users && exists q :: q in s.tasks && PastCheck(s.tasks[q], u)
  }

  ghost predicate IsActiveUser(p: People, u: nat) {
    exists a :: a in p.affiliates && p.affiliates[a].active && p.affiliates[a].userId == u
  }

  lemma AdvancePastCheck(st: Store, task: Task, row: nat, u: nat)
    requires Accounts.Advance(st, task, row).next.Goto? && PastCheck(Accounts.Advance(st, task, row).next.task, u)
    ensures PastCheck(task, u) ||
      (task.VerifyCheck? && task.userId == u && IsTokenFor(st.world.people, task.email, row) &&
       Opens(st.world.people.tokens[row], task.secret, st.world.now))
  {
  }

  lemma PastCheckStep(s: Sys, s': Sys, u: nat)
    requires SysOk(s) && StepTo(s, s') && IsPastCheck(s', u)
    ensures IsPastCheck(s, u) || SomePresents(s, s', u)
  {
    hide Inv, PeopleOk, StoreOk, StepTo, TaskOk, Accounts.Advance, Apart;
    var q :| q in s'.tasks && PastCheck(s'.tasks[q], u);
    StepIsContinueOrQuiet(s, s');
    if pid: nat, row: nat :| Continues(s, s', pid, row) {
      ContinueMoves(s, s', pid, row);
      UserWasThere(s, s', pid, row, q, u);
      if q == pid {
        var task := s.tasks[pid];
        AdvancePastCheck(s.store, task, row, u);
        if !PastCheck(task, u) {
          assert Presents(s, s', u, task.email, row);
        }
      }
    }
  }

  /** A user named by a request that has read it existed before the step. */
  lemma UserWasThere(s: Sys, s': Sys, pid: nat, row: nat, q: nat, u: nat)
    requires SysOk(s) && Continues(s, s', pid, row) && q in s'.tasks && PastCheck(s'.tasks[q], u)
    requires u in s'.store.world.people.users && Gentle(s.store, s'.store, s.tasks[pid])
    ensures u in s.store.world.people.users
  {
    hide Inv, PeopleOk, StoreOk, Accounts.Advance, Apart;
    if q == pid {
      AdvancePastCheck(s.store, s.tasks[pid], row, u);
      assert HeldUser(s.tasks[pid]) == Some(u);
      assert TaskOk(s.store, s.tasks[pid]);
    } else {
      assert TaskOk(s.store, s.tasks[q]);
      assert HeldUser(s.tasks[q]) == Some(u);
    }
  }

  // a request that is at the check was started with an address its user had

  lemma AdvanceToCheck(st: Store, task: Task, row: nat)
    requires Accounts.Advance(st, task, row).next.Goto? && Accounts.Advance(st, task, row).next.task.VerifyCheck?
    ensures var next := Accounts.Advance(st, task, row).next.task; HasEmail(st.world.people, next.email, next.userId)
  {
  }

  lemma CheckStep(s: Sys, s': Sys, q: nat)
    requires SysOk(s) && StepTo(s, s') && q in s'.tasks && s'.tasks[q].VerifyCheck?
    ensures (q in s.tasks && s.tasks[q] == s'.tasks[q]) ||
      HasEmail(s.store.world.people, s'.tasks[q].email, s'.tasks[q].userId)
  {
    hide SysOk, StepTo, Accounts.Advance, LookupOk;
    StepIsContinueOrQuiet(s, s');
    if pid: nat, row: nat :| Continues(s, s', pid, row) {
      if q == pid {
        AdvanceToCheck(s.store, s.tasks[pid], row);
      }
    }
  }

  lemma {:induction false} StartedWithAddress(tr: seq<Sys>, i: nat, q: nat)
    requires IsRun(tr) && i < |tr| && q in tr[i].tasks && tr[i].tasks[q].VerifyCheck?
    ensures exists k: nat :: k <= i && HadAddress(tr, k, tr[i].tasks[q].userId, tr[i].tasks[q].email)
  {
    hide SysOk, StepTo;
    if i > 0 {
      RunStep(tr, i - 1);
      CheckStep(tr[i - 1], tr[i], q);
      if HadAddress(tr, i - 1, tr[i].tasks[q].userId, tr[i].tasks[q].email) {
        assert i - 1 <= i;
      } else {
        StartedWithAddress(tr, i - 1, q);
        var k: nat :| k <= i - 1 && HadAddress(tr, k, tr[i].tasks[q].userId, tr[i].tasks[q].email);
        assert k <= i;
      }
    }
  }

  lemma ActiveStep(s: Sys, s': Sys, u: nat)
    requires SysOk(s) && StepTo(s, s') && IsActiveUser(s'.store.world.people, u)
    ensures IsActiveUser(s.store.world.people, u) || IsPastCheck(s, u)
  {
    hide Inv, StoreOk, TasksOk, StepTo, Accounts.Advance, Gentle;
    StepIsContinueOrQuiet(s, s');
    var p, p' := s.store.world.people, s'.store.world.people;
    var a :| a in p'.affiliates && p'.affiliates[a].active && p'.affiliates[a].userId == u;
    if pid: nat, row: nat :| Continues(s, s', pid, row) {
      ContinueMoves(s, s', pid, row);
      if a in p.affiliates && p.affiliates[a].active {
        assert IsActiveUser(p, u);
      } else {
        assert PastCheck(s.tasks[pid], u);
        RowStepKeepsUsers(s.store, s.tasks[pid], row);
        StepKeepsOwners(s, s');
      }
    }
  }

  lemma RowStepKeepsUsers(st: Store, task: Task, row: nat)
    requires task.VerifyRow?
    ensures Accounts.Advance(st, task, row).store.world.people.users == st.world.people.users
  {
  }

  lemma StepKeepsOwners(s: Sys, s': Sys)
    requires SysOk(s) && StepTo(s, s')
    ensures OwnersExist(s'.store.world.people)
  {
    hide Inv, StoreOk, TasksOk, StepTo, OwnersExist;
    StepKeeps(s, s');
  }

  lemma PresentedBefore(tr: seq<Sys>, j: nat, u: nat)
    requires 0 < j < |tr| && Presented(tr, j - 1, u)
    ensures Presented(tr, j, u)
  {
    var i: nat, email, row: nat :| i < j - 1 && PresentsAt(tr, i, u, email, row);
    assert i < j && PresentsAt(tr, i, u, email, row);
  }

  lemma PresentedNow(tr: seq<Sys>, j: nat, u: nat)
    requires IsRun(tr) && 0 < j < |tr| && SomePresents(tr[j - 1], tr[j], u)
    ensures Presented(tr, j, u)
  {
    hide StepTo, SysOk, Accounts.Advance;
    var i := j - 1;
    var email, row: nat :| Presents(tr[i], tr[i + 1], u, email, row);
    var pid :| Continues(tr[i], tr[i + 1], pid, row) && tr[i].tasks[pid].VerifyCheck? && tr[i].tasks[pid].userId == u &&
      tr[i].tasks[pid].email == email;
    StartedWithAddress(tr, i, pid);
    hide Presents, HadAddress;
    assert i < j && PresentsAt(tr, i, u, email, row);
  }

  lemma {:induction false} ActiveWasPresented(tr: seq<Sys>, j: nat, u: nat)
    requires IsRun(tr) && j < |tr| && (IsActiveUser(PeopleAt(tr, j), u) || IsPastCheck(tr[j], u))
    ensures Presented(tr, j, u)
  {
    hide StepTo, SysOk, SomePresents, Presented, IsActiveUser, IsPastCheck;
    if j == 0 {
      NobodyIsActive(tr[0], u);
    } else {
      RunStep(tr, j - 1);
      if IsActiveUser(PeopleAt(tr, j), u) {
        ActiveStep(tr[j - 1], tr[j], u);
      } else {
        PastCheckStep(tr[j - 1], tr[j], u);
      }
      if SomePresents(tr[j - 1], tr[j], u) {
        PresentedNow(tr, j, u);
      } else {
        ActiveWasPresented(tr, j - 1, u);
        PresentedBefore(tr, j, u);
      }
    }
  }

  lemma NobodyIsActive(s: Sys, u: nat)
    requires IsInitial(s)
    ensures !IsActiveUser(s.store.world.people, u) && !IsPastCheck(s, u) && s.tasks == map[]
  {
  }

  /** At every point of every run an active affiliate has the verified flag in Keycloak, and a request
      for its user earlier presented a matching token that had not expired, belonging to whoever then
      had the address the request was started with. */
  lemma VerificationComesFirst(tr: seq<Sys>, j: nat, a: nat)
    requires IsRun(tr) && j < |tr| && a in PeopleAt(tr, j).affiliates && PeopleAt(tr, j).affiliates[a].active
    ensures var p, u := PeopleAt(tr, j), PeopleAt(tr, j).affiliates[a].userId;
      && u in p.users && IsVerified(tr[j].store, p.users[u].kcId)
      && Presented(tr, j, u)
  {
    hide StepTo, Inv, TasksOk, Presented;
    RunOk(tr, j);
    assert IsActiveUser(PeopleAt(tr, j), PeopleAt(tr, j).affiliates[a].userId);
    ActiveWasPresented(tr, j, PeopleAt(tr, j).affiliates[a].userId);
  }

  /** The token was the user's own exactly when the user then still had that address. */
  lemma TokenIsOwnIff(tr: seq<Sys>, i: nat, u: nat, email: string, row: nat)
    requires IsRun(tr) && i + 1 < |tr| && PresentsAt(tr, i, u, email, row)
    ensures PeopleAt(tr, i).tokens[row].userId == u <==> HadAddress(tr, i, u, email)
  {
    hide StepTo, Inv, StoreOk, TasksOk, OwnersExist, ReferrersAreOlder, IdsBelow, AuditsOk;
    RunOk(tr, i);
  }

  /** User `u` has one address for as long as it exists. */
  ghost predicate AddressKept(tr: seq<Sys>, u: nat) {
    forall i: nat, k: nat, e, f :: i < |tr| && k < |tr| && HadAddress(tr, i, u, e) && HadAddress(tr, k, u, f) ==> e == f
  }

  /** So in every run that does not change its address, an active affiliate presented its own token. */
  lemma OwnTokenIfAddressKept(tr: seq<Sys>, j: nat, a: nat)
    requires IsRun(tr) && j < |tr| && a in PeopleAt(tr, j).affiliates && PeopleAt(tr, j).affiliates[a].active
    requires AddressKept(tr, PeopleAt(tr, j).affiliates[a].userId)
    ensures var u := PeopleAt(tr, j).affiliates[a].userId;
      exists i: nat, email, row: nat :: i < j && PresentsAt(tr, i, u, email, row) && PeopleAt(tr, i).tokens[row].userId == u
  {
    hide StepTo, SysOk, Accounts.Advance, LookupOk;
    var u := PeopleAt(tr, j).affiliates[a].userId;
    VerificationComesFirst(tr, j, a);
    var i: nat, email, row: nat :| i < j && PresentsAt(tr, i, u, email, row);
    var k: nat :| k <= i && HadAddress(tr, k, u, email);
    assert HadAddress(tr, i, u, PeopleAt(tr, i).users[u].email);
    TokenIsOwnIff(tr, i, u, email, row);
  }

  /** Both stores after user `u` has moved to `email`. */
  function Moved(st: Store, u: nat, email: string): Store
    requires u in st.world.people.users && st.world.people.users[u].kcId in st.kc
  {
    var k := st.world.people.users[u].kcId;
    Store(st.world.(people := WithAddress(st.world.people, u, email)), st.kc[k := st.kc[k].(email := email)], st.nextKc)
  }

  ghost predicate CanMove(st: Store, u: nat, email: string) {
    && u in st.world.people.users && AffiliateOf(st.world.people, u).Some?
    && st.world.people.users[u].kcId in st.kc && UserByEmail(st.world.people, email).None?
  }

  /** The request of a user who changes the own address. */
  ghost function MoveRequest(st: Store, u: nat, email: string): Task
    requires CanMove(st, u, email)
  {
    var k := st.world.people.users[u].kcId;
    AddressStart(k, st.kc[k].password, u, email)
  }

  lemma MoveRuns(st: Store, u: nat, email: string)
    requires CanMove(st, u, email)
    ensures RunFor(st, MoveRequest(st, u, email), 0, 5) == Step(Moved(st, u, email), End(Done))
  {
    hide UserByEmail, AffiliateOf;
    var k := st.world.people.users[u].kcId;
    var password := st.kc[k].password;
    var st' := st.(kc := st.kc[k := st.kc[k].(email := email)]);
    assert RunFor(st', AddressRow(u, k, email), 0, 1) == AddressStep(st', AddressRow(u, k, email));
    assert RunFor(st, AddressRemote(u, k, email), 0, 2) == RunFor(st', AddressRow(u, k, email), 0, 1);
    assert RunFor(st, AddressRead(u, email), 0, 3) == RunFor(st, AddressRemote(u, k, email), 0, 2);
    assert RunFor(st, AddressLogin(k, password, u, email), 0, 4) == RunFor(st, AddressRead(u, email), 0, 3);
  }

  /** Two users of a consistent state, the first one not active yet, and an address nobody has. */
  ghost predicate TwoMovers(st: Store, u: nat, v: nat, free: string) {
    var p := st.world.people;
    && StoreOk(st) && PeopleOk(p) && u in p.users && v in p.users && u != v
    && AffiliateOf(p, u).Some? && AffiliateOf(p, v).Some? && !p.affiliates[AffiliateOf(p, u).value].active
    && UserByEmail(p, free).None?
  }

  lemma BothCanMove(st: Store, u: nat, v: nat, free: string)
    requires TwoMovers(st, u, v, free)
    ensures CanMove(st, u, free)
    ensures CanMove(Moved(st, u, free), v, st.world.people.users[u].email)
    ensures UserByEmail(st.world.people, st.world.people.users[u].email) == Some(u)
  {
    hide StoreOk, OwnersExist, ReferrersAreOlder, IdsBelow, AuditsOk, AffiliateOf;
    var p, e := st.world.people, st.world.people.users[u].email;
    UniqueAddress(p, e);
    assert HasEmail(p, e, u) && e != free;
    assert p.users[u].kcId in st.kc && p.users[v].kcId in st.kc by {
      UsersInKc(st, u);
      UsersInKc(st, v);
    }
    var q := WithAddress(p, u, free);
    forall w: nat ensures !HasEmail(q, e, w) {
      assert HasEmail(q, e, w) ==> HasEmail(p, e, w) && w == u;
    }
    SameAffiliates(p, q, v);
  }

  lemma UsersInKc(st: Store, u: nat)
    requires StoreOk(st) && u in st.world.people.users
    ensures st.world.people.users[u].kcId in st.kc
  {
  }

  lemma SameAffiliates(p: People, q: People, v: nat)
    requires p.affiliates == q.affiliates
    ensures AffiliateOf(p, v).Some? <==> AffiliateOf(q, v).Some?
  {
    assert forall a: nat :: IsAffiliateOf(p, v, a) <==> IsAffiliateOf(q, v, a);
  }

  lemma VerifyBegins(st: Store, u: nat, secret: string, row: nat)
    requires u in st.world.people.users && UserByEmail(st.world.people, st.world.people.users[u].email) == Some(u)
    requires AffiliateOf(st.world.people, u).Some?
    requires !st.world.people.affiliates[AffiliateOf(st.world.people, u).value].active
    ensures var e, k := st.world.people.users[u].email, st.world.people.users[u].kcId;
      Accounts.Advance(st, VerifyStart(e, secret), row).next == Goto(VerifyCheck(e, secret, u, k))
  {
    hide UserByEmail, AffiliateOf;
  }

  /** The rest of a verification succeeds from the check on, and makes user `u` active. */
  ghost predicate Verifies(st: Store, email: string, secret: string, u: nat, k: nat, row: nat) {
    var run := RunFor(st, VerifyCheck(email, secret, u, k), row, 3);
    run.next == End(Done) && IsVerified(run.store, k) && IsActiveUser(run.store.world.people, u)
  }

  lemma VerifyGoesOn(st: Store, e: string, secret: string, u: nat, v: nat, row: nat)
    requires HasEmail(st.world.people, e, v) && row in st.world.people.tokens
    requires st.world.people.tokens[row].userId == v && Opens(st.world.people.tokens[row], secret, st.world.now)
    requires u in st.world.people.users && st.world.people.users[u].kcId in st.kc
    requires AffiliateOf(st.world.people, u).Some?
    ensures Verifies(st, e, secret, u, st.world.people.users[u].kcId, row)
  {
    hide AffiliateOf;
    var k := st.world.people.users[u].kcId;
    var marked := st.(kc := st.kc[k := st.kc[k].(emailVerified := true)]);
    assert RunFor(st, VerifyCheck(e, secret, u, k), row, 3) == RunFor(st, VerifyRemote(u, k), row, 2);
    assert RunFor(st, VerifyRemote(u, k), row, 2) == RunFor(marked, VerifyRow(u, k), row, 1);
    var a := AffiliateOf(st.world.people, u).value;
    assert RunFor(marked, VerifyRow(u, k), row, 1).store.world.people == Activated(st.world.people, a);
    assert Activated(st.world.people, a).affiliates[a].userId == u;
  }

  lemma MovesKeep(st: Store, u: nat, free: string, a: Store, v: nat, e: string)
    requires CanMove(st, u, free) && a == Moved(st, u, free) && CanMove(a, v, e) && u != v
    ensures var b := Moved(a, v, e);
      && HasEmail(b.world.people, e, v) && u in b.world.people.users
      && b.world.people.users[u].kcId == st.world.people.users[u].kcId && b.world.people.users[u].kcId in b.kc
      && AffiliateOf(b.world.people, u).Some?
  {
    hide UserByEmail, AffiliateOf;
    SameAffiliates(st.world.people, Moved(a, v, e).world.people, u);
  }

  /** How the token can be another user's: a verification of `u` is started with its address, `u` moves
      to a free address, `v` moves to the one that `u` left, and the verification goes on with the token
      of `v`. From any state with two such users every call succeeds, and `u` is active at the end. */
  lemma AnotherUsersToken(st: Store, u: nat, v: nat, free: string, secret: string, row: nat)
    requires TwoMovers(st, u, v, free)
    requires row in st.world.people.tokens && st.world.people.tokens[row].userId == v
    requires Opens(st.world.people.tokens[row], secret, st.world.now)
    ensures CanMove(st, u, free) && CanMove(Moved(st, u, free), v, st.world.people.users[u].email)
    ensures var e, k := st.world.people.users[u].email, st.world.people.users[u].kcId;
      var first := RunFor(st, MoveRequest(st, u, free), 0, 5);
      var second := RunFor(Moved(st, u, free), MoveRequest(Moved(st, u, free), v, e), 0, 5);
      && Accounts.Advance(st, VerifyStart(e, secret), row).next == Goto(VerifyCheck(e, secret, u, k))
      && first == Step(Moved(st, u, free), End(Done))
      && second == Step(Moved(Moved(st, u, free), v, e), End(Done))
      && row in second.store.world.people.tokens && second.store.world.people.tokens[row].userId == v
      && Verifies(second.store, e, secret, u, k, row)
  {
    BothCanMove(st, u, v, free);
    var e, k := st.world.people.users[u].email, st.world.people.users[u].kcId;
    var a := Moved(st, u, free);
    MoveRuns(st, u, free);
    MoveRuns(a, v, e);
    MovesKeep(st, u, free, a, v, e);
    hide StoreOk, PeopleOk, CanMove, UserByEmail, AffiliateOf, RunFor, Accounts.Advance, Verifies;
    VerifyBegins(st, u, secret, row);
    VerifyGoesOn(Moved(a, v, e), e, secret, u, v, row);
  }

  const FIRST_KIND: Kind := AffiliateAccount("x", None, "first")
  const SECOND_KIND: Kind := AffiliateAccount("y", None, "second")

  const ONE_USER := Store(
    World(People(map[0 := User("a", 0)], map[0 := Affiliate(0, "x", false, None)],
                 map[0 := Token(0, "first", DAY_MS)], [], 1, 1, 1),
          NO_PAYMENTS, Queues(map[], map[]), 0),
    map[0 := KcUser("a", false, "p")], 1)

  /** What a second registration leaves. */
  const TWO_USERS := Store(
    World(People(map[0 := User("a", 0), 1 := User("b", 1)],
                 map[0 := Affiliate(0, "x", false, None), 1 := Affiliate(1, "y", false, None)],
                 map[0 := Token(0, "first", DAY_MS), 1 := Token(1, "second", DAY_MS)], [], 2, 2, 2),
          NO_PAYMENTS, Queues(map[], map[]), 0),
    map[0 := KcUser("a", false, "p"), 1 := KcUser("b", false, "q")], 2)

  lemma FirstRegistration()
    ensures RunFor(NO_STORE, CreateStart(FIRST_KIND, "a", "p"), 0, 3) == Step(ONE_USER, End(Done))
  {
    hide RunFor;
    UnreferredRegistration(NO_STORE, "x", None, "first", "a", "p", 0);
  }

  lemma SecondRegistration()
    ensures RunFor(ONE_USER, CreateStart(SECOND_KIND, "b", "q"), 0, 3) == Step(TWO_USERS, End(Done))
  {
    hide RunFor;
    assert "a"[0] != "b"[0];
    UnreferredRegistration(ONE_USER, "y", None, "second", "b", "q", 0);
  }

  lemma TwoUsersStored()
    ensures StoreOk(TWO_USERS)
  {
    assert forall u: nat :: u in TWO_USERS.world.people.users ==> u == 0 || u == 1;
  }

  lemma TwoUsersRows()
    ensures UniqueRows(TWO_USERS.world.people) && OwnersExist(TWO_USERS.world.people)
  {
    var p := TWO_USERS.world.people;
    assert "a"[0] != "b"[0];
    forall u, v | u in p.users && v in p.users && p.users[u].email == p.users[v].email ensures u == v {
      assert (u == 0 || u == 1) && (v == 0 || v == 1);
    }
    forall a, b | a in p.affiliates && b in p.affiliates && p.affiliates[a].userId == p.affiliates[b].userId ensures a == b {
      assert (a == 0 || a == 1) && (b == 0 || b == 1);
    }
  }

  lemma TwoUsersOrdered()
    ensures var p := TWO_USERS.world.people; ReferrersAreOlder(p) && IdsBelow(p) && AuditsOk(p)
  {
  }

  lemma TwoUsersLookups()
    ensures var p := TWO_USERS.world.people;
      AffiliateOf(p, 0) == Some(0) && AffiliateOf(p, 1) == Some(1) && UserByEmail(p, "c") == None
  {
    var p := TWO_USERS.world.people;
    assert IsAffiliateOf(p, 0, 0) && IsAffiliateOf(p, 1, 1);
    assert forall u: nat :: !HasEmail(p, "c", u);
  }

  /** Such a state, after two registrations: user 0 leaves "a" for "c", user 1 takes "a", and token 1,
      which was sent to user 1, verifies user 0. */
  lemma TwoUsersSwap()
    ensures TwoMovers(TWO_USERS, 0, 1, "c")
    ensures RunFor(NO_STORE, CreateStart(FIRST_KIND, "a", "p"), 0, 3) == Step(ONE_USER, End(Done))
    ensures RunFor(ONE_USER, CreateStart(SECOND_KIND, "b", "q"), 0, 3) == Step(TWO_USERS, End(Done))
    ensures var st := Moved(Moved(TWO_USERS, 0, "c"), 1, "a");
      st.world.people.tokens[1].userId == 1 && Verifies(st, "a", "second", 0, 0, 1)
  {
    FirstRegistration();
    SecondRegistration();
    TwoUsersStored();
    TwoUsersRows();
    TwoUsersOrdered();
    TwoUsersLookups();
    hide StoreOk, OwnersExist, ReferrersAreOlder, UniqueRows, IdsBelow, AuditsOk, UserByEmail, AffiliateOf,
      Accounts.Advance, RunFor, CanMove, Verifies;
    AnotherUsersToken(TWO_USERS, 0, 1, "c", "second", 1);
  }

  // ---------------------------------------------------------------- active for good

  lemma ActiveStays(s: Sys, s': Sys, a: nat)
    requires SysOk(s) && StepTo(s, s')
    ensures var p, p' := s.store.world.people, s'.store.world.people;
      && p.nextAffiliate <= p'.nextAffiliate
      && (a in p'.affiliates ==> a in p.affiliates || a >= p.nextAffiliate)
      && (a in p'.affiliates && a in p.affiliates ==>
           p'.affiliates[a].userId == p.affiliates[a].userId && (p.affiliates[a].active ==> p'.affiliates[a].active))
  {
    hide StepTo, SysOk, Gentle;
    StepIsContinueOrQuiet(s, s');
    if pid: nat, row: nat :| Continues(s, s', pid, row) {
      ContinueMoves(s, s', pid, row);
    }
  }

  /** Ids of affiliates are not reused: one that is known early and late was there all the time. */
  lemma {:induction false} AffiliateWasThere(tr: seq<Sys>, i: nat, j: nat, a: nat)
    requires IsRun(tr) && i <= j < |tr| && a < PeopleAt(tr, i).nextAffiliate && a in PeopleAt(tr, j).affiliates
    ensures a in PeopleAt(tr, i).affiliates && PeopleAt(tr, i).nextAffiliate <= PeopleAt(tr, j).nextAffiliate
    decreases j - i
  {
    hide StepTo, SysOk;
    if i < j {
      RunStep(tr, i);
      ActiveStays(tr[i], tr[i + 1], a);
      AffiliateWasThere(tr, i + 1, j, a);
    }
  }

  /** Once active, an affiliate is active at every later point at which its row exists. */
  lemma {:induction false} ActiveOnlyGrows(tr: seq<Sys>, i: nat, j: nat, a: nat)
    requires IsRun(tr) && i <= j < |tr| && a in PeopleAt(tr, i).affiliates && PeopleAt(tr, i).affiliates[a].active
    requires a in PeopleAt(tr, j).affiliates
    ensures PeopleAt(tr, j).affiliates[a].active
    decreases j - i
  {
    hide StepTo, SysOk, OwnersExist, ReferrersAreOlder, UniqueRows, AuditsOk;
    if i < j {
      RunStep(tr, i);
      PeopleIdsBelow(tr, i);
      ActiveStays(tr[i], tr[i + 1], a);
      AffiliateWasThere(tr, i + 1, j, a);
      ActiveOnlyGrows(tr, i + 1, j, a);
    }
  }

  lemma PeopleIdsBelow(tr: seq<Sys>, i: nat)
    requires IsRun(tr) && i < |tr|
    ensures IdsBelow(PeopleAt(tr, i))
  {
    hide StepTo, Inv, StoreOk, TasksOk, IdsBelow, OwnersExist, ReferrersAreOlder, UniqueRows, AuditsOk;
    RunOk(tr, i);
  }
}
