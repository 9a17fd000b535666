/** The life of confirmation tokens when each request runs without others in between. */
module Tokens {
  import opened Common
  import opened Schema
  import opened Accounts
  import opened AccountInvariants

  /** One request, completed or stopped anywhere, or something that leaves people and Keycloak alone. */
  ghost predicate AtomicStep(st: Store, st': Store) {
    (exists task, row, calls :: IsStart(task) && st' == RunFor(st, task, row, calls).store) ||
    st' == st.(world := st'.world.(people := st.world.people))
  }

  ghost predicate AtomicStepAt(tr: seq<Store>, i: nat)
    requires i + 1 < |tr|
  {
    AtomicStep(tr[i], tr[i + 1])
  }

  ghost predicate IsAtomicRun(tr: seq<Store>) {
    && |tr| > 0 && PeopleOk(tr[0].world.people) && StoreOk(tr[0]) && AtMostOne(tr[0].world.people)
    && forall i: nat :: i + 1 < |tr| ==> AtomicStepAt(tr, i)
  }

  ghost predicate AtMostOne(p: People) {
    forall t, u :: t in p.tokens && u in p.tokens && p.tokens[t].userId == p.tokens[u].userId ==> t == u
  }

  ghost predicate HasNone(p: People, userId: nat) {
    forall t :: t in p.tokens ==> p.tokens[t].userId != userId
  }

  /** A token row never changes, and new ones get new ids. */
  ghost predicate TokensMove(p: People, p': People) {
    && p.nextToken <= p'.nextToken
    && forall t :: t in p'.tokens ==> t >= p.nextToken || (t in p.tokens && p'.tokens[t] == p.tokens[t])
  }

  // ---------------------------------------------------------------- one step

  /** What the step of a request may rely on when nothing ran in between. */
  ghost predicate Alone(st: Store, task: Task) {
    && StoreOk(st) && PeopleOk(st.world.people) && TaskOk(st, task) && AtMostOne(st.world.people)
    && (task.ResendIssue? ==> HasNone(st.world.people, task.userId))
  }

  lemma AddTokenAlone(p: People, token: Token)
    requires IdsBelow(p) && AtMostOne(p) && HasNone(p, token.userId)
    ensures AtMostOne(AddToken(p, token)) && TokensMove(p, AddToken(p, token))
  {
  }

  lemma WithoutTokensAlone(p: People, u: nat)
    requires AtMostOne(p)
    ensures AtMostOne(WithoutTokensOf(p, u)) && HasNone(WithoutTokensOf(p, u), u) && TokensMove(p, WithoutTokensOf(p, u))
  {
  }

  lemma TokenStepAlone(st: Store, task: Task)
    requires Alone(st, task)
    requires task.ResetStart? || task.ResetIssue? || task.ConfirmStart? || task.ConfirmRemote? ||
      task.ResendStart? || task.ResendIssue?
    ensures var step := TokenStep(st, task);
      && AtMostOne(step.store.world.people) && TokensMove(st.world.people, step.store.world.people)
      && (step.next.Goto? && step.next.task.ResendIssue? ==> HasNone(step.store.world.people, step.next.task.userId))
  {
    hide StoreOk, TaskOk, OwnersExist, ReferrersAreOlder, UniqueRows, AuditsOk;
    var p := st.world.people;
    match task
    case ResetIssue(u, secret) =>
      WithoutTokensAlone(p, u);
      AddTokenAlone(WithoutTokensOf(p, u), Token(u, secret, st.world.now + QUARTER_HOUR_MS));
    case ResendStart(u, secret) => WithoutTokensAlone(p, u);
    case ResendIssue(u, secret) => AddTokenAlone(p, Token(u, secret, st.world.now + DAY_MS));
    case _ =>
  }

  lemma CreateStepAlone(st: Store, task: Task, row: nat)
    requires Alone(st, task) && (task.CreateStart? || task.CreateLookup? || task.CreateRow?)
    ensures var step := CreateStep(st, task, row);
      AtMostOne(step.store.world.people) && TokensMove(st.world.people, step.store.world.people)
  {
    hide StoreOk, TaskOk, ReferrersAreOlder, UniqueRows, AuditsOk;
    var p := st.world.people;
    assert HasNone(p, p.nextUser);
    if task.CreateRow? && task.kind.AffiliateAccount? {
      var q := InsertAffiliate(InsertUser(p, User(task.email, task.kcId)),
        Affiliate(p.nextUser, task.kind.code, false, task.referrer));
      assert q.tokens == p.tokens && q.nextToken == p.nextToken;
      assert AddToken(q, Token(p.nextUser, task.kind.secret, st.world.now + DAY_MS)).tokens ==
        AddToken(p, Token(p.nextUser, task.kind.secret, st.world.now + DAY_MS)).tokens;
      AddTokenAlone(p, Token(p.nextUser, task.kind.secret, st.world.now + DAY_MS));
    }
  }

  lemma DeleteStepAlone(st: Store, task: Task)
    requires AtMostOne(st.world.people)
    requires task.DeleteStart? || task.DeleteLogin? || task.DeleteRow? || task.DeleteLogout? || task.DeleteRemote?
    ensures var step := DeleteStep(st, task);
      AtMostOne(step.store.world.people) && TokensMove(st.world.people, step.store.world.people)
  {
  }

  lemma VerifyStepAlone(st: Store, task: Task, row: nat)
    requires task.VerifyStart? || task.VerifyCheck? || task.VerifyRemote? || task.VerifyRow?
    ensures var step := VerifyStep(st, task, row);
      && TokensMove(st.world.people, step.store.world.people)
      && (AtMostOne(st.world.people) ==> AtMostOne(step.store.world.people))
      && (step.next.Goto? ==> !step.next.task.ResendIssue?)
  {
    hide TokensMove, AtMostOne;
    SameTokens(st.world.people, VerifyStep(st, task, row).store.world.people);
  }

  lemma AddressStepAlone(st: Store, task: Task)
    requires ChangesAddress(task)
    ensures var step := AddressStep(st, task);
      && TokensMove(st.world.people, step.store.world.people)
      && (AtMostOne(st.world.people) ==> AtMostOne(step.store.world.people))
      && (step.next.Goto? ==> !step.next.task.ResendIssue?)
  {
    hide TokensMove, AtMostOne;
    SameTokens(st.world.people, AddressStep(st, task).store.world.people);
  }

  lemma AdvanceAlone(st: Store, task: Task, row: nat)
    requires Alone(st, task)
    ensures var step := Advance(st, task, row);
      && (step.next.Goto? ==> Alone(step.store, step.next.task))
      && StoreOk(step.store) && PeopleOk(step.store.world.people) && AtMostOne(step.store.world.people)
      && TokensMove(st.world.people, step.store.world.people)
  {
    hide StoreOk, PeopleOk, TaskOk, AtMostOne, TokensMove, HasNone, CreateStep, VerifyStep, TokenStep, DeleteStep,
      AddressStep, Gentle;
    AdvanceOk(st, task, row);
    if task.CreateStart? || task.CreateLookup? || task.CreateRow? {
      CreateStepAlone(st, task, row);
      CreateNeverResends(st, task, row);
    } else if task.VerifyStart? || task.VerifyCheck? || task.VerifyRemote? || task.VerifyRow? {
      VerifyStepAlone(st, task, row);
    } else if task.DeleteStart? || task.DeleteLogin? || task.DeleteRow? || task.DeleteLogout? || task.DeleteRemote? {
      DeleteStepAlone(st, task);
      DeleteNeverResends(st, task);
    } else if ChangesAddress(task) {
      AddressStepAlone(st, task);
    } else {
      TokenStepAlone(st, task);
    }
  }

  lemma SameTokens(p: People, p': People)
    requires p'.tokens == p.tokens && p'.nextToken == p.nextToken
    ensures TokensMove(p, p') && (AtMostOne(p) ==> AtMostOne(p'))
  {
  }

  lemma CreateNeverResends(st: Store, task: Task, row: nat)
    requires task.CreateStart? || task.CreateLookup? || task.CreateRow?
    ensures CreateStep(st, task, row).next.Goto? ==> !CreateStep(st, task, row).next.task.ResendIssue?
  {
  }

  lemma DeleteNeverResends(st: Store, task: Task)
    requires task.DeleteStart? || task.DeleteLogin? || task.DeleteRow? || task.DeleteLogout? || task.DeleteRemote?
    ensures DeleteStep(st, task).next.Goto? ==> !DeleteStep(st, task).next.task.ResendIssue?
  {
  }

  lemma TokensMoveTwice(p: People, q: People, r: People)
    requires TokensMove(p, q) && TokensMove(q, r)
    ensures TokensMove(p, r)
  {
  }

  lemma {:induction false} RunForOk(st: Store, task: Task, row: nat, calls: nat)
    requires Alone(st, task)
    ensures var st' := RunFor(st, task, row, calls).store;
      StoreOk(st') && PeopleOk(st'.world.people) && AtMostOne(st'.world.people) &&
      TokensMove(st.world.people, st'.world.people)
    decreases calls
  {
    hide StoreOk, PeopleOk, TaskOk, HasNone, Advance, AtMostOne, TokensMove;
    if calls == 0 {
      SameTokens(st.world.people, st.world.people);
    } else {
      AdvanceAlone(st, task, row);
      var step := Advance(st, task, row);
      if step.next.Goto? {
        RunForOk(step.store, step.next.task, row, calls - 1);
        TokensMoveTwice(st.world.people, step.store.world.people, RunFor(st, task, row, calls).store.world.people);
      }
    }
  }

  // ---------------------------------------------------------------- whole runs

  ghost predicate StateOk(st: Store) {
    StoreOk(st) && PeopleOk(st.world.people) && AtMostOne(st.world.people)
  }

  lemma AtomicStepOk(st: Store, st': Store)
    requires StateOk(st) && AtomicStep(st, st')
    ensures StateOk(st') && TokensMove(st.world.people, st'.world.people)
  {
    hide PeopleOk, RunFor, AtMostOne;
    if task: Task, row: nat, calls: nat :| IsStart(task) && st' == RunFor(st, task, row, calls).store {
      StartAlone(st, task);
      RunForOk(st, task, row, calls);
    } else {
      SameTokens(st.world.people, st'.world.people);
    }
  }

  lemma StartAlone(st: Store, task: Task)
    requires StateOk(st) && IsStart(task)
    ensures Alone(st, task)
  {
  }

  lemma {:induction false} AtomicRunOk(tr: seq<Store>, i: nat, j: nat)
    requires IsAtomicRun(tr) && i <= j < |tr|
    ensures StateOk(tr[j]) && TokensMove(tr[i].world.people, tr[j].world.people)
    decreases j
  {
    hide StoreOk, PeopleOk, AtMostOne, AtomicStep, TokensMove;
    if j == 0 {
      SameTokens(tr[0].world.people, tr[0].world.people);
    } else if i == j {
      AtomicRunOk(tr, i - 1, j - 1);
      assert AtomicStepAt(tr, j - 1);
      AtomicStepOk(tr[j - 1], tr[j]);
      SameTokens(tr[j].world.people, tr[j].world.people);
    } else {
      AtomicRunOk(tr, i, j - 1);
      assert AtomicStepAt(tr, j - 1);
      AtomicStepOk(tr[j - 1], tr[j]);
      TokensMoveTwice(tr[i].world.people, tr[j - 1].world.people, tr[j].world.people);
    }
  }

  /** Each user has at most one token, so that the unordered lookup of verifyAccount can only return
      the row that confirmPasswordReset finds as the newest. */
  lemma BothLookupsAgree(tr: seq<Store>, j: nat, email: string, row: nat)
    requires IsAtomicRun(tr) && j < |tr|
    ensures AtMostOne(tr[j].world.people)
    ensures IsTokenFor(tr[j].world.people, email, row) ==> NewestTokenFor(tr[j].world.people, email) == Some(row)
  {
    hide StoreOk, AtomicStep, OwnersExist, ReferrersAreOlder, IdsBelow, AuditsOk;
    AtomicRunOk(tr, j, j);
    var p := tr[j].world.people;
    if IsTokenFor(p, email, row) {
      var t := NewestTokenFor(p, email).value;
      assert p.tokens[t].userId == p.tokens[row].userId;
    }
  }

  ghost predicate TokenOf(st: Store, t: nat, u: nat) {
    t in st.world.people.tokens && st.world.people.tokens[t].userId == u
  }

  /** The token a user has is the newest one ever issued to that user. */
  lemma OnlyNewestSurvives(tr: seq<Store>, i: nat, j: nat, u: nat, older: nat, t: nat)
    requires IsAtomicRun(tr) && i <= j < |tr| && TokenOf(tr[i], older, u) && TokenOf(tr[j], t, u)
    ensures older <= t
  {
    hide StoreOk, AtomicStep, OwnersExist, ReferrersAreOlder, UniqueRows, AuditsOk;
    AtomicRunOk(tr, i, j);
    AtomicRunOk(tr, i, i);
  }

  /** Once a newer token has been issued to user `u`, by whichever flow, the plaintext of an older one
      opens nothing in any later state, unless the token the user then has carries it again. */
  lemma OldTokensAreRejected(tr: seq<Store>, i: nat, k: nat, j: nat, u: nat, older: nat, newer: nat, email: string, row: nat)
    requires IsAtomicRun(tr) && i <= k <= j < |tr| && TokenOf(tr[i], older, u) && TokenOf(tr[k], newer, u) && older < newer
    requires forall t :: TokenOf(tr[j], t, u) && older < t ==>
      tr[j].world.people.tokens[t].secret != tr[i].world.people.tokens[older].secret
    requires HasEmail(tr[j].world.people, email, u)
    ensures var secret := tr[i].world.people.tokens[older].secret;
      && VerifyStep(tr[j], VerifyCheck(email, secret, u, tr[j].world.people.users[u].kcId), row).next == End(BadRequest)
      && forall password :: TokenStep(tr[j], ConfirmStart(email, secret, password)).next.End?
  {
    hide StoreOk, AtomicStep, OwnersExist, ReferrersAreOlder, IdsBelow, AuditsOk, IsAtomicRun;
    AtomicRunOk(tr, j, j);
    var p := tr[j].world.people;
    forall t: nat | IsTokenFor(p, email, t)
      ensures p.tokens[t].secret != tr[i].world.people.tokens[older].secret
    {
      assert TokenOf(tr[j], t, u);
      OnlyNewestSurvives(tr, k, j, u, newer, t);
    }
  }

  // ---------------------------------------------------------------- requests in between

  /** Issuing the token of a resend keeps the user to one token exactly when no other request has
      issued one since the old tokens were deleted. */
  lemma ResendKeepsOneIff(st: Store, u: nat, secret: string)
    requires IdsBelow(st.world.people) && AtMostOne(st.world.people) && u in st.world.people.users
    ensures AtMostOne(TokenStep(st, ResendIssue(u, secret)).store.world.people) <==> HasNone(st.world.people, u)
  {
    var p := st.world.people;
    var q := TokenStep(st, ResendIssue(u, secret)).store.world.people;
    if HasNone(p, u) {
      AddTokenAlone(p, Token(u, secret, st.world.now + DAY_MS));
    } else {
      var t :| t in p.tokens && p.tokens[t].userId == u;
      assert q.tokens[t].userId == q.tokens[p.nextToken].userId && t != p.nextToken;
    }
  }

  /** Two resends of one user that overlap leave two tokens, and both plaintexts work. */
  lemma OverlappingResends(st: Store, u: nat, x: string, y: string)
    requires u in st.world.people.users
    ensures var a := TokenStep(st, ResendStart(u, x)).store;
      var b := TokenStep(a, ResendStart(u, y)).store;
      var c := TokenStep(b, ResendIssue(u, x)).store;
      var d := TokenStep(c, ResendIssue(u, y)).store;
      var p := d.world.people;
      !AtMostOne(p) &&
      exists s, t :: s != t && TokenOf(d, s, u) && TokenOf(d, t, u) &&
                     Opens(p.tokens[s], x, d.world.now) && Opens(p.tokens[t], y, d.world.now)
  {
    var a := TokenStep(st, ResendStart(u, x)).store;
    var b := TokenStep(a, ResendStart(u, y)).store;
    var c := TokenStep(b, ResendIssue(u, x)).store;
    var d := TokenStep(c, ResendIssue(u, y)).store;
    var p := d.world.people;
    var s, t := b.world.people.nextToken, c.world.people.nextToken;
    assert TokenOf(d, s, u) && TokenOf(d, t, u) && s != t;
    assert Opens(p.tokens[s], x, d.world.now) && Opens(p.tokens[t], y, d.world.now);
  }
}
