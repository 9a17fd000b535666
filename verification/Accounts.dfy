/** The account requests, split at every call to Keycloak or to the database. Each step is one such
    call; between two steps other requests run, and a request may stop after any of them. */
module Accounts {
  import opened Common
  import opened Schema

  const DAY_MS: int := 24 * 60 * 60 * 1000
  const QUARTER_HOUR_MS: int := 15 * 60 * 1000

  datatype KcUser = KcUser(email: string, emailVerified: bool, password: string)

  /** The local database together with Keycloak, which gives out ids of its own. */
  datatype Store = Store(world: World, kc: map<nat, KcUser>, nextKc: nat)

  /** Sellers and platform managers have no affiliate row and a verified address from the start. */
  datatype Kind =
    | AffiliateAccount(code: string, referrerCode: Option<string>, secret: string)
    | PlainAccount

  /** Where a request stands, with what it has read so far. */
  datatype Task =
    // createAffiliateUser, createSellerUser, createPlatformManager
    | CreateStart(kind: Kind, email: string, password: string)
    | CreateLookup(kind: Kind, email: string, kcId: nat)
    | CreateRow(kind: Kind, email: string, kcId: nat, referrer: Option<nat>)
    // verifyAccount
    | VerifyStart(email: string, secret: string)
    | VerifyCheck(email: string, secret: string, userId: nat, kcId: nat)
    | VerifyRemote(userId: nat, kcId: nat)
    | VerifyRow(userId: nat, kcId: nat)
    // sendResetPasswordToken
    | ResetStart(email: string, secret: string)
    | ResetIssue(userId: nat, secret: string)
    // confirmPasswordReset
    | ConfirmStart(email: string, secret: string, password: string)
    | ConfirmRemote(kcId: nat, password: string)
    // resendAffiliateVerificationLink
    | ResendStart(userId: nat, secret: string)
    | ResendIssue(userId: nat, secret: string)
    // deleteUserAccount
    | DeleteStart(userId: nat, password: string)
    | DeleteLogin(userId: nat, kcId: nat, password: string)
    | DeleteRow(userId: nat, kcId: nat)
    | DeleteLogout(kcId: nat)
    | DeleteRemote(kcId: nat)
    // updateUserEmail: the caller's password is checked, user `userId` gets the address
    | AddressStart(callerKc: nat, password: string, userId: nat, email: string)
    | AddressLogin(callerKc: nat, password: string, userId: nat, email: string)
    | AddressRead(userId: nat, email: string)
    | AddressRemote(userId: nat, kcId: nat, email: string)
    | AddressRow(userId: nat, kcId: nat, email: string)

  predicate IsStart(task: Task) {
    task.CreateStart? || task.VerifyStart? || task.ResetStart? || task.ConfirmStart? ||
    task.ResendStart? || task.DeleteStart? || task.AddressStart?
  }

  datatype Next = Goto(task: Task) | End(reply: Reply)

  datatype Step = Step(store: Store, next: Next)

  // ---------------------------------------------------------------- lookups

  ghost function UserByEmail(p: People, email: string): (r: Option<nat>)
    ensures r.Some? ==> HasEmail(p, email, r.value)
    ensures r.None? ==> forall u :: !HasEmail(p, email, u)
  {
    if u :| HasEmail(p, email, u) then Some(u) else None
  }

  ghost predicate IsAffiliateOf(p: People, userId: nat, a: nat) {
    a in p.affiliates && p.affiliates[a].userId == userId
  }

  ghost function AffiliateOf(p: People, userId: nat): (r: Option<nat>)
    ensures r.Some? ==> IsAffiliateOf(p, userId, r.value)
    ensures r.None? ==> forall a :: !IsAffiliateOf(p, userId, a)
  {
    if a :| IsAffiliateOf(p, userId, a) then Some(a) else None
  }

  /** A token whose owner has this address: `where: { user: { email } }`. */
  ghost predicate IsTokenFor(p: People, email: string, t: nat) {
    t in p.tokens && HasEmail(p, email, p.tokens[t].userId)
  }

  ghost predicate IsNewestTokenFor(p: People, email: string, t: nat) {
    IsTokenFor(p, email, t) && forall u: nat :: IsTokenFor(p, email, u) ==> u <= t
  }

  ghost function NewestTokenFor(p: People, email: string): (r: Option<nat>)
    ensures r.Some? ==> IsNewestTokenFor(p, email, r.value)
    ensures r.None? ==> forall t :: !IsTokenFor(p, email, t)
  {
    if t :| IsTokenFor(p, email, t) then
      var s := set u | u in p.tokens && IsTokenFor(p, email, u);
      assert t in s && forall u: nat :: IsTokenFor(p, email, u) ==> u in s;
      LargestExistsIn(s);
      var x :| IsLargest(s, x);
      Some(x)
    else None
  }

  ghost predicate HasCode(p: People, code: string, a: nat) {
    a in p.affiliates && p.affiliates[a].code == code
  }

  /** A token opens the account while `now` is not after its expiry. */
  predicate Opens(token: Token, secret: string, now: int) {
    now <= token.expiresAt && token.secret == secret
  }

  // ---------------------------------------------------------------- writes

  function WithoutTokensOf(p: People, userId: nat): People {
    p.(tokens := map t | t in p.tokens && p.tokens[t].userId != userId :: p.tokens[t])
  }

  function AddToken(p: People, token: Token): People {
    p.(tokens := p.tokens[p.nextToken := token], nextToken := p.nextToken + 1)
  }

  function InsertUser(p: People, user: User): People {
    p.(users := p.users[p.nextUser := user], nextUser := p.nextUser + 1)
  }

  function InsertAffiliate(p: People, affiliate: Affiliate): People {
    p.(affiliates := p.affiliates[p.nextAffiliate := affiliate], nextAffiliate := p.nextAffiliate + 1)
  }

  /** The nested insert of the create flows: user, and for affiliates also affiliate and token. */
  function AddUser(p: People, kind: Kind, email: string, kcId: nat, referrer: Option<nat>, now: int): People {
    var u, q := p.nextUser, InsertUser(p, User(email, kcId));
    match kind
    case PlainAccount => q
    case AffiliateAccount(code, _, secret) =>
      AddToken(InsertAffiliate(q, Affiliate(u, code, false, referrer)), Token(u, secret, now + DAY_MS))
  }

  function Activated(p: People, a: nat): People
    requires a in p.affiliates
  {
    p.(affiliates := p.affiliates[a := p.affiliates[a].(active := true)])
  }

  function WithAddress(p: People, u: nat, email: string): People
    requires u in p.users
  {
    p.(users := p.users[u := p.users[u].(email := email)])
  }

  predicate ReferrerExists(p: People, referrer: Option<nat>) {
    referrer.Some? ==> referrer.value in p.affiliates
  }

  // ---------------------------------------------------------------- one step of a request

  ghost function CreateStep(st: Store, task: Task, row: nat): Step
    requires task.CreateStart? || task.CreateLookup? || task.CreateRow?
  {
    var p := st.world.people;
    match task
    case CreateStart(kind, email, password) =>
      var k := st.nextKc;
      Step(st.(kc := st.kc[k := KcUser(email, kind.PlainAccount?, password)], nextKc := k + 1),
           Goto(if kind.PlainAccount? then CreateRow(kind, email, k, None) else CreateLookup(kind, email, k)))
    case CreateLookup(kind, email, k) =>
      var found := kind.AffiliateAccount? && kind.referrerCode.Some? && HasCode(p, kind.referrerCode.value, row);
      Step(st, Goto(CreateRow(kind, email, k, if found then Some(row) else None)))
    case CreateRow(kind, email, k, referrer) =>
      if UserByEmail(p, email).Some? || !ReferrerExists(p, referrer) then Step(st, End(Rejected))
      else Step(st.(world := st.world.(people := AddUser(p, kind, email, k, referrer, st.world.now))), End(Done))
  }

  ghost function VerifyStep(st: Store, task: Task, row: nat): Step
    requires task.VerifyStart? || task.VerifyCheck? || task.VerifyRemote? || task.VerifyRow?
  {
    var p := st.world.people;
    match task
    case VerifyStart(email, secret) =>
      (match UserByEmail(p, email)
       case None => Step(st, End(TypeError))
       case Some(u) =>
         match AffiliateOf(p, u)
         case None => Step(st, End(TypeError))
         case Some(a) =>
           if p.affiliates[a].active then Step(st, End(Done))
           else Step(st, Goto(VerifyCheck(email, secret, u, p.users[u].kcId))))
    case VerifyCheck(email, secret, u, k) =>
      if IsTokenFor(p, email, row) && Opens(p.tokens[row], secret, st.world.now) then Step(st, Goto(VerifyRemote(u, k)))
      else Step(st, End(BadRequest))
    case VerifyRemote(u, k) =>
      if k !in st.kc then Step(st, End(RemoteFailure))
      else Step(st.(kc := st.kc[k := st.kc[k].(emailVerified := true)]), Goto(VerifyRow(u, k)))
    case VerifyRow(u, k) =>
      match AffiliateOf(p, u)
      case None => Step(st, End(NotFound))
      case Some(a) =>
        Step(st.(world := st.world.(people := Activated(p, a))), End(Done))
  }

  ghost function TokenStep(st: Store, task: Task): Step
    requires task.ResetStart? || task.ResetIssue? || task.ConfirmStart? || task.ConfirmRemote? ||
      task.ResendStart? || task.ResendIssue?
  {
    var p, now := st.world.people, st.world.now;
    match task
    case ResetStart(email, secret) =>
      (match UserByEmail(p, email)
       case None => Step(st, End(BadRequest))
       case Some(u) => Step(st, Goto(ResetIssue(u, secret))))
    case ResetIssue(u, secret) =>
      if u !in p.users then Step(st, End(Rejected))
      else Step(st.(world := st.world.(people :=
        AddToken(WithoutTokensOf(p, u), Token(u, secret, now + QUARTER_HOUR_MS)))), End(Done))
    case ConfirmStart(email, secret, password) =>
      (match NewestTokenFor(p, email)
       case None => Step(st, End(TypeError))
       case Some(t) =>
         if Opens(p.tokens[t], secret, now) then
           Step(st, Goto(ConfirmRemote(p.users[p.tokens[t].userId].kcId, password)))
         else Step(st, End(BadRequest)))
    case ConfirmRemote(k, password) =>
      if k !in st.kc then Step(st, End(RemoteFailure))
      else Step(st.(kc := st.kc[k := st.kc[k].(password := password)]), End(Done))
    case ResendStart(u, secret) =>
      Step(st.(world := st.world.(people := WithoutTokensOf(p, u))), Goto(ResendIssue(u, secret)))
    case ResendIssue(u, secret) =>
      if u !in p.users then Step(st, End(Rejected))
      else Step(st.(world := st.world.(people := AddToken(p, Token(u, secret, now + DAY_MS)))), End(Done))
  }

  ghost function DeleteStep(st: Store, task: Task): Step
    requires task.DeleteStart? || task.DeleteLogin? || task.DeleteRow? || task.DeleteLogout? || task.DeleteRemote?
  {
    var p := st.world.people;
    match task
    case DeleteStart(u, password) =>
      if u !in p.users then Step(st, End(NotFound))
      else Step(st, Goto(DeleteLogin(u, p.users[u].kcId, password)))
    case DeleteLogin(u, k, password) =>
      if k in st.kc && st.kc[k].password == password then Step(st, Goto(DeleteRow(u, k)))
      else Step(st, End(BadRequest))
    case DeleteRow(u, k) =>
      if u !in p.users then Step(st, End(NotFound))
      else Step(st.(world := DeleteUser(st.world, u)), Goto(DeleteLogout(k)))
    case DeleteLogout(k) =>
      if k !in st.kc then Step(st, End(RemoteFailure)) else Step(st, Goto(DeleteRemote(k)))
    case DeleteRemote(k) =>
      if k !in st.kc then Step(st, End(RemoteFailure))
      else Step(st.(kc := st.kc - {k}), End(Done))
  }

  predicate ChangesAddress(task: Task) {
    task.AddressStart? || task.AddressLogin? || task.AddressRead? || task.AddressRemote? || task.AddressRow?
  }

  ghost function AddressStep(st: Store, task: Task): Step
    requires ChangesAddress(task)
  {
    var p := st.world.people;
    match task
    case AddressStart(callerKc, password, u, email) =>
      if UserByEmail(p, email).Some? then Step(st, End(BadRequest))
      else Step(st, Goto(AddressLogin(callerKc, password, u, email)))
    case AddressLogin(callerKc, password, u, email) =>
      if callerKc in st.kc && st.kc[callerKc].password == password then Step(st, Goto(AddressRead(u, email)))
      else Step(st, End(BadRequest))
    case AddressRead(u, email) =>
      if u !in p.users then Step(st, End(NotFound))
      else if AffiliateOf(p, u).None? then Step(st, End(TypeError))
      else Step(st, Goto(AddressRemote(u, p.users[u].kcId, email)))
    case AddressRemote(u, k, email) =>
      if k !in st.kc then Step(st, End(RemoteFailure))
      else Step(st.(kc := st.kc[k := st.kc[k].(email := email)]), Goto(AddressRow(u, k, email)))
    case AddressRow(u, k, email) =>
      if u !in p.users || AffiliateOf(p, u).None? then Step(st, End(NotFound))
      else if UserByEmail(p, email).Some? && UserByEmail(p, email) != Some(u) then Step(st, End(Rejected))
      else Step(st.(world := st.world.(people := WithAddress(p, u, email))), End(Done))
  }

  /** One step of any request. `row` is the row that a lookup without an order returned. */
  ghost function Advance(st: Store, task: Task, row: nat): Step {
    if task.CreateStart? || task.CreateLookup? || task.CreateRow? then CreateStep(st, task, row)
    else if task.VerifyStart? || task.VerifyCheck? || task.VerifyRemote? || task.VerifyRow? then VerifyStep(st, task, row)
    else if task.DeleteStart? || task.DeleteLogin? || task.DeleteRow? || task.DeleteLogout? || task.DeleteRemote? then
      DeleteStep(st, task)
    else if ChangesAddress(task) then AddressStep(st, task)
    else TokenStep(st, task)
  }

  /** A lookup returns a matching row when there is one. */
  ghost predicate LookupOk(st: Store, task: Task, row: nat) {
    var p := st.world.people;
    match task
    case CreateLookup(AffiliateAccount(_, Some(code), _), _, _) =>
      (exists a :: HasCode(p, code, a)) ==> HasCode(p, code, row)
    case VerifyCheck(email, _, _, _) => (exists t :: IsTokenFor(p, email, t)) ==> IsTokenFor(p, email, row)
    case _ => true
  }

  /** A request that nothing interrupts for `calls` calls, unless it ends before. `row` is what its one
      unordered lookup returns. */
  ghost function RunFor(st: Store, task: Task, row: nat, calls: nat): Step
    decreases calls
  {
    if calls == 0 then Step(st, Goto(task))
    else
      var step := Advance(st, task, row);
      if step.next.Goto? then RunFor(step.store, step.next.task, row, calls - 1) else step
  }
}
