/** Who referred whom. */
module Referrals {
  import opened Common
  import opened Schema
  import opened Accounts
  import opened AccountEffects
  import opened AccountInvariants
  import opened Runs

  function Referred(p: People, a: nat): set<nat> {
    set b | b in p.affiliates && p.affiliates[b].referredBy == Some(a)
  }

  function ReferredWith(p: People, a: nat, active: bool): set<nat> {
    set b | b in p.affiliates && p.affiliates[b].referredBy == Some(a) && p.affiliates[b].active == active
  }

  /** The verified and the unverified referrals are all of them, none counted twice. */
  lemma VerifiedAndUnverified(p: People, a: nat)
    ensures |ReferredWith(p, a, true)| + |ReferredWith(p, a, false)| == |Referred(p, a)|
  {
    assert Referred(p, a) == ReferredWith(p, a, true) + ReferredWith(p, a, false);
    assert ReferredWith(p, a, true) !! ReferredWith(p, a, false);
  }

  // ---------------------------------------------------------------- totals

  ghost function Pick(s: set<nat>): nat
    requires s != {}
  {
    var x :| x in s; x
  }

  /** The numbers of referrals of the affiliates in `s`, added up. */
  ghost function TotalReferred(p: People, s: set<nat>): nat {
    if s == {} then 0 else |Referred(p, Pick(s))| + TotalReferred(p, s - {Pick(s)})
  }

  function ReferredByAny(p: People, s: set<nat>): set<nat> {
    set b | b in p.affiliates && p.affiliates[b].referredBy.Some? && p.affiliates[b].referredBy.value in s
  }

  lemma {:induction false} TotalIsUnion(p: People, s: set<nat>)
    ensures TotalReferred(p, s) == |ReferredByAny(p, s)|
    decreases |s|
  {
    if s == {} {
      assert ReferredByAny(p, s) == {};
    } else {
      var a := Pick(s);
      TotalIsUnion(p, s - {a});
      assert ReferredByAny(p, s) == Referred(p, a) + ReferredByAny(p, s - {a});
      assert Referred(p, a) !! ReferredByAny(p, s - {a});
    }
  }

  function Unreferred(p: People): set<nat> {
    set b | b in p.affiliates && p.affiliates[b].referredBy == None
  }

  lemma ReferredOrNot(p: People)
    requires OwnersExist(p)
    ensures p.affiliates.Keys == ReferredByAny(p, p.affiliates.Keys) + Unreferred(p)
    ensures ReferredByAny(p, p.affiliates.Keys) !! Unreferred(p)
  {
    forall a | a in p.affiliates.Keys ensures a in ReferredByAny(p, p.affiliates.Keys) + Unreferred(p) {
      assert ReferrerExists(p, p.affiliates[a].referredBy);
    }
  }

  /** Every affiliate is either unreferred or counted once by exactly one existing referrer. */
  lemma ReferralsAddUp(p: People)
    requires OwnersExist(p)
    ensures TotalReferred(p, p.affiliates.Keys) + |Unreferred(p)| == |p.affiliates|
  {
    hide OwnersExist, TotalReferred, ReferredByAny, Unreferred;
    TotalIsUnion(p, p.affiliates.Keys);
    ReferredOrNot(p);
    assert |ReferredByAny(p, p.affiliates.Keys) + Unreferred(p)| ==
      |ReferredByAny(p, p.affiliates.Keys)| + |Unreferred(p)|;
    assert |p.affiliates.Keys| == |p.affiliates|;
  }

  // ---------------------------------------------------------------- a forest

  /** `path` leads from each affiliate to its referrer. */
  ghost predicate IsChain(p: People, path: seq<nat>) {
    && (forall i :: 0 <= i < |path| ==> path[i] in p.affiliates)
    && (forall i :: 0 <= i < |path| - 1 ==> p.affiliates[path[i]].referredBy == Some(path[i + 1]))
  }

  lemma {:induction false} ChainsDescend(p: People, path: seq<nat>, i: nat, j: nat)
    requires PeopleOk(p) && IsChain(p, path) && i < j < |path|
    ensures path[j] + (j - i) <= path[i]
    decreases j
  {
    assert p.affiliates[path[j - 1]].referredBy == Some(path[j - 1 + 1]);
    if i < j - 1 {
      ChainsDescend(p, path, i, j - 1);
    }
  }

  /** In every reachable state every chain of referrals ends after at most as many steps as the id of
      its first affiliate, and never returns to an affiliate it passed. */
  lemma ReferralsAreAForest(tr: seq<Sys>, k: nat, path: seq<nat>)
    requires IsRun(tr) && k < |tr| && IsChain(PeopleAt(tr, k), path) && path != []
    ensures |path| <= path[0] + 1
    ensures forall i, j :: 0 <= i < j < |path| ==> path[i] != path[j]
  {
    RunOk(tr, k);
    hide SysOk, PeopleOk, StepTo;
    PeopleOkAt(tr, k);
    if |path| > 1 {
      ChainsDescend(PeopleAt(tr, k), path, 0, |path| - 1);
    }
    forall i, j | 0 <= i < j < |path| ensures path[i] != path[j] {
      ChainsDescend(PeopleAt(tr, k), path, i, j);
    }
  }

  lemma PeopleOkAt(tr: seq<Sys>, k: nat)
    requires IsRun(tr) && k < |tr|
    ensures PeopleOk(PeopleAt(tr, k))
  {
    hide PeopleOk, StoreOk, TasksOk, StepTo;
    RunOk(tr, k);
  }

  /** In every reachable state the numbers of referrals add up to all affiliates. */
  lemma ReferralTotals(tr: seq<Sys>, k: nat)
    requires IsRun(tr) && k < |tr|
    ensures var p := PeopleAt(tr, k);
      && TotalReferred(p, p.affiliates.Keys) + |Unreferred(p)| == |p.affiliates|
      && forall a :: |ReferredWith(p, a, true)| + |ReferredWith(p, a, false)| == |Referred(p, a)|
  {
    hide OwnersExist, ReferrersAreOlder, UniqueRows, IdsBelow, AuditsOk, StepTo, TotalReferred;
    PeopleOkAt(tr, k);
    ReferralsAddUp(PeopleAt(tr, k));
    forall a: nat ensures var p := PeopleAt(tr, k);
      |ReferredWith(p, a, true)| + |ReferredWith(p, a, false)| == |Referred(p, a)|
    {
      VerifiedAndUnverified(PeopleAt(tr, k), a);
    }
  }

  // ---------------------------------------------------------------- how the counts move

  lemma NewReferral(p: People, email: string, kcId: nat, code: string, r: nat, secret: string, now: nat, a: nat)
    requires IdsBelow(p)
    ensures var p' := WithAffiliate(p, email, kcId, code, Some(r), secret, now);
      && |ReferredWith(p', a, false)| == |ReferredWith(p, a, false)| + (if a == r then 1 else 0)
      && ReferredWith(p', a, true) == ReferredWith(p, a, true)
  {
    var p' := WithAffiliate(p, email, kcId, code, Some(r), secret, now);
    assert p.nextAffiliate !in p.affiliates;
    assert ReferredWith(p', a, false) == ReferredWith(p, a, false) + if a == r then {p.nextAffiliate} else {};
    assert ReferredWith(p', a, true) == ReferredWith(p, a, true);
  }

  /** A registration with the code of affiliate `r` adds one unverified referral to `r`, and changes the
      counts of nobody else. */
  lemma RegistrationCounts(st: Store, code: string, ref: string, secret: string, email: string, password: string,
      r: nat, a: nat)
    requires PeopleOk(st.world.people) && HasCode(st.world.people, ref, r) && !AddressTaken(st.world.people, email)
    ensures var p := st.world.people;
      var p' := RunFor(st, CreateStart(AffiliateAccount(code, Some(ref), secret), email, password), r, 3).store.world.people;
      && |ReferredWith(p', a, false)| == |ReferredWith(p, a, false)| + (if a == r then 1 else 0)
      && ReferredWith(p', a, true) == ReferredWith(p, a, true)
  {
    hide RunFor, ReferredWith;
    ReferredRegistration(st, code, ref, secret, email, password, r);
    NewReferral(st.world.people, email, st.nextKc, code, r, secret, st.world.now, a);
  }

  lemma ActivatedReferral(p: People, p': People, b: nat, a: nat)
    requires b in p.affiliates && !p.affiliates[b].active
    requires p'.affiliates == p.affiliates[b := p.affiliates[b].(active := true)]
    ensures var moved := if p.affiliates[b].referredBy == Some(a) then 1 else 0;
      && |ReferredWith(p', a, true)| == |ReferredWith(p, a, true)| + moved
      && |ReferredWith(p', a, false)| == |ReferredWith(p, a, false)| - moved
  {
    if p.affiliates[b].referredBy == Some(a) {
      assert ReferredWith(p', a, true) == ReferredWith(p, a, true) + {b};
      assert ReferredWith(p, a, false) == ReferredWith(p', a, false) + {b};
    } else {
      assert ReferredWith(p', a, true) == ReferredWith(p, a, true);
      assert ReferredWith(p', a, false) == ReferredWith(p, a, false);
    }
  }

  /** A verification turns one unverified referral of the user's referrer into a verified one. */
  lemma VerificationCounts(st: Store, email: string, secret: string, row: nat, u: nat, b: nat, a: nat)
    requires UniqueRows(st.world.people) && HasEmail(st.world.people, email, u) && IsAffiliateOf(st.world.people, u, b)
    requires st.world.people.users[u].kcId in st.kc
    requires !st.world.people.affiliates[b].active && IsGoodToken(st, email, secret, row)
    ensures var p, p' := st.world.people, RunFor(st, VerifyStart(email, secret), row, 4).store.world.people;
      var moved := if p.affiliates[b].referredBy == Some(a) then 1 else 0;
      && |ReferredWith(p', a, true)| == |ReferredWith(p, a, true)| + moved
      && |ReferredWith(p', a, false)| == |ReferredWith(p, a, false)| - moved
  {
    hide RunFor, ReferredWith, UniqueRows;
    VerificationRuns(st, email, secret, row, u, b);
    ActivatedReferral(st.world.people, RunFor(st, VerifyStart(email, secret), row, 4).store.world.people, b, a);
  }
}
