/** Keycloak users without a local user: where they come from, and that they stay. */
module Orphans {
  import opened Common
  import opened Schema
  import opened Accounts
  import opened AccountInvariants
  import opened PaymentInvariants
  import opened Payments
  import opened Runs
  import opened AccountTheorems

  ghost predicate IsOrphan(st: Store, k: nat) {
    k in st.kc && NobodyHas(st.world.people, k)
  }

  // ---------------------------------------------------------------- one request on its own

  /** How many calls a create flow makes. */
  function CreateCalls(kind: Kind): nat {
    if kind.PlainAccount? then 2 else 3
  }

  /** Once a creation has begun, the Keycloak user it makes is left without a local user exactly when
      one of its later calls is not reached or the address is already taken. */
  lemma OrphanLeftIff(st: Store, kind: Kind, email: string, password: string, row: nat, calls: nat)
    requires StoreOk(st) && calls > 0
    ensures var run := RunFor(st, CreateStart(kind, email, password), row, calls);
      && st.nextKc in run.store.kc
      && (NobodyHas(run.store.world.people, st.nextKc) <==>
           calls < CreateCalls(kind) || exists u :: HasEmail(st.world.people, email, u))
  {
    hide StoreOk, AddUser;
    FreshKc(st);
    var a := Accounts.Advance(st, CreateStart(kind, email, password), row);
    var b := Accounts.Advance(a.store, a.next.task, row);
    assert RunFor(st, CreateStart(kind, email, password), row, calls) == RunFor(a.store, a.next.task, row, calls - 1);
    if calls > 1 {
      if kind.AffiliateAccount? {
        assert RunFor(a.store, a.next.task, row, calls - 1) == RunFor(b.store, b.next.task, row, calls - 2);
        if calls > 2 {
          RowEnds(b.store, b.next.task, row, calls - 2);
        }
      } else {
        RowEnds(a.store, a.next.task, row, calls - 1);
      }
    }
  }

  /** With other requests in between, the last call leaves the Keycloak user alone exactly when the
      address has been taken or the referrer has been deleted by then. */
  lemma OrphanAtRowIff(st: Store, task: Task, row: nat)
    requires task.CreateRow? && NobodyHas(st.world.people, task.kcId)
    ensures var step := Accounts.Advance(st, task, row);
      && step.next.End? && step.store.kc == st.kc
      && (NobodyHas(step.store.world.people, task.kcId) <==>
           UserByEmail(st.world.people, task.email).Some? || !ReferrerExists(st.world.people, task.referrer))
  {
    RowEnds(st, task, row, 1);
  }

  /** A platform manager whose creation stops after the call to Keycloak. */
  lemma OneOrphan()
    ensures StoreOk(NO_STORE)
    ensures var st := RunFor(NO_STORE, CreateStart(PlainAccount, "admin", "secret"), 0, 1).store;
      st.kc == map[0 := KcUser("admin", true, "secret")] && st.world.people.users == map[]
  {
  }

  lemma FreshKc(st: Store)
    requires StoreOk(st)
    ensures NobodyHas(st.world.people, st.nextKc)
  {
  }

  lemma RowEnds(st: Store, task: Task, row: nat, calls: nat)
    requires task.CreateRow? && calls > 0 && NobodyHas(st.world.people, task.kcId)
    ensures var run, p := RunFor(st, task, row, calls), st.world.people;
      && run.next.End? && run.store.kc == st.kc && run == Accounts.Advance(st, task, row)
      && (NobodyHas(run.store.world.people, task.kcId) <==>
           UserByEmail(p, task.email).Some? || !ReferrerExists(p, task.referrer))
  {
    var run := RunFor(st, task, row, calls);
    var p' := AddUser(st.world.people, task.kind, task.email, task.kcId, task.referrer, st.world.now);
    assert p'.users[st.world.people.nextUser].kcId == task.kcId;
    if run.next == End(Done) {
      assert run.store.world.people == p';
    }
  }

  lemma RowDeleted(st: Store, u: nat, password: string, row: nat, calls: nat)
    requires StoreOk(st) && u in st.world.people.users
    ensures var k, run := st.world.people.users[u].kcId, RunFor(st, DeleteStart(u, password), row, calls);
      if calls < 3 || st.kc[k].password != password then run.store == st
      else run == RunFor(st.(world := DeleteUser(st.world, u)), DeleteLogout(k), row, calls - 3)
  {
    hide DeleteUser;
    var k := st.world.people.users[u].kcId;
    if calls >= 1 {
      assert RunFor(st, DeleteStart(u, password), row, calls) == RunFor(st, DeleteLogin(u, k, password), row, calls - 1);
      if calls >= 2 && st.kc[k].password == password {
        assert RunFor(st, DeleteLogin(u, k, password), row, calls - 1) == RunFor(st, DeleteRow(u, k), row, calls - 2);
      }
    }
  }

  lemma KeycloakDeleted(st: Store, k: nat, row: nat, calls: nat)
    requires k in st.kc
    ensures RunFor(st, DeleteLogout(k), row, calls).store == if calls < 2 then st else st.(kc := st.kc - {k})
  {
    if calls >= 1 {
      assert RunFor(st, DeleteLogout(k), row, calls) == RunFor(st, DeleteRemote(k), row, calls - 1);
    }
  }

  lemma RowLeavesOrphan(st: Store, u: nat)
    requires StoreOk(st) && u in st.world.people.users
    ensures var k, gone := st.world.people.users[u].kcId, st.(world := DeleteUser(st.world, u));
      && k in gone.kc && !IsOrphan(st, k) && IsOrphan(gone, k) && !IsOrphan(gone.(kc := gone.kc - {k}), k)
  {
  }

  /** A deletion leaves the Keycloak user of the deleted row behind exactly when it has the right
      password and stops between the row and Keycloak: the row goes with the third call, the Keycloak
      user with the fifth. */
  lemma OrphanLeftByDeletionIff(st: Store, u: nat, password: string, row: nat, calls: nat)
    requires StoreOk(st) && u in st.world.people.users
    ensures var k, run := st.world.people.users[u].kcId, RunFor(st, DeleteStart(u, password), row, calls);
      IsOrphan(run.store, k) <==> st.kc[k].password == password && (calls == 3 || calls == 4)
  {
    hide StoreOk, DeleteUser, IsOrphan, RunFor;
    var k := st.world.people.users[u].kcId;
    var gone := st.(world := DeleteUser(st.world, u));
    RowDeleted(st, u, password, row, calls);
    RowLeavesOrphan(st, u);
    if calls >= 3 {
      KeycloakDeleted(gone, k, row, calls - 3);
    }
  }

  /** A platform manager who is created and whose deletion stops before Keycloak. */
  lemma OneDeletedOrphan()
    ensures var created := RunFor(NO_STORE, CreateStart(PlainAccount, "admin", "secret"), 0, 2).store;
      var deleted := RunFor(created, DeleteStart(0, "secret"), 0, 3).store;
      && created.world.people.users == map[0 := User("admin", 0)]
      && deleted.world.people.users == map[] && IsOrphan(deleted, 0)
  {
    hide DeleteUser;
    var start := RunFor(NO_STORE, CreateStart(PlainAccount, "admin", "secret"), 0, 1);
    assert forall u: nat :: !HasEmail(NO_STORE.world.people, "admin", u);
    var created := RunFor(NO_STORE, CreateStart(PlainAccount, "admin", "secret"), 0, 2).store;
    assert created == Accounts.Advance(start.store, CreateRow(PlainAccount, "admin", 0, None), 0).store;
    RowDeleted(created, 0, "secret", 0, 3);
    NoUserLeft(created.world, 0);
  }

  lemma NoUserLeft(w: World, u: nat)
    requires w.people.users.Keys == {u}
    ensures DeleteUser(w, u).people.users == map[]
  {
  }

  // ---------------------------------------------------------------- whole runs

  /** A creation or deletion in progress holds the Keycloak user. */
  predicate Holds(task: Task, k: nat) {
    (IsCreating(task) || IsRemoving(task)) && HeldKc(task) == Some(k)
  }

  ghost predicate InHand(s: Sys, k: nat) {
    exists pid :: pid in s.tasks && Holds(s.tasks[pid], k)
  }

  /** Nobody has the Keycloak user, and no request is about to change that. */
  ghost predicate IsAbandoned(s: Sys, k: nat) {
    IsOrphan(s.store, k) && !InHand(s, k)
  }

  /** Between the two points a creation or deletion that held the Keycloak user stopped or failed. */
  ghost predicate Abandons(s: Sys, s': Sys, k: nat) {
    exists pid :: pid in s.tasks && Holds(s.tasks[pid], k) && pid !in s'.tasks && IsAbandoned(s', k)
  }

  ghost predicate AbandonsAt(tr: seq<Sys>, i: nat, k: nat)
    requires i + 1 < |tr|
  {
    Abandons(tr[i], tr[i + 1], k)
  }

  lemma AdvanceHolds(st: Store, task: Task, row: nat, k: nat)
    requires Holds(task, k)
    ensures Accounts.Advance(st, task, row).next.Goto? ==> Holds(Accounts.Advance(st, task, row).next.task, k)
  {
  }

  lemma AdvanceRemoves(st: Store, task: Task, row: nat, k: nat)
    requires Accounts.Advance(st, task, row).next.Goto? && IsRemoving(Accounts.Advance(st, task, row).next.task)
    ensures task.DeleteLogout? || (task.DeleteRow? && task.userId in st.world.people.users)
    ensures HeldKc(Accounts.Advance(st, task, row).next.task) == HeldKc(task)
  {
  }

  /** A request takes hold of a Keycloak user only when it makes it or deletes its local user. */
  lemma AdvanceTakesHold(st: Store, task: Task, row: nat, k: nat)
    requires StoreOk(st) && PeopleOk(st.world.people) && TaskOk(st, task) && IsOrphan(st, k)
    requires Accounts.Advance(st, task, row).next.Goto? && Holds(Accounts.Advance(st, task, row).next.task, k)
    ensures Holds(task, k)
  {
    hide Accounts.Advance, PeopleOk, Gentle;
    AdvanceOk(st, task, row);
    if IsRemoving(Accounts.Advance(st, task, row).next.task) {
      AdvanceRemoves(st, task, row, k);
    }
  }

  lemma AdvanceAdds(st: Store, task: Task, row: nat, k: nat)
    requires k in Accounts.Advance(st, task, row).store.kc && k !in st.kc
    ensures Accounts.Advance(st, task, row).next.Goto? && Holds(Accounts.Advance(st, task, row).next.task, k)
  {
  }

  lemma RowGoes(st: Store, task: Task, row: nat)
    requires task.DeleteRow? && task.userId in st.world.people.users
    ensures Accounts.Advance(st, task, row).next == Goto(DeleteLogout(task.kcId))
  {
    hide DeleteUser;
  }

  /** A new orphan is in the hands of the request that made it. */
  lemma AdvanceOrphans(st: Store, task: Task, row: nat, k: nat)
    requires StoreOk(st) && PeopleOk(st.world.people) && TaskOk(st, task)
    requires IsOrphan(Accounts.Advance(st, task, row).store, k)
    ensures IsOrphan(st, k) ||
      (Accounts.Advance(st, task, row).next.Goto? && Holds(Accounts.Advance(st, task, row).next.task, k))
  {
    hide Accounts.Advance, PeopleOk, StoreOk, NextOk;
    var p, p' := st.world.people, Accounts.Advance(st, task, row).store.world.people;
    AdvanceOk(st, task, row);
    AdvanceMoves(st, task, row);
    if k !in st.kc {
      AdvanceAdds(st, task, row, k);
    } else if u :| u in p.users && p.users[u].kcId == k {
      assert u !in p'.users;
      assert p'.audits == p.audits + [u];
      assert p'.audits[|p.audits|] == u;
      RowGoes(st, task, row);
    }
  }

  // the steps of the system

  lemma HoldsOrGone(s: Sys, s': Sys, pid: nat, k: nat)
    requires SysOk(s) && StepTo(s, s') && pid in s.tasks && Holds(s.tasks[pid], k)
    ensures pid !in s'.tasks || Holds(s'.tasks[pid], k)
  {
    hide SysOk, Accounts.Advance, Handle, Possible, Holds;
    var a :| Allowed(s, a) && s' == Perform(s, a);
    if a.Continue? && a.pid == pid {
      AdvanceHolds(s.store, s.tasks[pid], a.row, k);
    }
  }

  lemma AbandonedStays(s: Sys, s': Sys, k: nat)
    requires SysOk(s) && StepTo(s, s') && IsAbandoned(s, k)
    ensures IsAbandoned(s', k)
  {
    hide Inv, PeopleOk, StoreOk, Apart, StepTo, Accounts.Advance, LookupOk;
    StepIsContinueOrQuiet(s, s');
    if pid: nat, row: nat :| Continues(s, s', pid, row) {
      var task := s.tasks[pid];
      ContinueMoves(s, s', pid, row);
      assert !Holds(task, k);
      forall q | q in s'.tasks ensures !Holds(s'.tasks[q], k) {
        if q == pid && Holds(s'.tasks[q], k) {
          AdvanceTakesHold(s.store, task, row, k);
        }
      }
    }
  }

  lemma OrphanArises(s: Sys, s': Sys, k: nat)
    requires SysOk(s) && StepTo(s, s') && IsOrphan(s'.store, k)
    ensures IsOrphan(s.store, k) || InHand(s', k)
  {
    hide Inv, PeopleOk, StoreOk, Apart, StepTo, Accounts.Advance, LookupOk, TaskOk, Holds;
    StepIsContinueOrQuiet(s, s');
    if pid: nat, row: nat :| Continues(s, s', pid, row) {
      AdvanceOrphans(s.store, s.tasks[pid], row, k);
      if !IsOrphan(s.store, k) {
        assert pid in s'.tasks && Holds(s'.tasks[pid], k);
      }
    }
  }

  /** Nothing ever removes an abandoned Keycloak user or gives it a local one. */
  lemma {:induction false} AbandonedForGood(tr: seq<Sys>, i: nat, j: nat, k: nat)
    requires IsRun(tr) && i <= j < |tr| && IsAbandoned(tr[i], k)
    ensures IsAbandoned(tr[j], k)
    decreases j - i
  {
    hide StepTo, SysOk, IsAbandoned;
    if i < j {
      RunStep(tr, i);
      AbandonedStays(tr[i], tr[i + 1], k);
      AbandonedForGood(tr, i + 1, j, k);
    }
  }

  lemma {:induction false} AbandonedOnce(tr: seq<Sys>, j: nat, k: nat)
    requires IsRun(tr) && j < |tr| && IsAbandoned(tr[j], k)
    ensures exists i: nat :: i < j && AbandonsAt(tr, i, k)
    decreases j
  {
    hide StepTo, SysOk, IsOrphan, InHand;
    if j == 0 {
      NoOrphans(tr[0], k);
    } else {
      var s, s' := tr[j - 1], tr[j];
      RunStep(tr, j - 1);
      OrphanArises(s, s', k);
      if InHand(s, k) {
        LetGo(s, s', k);
        assert AbandonsAt(tr, j - 1, k);
      } else {
        AbandonedOnce(tr, j - 1, k);
        var i: nat :| i < j - 1 && AbandonsAt(tr, i, k);
        assert i < j;
      }
    }
  }

  lemma NoOrphans(s: Sys, k: nat)
    requires IsInitial(s)
    ensures !IsOrphan(s.store, k)
  {
  }

  lemma LetGo(s: Sys, s': Sys, k: nat)
    requires SysOk(s) && StepTo(s, s') && InHand(s, k) && IsAbandoned(s', k)
    ensures Abandons(s, s', k)
  {
    hide SysOk, StepTo, Holds, IsOrphan;
    var pid :| pid in s.tasks && Holds(s.tasks[pid], k);
    HoldsOrGone(s, s', pid, k);
  }

  /** Over every run: a Keycloak user without a local one is either in the hands of a creation or a
      deletion, or such a request stopped or failed while it held it. This is the only way, and there
      is none back. */
  lemma AbandonedIff(tr: seq<Sys>, j: nat, k: nat)
    requires IsRun(tr) && j < |tr|
    ensures IsAbandoned(tr[j], k) <==> exists i: nat :: i < j && AbandonsAt(tr, i, k)
  {
    hide StepTo, SysOk, IsOrphan, InHand;
    if IsAbandoned(tr[j], k) {
      AbandonedOnce(tr, j, k);
    }
    if i: nat :| i < j && AbandonsAt(tr, i, k) {
      AbandonedForGood(tr, i + 1, j, k);
    }
  }
}
