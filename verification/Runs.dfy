/** Whole runs of the system: payment events, account requests that interleave step by step and may
    stop anywhere, and the passing of time. */
module Runs {
  import opened Common
  import opened Calendar
  import opened Schema
  import opened Payments
  import opened PaymentInvariants
  import opened Accounts
  import opened AccountInvariants

  /** The two stores and the requests that are halfway through. */
  datatype Sys = Sys(store: Store, tasks: map<nat, Task>)

  datatype Action =
    | Begin(pid: nat, task: Task)
    | Continue(pid: nat, row: nat)
    | Stop(pid: nat)            // the request fails, before or after its last call
    | Pay(event: Event)
    | Wait(ms: nat)

  ghost predicate Allowed(s: Sys, a: Action) {
    match a
    case Begin(pid, task) => pid !in s.tasks && IsStart(task)
    case Continue(pid, row) => pid in s.tasks && LookupOk(s.store, s.tasks[pid], row)
    case Stop(pid) => pid in s.tasks
    case Pay(event) => Possible(s.store.world, event)
    case Wait(_) => true
  }

  ghost function Perform(s: Sys, a: Action): Sys
    requires Allowed(s, a)
  {
    match a
    case Begin(pid, task) => s.(tasks := s.tasks[pid := task])
    case Continue(pid, row) =>
      var step := Advance(s.store, s.tasks[pid], row);
      Sys(step.store, if step.next.Goto? then s.tasks[pid := step.next.task] else s.tasks - {pid})
    case Stop(pid) => s.(tasks := s.tasks - {pid})
    case Pay(event) => s.(store := s.store.(world := Handle(s.store.world, event).world))
    case Wait(ms) => s.(store := s.store.(world := s.store.world.(now := s.store.world.now + ms)))
  }

  ghost predicate StepTo(s: Sys, s': Sys) {
    exists a :: Allowed(s, a) && s' == Perform(s, a)
  }

  const NO_PEOPLE := People(map[], map[], map[], [], 0, 0, 0)
  const NO_PAYMENTS := Ledger(map[], map[], 0, 0)

  const NO_STORE := Store(World(NO_PEOPLE, NO_PAYMENTS, Queues(map[], map[]), 0), map[], 0)

  ghost predicate IsInitial(s: Sys) {
    s == Sys(Store(World(NO_PEOPLE, NO_PAYMENTS, Queues(map[], map[]), s.store.world.now), map[], s.store.nextKc), map[])
  }

  ghost predicate StepAt(tr: seq<Sys>, i: nat)
    requires i + 1 < |tr|
  {
    StepTo(tr[i], tr[i + 1])
  }

  ghost predicate IsRun(tr: seq<Sys>) {
    |tr| > 0 && IsInitial(tr[0]) && forall i: nat :: i + 1 < |tr| ==> StepAt(tr, i)
  }

  // ---------------------------------------------------------------- the invariant of all runs

  ghost predicate TasksOk(s: Sys) {
    && (forall p :: p in s.tasks ==> TaskOk(s.store, s.tasks[p]))
    && (forall p, q :: p in s.tasks && q in s.tasks && p != q ==> Apart(s.tasks[p], s.tasks[q]))
  }

  ghost predicate SysOk(s: Sys) {
    Inv(s.store.world) && PeopleOk(s.store.world.people) && StoreOk(s.store) && TasksOk(s)
  }

  lemma InitialOk(s: Sys)
    requires IsInitial(s)
    ensures SysOk(s)
  {
  }

  lemma WaitKeeps(w: World, ms: nat)
    requires Inv(w)
    ensures Inv(w.(now := w.now + ms))
  {
    hide AddYear;
  }

  lemma PeopleGrowKeeps(w: World, p': People)
    requires Inv(w) && w.people.users.Keys <= p'.users.Keys && w.people.affiliates.Keys <= p'.affiliates.Keys
    ensures Inv(w.(people := p'))
  {
    hide AddYear, Ordered, PeriodsAreYears, Linked, OneEach, Lineage;
  }

  /** StoreOk and TaskOk read only the people tables and Keycloak. */
  lemma LedgerIrrelevant(s: Sys, w': World)
    requires StoreOk(s.store) && TasksOk(s) && w'.people == s.store.world.people
    ensures StoreOk(s.store.(world := w')) && TasksOk(s.(store := s.store.(world := w')))
  {
    hide Apart;
    forall p | p in s.tasks ensures TaskOk(s.store.(world := w'), s.tasks[p]) {
      SamePeopleTaskOk(s.store, w', s.tasks[p]);
    }
  }

  lemma SamePeopleTaskOk(st: Store, w': World, task: Task)
    requires TaskOk(st, task) && w'.people == st.world.people
    ensures TaskOk(st.(world := w'), task)
  {
  }

  lemma ContinueTasks(s: Sys, pid: nat, row: nat)
    requires SysOk(s) && pid in s.tasks && LookupOk(s.store, s.tasks[pid], row)
    ensures var s' := Perform(s, Continue(pid, row));
      StoreOk(s'.store) && PeopleOk(s'.store.world.people) && TasksOk(s')
  {
    hide Inv, PeopleOk, StoreOk, TaskOk, Apart, Advance, Gentle, NextOk;
    var task := s.tasks[pid];
    var s' := Perform(s, Continue(pid, row));
    AdvanceOk(s.store, task, row);
    var step := Advance(s.store, task, row);
    forall q | q in s'.tasks && q != pid
      ensures TaskOk(s'.store, s'.tasks[q]) &&
        (pid in s'.tasks ==> Apart(s'.tasks[pid], s'.tasks[q]) && Apart(s'.tasks[q], s'.tasks[pid]))
    {
      OthersStayOk(s.store, s'.store, task, s.tasks[q]);
      if step.next.Goto? {
        NextStaysApart(s.store, s'.store, task, step.next.task, s.tasks[q]);
        ApartIsSymmetric(step.next.task, s.tasks[q]);
      }
    }
    NextTaskOk(s.store, task, step);
  }

  lemma NextTaskOk(st: Store, task: Task, step: Step)
    requires StepOk(st, task, step)
    ensures step.next.Goto? ==> TaskOk(step.store, step.next.task)
  {
  }

  lemma ApartIsSymmetric(x: Task, y: Task)
    requires Apart(x, y)
    ensures Apart(y, x)
  {
  }

  lemma ContinueKeeps(s: Sys, pid: nat, row: nat)
    requires SysOk(s) && pid in s.tasks && LookupOk(s.store, s.tasks[pid], row)
    ensures var s' := Perform(s, Continue(pid, row));
      SysOk(s') && Evolves(s.store.world.ledger, s'.store.world.ledger, s.store.world.now)
  {
    hide Inv, PeopleOk, StoreOk, TaskOk, TasksOk, Advance, Evolves, DeleteUser, IsActive, RowsStay;
    var w, w' := s.store.world, Perform(s, Continue(pid, row)).store.world;
    ContinueTasks(s, pid, row);
    AdvanceAndLedger(s.store, s.tasks[pid], row);
    UnchangedKeeps(w);
    if w' == w.(people := w'.people) && w.people.users.Keys <= w'.people.users.Keys &&
       w.people.affiliates.Keys <= w'.people.affiliates.Keys {
      PeopleGrowKeeps(w, w'.people);
    } else {
      DeleteUserKeeps(w, s.tasks[pid].userId);
      SameAccessEvolves(w.ledger, w'.ledger, w.now);
    }
  }

  lemma BeginKeeps(s: Sys, pid: nat, task: Task)
    requires SysOk(s) && pid !in s.tasks && IsStart(task)
    ensures SysOk(Perform(s, Begin(pid, task)))
  {
    hide Inv, PeopleOk, StoreOk;
  }

  /** Every step of every run keeps the invariant. */
  lemma StepKeeps(s: Sys, s': Sys)
    requires SysOk(s) && StepTo(s, s')
    ensures SysOk(s') && s.store.world.now <= s'.store.world.now
    ensures Evolves(s.store.world.ledger, s'.store.world.ledger, s.store.world.now)
  {
    hide Inv, PeopleOk, StoreOk, TasksOk, Advance, Evolves, Possible, Handle;
    var a :| Allowed(s, a) && s' == Perform(s, a);
    UnchangedKeeps(s.store.world);
    match a
    case Begin(pid, task) => BeginKeeps(s, pid, task);
    case Continue(pid, row) =>
      ContinueKeeps(s, pid, row);
      AdvanceAndLedger(s.store, s.tasks[pid], row);
    case Stop(pid) => StopKeeps(s, pid);
    case Pay(event) =>
      HandleKeeps(s.store.world, event);
      LedgerIrrelevant(s, s'.store.world);
    case Wait(ms) =>
      WaitKeeps(s.store.world, ms);
      LedgerIrrelevant(s, s'.store.world);
  }

  lemma StopKeeps(s: Sys, pid: nat)
    requires TasksOk(s) && pid in s.tasks
    ensures TasksOk(s.(tasks := s.tasks - {pid}))
  {
    hide TaskOk, Apart;
  }

  lemma {:induction false} RunOk(tr: seq<Sys>, i: nat)
    requires IsRun(tr) && i < |tr|
    ensures SysOk(tr[i])
  {
    if i == 0 {
      InitialOk(tr[0]);
    } else {
      RunOk(tr, i - 1);
      assert StepAt(tr, i - 1);
      StepKeeps(tr[i - 1], tr[i]);
    }
  }

  lemma RunStep(tr: seq<Sys>, i: nat)
    requires IsRun(tr) && i + 1 < |tr|
    ensures SysOk(tr[i]) && SysOk(tr[i + 1]) && StepTo(tr[i], tr[i + 1])
    ensures Now(tr, i) <= Now(tr, i + 1) && Evolves(LedgerAt(tr, i), LedgerAt(tr, i + 1), Now(tr, i))
  {
    RunOk(tr, i);
    assert StepAt(tr, i);
    StepKeeps(tr[i], tr[i + 1]);
  }

  ghost function LedgerAt(tr: seq<Sys>, i: nat): Ledger
    requires i < |tr|
  {
    tr[i].store.world.ledger
  }

  ghost function PeopleAt(tr: seq<Sys>, i: nat): People
    requires i < |tr|
  {
    tr[i].store.world.people
  }

  ghost function Now(tr: seq<Sys>, i: nat): nat
    requires i < |tr|
  {
    tr[i].store.world.now
  }

  // ---------------------------------------------------------------- what the system can do

  /** It can do a payment event, wait, and lose any request, at any time. */
  lemma EventsAreSteps(s: Sys, e: Event, ms: nat, pid: nat)
    requires Possible(s.store.world, e)
    ensures StepTo(s, s.(store := s.store.(world := Handle(s.store.world, e).world)))
    ensures StepTo(s, s.(store := s.store.(world := s.store.world.(now := s.store.world.now + ms))))
    ensures pid in s.tasks ==> StepTo(s, s.(tasks := s.tasks - {pid}))
  {
    hide Handle, Possible;
    assert Allowed(s, Pay(e)) && Perform(s, Pay(e)) == s.(store := s.store.(world := Handle(s.store.world, e).world));
    assert Allowed(s, Wait(ms)) &&
      Perform(s, Wait(ms)) == s.(store := s.store.(world := s.store.world.(now := s.store.world.now + ms)));
    if pid in s.tasks {
      assert Allowed(s, Stop(pid)) && Perform(s, Stop(pid)) == s.(tasks := s.tasks - {pid});
    }
  }

  /** The lookups of a request that nothing interrupts for `calls` calls all return matching rows. */
  ghost predicate LookupsOk(st: Store, task: Task, row: nat, calls: nat)
    decreases calls
  {
    calls > 0 ==>
      var step := Advance(st, task, row);
      LookupOk(st, task, row) && (step.next.Goto? ==> LookupsOk(step.store, step.next.task, row, calls - 1))
  }

  ghost predicate IsPath(tr: seq<Sys>, s: Sys) {
    |tr| > 0 && tr[0] == s && forall i: nat :: i + 1 < |tr| ==> StepAt(tr, i)
  }

  lemma PathGrows(tr: seq<Sys>, s: Sys, s': Sys)
    requires IsPath(tr, s') && StepTo(s, s')
    ensures IsPath([s] + tr, s)
  {
    hide StepTo;
    forall i: nat | i + 1 < |[s] + tr| ensures StepAt([s] + tr, i) {
      if i > 0 {
        assert StepAt(tr, i - 1);
      }
    }
  }

  /** The steps of the system include every request that nothing interrupts, ended or stopped after any
      of its calls. */
  lemma {:induction false} RequestsArePaths(s: Sys, pid: nat, row: nat, calls: nat) returns (tr: seq<Sys>)
    requires pid in s.tasks && LookupsOk(s.store, s.tasks[pid], row, calls)
    ensures IsPath(tr, s)
    ensures var run, end := RunFor(s.store, s.tasks[pid], row, calls), tr[|tr| - 1];
      end == Sys(run.store, if run.next.Goto? then s.tasks[pid := run.next.task] else s.tasks - {pid})
    decreases calls
  {
    hide Advance, LookupOk;
    if calls == 0 {
      tr := [s];
      assert s.tasks[pid := s.tasks[pid]] == s.tasks;
    } else {
      var step := Advance(s.store, s.tasks[pid], row);
      var s' := Perform(s, Continue(pid, row));
      assert Allowed(s, Continue(pid, row));
      assert StepTo(s, s');
      if step.next.Goto? {
        tr := RequestsArePaths(s', pid, row, calls - 1);
        var run := RunFor(s.store, s.tasks[pid], row, calls);
        if run.next.Goto? {
          assert s'.tasks[pid := run.next.task] == s.tasks[pid := run.next.task];
        }
        assert s'.tasks - {pid} == s.tasks - {pid};
      } else {
        tr := [s'];
      }
      PathGrows(tr, s, s');
      tr := [s] + tr;
    }
  }

  /** Any request can begin whenever its number is free. */
  lemma RequestsBegin(s: Sys, pid: nat, task: Task)
    requires pid !in s.tasks && IsStart(task)
    ensures StepTo(s, s.(tasks := s.tasks[pid := task]))
  {
    assert Allowed(s, Begin(pid, task)) && Perform(s, Begin(pid, task)) == s.(tasks := s.tasks[pid := task]);
  }
}
