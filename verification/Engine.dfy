/** The in-memory engine itself: an object whose methods update its maps and counters in place.  Every
    public method is proved to make exactly the step that EngineRuns.Step describes, with the clock
    readings it happened to take. */
module Engine {
  import opened Clocks
  import opened EngineRuns
  import opened EngineSteps
  import opened Ids
  import opened Invariants
  import opened Machine
  import opened Starts
  import opened Writes

  const DEFAULT_LEASE: Time := 30 * SECOND
  const DEFAULT_ATTEMPTS: nat := 3

  // ---------------------------------------------------------------- lemmas for the loops

  lemma MoveKeepsEngineInv(e: EngineState, m: Move)
    requires EngineInv(e) && Enabled(e.core, m) && !m.Launch?
    ensures EngineInv(e.(core := Apply(e.core, m)))
  {
    hide Apply, Enabled, Inv, Shaped, Evolves;
    InvCountsToo(e);
    KeepsInv(e.core, m);
    MoveEvolves(e.core, m);
    SameRecords(e.core, m);
    ShapeStays(e, Apply(e.core, m));
  }

  lemma InvCountsToo(e: EngineState)
    requires EngineInv(e)
    ensures Inv(e.core) && Shaped(e) && WellFormed(e.core) && e.members.Keys == e.core.workflows.Keys
  {
    hide Filed, Lists, Counted, Gated, Consistent, UniqueKeys;
  }

  lemma {:induction false} LaterTicksDoNotMatter(s: State, ids: seq<Id>, ticks: seq<Time>, more: seq<Time>)
    requires |ids| <= |ticks|
    ensures ReleaseAll(s, ids, ticks + more) == ReleaseAll(s, ids, ticks)
    decreases |ids|
  {
    hide Apply, Enabled;
    if ids != [] {
      LaterTicksDoNotMatter(s, ids[..|ids| - 1], ticks, more);
    }
  }

  /** The members of a workflow are all its activities. */
  lemma MembersAreAll(e: EngineState, w: Id)
    requires EngineInv(e) && w in e.members
    ensures w in e.core.workflows
    ensures forall j :: j in e.members[w] <==> j in e.core.activities && e.core.activities[j].workflow == w
    ensures forall j, k :: 0 <= j < k < |e.members[w]| ==> e.members[w][j] != e.members[w][k]
  {
    hide Inv;
    assert Lists(e.members[w], ActivitiesOf(e.core, w));
  }

  /** The first ready match in ascending order is the least ready match. */
  lemma FirstIsLeast(ids: seq<Id>, k: nat, s: State, queue: string)
    requires ids == Sorted(s.activities.Keys) && k < |ids|
    requires ids[k] in Claimable(s, queue)
    requires forall j :: 0 <= j < k ==> ids[j] !in Claimable(s, queue)
    ensures Least(Claimable(s, queue)) == ids[k]
  {
    hide Before;
    SortedLists(s.activities.Keys);
    var c := Claimable(s, queue);
    forall x | x in c && x != ids[k] ensures Before(ids[k], x) {
      assert x in ids;
      var j :| 0 <= j < |ids| && ids[j] == x;
    }
    LeastUnique(Least(c), ids[k], c);
  }

  lemma NoneClaimable(ids: seq<Id>, s: State, queue: string)
    requires ids == Sorted(s.activities.Keys)
    requires forall j :: 0 <= j < |ids| ==> ids[j] !in Claimable(s, queue)
    ensures Claimable(s, queue) == {}
  {
    hide Before;
    SortedLists(s.activities.Keys);
    forall x ensures x !in Claimable(s, queue) {
      if x in s.activities { assert x in ids; }
    }
  }

  /** Where x belongs in an ascending list. */
  method Insert(xs: seq<Id>, x: Id) returns (ys: seq<Id>)
    requires Ascending(xs) && x !in xs
    ensures Ascending(ys) && forall y :: y in ys <==> y == x || y in xs
  {
    var k := 0;
    while k < |xs| && Before(xs[k], x)
      invariant k <= |xs|
      invariant forall j :: 0 <= j < k ==> Before(xs[j], x)
    {
      k := k + 1;
    }
    ys := xs[..k] + [x] + xs[k..];
    hide Before;
    forall j | k <= j < |xs| ensures Before(x, xs[j]) {
      if j == k { BeforeTotal(x, xs[k]); } else { BeforeTotal(x, xs[k]); BeforeTransitive(x, xs[k], xs[j]); }
    }
    forall y ensures y in ys <==> y == x || y in xs {
      if y in xs {
        var j :| 0 <= j < |xs| && xs[j] == y;
        assert ys[if j < k then j else j + 1] == y;
      }
      assert ys[k] == x;
    }
  }

  lemma AscendingLists(xs: seq<Id>, ids: set<Id>)
    requires Ascending(xs) && forall x :: x in xs <==> x in ids
    ensures xs == Sorted(ids)
  {
    forall j, k | 0 <= j < k < |xs| ensures xs[j] != xs[k] {
      BeforeIrreflexive(xs[j]);
    }
    SortedUnique(xs, ids);
  }

  class Engine {
    const leaseTTL: Time
    const maxAttempts: nat
    const clock: Clock
    var nextWorkflow: nat
    var nextActivity: nat
    var nextEvent: nat
    var workflows: map<Id, Workflow>
    var activities: map<Id, Activity>
    var activityByWF: map<Id, seq<Id>>
    var events: map<Id, seq<Event>>
    var idempotency: map<string, Id>

    ghost function Core(): State
      reads this
    {
      State(workflows, activities, events, nextEvent)
    }

    ghost function Snapshot(): EngineState
      reads this
    {
      EngineState(Core(), activityByWF, idempotency, nextWorkflow, nextActivity, leaseTTL, maxAttempts)
    }

    ghost predicate Valid()
      reads this
    {
      EngineInv(Snapshot())
    }

    /** A call made the step that Step describes, with readings that lie between lo and hi. */
    ghost predicate Made(before: EngineState, c: Call, lo: Time, hi: Time)
      reads this
    {
      EngineInv(before) && Timely(before, c, lo, hi) && Snapshot() == Step(before, c) && Valid()
    }

    constructor (leaseTTL: Time, maxAttempts: int, clock: Clock)
      ensures IsNew(Snapshot()) && Valid() && this.clock == clock
      ensures this.leaseTTL == if leaseTTL > 0 then leaseTTL else 30_000_000_000
      ensures this.maxAttempts == if maxAttempts > 0 then maxAttempts else 3
    {
      this.leaseTTL := if leaseTTL <= 0 then DEFAULT_LEASE else leaseTTL;
      this.maxAttempts := if maxAttempts <= 0 then DEFAULT_ATTEMPTS else maxAttempts;
      this.clock := clock;
      nextWorkflow, nextActivity, nextEvent := 0, 0, 0;
      workflows, activities, activityByWF, events, idempotency := map[], map[], map[], map[], map[];
      new;
      NewIsFine(Snapshot());
    }

    method AppendEvent(w: Id, i: Id, kind: Kind)
      modifies this`events, this`nextEvent
      ensures Core() == Emit(old(Core()), w, [Entry(i, kind)]) && w in events
    {
      ghost var before := Core();
      nextEvent := nextEvent + 1;
      var log := if w in events then events[w] else [];
      events := events[w := log + [Event(nextEvent, Entry(i, kind))]];
      assert Number(before.nextEvent, [Entry(i, kind)]) == [Event(nextEvent, Entry(i, kind))];
    }

    method SortedActivityIDs() returns (ids: seq<Id>)
      ensures ids == Sorted(activities.Keys)
    {
      ids := [];
      var rest := activities.Keys;
      while rest != {}
        invariant rest <= activities.Keys && Ascending(ids)
        invariant forall x :: x in ids <==> x in activities.Keys - rest
        decreases rest
      {
        var x :| x in rest;
        ids := Insert(ids, x);
        rest := rest - {x};
      }
      AscendingLists(ids, activities.Keys);
    }

    method DependenciesComplete(a: Activity) returns (done: bool)
      requires Valid() && a.workflow in activityByWF
      ensures done <==> DependenciesDone(activities, a)
    {
      hide EngineInv;
      MembersAreAll(Snapshot(), a.workflow);
      var members := activityByWF[a.workflow];
      for d := 0 to |a.dependsOn|
        invariant forall k :: 0 <= k < d ==>
          Names(activities, a.workflow, a.dependsOn[k]) && NameCompleted(activities, a.workflow, a.dependsOn[k])
      {
        var name := a.dependsOn[d];
        var found := false;
        for k := 0 to |members|
          invariant found <==> exists j :: 0 <= j < k && activities[members[j]].name == name
          invariant forall j :: 0 <= j < k && activities[members[j]].name == name ==>
            activities[members[j]].status == Completed
        {
          if activities[members[k]].name == name {
            found := true;
            if activities[members[k]].status != Completed {
              assert !NameCompleted(activities, a.workflow, name);
              assert name in a.dependsOn;
              return false;
            }
          }
        }
        if !found {
          assert !Names(activities, a.workflow, name);
          assert name in a.dependsOn;
          return false;
        }
        assert NameCompleted(activities, a.workflow, name) by {
          forall j | j in activities && activities[j].workflow == a.workflow && activities[j].name == name
            ensures activities[j].status == Completed
          {
            assert j in members;
          }
        }
        assert Names(activities, a.workflow, name);
      }
      return true;
    }

    /** Release activity i of workflow w if it is due now. */
    method ReleaseIfDue(i: Id, w: Id)
      requires Valid() && w in activityByWF && i in activities && activities[i].workflow == w
      modifies this`activities, this`events, this`nextEvent, clock
      ensures Valid() && (clock.steady ==> old(clock.last) <= clock.last)
      ensures var s, m := old(Core()), Release(clock.last, i);
              Core() == if Enabled(s, m) then Apply(s, m) else s
    {
      hide EngineInv, Apply, Emit;
      MembersAreAll(Snapshot(), w);
      var a := activities[i];
      ghost var before := Snapshot();
      if a.status == RetryPending {
        var now := clock.Now();
        if a.nextAttemptAt <= now {
          var done := DependenciesComplete(a);
          if done {
            MoveKeepsEngineInv(before, Release(now, i));
            activities := activities[i := a.(status := Ready)];
            AppendEvent(w, i, ReadyEvent);
            MoveCore(before.core, Release(now, i));
          }
        }
      }
    }

    /** Release whatever is due in workflow w; the clock is read anew for every waiting activity. */
    method ReleaseReady(w: Id) returns (ghost ticks: seq<Time>)
      requires Valid() && w in activityByWF
      modifies this`activities, this`events, this`nextEvent, clock
      ensures Valid() && |ticks| == |activityByWF[w]|
      ensures clock.steady ==> Between(old(clock.last), ticks, clock.last)
      ensures Core() == ReleaseAll(old(Core()), activityByWF[w], ticks)
    {
      hide EngineInv, Apply, Emit;
      var ids := activityByWF[w];
      MembersAreAll(Snapshot(), w);
      ticks := [];
      ghost var start := Core();
      assert ids[..0] == [];
      for k := 0 to |ids|
        invariant Valid() && |ticks| == k
        invariant clock.steady ==> Between(old(clock.last), ticks, clock.last)
        invariant Core() == ReleaseAll(start, ids[..k], ticks)
      {
        MembersAreAll(Snapshot(), w);
        assert ids[..k + 1] == ids[..k] + [ids[k]];
        ReleaseIfDue(ids[k], w);
        LaterTicksDoNotMatter(start, ids[..k], ticks, [clock.last]);
        ticks := ticks + [clock.last];
      }
      assert ids[..|ids|] == ids;
    }

    method CompleteWorkflowIfDone(w: Id) returns (ghost at: Time)
      requires Valid() && w in workflows && w in activityByWF
      modifies this`workflows, this`events, this`nextEvent, clock
      ensures Valid() && at == clock.last == old(clock.last)
      ensures Core() == FinishIfDone(old(Core()), w, at)
    {
      hide EngineInv, Apply;
      MembersAreAll(Snapshot(), w);
      at := clock.last;
      if workflows[w].status != WorkflowRunning {
        return;
      }
      var members := activityByWF[w];
      for k := 0 to |members|
        invariant forall j :: 0 <= j < k ==> activities[members[j]].status == Completed
      {
        if activities[members[k]].status != Completed {
          return;
        }
      }
      forall j | j in activities && activities[j].workflow == w ensures activities[j].status == Completed {
        assert j in members;
      }
      ghost var before := Snapshot();
      MoveKeepsEngineInv(before, Finish(at, w));
      workflows := workflows[w := workflows[w].(status := WorkflowCompleted)];
      AppendEvent(w, "", FinishedEvent);
      FinishedCore(before.core, at, w);
    }

    /** What a completion brings about in its workflow. */
    method WrapUp(w: Id) returns (ghost ticks: seq<Time>, ghost at: Time)
      requires Valid() && w in activityByWF
      modifies this`workflows, this`activities, this`events, this`nextEvent, clock
      ensures Valid() && |ticks| == |activityByWF[w]|
      ensures clock.steady ==> Between(old(clock.last), ticks + [at], clock.last)
      ensures Core() == FinishIfDone(ReleaseAll(old(Core()), activityByWF[w], ticks), w, at)
    {
      hide EngineInv, ReleaseAll, FinishIfDone;
      ticks := ReleaseReady(w);
      MembersAreAll(Snapshot(), w);
      at := CompleteWorkflowIfDone(w);
    }

    // -------------------------------------------------------------- Start

    /** Create one activity of a new workflow. */
    method Schedule(d: ActivityDefinition, w: Id, now: Time)
      requires w in activityByWF
      modifies this`nextActivity, this`activities, this`activityByWF, this`events, this`nextEvent
      ensures nextActivity == old(nextActivity) + 1
      ensures var i, a := ActivityId(nextActivity), NewActivity(d, w, now, maxAttempts);
        && activityByWF == old(activityByWF)[w := old(activityByWF)[w] + [i]]
        && Core() == Emit(old(Core()).(activities := old(activities)[i := a]), w, [Entry(i, ScheduledEvent)])
      ensures var i := ActivityId(nextActivity);
        && i in activities
        && var a := activities[i];
        && a.workflow == w && a.name == d.name && a.taskQueue == d.taskQueue && a.dependsOn == d.dependsOn
        && a.status == (if d.dependsOn == [] then Ready else RetryPending)
        && a.maxAttempts == (if d.maxAttempts > 0 then d.maxAttempts else maxAttempts)
        && a.retryBackoff == (if d.retryBackoff > 0 then d.retryBackoff else 1_000_000_000)
        && a.attempt == a.fencingToken == 0 && a.leaseOwner == "" && a.leaseExpiresAt == NO_DEADLINE
        && a.nextAttemptAt == now
    {
      nextActivity := nextActivity + 1;
      var status := Ready;
      if |d.dependsOn| > 0 {
        status := RetryPending;
      }
      var attempts: int := d.maxAttempts;
      if attempts <= 0 {
        attempts := maxAttempts;
      }
      var backoff := d.retryBackoff;
      if backoff <= 0 {
        backoff := SECOND;
      }
      var i := ActivityId(nextActivity);
      activities := activities[i :=
        Activity(w, d.name, d.taskQueue, status, 0, attempts, "", NO_DEADLINE, 0, now, d.dependsOn, backoff)];
      activityByWF := activityByWF[w := activityByWF[w] + [i]];
      AppendEvent(w, i, ScheduledEvent);
    }

    /** Create the activities of a new workflow. */
    method ScheduleAll(def: WorkflowDefinition, w: Id, now: Time, ghost e: EngineState)
      requires w in activityByWF && activityByWF[w] == [] && w in events
      requires nextActivity == e.nextActivity && maxAttempts == e.maxAttempts
      modifies this`nextActivity, this`activities, this`activityByWF, this`events, this`nextEvent
      ensures nextActivity == e.nextActivity + |def.activities|
      ensures activityByWF == old(activityByWF)[w := NewMembers(e, def)]
      ensures Core() == Emit(old(Core()).(activities := AddRows(old(activities), NewRows(e, def, w, now))), w,
                             ScheduledEntries(NewRows(e, def, w, now)))
    {
      hide Emit;
      ghost var start, rows := Core(), NewRows(e, def, w, now);
      NothingEmitted(start, w);
      assert ScheduledEntries(rows[..0]) == [];
      for k := 0 to |def.activities|
        invariant nextActivity == e.nextActivity + k
        invariant w in activityByWF && activityByWF == old(activityByWF)[w := NewMembers(e, def)[..k]]
        invariant Core() == WithRows(start, rows[..k], w)
      {
        ghost var before := Core();
        Schedule(def.activities[k], w, now);
        assert NewMembers(e, def)[..k + 1] == NewMembers(e, def)[..k] + [ActivityId(nextActivity)];
        OneMoreRow(start, rows, k, w);
      }
      assert rows[..|rows|] == rows && NewMembers(e, def)[..|def.activities|] == NewMembers(e, def);
    }

    /** File the record of a new workflow, as yet without activities. */
    method Register(def: WorkflowDefinition, key: string) returns (w: Id, now: Time)
      modifies this`nextWorkflow, this`workflows, this`idempotency, this`activityByWF, this`events, this`nextEvent, clock
      ensures now == clock.last && (clock.steady ==> old(clock.last) <= now)
      ensures Snapshot() == Registered(old(Snapshot()), def, key) && w == WorkflowId(nextWorkflow) && w in events
    {
      hide Emit, WorkflowId, Join;
      nextWorkflow := nextWorkflow + 1;
      now := clock.Now();
      w := WorkflowId(nextWorkflow);
      workflows := workflows[w := Workflow(def.namespace, def.name, key, WorkflowRunning)];
      if key != "" {
        idempotency := idempotency[Join(def.namespace, key) := w];
      }
      activityByWF := activityByWF[w := []];
      AppendEvent(w, "", StartedEvent);
    }

    /** Create the records of an accepted workflow. */
    method Create(def: WorkflowDefinition, key: string) returns (w: Id, now: Time)
      requires Valid() && StartAnswerOf(Snapshot(), def, key).Started?
      modifies this, clock
      ensures now == clock.last && (clock.steady ==> old(clock.last) <= now)
      ensures w in activityByWF && activityByWF[w] == NewMembers(old(Snapshot()), def)
      ensures w == WorkflowId(old(nextWorkflow) + 1)
      ensures Valid() && Snapshot() == Launched(old(Snapshot()), def, key, now)
    {
      hide EngineInv, StartAnswerOf, Emit, NewRows, NewMembers, AddRows, ScheduledEntries, Launched, WorkflowId, Join;
      ghost var e := Snapshot();
      w, now := Register(def, key);
      ScheduleAll(def, w, now, e);
      CreatedRecords(e, def, key, now, Snapshot());
      LaunchedInv(e, def, key, now);
    }

    method Start(def: WorkflowDefinition, key: string) returns (answer: StartAnswer, ghost c: Call)
      requires Valid()
      modifies this, clock
      ensures c.StartingCall? && c.def == def && c.key == key
      ensures Made(old(Snapshot()), c, clock.From(old(clock.last)), clock.To())
      ensures answer == StartAnswerOf(old(Snapshot()), def, key)
      ensures answer.Started? ==>
        && answer.id !in old(workflows) && answer.id in workflows
        && workflows[answer.id] == Workflow(def.namespace, def.name, key, WorkflowRunning)
        && answer.id in activityByWF && |activityByWF[answer.id]| == |def.activities|
      ensures answer.Started? ==> forall k :: 0 <= k < |def.activities| ==>
        var i, d := activityByWF[answer.id][k], def.activities[k];
        && i == ActivityId(old(nextActivity) + 1 + k) && i !in old(activities) && i in activities
        && var a := activities[i];
        && a.workflow == answer.id && a.name == d.name && a.taskQueue == d.taskQueue && a.dependsOn == d.dependsOn
        && a.status == (if d.dependsOn == [] then Ready else RetryPending)
        && a.maxAttempts == (if d.maxAttempts > 0 then d.maxAttempts else maxAttempts)
        && a.retryBackoff == (if d.retryBackoff > 0 then d.retryBackoff else 1_000_000_000)
        && a.attempt == a.fencingToken == 0 && a.leaseOwner == "" && a.leaseExpiresAt == NO_DEADLINE
        && a.nextAttemptAt == c.now
      ensures forall i :: i in old(activities) ==> i in activities && activities[i] == old(activities)[i]
      ensures !answer.Started? ==> workflows == old(workflows) && activities == old(activities)
    {
      hide EngineInv, Launched, ReleaseAll, StartCall;
      ghost var e, start := Snapshot(), clock.last;
      c := StartingCall(def, key, start, Still(|def.activities|, start));
      if def.namespace == "" || def.name == "" || |def.activities| == 0 {
        NotStarted(e, def, key, start);
        return Rejected, c;
      }
      if key != "" && Join(def.namespace, key) in idempotency {
        NotStarted(e, def, key, start);
        return Duplicate(idempotency[Join(def.namespace, key)]), c;
      }
      var ok := Validate(def);
      if !ok {
        NotStarted(e, def, key, start);
        return Rejected, c;
      }
      var w, now := Create(def, key);
      ghost var e' := Snapshot();
      ghost var ticks := ReleaseReady(w);
      assert Snapshot() == e'.(core := ReleaseAll(e'.core, NewMembers(e, def), ticks));
      c := StartingCall(def, key, now, ticks);
      LaunchedThenReleased(e, def, key, now, ticks, Snapshot());
      StoredAsDefined(e, def, key, now, ticks, Snapshot());
      answer := Started(w);
    }

    // -------------------------------------------------------------- the calls of workers

    method Claim(workerID: string, taskQueue: string) returns (answer: ClaimAnswer, receipt: Receipt, ghost c: Call)
      requires Valid()
      modifies this, clock
      ensures c.ClaimingCall? && c.worker == workerID && c.queue == taskQueue
      ensures Made(old(Snapshot()), c, clock.From(old(clock.last)), clock.To())
      ensures answer == ClaimAnswerOf(old(Snapshot()), taskQueue)
      ensures if answer.Granted? then
                var i := answer.activity;
                && i in old(activities) && i in activities && receipt.activity == i
                && old(activities)[i].status == Ready
                && (taskQueue == "" || old(activities)[i].taskQueue == "" || old(activities)[i].taskQueue == taskQueue)
                && receipt.workflow == activities[i].workflow == old(activities)[i].workflow
                && receipt.name == activities[i].name == old(activities)[i].name
                && receipt.attempt == activities[i].attempt == old(activities)[i].attempt + 1
                && receipt.token == answer.token == activities[i].fencingToken == old(activities)[i].fencingToken + 1
                && receipt.expires == activities[i].leaseExpiresAt == c.now + leaseTTL
                && activities[i].status == Running && activities[i].leaseOwner == workerID
                && receipt.applicationKey == receipt.workflow + ":" + receipt.name
              else receipt == NO_RECEIPT
      ensures forall j ::
        (&& j in old(activities) && old(activities)[j].status == Ready
         && (taskQueue == "" || old(activities)[j].taskQueue == "" || old(activities)[j].taskQueue == taskQueue))
        ==> answer.Granted? && (j == answer.activity || Before(answer.activity, j))
    {
      hide EngineInv, Apply, Enabled, Before, Emit, Least, Sorted, Evolves, Lists, Launched;
      ghost var e := Snapshot();
      var now := clock.Now();
      c := ClaimingCall(workerID, taskQueue, now);
      GrantsFirst(e, taskQueue);
      var ids := SortedActivityIDs();
      SortedLists(activities.Keys);
      for k := 0 to |ids|
        invariant forall j :: 0 <= j < k ==> ids[j] !in Claimable(e.core, taskQueue)
      {
        var a := activities[ids[k]];
        if a.status == Ready && (taskQueue == "" || a.taskQueue == "" || taskQueue == a.taskQueue) {
          FirstIsLeast(ids, k, e.core, taskQueue);
          receipt := Grant(ids[k], workerID, taskQueue, now);
          return Granted(ids[k], receipt.token), receipt, c;
        }
      }
      NoneClaimable(ids, e.core, taskQueue);
      answer, receipt := NothingReady, NO_RECEIPT;
    }

    /** Hand activity i out. */
    method Grant(i: Id, workerID: string, ghost queue: string, now: Time) returns (receipt: Receipt)
      requires Valid() && i in Claimable(Core(), queue)
      modifies this`activities, this`events, this`nextEvent
      ensures var m := Machine.Claim(now, i, workerID, queue, now + leaseTTL);
              Enabled(old(Core()), m) && Core() == Apply(old(Core()), m) && Valid()
      ensures i in activities && receipt.activity == i
      ensures var a, b := old(activities)[i], activities[i];
        && receipt.workflow == b.workflow == a.workflow && receipt.name == b.name == a.name
        && receipt.attempt == b.attempt == a.attempt + 1 && receipt.token == b.fencingToken == a.fencingToken + 1
        && receipt.expires == b.leaseExpiresAt == now + leaseTTL && b.status == Running && b.leaseOwner == workerID
      ensures receipt.applicationKey == receipt.workflow + ":" + receipt.name
    {
      hide EngineInv, Apply, Enabled, Emit;
      ghost var e := Snapshot();
      ghost var m := Machine.Claim(now, i, workerID, queue, now + leaseTTL);
      Housed(e, i);
      CanClaim(e, i, workerID, queue, now);
      MoveKeepsEngineInv(e, m);
      MoveCore(e.core, m);
      var a := activities[i];
      a := a.(status := Running, attempt := a.attempt + 1, leaseOwner := workerID,
              fencingToken := a.fencingToken + 1, leaseExpiresAt := now + leaseTTL);
      activities := activities[i := a];
      AppendEvent(a.workflow, i, ClaimedEvent);
      receipt := Receipt(i, a.workflow, a.name, a.attempt, a.fencingToken, a.leaseExpiresAt,
                         a.workflow + ":" + a.name);
    }

    /** The checks before the lease is looked at. */
    method ActivityLocked(i: Id) returns (answer: Answer)
      ensures answer.Accepted? <==> i in activities && activities[i].status == Running
      ensures answer.Refused? ==>
        forall worker, token, check :: MessageAnswer(Core(), i, worker, token, check) == answer
    {
      if i !in activities {
        return Refused(NotFound);
      }
      if activities[i].status != Running {
        return Refused(InvalidTransition);
      }
      return Accepted;
    }

    method Heartbeat(activityID: Id, workerID: string, token: int) returns (answer: Answer, ghost c: Call)
      requires Valid()
      modifies this, clock
      ensures c.HeartbeatingCall? && c.act == activityID && c.worker == workerID && c.token == token
      ensures Made(old(Snapshot()), c, clock.From(old(clock.last)), clock.To())
      ensures answer == MessageAnswer(old(Core()), activityID, workerID, token, c.check)
      ensures answer == Refused(NotFound) <==> activityID !in old(activities)
      ensures answer == Refused(InvalidTransition) <==>
        activityID in old(activities) && old(activities)[activityID].status != Running
      ensures answer.Accepted? <==>
        activityID in old(activities) && var a := old(activities)[activityID];
        && a.status == Running && a.leaseOwner == workerID && a.fencingToken == token
        && (a.leaseExpiresAt == NO_DEADLINE || c.check < a.leaseExpiresAt)
      ensures workflows == old(workflows) && activities ==
        if answer.Accepted? then
          old(activities)[activityID := old(activities)[activityID].(leaseExpiresAt := c.base + leaseTTL)]
        else old(activities)
    {
      hide EngineInv, Apply, Enabled, Emit, Step, Current, Join;
      ghost var e, start := Snapshot(), clock.last;
      c := HeartbeatingCall(activityID, workerID, token, start, start);
      answer := ActivityLocked(activityID);
      if answer.Refused? {
        RefusedMade(e, c, start, start);
        return;
      }
      Housed(e, activityID);
      var a := activities[activityID];
      var check := clock.Now();
      CurrentIs(a, workerID, token, check);
      if !Current(a, workerID, token, check) {
        c := HeartbeatingCall(activityID, workerID, token, check, check);
        StaleMade(e, c, StaleHeartbeatEvent, start, check);
        AppendEvent(a.workflow, activityID, StaleHeartbeatEvent);
        return Refused(StaleLease), c;
      }
      var base := clock.Now();
      c := HeartbeatingCall(activityID, workerID, token, check, base);
      HeartbeatMade(e, c);
      activities := activities[activityID := a.(leaseExpiresAt := base + leaseTTL)];
      AppendEvent(a.workflow, activityID, HeartbeatEvent);
    }

    method Complete(activityID: Id, workerID: string, token: int) returns (answer: Answer, ghost c: Call)
      requires Valid()
      modifies this, clock
      ensures c.CompletingCall? && c.act == activityID && c.worker == workerID && c.token == token
      ensures Made(old(Snapshot()), c, clock.From(old(clock.last)), clock.To())
      ensures answer == MessageAnswer(old(Core()), activityID, workerID, token, c.check)
      ensures answer == Refused(NotFound) <==> activityID !in old(activities)
      ensures answer == Refused(InvalidTransition) <==>
        activityID in old(activities) && old(activities)[activityID].status != Running
      ensures answer.Accepted? <==>
        activityID in old(activities) && var a := old(activities)[activityID];
        && a.status == Running && a.leaseOwner == workerID && a.fencingToken == token
        && (a.leaseExpiresAt == NO_DEADLINE || c.check < a.leaseExpiresAt)
    {
      hide EngineInv, Apply, Enabled, Emit, ReleaseAll, FinishIfDone, Step, Current, Join;
      ghost var e, start := Snapshot(), clock.last;
      ghost var n := if activityID in activities && activities[activityID].workflow in activityByWF
                     then |activityByWF[activities[activityID].workflow]| + 1 else 0;
      c := CompletingCall(activityID, workerID, token, start, Still(n, start));
      answer := ActivityLocked(activityID);
      if answer.Refused? {
        if activityID in activities { Housed(e, activityID); }
        RefusedMade(e, c, start, start);
        return;
      }
      Housed(e, activityID);
      var a := activities[activityID];
      var check := clock.Now();
      CurrentIs(a, workerID, token, check);
      if !Current(a, workerID, token, check) {
        c := CompletingCall(activityID, workerID, token, check, Still(n, check));
        StaleMade(e, c, StaleCompletionEvent, start, check);
        AppendEvent(a.workflow, activityID, StaleCompletionEvent);
        return Refused(StaleLease), c;
      }
      c := CompleteCurrent(activityID, workerID, token, check);
    }

    /** Complete an activity whose holder has been checked. */
    method CompleteCurrent(i: Id, ghost worker: string, ghost token: int, ghost check: Time) returns (ghost c: Call)
      requires Valid() && check == clock.last && MessageAnswer(Core(), i, worker, token, check).Accepted?
      modifies this, clock
      ensures c.CompletingCall? && c == CompletingCall(i, worker, token, check, c.ticks)
      ensures Made(old(Snapshot()), c, clock.From(check), clock.To()) && (clock.steady ==> check <= clock.last)
    {
      hide EngineInv, Apply, Enabled, Emit, ReleaseAll, FinishIfDone, Step;
      ghost var e := Snapshot();
      Housed(e, i);
      CompleteMade(e, i, worker, token, check);
      var a := activities[i];
      activities := activities[i := a.(status := Completed, leaseOwner := "")];
      AppendEvent(a.workflow, i, CompletedEvent);
      ghost var ticks, at := WrapUp(a.workflow);
      c := CompletingCall(i, worker, token, check, ticks + [at]);
      WrappedUp(e, c, ticks, at, clock.From(check), clock.To());
    }

    method Fail(activityID: Id, workerID: string, token: int, retryable: bool) returns (answer: Answer, ghost c: Call)
      requires Valid()
      modifies this, clock
      ensures c.FailingCall? && c.act == activityID && c.worker == workerID && c.token == token
      ensures c.retryable == retryable
      ensures Made(old(Snapshot()), c, clock.From(old(clock.last)), clock.To())
      ensures answer == MessageAnswer(old(Core()), activityID, workerID, token, c.check)
      ensures answer == Refused(NotFound) <==> activityID !in old(activities)
      ensures answer == Refused(InvalidTransition) <==>
        activityID in old(activities) && old(activities)[activityID].status != Running
      ensures answer.Accepted? <==>
        activityID in old(activities) && var a := old(activities)[activityID];
        && a.status == Running && a.leaseOwner == workerID && a.fencingToken == token
        && (a.leaseExpiresAt == NO_DEADLINE || c.check < a.leaseExpiresAt)
      ensures if !answer.Accepted? then activities == old(activities) && workflows == old(workflows) else
        var a := old(activities)[activityID];
          if retryable && a.attempt < a.maxAttempts then
            && activities == old(activities)[activityID := a.(status := RetryPending, leaseOwner := "",
                 nextAttemptAt := c.base + a.retryBackoff * a.attempt)]
            && workflows == old(workflows)
          else
            && activities == old(activities)[activityID := a.(status := Failed, leaseOwner := "")]
            && a.workflow in old(workflows)
            && workflows == old(workflows)[a.workflow := old(workflows)[a.workflow].(status := WorkflowFailed)]
    {
      hide EngineInv, Apply, Enabled, Emit, Step, Current, Join;
      ghost var e, start := Snapshot(), clock.last;
      c := FailingCall(activityID, workerID, token, retryable, start, start);
      answer := ActivityLocked(activityID);
      if answer.Refused? {
        RefusedMade(e, c, start, start);
        return;
      }
      Housed(e, activityID);
      var a := activities[activityID];
      var check := clock.Now();
      CurrentIs(a, workerID, token, check);
      if !Current(a, workerID, token, check) {
        c := FailingCall(activityID, workerID, token, retryable, check, check);
        StaleMade(e, c, StaleFailureEvent, start, check);
        AppendEvent(a.workflow, activityID, StaleFailureEvent);
        return Refused(StaleLease), c;
      }
      c := FailCurrent(activityID, workerID, token, retryable, check);
    }

    /** Fail an activity whose holder has been checked. */
    method FailCurrent(i: Id, ghost worker: string, ghost token: int, retryable: bool, ghost check: Time)
      returns (ghost c: Call)
      requires Valid() && check == clock.last && MessageAnswer(Core(), i, worker, token, check).Accepted?
      modifies this, clock
      ensures c.FailingCall? && c == FailingCall(i, worker, token, retryable, check, c.base)
      ensures Made(old(Snapshot()), c, clock.From(check), clock.To()) && (clock.steady ==> check <= clock.last)
      ensures i in old(activities) &&
        var a := old(activities)[i];
          if retryable && a.attempt < a.maxAttempts then
            && activities == old(activities)[i := a.(status := RetryPending, leaseOwner := "",
                 nextAttemptAt := c.base + a.retryBackoff * a.attempt)]
            && workflows == old(workflows)
          else
            && activities == old(activities)[i := a.(status := Failed, leaseOwner := "")]
            && a.workflow in old(workflows)
            && workflows == old(workflows)[a.workflow := old(workflows)[a.workflow].(status := WorkflowFailed)]
    {
      hide EngineInv, Apply, Enabled, Emit, Step, Current;
      ghost var e := Snapshot();
      var a := activities[i];
      if retryable && a.attempt < a.maxAttempts {
        var base := clock.Now();
        c := FailingCall(i, worker, token, retryable, check, base);
        FailMade(e, c);
        activities := activities[i := a.(status := RetryPending, leaseOwner := "",
                                         nextAttemptAt := base + a.retryBackoff * a.attempt)];
        AppendEvent(a.workflow, i, RetryEvent);
        return;
      }
      c := FailingCall(i, worker, token, retryable, check, check);
      FailMade(e, c);
      activities := activities[i := a.(status := Failed, leaseOwner := "")];
      workflows := workflows[a.workflow := workflows[a.workflow].(status := WorkflowFailed)];
      AppendFailure(a.workflow, i);
    }

    /** The two events of a final failure. */
    method AppendFailure(w: Id, i: Id)
      modifies this`events, this`nextEvent
      ensures Core() == Emit(old(Core()), w, [Entry(i, FailedEvent), Entry("", WorkflowFailedEvent)]) && w in events
    {
      hide Emit;
      ghost var before := Core();
      AppendEvent(w, i, FailedEvent);
      AppendEvent(w, "", WorkflowFailedEvent);
      EmitTwice(before, w, [Entry(i, FailedEvent)], [Entry("", WorkflowFailedEvent)]);
      assert [Entry(i, FailedEvent)] + [Entry("", WorkflowFailedEvent)]
          == [Entry(i, FailedEvent), Entry("", WorkflowFailedEvent)];
    }

    // -------------------------------------------------------------- Cancel and the scheduler

    method Cancel(workflowID: Id) returns (answer: Answer, ghost c: Call)
      requires Valid()
      modifies this, clock
      ensures c.CancellingCall? && c.workflow == workflowID
      ensures Made(old(Snapshot()), c, clock.From(old(clock.last)), clock.To())
      ensures answer == CancelAnswer(old(Core()), workflowID)
      ensures answer == Refused(NotFound) <==> workflowID !in old(workflows)
      ensures answer == Refused(InvalidTransition) <==>
        workflowID in old(workflows) && old(workflows)[workflowID].status != WorkflowRunning
    {
      hide EngineInv, Apply, Enabled, Emit, PendingAmong, CancelledSome, Shaped, WellFormed, Inv;
      ghost var e := Snapshot();
      InvCountsToo(e);
      c := CancellingCall(workflowID, clock.last);
      if workflowID !in workflows {
        return Refused(NotFound), c;
      }
      if workflows[workflowID].status != WorkflowRunning {
        return Refused(InvalidTransition), c;
      }
      MembersAreAll(e, workflowID);
      workflows := workflows[workflowID := workflows[workflowID].(status := WorkflowCancelled)];
      ghost var now := clock.Now();
      c := CancellingCall(workflowID, now);
      var ids := activityByWF[workflowID];
      ghost var base := Core();
      NothingCancelled(base, ids, workflowID);
      for k := 0 to |ids|
        invariant Core() == CancelledSome(base, ids[..k], workflowID)
        invariant Snapshot() == e.(core := Core()) && clock.last == now
      {
        OneMoreCancelled(base, ids, k, workflowID);
        var a := activities[ids[k]];
        if a.status == Ready || a.status == RetryPending {
          activities := activities[ids[k] := a.(status := Cancelled)];
          AppendEvent(workflowID, ids[k], CancelledEvent);
        }
      }
      assert ids[..|ids|] == ids;
      AppendEvent(workflowID, "", WorkflowCancelledEvent);
      AllCancelled(e, workflowID, now);
      answer := Accepted;
    }

    /** One turn of the scheduler's loop. */
    method Turn(i: Id, now: Time) returns (changed: bool)
      requires Valid() && i in activities
      modifies this`workflows, this`activities, this`events, this`nextEvent
      ensures Valid() && Core() == Visit(old(Core()), i, now)
      ensures changed <==> Visited(old(Core()), i, now)
    {
      hide EngineInv, Apply, Emit;
      ghost var e := Snapshot();
      Housed(e, i);
      var a := activities[i];
      if a.status == Running && a.leaseExpiresAt != NO_DEADLINE && a.leaseExpiresAt <= now {
        if a.attempt < a.maxAttempts {
          MoveKeepsEngineInv(e, Reap(now, i));
          MoveCore(e.core, Reap(now, i));
          activities := activities[i := a.(leaseOwner := "", status := Ready)];
          AppendEvent(a.workflow, i, ExpiredEvent);
        } else {
          MoveKeepsEngineInv(e, ReapFail(now, i, false));
          MoveCore(e.core, ReapFail(now, i, false));
          activities := activities[i := a.(leaseOwner := "", status := Failed)];
          workflows := workflows[a.workflow := workflows[a.workflow].(status := WorkflowFailed)];
          AppendEvent(a.workflow, i, ExpiredFailedEvent);
        }
        return true;
      }
      if a.status == RetryPending && a.nextAttemptAt <= now {
        var done := DependenciesComplete(a);
        if done {
          MoveKeepsEngineInv(e, Release(now, i));
          MoveCore(e.core, Release(now, i));
          activities := activities[i := a.(status := Ready)];
          AppendEvent(a.workflow, i, ReadyEvent);
          return true;
        }
      }
      return false;
    }

    method RunSchedulerPass() returns (changed: nat, ghost c: Call)
      requires Valid()
      modifies this, clock
      ensures c.PassingCall? && Made(old(Snapshot()), c, clock.From(old(clock.last)), clock.To())
      ensures changed == VisitCount(old(Core()), Sorted(old(activities.Keys)), c.now)
    {
      hide EngineInv, Visit, Visited, Sorted, Lists, Step, Timely;
      ghost var e := Snapshot();
      var now := clock.Now();
      c := PassingCall(now);
      changed := 0;
      var ids := SortedActivityIDs();
      SortedLists(activities.Keys);
      assert ids[..0] == [];
      for k := 0 to |ids|
        invariant Valid() && Snapshot() == e.(core := Core())
        invariant Core() == VisitAll(e.core, ids[..k], now) && changed == VisitCount(e.core, ids[..k], now)
        invariant activities.Keys == e.core.activities.Keys && clock.last == now
      {
        assert ids[..k + 1] == ids[..k] + [ids[k]];
        assert ids[k] in ids;
        var did := Turn(ids[k], now);
        VisitSameKeys(e.(core := VisitAll(e.core, ids[..k], now)), ids[k], now);
        if did {
          changed := changed + 1;
        }
      }
      assert ids[..|ids|] == ids;
      PassMade(e, clock.From(old(clock.last)), clock.To(), now);
    }
  }

  lemma PassMade(e: EngineState, lo: Time, hi: Time, now: Time)
    requires EngineInv(e) && (lo <= hi ==> lo <= now <= hi)
    ensures Timely(e, PassingCall(now), lo, hi) && Step(e, PassingCall(now)) == PassCall(e, now)
  {
    hide EngineInv, VisitAll;
    assert Timely(e, PassingCall(now), lo, hi);
  }

  /** A claim takes the match with the least id. */
  lemma GrantsFirst(e: EngineState, queue: string)
    ensures forall j ::
      (&& j in e.core.activities && e.core.activities[j].status == Ready
       && (queue == "" || e.core.activities[j].taskQueue == "" || e.core.activities[j].taskQueue == queue))
      ==> ClaimAnswerOf(e, queue).Granted?
          && (j == ClaimAnswerOf(e, queue).activity || Before(ClaimAnswerOf(e, queue).activity, j))
  {
    hide Before;
    forall j | j in e.core.activities && e.core.activities[j].status == Ready
      && (queue == "" || e.core.activities[j].taskQueue == "" || e.core.activities[j].taskQueue == queue)
      ensures j in Claimable(e.core, queue)
    {
    }
  }

  lemma CanClaim(e: EngineState, i: Id, worker: string, queue: string, now: Time)
    requires EngineInv(e) && i in Claimable(e.core, queue)
    ensures Enabled(e.core, Machine.Claim(now, i, worker, queue, now + e.leaseTTL))
  {
    hide EngineInv;
    Housed(e, i);
  }

  lemma CurrentIs(a: Activity, worker: string, token: int, now: Time)
    ensures Current(a, worker, token, now) <==>
      && a.status == Running && a.leaseOwner == worker && a.fencingToken == token
      && (a.leaseExpiresAt == NO_DEADLINE || now < a.leaseExpiresAt)
  {
  }

  /** A message about no running activity is a call without effect. */
  lemma RefusedMade(e: EngineState, c: Call, lo: Time, hi: Time)
    requires EngineInv(e) && Timely(e, c, lo, hi) && IsMessage(c)
    requires c.act !in e.core.activities || e.core.activities[c.act].status != Running
    ensures Step(e, c) == e
  {
    hide EngineInv, StartCall, ClaimCall, CancelCall, PassCall, Completion, RejectStale, Apply, Enabled;
  }

  /** A stale rejection writes its event and nothing else. */
  lemma StaleMade(e: EngineState, c: Call, kind: Kind, lo: Time, hi: Time)
    requires EngineInv(e) && Timely(e, c, lo, hi) && IsMessage(c) && StaleKind(c, kind)
    requires c.act in e.core.activities && e.core.activities[c.act].status == Running
    requires !Current(e.core.activities[c.act], c.worker, c.token, c.check)
    ensures var r := e.(core := Emit(e.core, e.core.activities[c.act].workflow, [Entry(c.act, kind)]));
            Step(e, c) == r && EngineInv(r)
  {
    hide EngineInv, Enabled, Apply, Emit, Step, Timely;
    var m := RefusedStep(e, c, lo, hi);
    MoveKeepsEngineInv(e, m);
    MoveCore(e.core, m);
    assert e.core.activities[m.act := e.core.activities[m.act]] == e.core.activities;
  }

  lemma HeartbeatMade(e: EngineState, c: Call)
    requires EngineInv(e) && c.HeartbeatingCall?
    requires MessageAnswer(e.core, c.act, c.worker, c.token, c.check).Accepted?
    ensures var a := e.core.activities[c.act];
            var r := State(e.core.workflows, e.core.activities[c.act := a.(leaseExpiresAt := c.base + e.leaseTTL)],
                           e.core.events, e.core.nextEvent);
            var t := e.(core := Emit(r, a.workflow, [Entry(c.act, HeartbeatEvent)]));
            Timely(e, c, c.check, c.base) && Step(e, c) == t && EngineInv(t)
  {
    hide EngineInv, Enabled, Apply, Emit, StartCall, ClaimCall, CancelCall, PassCall, CompleteCall, FailCall, RejectStale;
    assert Timely(e, c, c.check, c.base);
    var m := Machine.Heartbeat(c.check, c.act, c.worker, c.token, c.base + e.leaseTTL);
    AcceptedEnables(e, c.act, c.worker, c.token, c.check, c.base, true);
    MoveKeepsEngineInv(e, m);
    MoveCore(e.core, m);
  }

  lemma FailMade(e: EngineState, c: Call)
    requires EngineInv(e) && c.FailingCall?
    requires MessageAnswer(e.core, c.act, c.worker, c.token, c.check).Accepted?
    ensures Known(e.core, c.act) && Timely(e, c, c.check, c.base)
    ensures var s, a := e.core, e.core.activities[c.act];
            var again := c.retryable && a.attempt < a.maxAttempts;
            var r := if again then
                       State(s.workflows, s.activities[c.act := a.(status := RetryPending, leaseOwner := "",
                               nextAttemptAt := c.base + a.retryBackoff * a.attempt)], s.events, s.nextEvent)
                     else
                       State(s.workflows[a.workflow := s.workflows[a.workflow].(status := WorkflowFailed)],
                             s.activities[c.act := a.(status := Failed, leaseOwner := "")], s.events, s.nextEvent);
            var xs := if again then [Entry(c.act, RetryEvent)]
                      else [Entry(c.act, FailedEvent), Entry("", WorkflowFailedEvent)];
            Step(e, c) == e.(core := Emit(r, a.workflow, xs)) && EngineInv(Step(e, c))
  {
    hide EngineInv, Enabled, Apply, Emit, StartCall, ClaimCall, CancelCall, PassCall, CompleteCall, HeartbeatCall, RejectStale;
    assert Timely(e, c, c.check, c.base);
    var m := FailMove(e, c.act, c.worker, c.token, c.retryable, c.check, c.base);
    AcceptedEnables(e, c.act, c.worker, c.token, c.check, c.base, c.retryable);
    MoveKeepsEngineInv(e, m);
    MoveCore(e.core, m);
  }

  /** The completed activity, before anything else is released or finished. */
  ghost function JustCompleted(s: State, i: Id): State
    requires i in s.activities
  {
    var a := s.activities[i];
    Emit(State(s.workflows, s.activities[i := a.(status := Completed, leaseOwner := "")], s.events, s.nextEvent),
         a.workflow, [Entry(i, CompletedEvent)])
  }

  lemma CompleteMade(e: EngineState, i: Id, worker: string, token: int, check: Time)
    requires EngineInv(e) && MessageAnswer(e.core, i, worker, token, check).Accepted?
    ensures var m := Machine.Complete(check, i, worker, token);
            && Enabled(e.core, m) && Apply(e.core, m) == JustCompleted(e.core, i)
            && EngineInv(e.(core := JustCompleted(e.core, i)))
  {
    hide EngineInv, Enabled, Apply, Emit;
    var m := Machine.Complete(check, i, worker, token);
    AcceptedEnables(e, i, worker, token, check, check, true);
    MoveKeepsEngineInv(e, m);
    MoveCore(e.core, m);
  }

  lemma WrappedUp(e: EngineState, c: Call, ticks: seq<Time>, at: Time, lo: Time, hi: Time)
    requires EngineInv(e) && c.CompletingCall? && Timely(e, c, lo, hi) && c.ticks == ticks + [at]
    requires MessageAnswer(e.core, c.act, c.worker, c.token, c.check).Accepted?
    requires e.core.activities[c.act].workflow in e.members
    requires |ticks| == |e.members[e.core.activities[c.act].workflow]|
    ensures var w := e.core.activities[c.act].workflow;
            Step(e, c) == e.(core := FinishIfDone(ReleaseAll(JustCompleted(e.core, c.act), e.members[w], ticks), w, at))
  {
    hide EngineInv, Enabled, Apply, Emit, ReleaseAll, FinishIfDone, JustCompleted,
      StartCall, ClaimCall, CancelCall, PassCall, HeartbeatCall, FailCall, RejectStale;
    CompleteMade(e, c.act, c.worker, c.token, c.check);
    LaterTicksDoNotMatter(JustCompleted(e.core, c.act), e.members[e.core.activities[c.act].workflow], ticks, [at]);
  }

  lemma VisitSameKeys(e: EngineState, i: Id, now: Time)
    requires EngineInv(e)
    ensures Visit(e.core, i, now).activities.Keys == e.core.activities.Keys
  {
    hide EngineInv, Leads;
    InvCountsToo(e);
    var ms := VisitLeads(e.core, i, now);
    LeadsSameKeys(e.core, ms, Visit(e.core, i, now));
  }

  /** The pending activities among ids cancelled, and announced one by one. */
  ghost function CancelledSome(s: State, ids: seq<Id>, w: Id): State {
    var t, xs := s.(activities := CancelAmong(s.activities, ids)), PendingAmong(s, ids);
    if xs == [] then t else Emit(t, w, CancelledEntries(xs))
  }

  ghost function CancelAmong(activities: map<Id, Activity>, ids: seq<Id>): map<Id, Activity> {
    map i | i in activities ::
      if i in ids && Pending(activities[i]) then activities[i].(status := Cancelled) else activities[i]
  }

  lemma NothingCancelled(s: State, ids: seq<Id>, w: Id)
    ensures CancelledSome(s, ids[..0], w) == s
  {
    assert CancelAmong(s.activities, ids[..0]) == s.activities;
  }

  lemma EmitsOnlyEvents(s: State, w: Id, xs: seq<Entry>, activities: map<Id, Activity>)
    ensures Emit(s, w, xs).activities == s.activities
    ensures Emit(s, w, xs).(activities := activities) == Emit(s.(activities := activities), w, xs)
  {
  }

  lemma OneMoreCancelled(s: State, ids: seq<Id>, k: nat, w: Id)
    requires k < |ids| && ids[k] in s.activities
    requires forall j :: 0 <= j < k ==> ids[j] != ids[k]
    ensures var t, i := CancelledSome(s, ids[..k], w), ids[k];
      && i in t.activities && t.activities[i] == s.activities[i]
      && CancelledSome(s, ids[..k + 1], w)
         == if Pending(s.activities[i])
            then Emit(t.(activities := t.activities[i := s.activities[i].(status := Cancelled)]), w, [Entry(i, CancelledEvent)])
            else t
  {
    hide Emit;
    EmitsOnlyEvents(s.(activities := CancelAmong(s.activities, ids[..k])), w, CancelledEntries(PendingAmong(s, ids[..k])),
                    CancelAmong(s.activities, ids[..k + 1]));
    var i, xs := ids[k], PendingAmong(s, ids[..k]);
    assert ids[..k + 1] == ids[..k] + [i] && ids[..k + 1][..k] == ids[..k];
    var before, after := CancelAmong(s.activities, ids[..k]), CancelAmong(s.activities, ids[..k + 1]);
    if Pending(s.activities[i]) {
      assert after == before[i := s.activities[i].(status := Cancelled)];
      assert CancelledEntries(xs + [i]) == CancelledEntries(xs) + [Entry(i, CancelledEvent)];
      EmitTwice(s.(activities := after), w, CancelledEntries(xs), [Entry(i, CancelledEvent)]);
      if xs == [] {
        assert CancelledEntries(xs + [i]) == [Entry(i, CancelledEvent)];
      }
    } else {
      assert after == before && xs + [] == xs;
    }
  }

  /** The writes of an accepted Cancel make up its move. */
  lemma AllCancelled(e: EngineState, w: Id, now: Time)
    requires EngineInv(e) && CancelAnswer(e.core, w).Accepted? && w in e.members
    ensures var base := e.core.(workflows := e.core.workflows[w := e.core.workflows[w].(status := WorkflowCancelled)]);
            var r := Emit(CancelledSome(base, e.members[w], w), w, [Entry("", WorkflowCancelledEvent)]);
            CancelCall(e, w, now) == e.(core := r) && EngineInv(e.(core := r))
  {
    hide EngineInv, Enabled, Apply, Emit, PendingAmong, Shaped, Inv, WellFormed;
    InvCountsToo(e);
    MembersAreAll(e, w);
    CanCancel(e, w, now);
    var base := e.core.(workflows := e.core.workflows[w := e.core.workflows[w].(status := WorkflowCancelled)]);
    SamePending(e.core, base, e.members[w]);
    var xs := PendingAmong(base, e.members[w]);
    assert CancelAmong(base.activities, e.members[w]) == CancelPending(base.activities, w);
    var t := base.(activities := CancelPending(base.activities, w));
    if xs == [] {
      assert CancelledEntries(xs) + [Entry("", WorkflowCancelledEvent)] == [Entry("", WorkflowCancelledEvent)];
    }
    EmitTwice(t, w, CancelledEntries(xs), [Entry("", WorkflowCancelledEvent)]);
    CancelCore(e.core, Cancel(now, w, xs));
    MoveKeepsEngineInv(e, Cancel(now, w, xs));
  }

  lemma {:induction false} SamePending(s: State, t: State, ids: seq<Id>)
    requires s.activities == t.activities
    ensures PendingAmong(s, ids) == PendingAmong(t, ids)
  {
    if ids != [] { SamePending(s, t, ids[..|ids| - 1]); }
  }

  /** The workflow filed and its start logged. */
  ghost function Registered(e: EngineState, def: WorkflowDefinition, key: string): EngineState {
    var w := WorkflowId(e.nextWorkflow + 1);
    var info := Workflow(def.namespace, def.name, key, WorkflowRunning);
    e.(core := Emit(e.core.(workflows := e.core.workflows[w := info]), w, [Entry("", StartedEvent)]),
       members := e.members[w := []],
       index := if key != "" then e.index[Join(def.namespace, key) := w] else e.index,
       nextWorkflow := e.nextWorkflow + 1)
  }

  /** The fields that Create writes make up the launched engine. */
  lemma CreatedRecords(e: EngineState, def: WorkflowDefinition, key: string, now: Time, r: EngineState)
    requires EngineInv(e) && StartAnswerOf(e, def, key).Started?
    requires var e', w := Registered(e, def, key), WorkflowId(e.nextWorkflow + 1);
      && r.core == WithRows(e'.core, NewRows(e, def, w, now), w)
      && r == e'.(core := r.core, members := e'.members[w := NewMembers(e, def)],
                  nextActivity := e.nextActivity + |def.activities|)
    ensures r == Launched(e, def, key, now)
  {
    hide EngineInv, Inv, Shaped, WellFormed, StartAnswerOf, Enabled, Apply, Emit, NewRows, NewMembers, AddRows,
      ScheduledEntries, WorkflowId, Join;
    InvCountsToo(e);
    var m := LaunchMove(e, def, key, now);
    CanStart(e, def, key, now);
    LaunchedCore(e.core, m);
    StartedThenScheduled(e.core.(workflows := e.core.workflows[m.workflow := m.info]), m.workflow, m.rows);
  }

  /** A start that is not accepted is a call without effect. */
  lemma NotStarted(e: EngineState, def: WorkflowDefinition, key: string, at: Time)
    requires EngineInv(e) && !StartAnswerOf(e, def, key).Started?
    ensures var c := StartingCall(def, key, at, Still(|def.activities|, at));
            Timely(e, c, at, at) && Step(e, c) == e
  {
    hide EngineInv, StartAnswerOf;
    assert Timely(e, StartingCall(def, key, at, Still(|def.activities|, at)), at, at);
  }

  /** The records that a start leaves are those of its definition. */
  lemma StoredAsDefined(e: EngineState, def: WorkflowDefinition, key: string, now: Time, ticks: seq<Time>, r: EngineState)
    requires EngineInv(e) && StartAnswerOf(e, def, key).Started? && |ticks| == |def.activities|
    requires r == StartCall(e, def, key, now, ticks)
    ensures var w := StartAnswerOf(e, def, key).id;
      && w !in e.core.workflows && w in r.core.workflows
      && r.core.workflows[w] == Workflow(def.namespace, def.name, key, WorkflowRunning)
      && w in r.members && |r.members[w]| == |def.activities|
      && forall k :: 0 <= k < |def.activities| ==>
        var i, d := r.members[w][k], def.activities[k];
        && i == ActivityId(e.nextActivity + 1 + k) && i !in e.core.activities && i in r.core.activities
        && var a := r.core.activities[i];
        && a.workflow == w && a.name == d.name && a.taskQueue == d.taskQueue && a.dependsOn == d.dependsOn
        && a.status == (if d.dependsOn == [] then Ready else RetryPending)
        && a.maxAttempts == (if d.maxAttempts > 0 then d.maxAttempts else e.maxAttempts)
        && a.retryBackoff == (if d.retryBackoff > 0 then d.retryBackoff else 1_000_000_000)
        && a.attempt == a.fencingToken == 0 && a.leaseOwner == "" && a.leaseExpiresAt == NO_DEADLINE
        && a.nextAttemptAt == now
    ensures forall i :: i in e.core.activities ==> i in r.core.activities && r.core.activities[i] == e.core.activities[i]
  {
    hide EngineInv, StartCall, StartAnswerOf, ActivityId;
    StartStoresWorkflow(e, def, key, now, ticks);
    StartStoresNothingElse(e, def, key, now, ticks);
    StartListsMembers(e, def, key, now, ticks);
    var w, ids := StartAnswerOf(e, def, key).id, NewMembers(e, def);
    forall k | 0 <= k < |def.activities|
      ensures var i, d := ids[k], def.activities[k];
        && i == ActivityId(e.nextActivity + 1 + k) && i !in e.core.activities && i in r.core.activities
        && var a := r.core.activities[i];
        && a.workflow == w && a.name == d.name && a.taskQueue == d.taskQueue && a.dependsOn == d.dependsOn
        && a.status == (if d.dependsOn == [] then Ready else RetryPending)
        && a.maxAttempts == (if d.maxAttempts > 0 then d.maxAttempts else e.maxAttempts)
        && a.retryBackoff == (if d.retryBackoff > 0 then d.retryBackoff else 1_000_000_000)
        && a.attempt == a.fencingToken == 0 && a.leaseOwner == "" && a.leaseExpiresAt == NO_DEADLINE
        && a.nextAttemptAt == now
    {
      StartStoresActivity(e, def, key, now, ticks, k);
    }
  }

  lemma StartListsMembers(e: EngineState, def: WorkflowDefinition, key: string, now: Time, ticks: seq<Time>)
    requires EngineInv(e) && StartAnswerOf(e, def, key).Started? && |ticks| == |def.activities|
    ensures var r, w := StartCall(e, def, key, now, ticks), StartAnswerOf(e, def, key).id;
            w in r.members && r.members[w] == NewMembers(e, def)
  {
    hide EngineInv, Apply, Enabled, ReleaseAll;
  }

  lemma LaunchedThenReleased(e: EngineState, def: WorkflowDefinition, key: string, now: Time, ticks: seq<Time>, r: EngineState)
    requires EngineInv(e) && StartAnswerOf(e, def, key).Started? && |ticks| == |def.activities|
    requires r == Launched(e, def, key, now).(core := ReleaseAll(Launched(e, def, key, now).core, NewMembers(e, def), ticks))
    ensures r == StartCall(e, def, key, now, ticks)
  {
    hide EngineInv, Apply, Enabled, ReleaseAll;
  }
}
