/** Runs of the engine that a reader of the protocol might not expect, each as a witness from any new
    engine. */
module Surprises {
  import opened Announcements
  import opened Cancellation
  import opened Courses
  import opened EngineRuns
  import opened EngineSteps
  import opened Handouts
  import opened Ids
  import opened Invariants
  import opened Logs
  import opened Machine
  import opened Progress
  import opened Scheduler

  function Task(name: string, attempts: nat): ActivityDefinition {
    ActivityDefinition(name, "", [], attempts, 0)
  }

  function OneTask(attempts: nat): WorkflowDefinition {
    WorkflowDefinition("d", "n", [Task("a", attempts)])
  }

  function TwoTasks(): WorkflowDefinition {
    WorkflowDefinition("d", "n", [Task("a", 1), Task("b", 1)])
  }

  ghost predicate IsRunOf(x: Course, e: EngineState) {
    IsEngineRun(x.states, x.calls, x.clock) && Increasing(x.clock) && x.states[0] == e && IsCourse(x)
  }

  lemma NewRun(x: Course, e: EngineState)
    requires IsNew(e) && IsCourse(x) && x.states[0] == e
    ensures IsRunOf(x, e)
  {
    hide Step, Timely, EngineInv, IsNew;
  }

  /** A new engine starts a workflow. */
  lemma Begin(e: EngineState, def: WorkflowDefinition, key: string, at: Time) returns (x: Course)
    requires IsNew(e) && StartAnswerOf(e, def, key).Started?
    ensures IsCourse(x) && x.states[0] == e && |x.calls| == 1 && Over(x) == at && End(x).leaseTTL == e.leaseTTL
    ensures var m := LaunchMove(e, def, key, at);
      Enabled(EMPTY, m) && End(x).core == Apply(EMPTY, m) && Grown(EMPTY, m, End(x).core)
    ensures End(x).index == if key != "" then map[Join(def.namespace, key) := WorkflowId(1)] else map[]
  {
    hide EngineInv, Apply, Enabled, ReleaseAll, Settled, NotBefore, Inv, LaunchMove, Join, WorkflowId;
    NewIsFine(e);
    var ticks := Still(|def.activities|, at);
    var c := StartingCall(def, key, at, ticks);
    x := Standing(e, at);
    assert Timely(e, c, at, at);
    StartReleasesNothing(e, def, key, at, ticks);
    LaunchIsLaunch(e, def, key, at);
    LaunchGrows(EMPTY, LaunchMove(e, def, key, at));
    var y := AndThen(x, c, at);
    x := y;
  }

  lemma LaunchIsLaunch(e: EngineState, def: WorkflowDefinition, key: string, at: Time)
    ensures LaunchMove(e, def, key, at).Launch?
    ensures LaunchMove(e, def, key, at).workflow == WorkflowId(e.nextWorkflow + 1)
  {
  }

  /** The record that OneTask gets. */
  function Only(e: EngineState, attempts: nat): Activity {
    NewActivity(Task("a", attempts), WorkflowId(1), 1, e.maxAttempts)
  }

  /** The only activity of a workflow is handed out at time 1. */
  lemma ClaimedOnce(e: EngineState, attempts: nat) returns (x: Course)
    requires IsNew(e) && attempts > 0
    ensures IsCourse(x) && x.states[0] == e && |x.calls| == 2 && Over(x) == 1 && End(x).leaseTTL == e.leaseTTL
    ensures End(x).core.activities == map[ActivityId(1) := HandedOut(Only(e, attempts), 1 + e.leaseTTL)]
    ensures End(x).core.workflows == map[WorkflowId(1) := Workflow("n", "d", "", WorkflowRunning)]
    ensures History(End(x).core, WorkflowId(1))
            == [Entry("", StartedEvent), Entry(ActivityId(1), ScheduledEvent), Entry(ActivityId(1), ClaimedEvent)]
  {
    hide EngineInv, Apply, Enabled, History, ActivityId, WorkflowId, Step, Timely, IsStretch, Before;
    var def, i, w := OneTask(attempts), ActivityId(1), WorkflowId(1);
    x := Begin(e, def, "", 1);
    EndInv(x);
    var m, s := LaunchMove(e, def, "", 1), End(x).core;
    assert m.rows == [Row(i, Only(e, attempts))];
    assert s.activities == map[i := Only(e, attempts)] by {
      assert m.rows[0].id == i;
    }
    LaunchHistory(m, i);
    assert Claimable(s, "") == {i};
    ClaimStep(End(x), WORKER, "", 1);
    MoveHistory(s, Claim(1, i, WORKER, "", 1 + e.leaseTTL), w);
    var y := AndThen(x, ClaimingCall(WORKER, "", 1), 1);
    x := y;
  }

  lemma LaunchHistory(m: Move, i: Id)
    requires m.Launch? && Enabled(EMPTY, m) && |m.rows| == 1 && m.rows[0].id == i
    ensures History(Apply(EMPTY, m), m.workflow) == [Entry("", StartedEvent), Entry(i, ScheduledEvent)]
  {
    hide Apply, Enabled;
    MoveHistory(EMPTY, m, m.workflow);
    assert History(EMPTY, m.workflow) == [];
    assert ScheduledEntries(m.rows) == [Entry(i, ScheduledEvent)];
  }

  /** The workflow is cancelled while its only activity is running. */
  lemma CancelledWhileRunning(e: EngineState, attempts: nat) returns (x: Course)
    requires IsNew(e) && attempts > 0
    ensures IsCourse(x) && x.states[0] == e && Over(x) == 1 && End(x).leaseTTL == e.leaseTTL
    ensures |x.calls| == 3 && x.calls[2] == CancellingCall(WorkflowId(1), 1) && x.states[3] == End(x)
    ensures End(x).core.activities == map[ActivityId(1) := HandedOut(Only(e, attempts), 1 + e.leaseTTL)]
    ensures End(x).core.workflows == map[WorkflowId(1) := Workflow("n", "d", "", WorkflowCancelled)]
  {
    hide EngineInv, Apply, Enabled, History, ActivityId, WorkflowId, Step, Timely, IsStretch, PendingAmong;
    x := ClaimedOnce(e, attempts);
    EndInv(x);
    var s, w := End(x).core, WorkflowId(1);
    CancelStep(End(x), w, 1);
    CancelRecord(s, CancelMove(End(x), w, 1));
    var y := AndThen(x, CancellingCall(w, 1), 1);
    CancelKeepsLease(End(x), w);
    assert CancelPending(s.activities, w) == s.activities;
    x := y;
  }

  lemma CancelRecord(s: State, m: Move)
    requires m.Cancel? && Enabled(s, m)
    ensures Apply(s, m).activities == CancelPending(s.activities, m.workflow)
    ensures Apply(s, m).workflows == s.workflows[m.workflow := s.workflows[m.workflow].(status := WorkflowCancelled)]
  {
  }

  lemma CancelKeepsLease(e: EngineState, w: Id)
    requires EngineInv(e)
    ensures Timely(e, CancellingCall(w, 1), 1, 1) && Step(e, CancellingCall(w, 1)).leaseTTL == e.leaseTTL
  {
    hide EngineInv, Apply, Enabled, PendingAmong;
    assert Timely(e, CancellingCall(w, 1), 1, 1);
  }

  /** Cancelled is not final: a workflow that was cancelled while an activity was running can fail. */
  lemma CancelledCanFail(e: EngineState) returns (x: Course)
    requires IsNew(e)
    ensures IsRunOf(x, e) && |x.calls| > 3 && x.calls[2] == CancellingCall(WorkflowId(1), 1)
    ensures WorkflowId(1) in x.states[3].core.workflows
    ensures x.states[3].core.workflows[WorkflowId(1)].status == WorkflowCancelled
    ensures EndsFailed(x, WorkflowId(1))
  {
    hide EngineInv, ActivityId, WorkflowId, Step, Timely, IsStretch, IsNew, IsEngineRun;
    var y := CancelledWhileRunning(e, 1);
    x := RunningCanFail(y, ActivityId(1));
    assert x.states[3] == y.states[3];
    NewRun(x, e);
  }

  /** Nor are the activities of a cancelled workflow out of reach: one that was running is handed out again
      once its lease is over. */
  lemma CancelledStillHandsOut(e: EngineState) returns (x: Course)
    requires IsNew(e)
    ensures IsRunOf(x, e) && |x.calls| > 3 && x.calls[2] == CancellingCall(WorkflowId(1), 1)
    ensures EndsWithGrant(x, ActivityId(1)) && IsOf(End(x).core, ActivityId(1), WorkflowId(1))
    ensures WorkflowId(1) in End(x).core.workflows
    ensures End(x).core.workflows[WorkflowId(1)].status == WorkflowCancelled
  {
    hide EngineInv, ActivityId, WorkflowId, Step, Timely, IsStretch, IsEngineRun, HandsAt;
    var y := CancelledWhileRunning(e, 2);
    var z := PassAt(y, 1 + e.leaseTTL);
    assert End(z).core.activities[ActivityId(1)].status == Ready;
    assert !Exhausts(End(y).core, WorkflowId(1), End(y).core.activities.Keys, 1 + e.leaseTTL);
    x := ClaimUntil(z, ActivityId(1));
    NewRun(x, e);
  }

  /** A claim does not look at the workflow: after one of two activities failed the workflow, the other is
      still handed out. */
  lemma FailedStillHandsOut(e: EngineState) returns (x: Course, i: Id)
    requires IsNew(e)
    ensures IsRunOf(x, e) && EndsWithGrant(x, i) && IsOf(End(x).core, i, WorkflowId(1))
    ensures WorkflowId(1) in x.states[|x.calls| - 1].core.workflows
    ensures x.states[|x.calls| - 1].core.workflows[WorkflowId(1)].status == WorkflowFailed
  {
    hide EngineInv, Apply, Enabled, WorkflowId, Step, Timely, IsStretch, IsEngineRun, IsNew, Before;
    var y;
    y, i := FailedOne(e);
    EndInv(y);
    ClaimStep(End(y), WORKER, "", 1);
    x := AndThen(y, ClaimingCall(WORKER, "", 1), 1);
    NewRun(x, e);
  }

  /** One of the two activities has failed at time 1, the other is ready. */
  lemma FailedOne(e: EngineState) returns (x: Course, i: Id)
    requires IsNew(e)
    ensures IsCourse(x) && x.states[0] == e && Over(x) == 1
    ensures Claimable(End(x).core, "") == {i} && IsOf(End(x).core, i, WorkflowId(1))
    ensures WorkflowId(1) in End(x).core.workflows && End(x).core.workflows[WorkflowId(1)].status == WorkflowFailed
  {
    hide EngineInv, Apply, Enabled, ActivityId, WorkflowId, Step, Timely, IsStretch, Before, Hands, Grants;
    var y := TwoReady(e);
    var j := Least({ActivityId(1), ActivityId(2)});
    i := if j == ActivityId(1) then ActivityId(2) else ActivityId(1);
    ClaimStep(End(y), WORKER, "", 1);
    var z := AndThen(y, ClaimingCall(WORKER, "", 1), 1);
    var c := FailingCall(j, WORKER, 1, false, 1, 1);
    FailureStep(End(z), c);
    x := AndThen(z, c, 1);
  }

  /** A new engine with a workflow of two ready activities. */
  lemma TwoReady(e: EngineState) returns (x: Course)
    requires IsNew(e)
    ensures IsCourse(x) && x.states[0] == e && Over(x) == 1 && EngineInv(End(x)) && End(x).leaseTTL > 0
    ensures ActivityId(1) != ActivityId(2)
    ensures End(x).core.activities.Keys == {ActivityId(1), ActivityId(2)}
    ensures forall i :: i in End(x).core.activities ==>
      End(x).core.activities[i].workflow == WorkflowId(1) && End(x).core.activities[i].status == Ready
      && End(x).core.activities[i].fencingToken == 0
    ensures Claimable(End(x).core, "") == {ActivityId(1), ActivityId(2)}
  {
    hide EngineInv, Apply, Enabled, ActivityId, WorkflowId, Step, Timely, IsStretch;
    var def := TwoTasks();
    x := Begin(e, def, "", 1);
    EndInv(x);
    IdsInjective(1, 2);
    var m, s := LaunchMove(e, def, "", 1), End(x).core;
    assert m.rows[0].id == ActivityId(1) && m.rows[1].id == ActivityId(2);
    assert s.activities.Keys == {ActivityId(1), ActivityId(2)};
  }

  /** A late message is not told that its lease is stale while nobody else has claimed yet: a reaped
      activity is ready, and no stale-rejection event can be written for it. */
  lemma ReapedLeavesNoTrace(s: State, m: Move, i: Id, worker: string, token: int, at: Time, kind: Kind)
    requires m.Reap? && m.act == i && Enabled(s, m)
    ensures !Enabled(Apply(s, m), Reject(at, i, worker, token, kind))
    ensures i in Apply(s, m).activities && Apply(s, m).activities[i].status == Ready
  {
  }

  lemma VisitOne(s: State, i: Id, now: Time)
    requires s.activities.Keys == {i} && Enabled(s, ReapFail(now, i, false))
    ensures VisitAll(s, Sorted(s.activities.Keys), now) == Apply(s, ReapFail(now, i, false))
  {
    hide Apply, Before, DependenciesDone;
    assert Sorted({i}) == [i] by {
      SortedUnique([i], {i});
    }
    assert [i][..0] == [];
    assert VisitAll(s, [], now) == s;
  }

  /** A workflow can fail in silence: its only lease runs out for the last time, and its log holds no
      workflow.failed. */
  lemma SilentFailure(e: EngineState) returns (x: Course)
    requires IsNew(e)
    ensures IsRunOf(x, e) && EndsFailed(x, WorkflowId(1))
    ensures ANNOUNCEMENT !in History(End(x).core, WorkflowId(1))
  {
    hide EngineInv, Apply, History, ActivityId, WorkflowId, Step, Timely, IsStretch, IsEngineRun, VisitAll, Sorted, IsNew;
    var y := ClaimedOnce(e, 1);
    EndInv(y);
    var s, i, w, now := End(y).core, ActivityId(1), WorkflowId(1), 1 + e.leaseTTL;
    Housed(End(y), i);
    var m := ReapFail(now, i, false);
    assert Enabled(s, m);
    VisitOne(s, i, now);
    MoveHistory(s, m, w);
    StatusEffect(s, m, w);
    PassIs(End(y), 1, now);
    x := AndThen(y, PassingCall(now), now);
    NewRun(x, e);
  }

  lemma PassIs(e: EngineState, lo: Time, now: Time)
    requires EngineInv(e) && lo <= now
    ensures Timely(e, PassingCall(now), lo, now)
    ensures Step(e, PassingCall(now)).core == VisitAll(e.core, Sorted(e.core.activities.Keys), now)
  {
    hide EngineInv, VisitAll, Sorted;
    assert Timely(e, PassingCall(now), lo, now);
  }

  // ---------------------------------------------------------------- a clock that goes back

  function Chain(): WorkflowDefinition {
    WorkflowDefinition("d", "n", [Task("a", 1), ActivityDefinition("b", "", ["a"], 1, 0)])
  }

  lemma ChainIsValid(e: EngineState)
    requires IsNew(e)
    ensures StartAnswerOf(e, Chain(), "").Started?
  {
    assert Chain().activities[0].name == "a";
    assert HasName(Chain(), "a");
  }

  /** A waiting activity is released by none of the readings before its time. */
  lemma {:induction false} TooEarly(s: State, ids: seq<Id>, ticks: seq<Time>)
    requires |ids| <= |ticks|
    requires forall i, k :: i in s.activities && s.activities[i].status == RetryPending && 0 <= k < |ticks| ==>
      ticks[k] < s.activities[i].nextAttemptAt
    ensures ReleaseAll(s, ids, ticks) == s
    decreases |ids|
  {
    hide Apply, DependenciesDone;
    if ids != [] { TooEarly(s, ids[..|ids| - 1], ticks); }
  }

  /** The second activity of the chain, behind the first. */
  ghost predicate IsChain(s: State, i: Id, j: Id) {
    && s.activities.Keys == {i, j} && i != j && WorkflowId(1) in s.workflows
    && (forall k :: k in s.activities ==> s.activities[k].workflow == WorkflowId(1))
    && s.activities[i].name == "a" && s.activities[i].dependsOn == []
    && s.activities[j].name == "b" && s.activities[j].dependsOn == ["a"] && NeverTried(s.activities[j])
    && s.activities[j].nextAttemptAt == 10
  }

  lemma ChainBegins(e: EngineState) returns (x: Course)
    requires IsNew(e)
    ensures IsCourse(x) && x.states[0] == e && |x.calls| == 1 && Over(x) == 10 && End(x).leaseTTL == e.leaseTTL
    ensures IsChain(End(x).core, ActivityId(1), ActivityId(2))
    ensures Claimable(End(x).core, "") == {ActivityId(1)} && End(x).core.activities[ActivityId(1)].fencingToken == 0
  {
    hide EngineInv, Apply, Enabled, ActivityId, WorkflowId, Step, Timely, IsStretch;
    ChainIsValid(e);
    x := Begin(e, Chain(), "", 10);
    IdsInjective(1, 2);
    var m, s := LaunchMove(e, Chain(), "", 10), End(x).core;
    assert m.rows[0].id == ActivityId(1) && m.rows[1].id == ActivityId(2);
    assert s.activities.Keys == {ActivityId(1), ActivityId(2)};
  }

  /** With the first activity of the chain completed the second is overlooked. */
  lemma ChainIsOverlooked(s: State, i: Id, j: Id)
    requires IsChain(s, i, j) && s.activities[i].status == Completed
    ensures Overlooked(s, j) && !AllCompleted(s.activities, WorkflowId(1))
  {
    hide WorkflowId;
    var w, a := WorkflowId(1), s.activities[j];
    assert Names(s.activities, w, "a") by { assert s.activities[i].name == "a"; }
    assert NameCompleted(s.activities, w, "a");
    assert a.dependsOn[0] == "a";
  }

  /** A completion whose readings come before the start of the workflow releases nothing. */
  lemma CompletesTooEarly(e: EngineState, c: Call, i: Id, j: Id)
    requires EngineInv(e) && IsChain(e.core, i, j)
    requires c.CompletingCall? && c.act == i && MessageAnswer(e.core, i, c.worker, c.token, c.check).Accepted?
    requires Enough(e, c) && forall k :: 0 <= k < |c.ticks| ==> c.ticks[k] < 10
    ensures Timely(e, c, 1, 0) && Overlooked(Step(e, c).core, j)
  {
    hide EngineInv, Apply, Enabled, ReleaseAll, Current, WorkflowId, Overlooked, AllCompleted;
    Housed(e, i);
    assert Timely(e, c, 1, 0);
    AcceptedEnables(e, i, c.worker, c.token, c.check, c.check, true);
    var m := Complete(c.check, i, c.worker, c.token);
    CompleteRecord(e.core, m);
    var s, ids := Apply(e.core, m), e.members[e.core.activities[i].workflow];
    TooEarly(s, ids, c.ticks);
    ChainIsOverlooked(s, i, j);
    NotFinished(s, WorkflowId(1), c.ticks[|ids|]);
  }

  lemma NotFinished(s: State, w: Id, at: Time)
    requires !AllCompleted(s.activities, w)
    ensures FinishIfDone(s, w, at) == s
  {
  }

  /** Under a clock that goes back an activity can be overlooked: what a completion unblocks is not released
      if its reading comes before the start. */
  lemma ClockBackOverlooks(e: EngineState) returns (es: seq<EngineState>, cs: seq<Call>, clock: seq<Time>)
    requires IsNew(e)
    ensures IsEngineRun(es, cs, clock) && es[0] == e && |cs| == 3 && cs[2].CompletingCall?
    ensures Overlooked(es[3].core, ActivityId(2))
  {
    hide EngineInv, Apply, Enabled, ActivityId, WorkflowId, Step, IsStretch, IsNew, Overlooked, Current, Before;
    var x := ChainBegins(e);
    EndInv(x);
    var i := ActivityId(1);
    ClaimStep(End(x), WORKER, "", 10);
    var y := AndThen(x, ClaimingCall(WORKER, "", 10), 10);
    Housed(End(y), i);
    var c := CompletingCall(i, WORKER, 1, 5, Still(|End(y).members[WorkflowId(1)]| + 1, 5));
    HeldUntil(End(y).core.activities[i], 10 + e.leaseTTL);
    CompletesTooEarly(End(y), c, i, ActivityId(2));
    es, cs, clock := y.states + [Step(End(y), c)], y.calls + [c], y.clock + [5];
    forall k | 0 <= k < |cs| ensures CallAt(es, cs, clock, k) {
      if k < 2 { CourseCall(y, k); }
    }
  }

  lemma HeldUntil(a: Activity, until: Time)
    requires a.status == Running && a.leaseOwner == WORKER && a.fencingToken == 1 && a.leaseExpiresAt == until && 5 < until
    ensures Current(a, WORKER, 1, 5)
  {
  }

  lemma CourseCall(x: Course, k: nat)
    requires IsCourse(x) && k < |x.calls|
    ensures CallAt(x.states, x.calls, x.clock, k)
  {
    hide EngineInv, Step, Timely;
  }
}
