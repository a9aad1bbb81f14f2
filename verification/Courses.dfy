/** Courses of the in-memory engine: sequences of calls from any state an engine can be in, under a clock
    that does not go back.  What can happen is shown by building such courses, call by call. */
module Courses {
  import opened EngineRuns
  import opened EngineSteps
  import opened Ids
  import opened Invariants
  import opened Machine
  import opened Runs
  import opened Scheduler

  /** The states before, between and after the calls; clock[k] bounds the readings up to call k. */
  datatype Course = Course(states: seq<EngineState>, calls: seq<Call>, clock: seq<Time>)

  ghost predicate IsCourse(x: Course) {
    |x.states| == |x.calls| + 1 == |x.clock| && IsStretch(x.states, x.calls, x.clock) && Increasing(x.clock)
  }

  ghost predicate Begins(x: Course, e: EngineState, at: Time) {
    IsCourse(x) && x.states[0] == e && x.clock[0] == at
  }

  function End(x: Course): EngineState
    requires |x.states| > 0
  {
    x.states[|x.states| - 1]
  }

  function Over(x: Course): Time
    requires |x.clock| > 0
  {
    x.clock[|x.clock| - 1]
  }

  /** y goes on where x ends. */
  predicate Continues(x: Course, y: Course) {
    x.states <= y.states && x.calls <= y.calls && x.clock <= y.clock
  }

  /** The call hands out activity i. */
  ghost predicate Hands(e: EngineState, c: Call, i: Id) {
    c.ClaimingCall? && ClaimAnswerOf(e, c.queue).Granted? && ClaimAnswerOf(e, c.queue).activity == i
  }

  ghost predicate HandsAt(x: Course, k: nat, i: Id)
    requires k < |x.calls| < |x.states|
  {
    Hands(x.states[k], x.calls[k], i)
  }

  /** How often activity i is handed out by the first n calls. */
  ghost function Grants(x: Course, i: Id, n: nat): nat
    requires n <= |x.calls| < |x.states|
  {
    if n == 0 then 0 else Grants(x, i, n - 1) + (if HandsAt(x, n - 1, i) then 1 else 0)
  }

  /** The last call of the course hands out activity i. */
  ghost predicate EndsWithGrant(x: Course, i: Id) {
    IsCourse(x) && |x.calls| > 0 && HandsAt(x, |x.calls| - 1, i)
  }

  // ---------------------------------------------------------------- one call after the other

  lemma Standing(e: EngineState, at: Time) returns (x: Course)
    requires EngineInv(e)
    ensures Begins(x, e, at) && x.calls == [] && End(x) == e && Over(x) == at
    ensures forall i :: Grants(x, i, 0) == 0
  {
    x := Course([e], [], [at]);
  }

  lemma EndInv(x: Course)
    requires IsCourse(x)
    ensures |x.states| == |x.calls| + 1 == |x.clock| && EngineInv(End(x))
  {
    hide EngineInv, Step, Timely;
    StretchInv(x.states, x.calls, x.clock, |x.calls|);
  }

  lemma {:induction false} GrantsSoFar(x: Course, y: Course, i: Id, n: nat)
    requires Continues(x, y) && n <= |x.calls| < |x.states| && |y.calls| < |y.states|
    ensures Grants(y, i, n) == Grants(x, i, n)
  {
    if 0 < n {
      GrantsSoFar(x, y, i, n - 1);
      assert HandsAt(y, n - 1, i) == HandsAt(x, n - 1, i);
    }
  }

  /** One more call. */
  lemma AndThen(x: Course, c: Call, hi: Time) returns (y: Course)
    requires IsCourse(x) && Timely(End(x), c, Over(x), hi) && Over(x) <= hi
    ensures IsCourse(y) && Continues(x, y) && y.calls == x.calls + [c] && y.states[0] == x.states[0]
    ensures y.clock[0] == x.clock[0] && y.states[|x.calls|] == End(x)
    ensures EngineInv(End(x)) && End(y) == Step(End(x), c) && Over(y) == hi && EngineInv(End(y))
    ensures forall i :: HandsAt(y, |x.calls|, i) <==> Hands(End(x), c, i)
    ensures forall i :: Grants(y, i, |y.calls|) == Grants(x, i, |x.calls|) + (if Hands(End(x), c, i) then 1 else 0)
  {
    hide EngineInv, Step, Timely, Hands;
    EndInv(x);
    var r := Step(End(x), c);
    y := Course(x.states + [r], x.calls + [c], x.clock + [hi]);
    forall k | 0 <= k < |y.calls| ensures CallAt(y.states, y.calls, y.clock, k) {
      if k < |x.calls| { assert CallAt(x.states, x.calls, x.clock, k); }
    }
    StepKeepsEngineInv(End(x), c, Over(x), hi);
    forall i ensures Grants(y, i, |x.calls|) == Grants(x, i, |x.calls|) {
      GrantsSoFar(x, y, i, |x.calls|);
    }
  }

  /** A course is a run of the machine. */
  lemma CourseLeads(x: Course, k: nat) returns (ms: seq<Move>)
    requires IsCourse(x) && k <= |x.calls|
    ensures EngineInv(x.states[0]) && EngineInv(x.states[k])
    ensures Leads(x.states[0].core, ms, x.states[k].core) && Within(ms, x.clock[0], x.clock[k])
    ensures Silent(ms)
  {
    hide EngineInv, Step, Timely, Leads, Within;
    ms := StretchLeads(x.states, x.calls, x.clock, 0, k);
  }

  // ---------------------------------------------------------------- what single calls do

  /** A claim that finds something. */
  lemma ClaimStep(e: EngineState, worker: string, queue: string, now: Time)
    requires EngineInv(e) && Claimable(e.core, queue) != {}
    ensures Timely(e, ClaimingCall(worker, queue, now), now, now)
    ensures var i := Least(Claimable(e.core, queue));
      var m, r := Claim(now, i, worker, queue, now + e.leaseTTL), Step(e, ClaimingCall(worker, queue, now));
      && Enabled(e.core, m) && r == e.(core := Apply(e.core, m))
      && r.core.activities == e.core.activities[i := After(e.core.activities[i], m, i)]
      && r.core.workflows == e.core.workflows
      && forall j :: Hands(e, ClaimingCall(worker, queue, now), j) <==> j == i
  {
    hide EngineInv, Apply, Before;
    var i, c := Least(Claimable(e.core, queue)), ClaimingCall(worker, queue, now);
    assert Timely(e, c, now, now);
    Housed(e, i);
    ClaimRecord(e.core, Claim(now, i, worker, queue, now + e.leaseTTL));
  }

  lemma ClaimRecord(s: State, m: Move)
    requires m.Claim? && Enabled(s, m)
    ensures Apply(s, m).activities == s.activities[m.act := After(s.activities[m.act], m, m.act)]
    ensures Apply(s, m).workflows == s.workflows
  {
  }

  /** A pass is the simultaneous update. */
  lemma PassStep(e: EngineState, now: Time)
    requires EngineInv(e)
    ensures Timely(e, PassingCall(now), now, now)
    ensures var r := Step(e, PassingCall(now));
      && r == e.(core := r.core) && r.core.activities == PassActivities(e.core, now)
      && r.core.workflows == PassWorkflows(e.core, now)
  {
    hide EngineInv, VisitAll, Sorted;
    assert Timely(e, PassingCall(now), now, now);
    EnginePass(e, now);
  }

  /** A failure report of the holder, taken at one reading. */
  lemma FailStep(e: EngineState, i: Id, retryable: bool, now: Time)
    requires EngineInv(e) && i in e.core.activities
    requires Current(e.core.activities[i], e.core.activities[i].leaseOwner, e.core.activities[i].fencingToken, now)
    ensures var a := e.core.activities[i];
      var c := FailingCall(i, a.leaseOwner, a.fencingToken, retryable, now, now);
      && Timely(e, c, now, now)
      && Known(e.core, i) && i in Step(e, c).core.activities && a.workflow in Step(e, c).core.workflows
      && (if retryable && a.attempt < a.maxAttempts then
            Step(e, c).core.activities[i] == a.(status := RetryPending, leaseOwner := "",
                                                nextAttemptAt := now + a.retryBackoff * a.attempt)
          else
            Step(e, c).core.workflows[a.workflow].status == WorkflowFailed)
      && Step(e, c).leaseTTL == e.leaseTTL
  {
    hide EngineInv, Apply, Enabled, Current;
    var a := e.core.activities[i];
    var c := FailingCall(i, a.leaseOwner, a.fencingToken, retryable, now, now);
    assert Timely(e, c, now, now);
    assert MessageAnswer(e.core, i, a.leaseOwner, a.fencingToken, now).Accepted? by { RunningIfCurrent(a, now); }
    AcceptedEnables(e, i, a.leaseOwner, a.fencingToken, now, now, retryable);
    Housed(e, i);
    var m := FailMove(e, i, a.leaseOwner, a.fencingToken, retryable, now, now);
    AfterMove(e.core, m, i);
    StatusEffect(e.core, m, a.workflow);
  }

  lemma RunningIfCurrent(a: Activity, now: Time)
    requires Current(a, a.leaseOwner, a.fencingToken, now)
    ensures a.status == Running
  {
  }

  /** A waiting record was at most released. */
  predicate OnlyReleased(a: Activity, b: Activity) {
    b == a || (a.status == RetryPending && b == a.(status := Ready))
  }

  lemma {:induction false} ReleaseAllRecords(s: State, ids: seq<Id>, ticks: seq<Time>)
    requires |ids| <= |ticks|
    ensures var t := ReleaseAll(s, ids, ticks);
            && t.workflows == s.workflows && t.activities.Keys == s.activities.Keys
            && forall j :: j in s.activities ==> OnlyReleased(s.activities[j], t.activities[j])
    decreases |ids|
  {
    if ids != [] {
      ReleaseAllRecords(s, ids[..|ids| - 1], ticks);
      hide DependenciesDone;
    }
  }

  lemma FinishRecords(s: State, w: Id, at: Time)
    ensures var t := FinishIfDone(s, w, at);
            && t.activities == s.activities && t.workflows.Keys == s.workflows.Keys
            && forall v :: v in s.workflows ==>
                 t.workflows[v] == s.workflows[v] || t.workflows[v] == s.workflows[v].(status := WorkflowCompleted)
  {
  }

  /** u is s after activity i was completed and others were released. */
  ghost predicate CompletedOne(s: State, t: State, i: Id) {
    && t.activities.Keys == s.activities.Keys && t.workflows.Keys == s.workflows.Keys
    && i in s.activities && t.activities[i].status == Completed && SameDefinition(s.activities[i], t.activities[i])
    && (forall j :: j in s.activities && j != i ==> OnlyReleased(s.activities[j], t.activities[j]))
    && (forall v :: v in s.workflows ==>
         t.workflows[v].status == s.workflows[v].status || t.workflows[v].status == WorkflowCompleted)
  }

  lemma WrapUpRecords(s: State, w: Id, ids: seq<Id>, ticks: seq<Time>, i: Id)
    requires |ids| < |ticks| && i in s.activities && s.activities[i].status == Completed
    ensures CompletedOne(s, FinishIfDone(ReleaseAll(s, ids, ticks), w, ticks[|ids|]), i)
  {
    ReleaseAllRecords(s, ids, ticks);
    FinishRecords(ReleaseAll(s, ids, ticks), w, ticks[|ids|]);
    hide ReleaseAll, FinishIfDone;
  }

  /** What a completion does to the records. */
  lemma CompletionRecords(e: EngineState, i: Id, worker: string, token: int, check: Time, ticks: seq<Time>)
    requires EngineInv(e) && MessageAnswer(e.core, i, worker, token, check).Accepted?
    requires |e.members[e.core.activities[i].workflow]| < |ticks|
    ensures CompletedOne(e.core, Completion(e, i, worker, token, check, ticks), i)
  {
    hide EngineInv, ReleaseAll, FinishIfDone, Apply, Enabled, Current;
    AcceptedEnables(e, i, worker, token, check, 0, true);
    Housed(e, i);
    var w, m := e.core.activities[i].workflow, Complete(check, i, worker, token);
    var s1 := Apply(e.core, m);
    CompleteRecord(e.core, m);
    WrapUpRecords(s1, w, e.members[w], ticks, i);
  }

  lemma CompleteRecord(s: State, m: Move)
    requires m.Complete? && Enabled(s, m)
    ensures Apply(s, m).activities
            == s.activities[m.act := s.activities[m.act].(status := Completed, leaseOwner := "")]
    ensures Apply(s, m).workflows == s.workflows
  {
  }

  /** The completion that the holder of activity i reports, taken at one reading. */
  ghost function HolderCompletes(e: EngineState, i: Id, now: Time): Call
    requires i in e.core.activities && e.core.activities[i].workflow in e.members
  {
    var a := e.core.activities[i];
    CompletingCall(i, a.leaseOwner, a.fencingToken, now, Still(|e.members[a.workflow]| + 1, now))
  }

  lemma CompleteStep(e: EngineState, i: Id, now: Time)
    requires EngineInv(e) && i in e.core.activities
    requires Current(e.core.activities[i], e.core.activities[i].leaseOwner, e.core.activities[i].fencingToken, now)
    ensures e.core.activities[i].workflow in e.members
    ensures var c := HolderCompletes(e, i, now);
      Timely(e, c, now, now) && CompletedOne(e.core, Step(e, c).core, i) && Step(e, c) == e.(core := Step(e, c).core)
  {
    hide EngineInv, CompletedOne, Completion, Current;
    Housed(e, i);
    var a, c := e.core.activities[i], HolderCompletes(e, i, now);
    RunningIfCurrent(a, now);
    assert Timely(e, c, now, now);
    CompletionRecords(e, i, a.leaseOwner, a.fencingToken, now, c.ticks);
  }

  // ---------------------------------------------------------------- courses about one activity

  const WORKER: string := "worker"

  /** The record of an activity that has just been handed out. */
  function HandedOut(a: Activity, until: Time): Activity {
    a.(status := Running, attempt := a.attempt + 1, leaseOwner := WORKER, fencingToken := a.fencingToken + 1,
       leaseExpiresAt := until)
  }

  lemma ReadyIsClaimable(s: State, i: Id)
    requires i in s.activities && s.activities[i].status == Ready
    ensures i in Claimable(s, "")
  {
  }

  lemma ClaimableAfter(s: State, t: State, i: Id, a: Activity)
    requires i in Claimable(s, "") && t.activities == s.activities[i := a] && a.status == Running
    ensures Claimable(t, "") == Claimable(s, "") - {i}
  {
  }

  /** Claims take ready activities in the order of their ids, so sooner or later it is the turn of i. */
  lemma {:induction false} ClaimUntil(x: Course, i: Id) returns (y: Course)
    requires IsCourse(x) && i in End(x).core.activities && End(x).core.activities[i].status == Ready
    ensures IsCourse(y) && Continues(x, y) && EndsWithGrant(y, i) && Over(y) == Over(x)
    ensures i in End(y).core.activities
    ensures End(y).core.activities[i] == HandedOut(End(x).core.activities[i], Over(x) + End(x).leaseTTL)
    ensures End(y).core.workflows == End(x).core.workflows && End(y).leaseTTL == End(x).leaseTTL
    ensures Grants(y, i, |y.calls|) == Grants(x, i, |x.calls|) + 1
    decreases |Claimable(End(x).core, "")|
  {
    hide IsStretch, EngineInv, Step, Timely, Hands, Claimable, Apply, Enabled;
    EndInv(x);
    var e, c := End(x), ClaimingCall(WORKER, "", Over(x));
    ReadyIsClaimable(e.core, i);
    ClaimStep(e, WORKER, "", Over(x));
    y := AndThen(x, c, Over(x));
    var j := Least(Claimable(e.core, ""));
    if j != i {
      ClaimableAfter(e.core, End(y).core, j, End(y).core.activities[j]);
      var z := ClaimUntil(y, i);
      y := z;
    }
  }

  /** A running activity with attempts left gets ready again: when its lease runs out or, if it has no
      deadline, by a failure report and the pass after its backoff. */
  lemma ReadyAgain(x: Course, i: Id) returns (y: Course)
    requires IsCourse(x) && i in End(x).core.activities && End(x).core.activities[i].status == Running
    requires End(x).core.activities[i].attempt < End(x).core.activities[i].maxAttempts
    ensures IsCourse(y) && Continues(x, y)
    ensures i in End(y).core.activities
    ensures var a, b := End(x).core.activities[i], End(y).core.activities[i];
      b.status == Ready && b.attempt == a.attempt && b.maxAttempts == a.maxAttempts && b.workflow == a.workflow
    ensures Grants(y, i, |y.calls|) == Grants(x, i, |x.calls|)
  {
    hide IsStretch, EngineInv, Step, Timely, DependenciesDone;
    EndInv(x);
    var a := End(x).core.activities[i];
    if a.leaseExpiresAt != NO_DEADLINE {
      var t := if a.leaseExpiresAt < Over(x) then Over(x) else a.leaseExpiresAt;
      y := PassAt(x, t);
    } else {
      FailStep(End(x), i, true, Over(x));
      AttemptedIfRunning(End(x), i);
      var z := AndThen(x, FailingCall(i, a.leaseOwner, a.fencingToken, true, Over(x), Over(x)), Over(x));
      DoneIfAttempted(End(z), i);
      var b := End(z).core.activities[i];
      var t := if b.nextAttemptAt < Over(z) then Over(z) else b.nextAttemptAt;
      y := PassAt(z, t);
    }
  }

  /** A pass at time t. */
  lemma PassAt(x: Course, t: Time) returns (y: Course)
    requires IsCourse(x) && Over(x) <= t
    ensures IsCourse(y) && Continues(x, y) && |y.calls| == |x.calls| + 1 && Over(y) == t
    ensures End(y).core.activities == PassActivities(End(x).core, t)
    ensures End(y).core.workflows == PassWorkflows(End(x).core, t)
    ensures End(y).leaseTTL == End(x).leaseTTL
    ensures forall i :: Grants(y, i, |y.calls|) == Grants(x, i, |x.calls|)
  {
    hide IsStretch, EngineInv, Step, PassActivities, PassWorkflows;
    EndInv(x);
    PassStep(End(x), t);
    y := AndThen(x, PassingCall(t), t);
  }

  lemma DoneIfAttempted(e: EngineState, i: Id)
    requires EngineInv(e) && i in e.core.activities && 0 < e.core.activities[i].attempt
    ensures DependenciesDone(e.core.activities, e.core.activities[i])
  {
    hide DependenciesDone, Shaped, WellFormed, Counted, Consistent, UniqueKeys;
    assert LetThrough(e.core.activities[i]);
  }

  lemma AttemptedIfRunning(e: EngineState, i: Id)
    requires EngineInv(e) && i in e.core.activities && e.core.activities[i].status == Running
    ensures 0 < e.core.activities[i].attempt && Known(e.core, i)
  {
    hide Shaped, Gated, Consistent, UniqueKeys;
    assert Counters(e.core.activities[i]);
  }

  /** A running activity can always still fail its workflow. */
  lemma RunningCanFail(x: Course, i: Id) returns (y: Course)
    requires IsCourse(x) && i in End(x).core.activities && End(x).core.activities[i].status == Running
    ensures IsCourse(y) && Continues(x, y)
    ensures var w := End(x).core.activities[i].workflow;
            w in End(y).core.workflows && End(y).core.workflows[w].status == WorkflowFailed
  {
    hide IsStretch, EngineInv, Step, Timely, PassActivities;
    EndInv(x);
    AttemptedIfRunning(End(x), i);
    var a := End(x).core.activities[i];
    if !Expired(a, Over(x)) {
      y := FailsNow(x, i);
    } else if a.attempt >= a.maxAttempts {
      y := PassAt(x, Over(x));
      assert Exhausts(End(x).core, a.workflow, End(x).core.activities.Keys, Over(x));
    } else {
      var z := ReadyAgain(x, i);
      z := ClaimUntil(z, i);
      EndInv(z);
      Housed(End(z), i);
      y := FailsNow(z, i);
    }
  }

  lemma FailsNow(x: Course, i: Id) returns (y: Course)
    requires IsCourse(x) && i in End(x).core.activities && End(x).core.activities[i].status == Running
    requires !Expired(End(x).core.activities[i], Over(x))
    ensures IsCourse(y) && Continues(x, y)
    ensures var w := End(x).core.activities[i].workflow;
            w in End(y).core.workflows && End(y).core.workflows[w].status == WorkflowFailed
  {
    hide IsStretch, EngineInv, Step, Timely;
    EndInv(x);
    FailStep(End(x), i, false, Over(x));
    var a := End(x).core.activities[i];
    y := AndThen(x, FailingCall(i, a.leaseOwner, a.fencingToken, false, Over(x), Over(x)), Over(x));
  }
}
