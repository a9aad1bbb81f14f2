/** What each call of the in-memory engine does, as a function of its state and of the clock readings
    it takes; and that every call is a sequence of moves of the lease machine. */
module EngineSteps {
  import opened Machine
  import opened Invariants
  import opened Ids

  datatype ActivityDefinition = ActivityDefinition(
    name: string,
    taskQueue: string,
    dependsOn: seq<string>,
    maxAttempts: int,
    retryBackoff: Time)

  datatype WorkflowDefinition = WorkflowDefinition(
    name: string,
    namespace: string,
    activities: seq<ActivityDefinition>)

  datatype Error = NotFound | NoRunnableActivity | InvalidTransition | StaleLease

  /** The answer of a call that returns nothing but an error. */
  datatype Answer = Accepted | Refused(error: Error)

  datatype StartAnswer = Started(id: Id) | Duplicate(id: Id) | Rejected

  datatype ClaimAnswer = Granted(activity: Id, token: nat) | NothingReady

  /** What a granted claim hands to its worker.  Under the application key it can make the side effects of
      the activity idempotent. */
  datatype Receipt = Receipt(
    activity: Id,
    workflow: Id,
    name: string,
    attempt: nat,
    token: nat,
    expires: Time,
    applicationKey: string)

  const NO_RECEIPT: Receipt := Receipt("", "", "", 0, 0, NO_DEADLINE, "")

  /** One second, the backoff of an activity that names none. */
  const SECOND: Time := 1_000_000_000

  datatype EngineState = EngineState(
    core: State,
    members: map<Id, seq<Id>>,
    index: map<string, Id>,
    nextWorkflow: nat,
    nextActivity: nat,
    leaseTTL: Time,
    maxAttempts: nat)

  // ---------------------------------------------------------------- shape of the engine's own maps

  ghost function ActivitiesOf(s: State, w: Id): set<Id> {
    set i | i in s.activities && s.activities[i].workflow == w
  }

  predicate IssuedWorkflow(w: Id, n: nat) {
    exists k :: 1 <= k <= n && WorkflowId(k) == w
  }

  predicate IssuedActivity(i: Id, n: nat) {
    exists k :: 1 <= k <= n && ActivityId(k) == i
  }

  /** The idempotency index is the list of the stored workflows that carry a key. */
  ghost predicate Filed(e: EngineState) {
    && (forall w :: w in e.core.workflows && e.core.workflows[w].key != "" ==>
          FiledUnder(e, w) in e.index && e.index[FiledUnder(e, w)] == w)
    && (forall k :: k in e.index ==>
          e.index[k] in e.core.workflows && e.core.workflows[e.index[k]].key != "" && FiledUnder(e, e.index[k]) == k)
  }

  ghost function FiledUnder(e: EngineState, w: Id): string
    requires w in e.core.workflows
  {
    Join(e.core.workflows[w].namespace, e.core.workflows[w].key)
  }

  ghost predicate Shaped(e: EngineState) {
    && e.leaseTTL > 0 && e.maxAttempts > 0
    && e.members.Keys == e.core.workflows.Keys
    && (forall w :: w in e.members ==> Lists(e.members[w], ActivitiesOf(e.core, w)))
    && (forall w :: w in e.core.workflows ==> IssuedWorkflow(w, e.nextWorkflow))
    && (forall i :: i in e.core.activities ==> IssuedActivity(i, e.nextActivity))
    && Filed(e)
  }

  /** What every call may rely on. */
  ghost predicate EngineInv(e: EngineState) {
    Inv(e.core) && Shaped(e)
  }

  lemma InvOf(e: EngineState)
    requires EngineInv(e)
    ensures Inv(e.core) && Shaped(e)
  {
  }

  lemma Housed(e: EngineState, i: Id)
    requires EngineInv(e) && i in e.core.activities
    ensures Known(e.core, i) && e.core.activities[i].workflow in e.members && e.leaseTTL > 0
  {
  }

  // ---------------------------------------------------------------- the pieces of the calls

  /** Release, in the given order, whatever is due at the reading taken for it. */
  ghost function ReleaseAll(s: State, ids: seq<Id>, ticks: seq<Time>): State
    requires |ids| <= |ticks|
    decreases |ids|
  {
    if ids == [] then s
    else
      var n := |ids| - 1;
      var t := ReleaseAll(s, ids[..n], ticks);
      if Enabled(t, Release(ticks[n], ids[n])) then Apply(t, Release(ticks[n], ids[n])) else t
  }

  ghost function FinishIfDone(s: State, w: Id, at: Time): State {
    if Enabled(s, Finish(at, w)) then Apply(s, Finish(at, w)) else s
  }

  /** What a scheduler pass does when it comes to activity i. */
  ghost function Visit(s: State, i: Id, now: Time): State {
    if Enabled(s, Reap(now, i)) then Apply(s, Reap(now, i))
    else if Enabled(s, ReapFail(now, i, false)) then Apply(s, ReapFail(now, i, false))
    else if Enabled(s, Release(now, i)) then Apply(s, Release(now, i))
    else s
  }

  ghost predicate Visited(s: State, i: Id, now: Time) {
    Enabled(s, Reap(now, i)) || Enabled(s, ReapFail(now, i, false)) || Enabled(s, Release(now, i))
  }

  ghost function VisitAll(s: State, order: seq<Id>, now: Time): State {
    if order == [] then s
    else Visit(VisitAll(s, order[..|order| - 1], now), order[|order| - 1], now)
  }

  /** How many of the visits change something. */
  ghost function VisitCount(s: State, order: seq<Id>, now: Time): nat {
    if order == [] then 0
    else
      var n := |order| - 1;
      VisitCount(s, order[..n], now) + (if Visited(VisitAll(s, order[..n], now), order[n], now) then 1 else 0)
  }

  // ---------------------------------------------------------------- starting

  predicate Complains(def: WorkflowDefinition) {
    def.namespace == "" || def.name == "" || def.activities == []
  }

  predicate HasName(def: WorkflowDefinition, name: string) {
    exists k :: 0 <= k < |def.activities| && def.activities[k].name == name
  }

  /** Activity names are present and distinct, and dependencies name activities of the definition.
      A cycle of dependencies is not excluded. */
  predicate ValidNames(def: WorkflowDefinition) {
    && (forall k :: 0 <= k < |def.activities| ==> def.activities[k].name != "")
    && (forall j, k :: 0 <= j < k < |def.activities| ==> def.activities[j].name != def.activities[k].name)
  }

  predicate ValidDependencies(def: WorkflowDefinition) {
    forall k, d :: 0 <= k < |def.activities| && d in def.activities[k].dependsOn ==> HasName(def, d)
  }

  /** The checks of a definition before anything is stored. */
  method Validate(def: WorkflowDefinition) returns (ok: bool)
    ensures ok <==> ValidNames(def) && ValidDependencies(def)
  {
    var names: set<string> := {};
    for k := 0 to |def.activities|
      invariant forall j :: 0 <= j < k ==> def.activities[j].name != "" && def.activities[j].name in names
      invariant forall x :: x in names ==> exists j :: 0 <= j < k && def.activities[j].name == x
      invariant forall i, j :: 0 <= i < j < k ==> def.activities[i].name != def.activities[j].name
    {
      var name := def.activities[k].name;
      if name == "" || name in names {
        return false;
      }
      names := names + {name};
    }
    forall x ensures x in names <==> HasName(def, x) {
    }
    for k := 0 to |def.activities|
      invariant forall j, x :: 0 <= j < k && x in def.activities[j].dependsOn ==> HasName(def, x)
    {
      var dependsOn := def.activities[k].dependsOn;
      for d := 0 to |dependsOn|
        invariant forall j :: 0 <= j < d ==> HasName(def, dependsOn[j])
      {
        if dependsOn[d] !in names {
          assert dependsOn[d] in def.activities[k].dependsOn;
          return false;
        }
      }
    }
    return true;
  }

  function NewActivity(d: ActivityDefinition, w: Id, at: Time, defaultAttempts: nat): Activity {
    Activity(w, d.name, d.taskQueue,
             if |d.dependsOn| > 0 then RetryPending else Ready,
             0, if d.maxAttempts <= 0 then defaultAttempts else d.maxAttempts,
             "", NO_DEADLINE, 0, at, d.dependsOn,
             if d.retryBackoff <= 0 then SECOND else d.retryBackoff)
  }

  function NewRow(e: EngineState, def: WorkflowDefinition, w: Id, at: Time, k: nat): Row
    requires k < |def.activities|
  {
    Row(ActivityId(e.nextActivity + 1 + k), NewActivity(def.activities[k], w, at, e.maxAttempts))
  }

  function NewRows(e: EngineState, def: WorkflowDefinition, w: Id, at: Time): (r: seq<Row>) {
    seq(|def.activities|, k requires 0 <= k < |def.activities| => NewRow(e, def, w, at, k))
  }

  function NewMembers(e: EngineState, def: WorkflowDefinition): (r: seq<Id>) {
    seq(|def.activities|, k requires 0 <= k < |def.activities| => ActivityId(e.nextActivity + 1 + k))
  }

  function LaunchMove(e: EngineState, def: WorkflowDefinition, key: string, at: Time): Move {
    var w := WorkflowId(e.nextWorkflow + 1);
    Launch(at, w, Workflow(def.namespace, def.name, key, WorkflowRunning), NewRows(e, def, w, at))
  }

  /** How Start answers, without its effect. */
  function StartAnswerOf(e: EngineState, def: WorkflowDefinition, key: string): StartAnswer {
    if Complains(def) then Rejected
    else if key != "" && Join(def.namespace, key) in e.index then Duplicate(e.index[Join(def.namespace, key)])
    else if !ValidNames(def) || !ValidDependencies(def) then Rejected
    else Started(WorkflowId(e.nextWorkflow + 1))
  }

  ghost function StartCall(e: EngineState, def: WorkflowDefinition, key: string, now: Time, ticks: seq<Time>): EngineState
    requires EngineInv(e) && |def.activities| <= |ticks|
  {
    if !StartAnswerOf(e, def, key).Started? then e
    else
      CanStart(e, def, key, now);
      var m := LaunchMove(e, def, key, now);
      e.(core := ReleaseAll(Apply(e.core, m), NewMembers(e, def), ticks),
         members := e.members[m.workflow := NewMembers(e, def)],
         index := if key != "" then e.index[Join(def.namespace, key) := m.workflow] else e.index,
         nextWorkflow := e.nextWorkflow + 1,
         nextActivity := e.nextActivity + |def.activities|)
  }

  lemma NewIdsFresh(e: EngineState, n: nat)
    requires Shaped(e)
    ensures n > e.nextWorkflow ==> WorkflowId(n) !in e.core.workflows
    ensures n > e.nextActivity ==> ActivityId(n) !in e.core.activities
  {
    if WorkflowId(n) in e.core.workflows {
      assert IssuedWorkflow(WorkflowId(n), e.nextWorkflow);
      var k :| 1 <= k <= e.nextWorkflow && WorkflowId(k) == WorkflowId(n);
      IdsInjective(k, n);
    }
    if ActivityId(n) in e.core.activities {
      assert IssuedActivity(ActivityId(n), e.nextActivity);
      var k :| 1 <= k <= e.nextActivity && ActivityId(k) == ActivityId(n);
      IdsInjective(k, n);
    }
  }

  /** An accepted start is a move of the machine: its ids are new and its key is not taken. */
  lemma CanStart(e: EngineState, def: WorkflowDefinition, key: string, now: Time)
    requires Shaped(e) && StartAnswerOf(e, def, key).Started?
    ensures Enabled(e.core, LaunchMove(e, def, key, now))
  {
    hide Shaped;
    var m := LaunchMove(e, def, key, now);
    ShapedBounds(e);
    NewIdsFresh(e, e.nextWorkflow + 1);
    forall k | 0 <= k < |m.rows|
      ensures m.rows[k].id !in e.core.activities && Fresh(m.rows[k].activity, m.workflow, now)
    {
      NewIdsFresh(e, e.nextActivity + 1 + k);
    }
    forall j, k | 0 <= j < k < |m.rows|
      ensures m.rows[j].id != m.rows[k].id && m.rows[j].activity.name != m.rows[k].activity.name
    {
      IdsInjective(e.nextActivity + 1 + j, e.nextActivity + 1 + k);
    }
    forall k, d | 0 <= k < |m.rows| && d in m.rows[k].activity.dependsOn ensures RowNamed(m.rows, d) {
      assert HasName(def, d);
      var j :| 0 <= j < |def.activities| && def.activities[j].name == d;
      assert m.rows[j].activity.name == d;
    }
    if key != "" { KeyIsFree(e, def, key); }
  }

  lemma ShapedBounds(e: EngineState)
    requires Shaped(e)
    ensures e.leaseTTL > 0 && e.maxAttempts > 0
  {
  }

  lemma KeyIsFree(e: EngineState, def: WorkflowDefinition, key: string)
    requires Shaped(e) && StartAnswerOf(e, def, key).Started? && key != ""
    ensures forall v :: v in e.core.workflows ==>
      e.core.workflows[v].namespace != def.namespace || e.core.workflows[v].key != key
  {
    forall v | v in e.core.workflows
      ensures e.core.workflows[v].namespace != def.namespace || e.core.workflows[v].key != key
    {
      assert e.core.workflows[v].key != "" ==> FiledUnder(e, v) in e.index;
    }
  }

  // ---------------------------------------------------------------- the other calls

  ghost function Claimable(s: State, queue: string): set<Id> {
    set i | i in s.activities && s.activities[i].status == Ready && QueueMatches(queue, s.activities[i].taskQueue)
  }

  ghost function ClaimAnswerOf(e: EngineState, queue: string): ClaimAnswer {
    if Claimable(e.core, queue) == {} then NothingReady
    else
      var i := Least(Claimable(e.core, queue));
      Granted(i, e.core.activities[i].fencingToken + 1)
  }

  /** Claim takes the first matching id in sorted order. */
  ghost function ClaimCall(e: EngineState, worker: string, queue: string, now: Time): EngineState
    requires EngineInv(e)
  {
    if Claimable(e.core, queue) == {} then e
    else e.(core := Apply(e.core, Claim(now, Least(Claimable(e.core, queue)), worker, queue, now + e.leaseTTL)))
  }

  /** The checks that a message passes before anything is changed. */
  function MessageAnswer(s: State, i: Id, worker: string, token: int, check: Time): Answer {
    if i !in s.activities then Refused(NotFound)
    else if s.activities[i].status != Running then Refused(InvalidTransition)
    else if !Current(s.activities[i], worker, token, check) then Refused(StaleLease)
    else Accepted
  }

  ghost function RejectStale(e: EngineState, i: Id, worker: string, token: int, check: Time, kind: Kind): EngineState
    requires EngineInv(e) && IsStale(kind) && MessageAnswer(e.core, i, worker, token, check) == Refused(StaleLease)
  {
    e.(core := Apply(e.core, Reject(check, i, worker, token, kind)))
  }

  /** A message that passes the checks can make its move. */
  lemma AcceptedEnables(e: EngineState, i: Id, worker: string, token: int, check: Time, base: Time, retryable: bool)
    requires EngineInv(e) && MessageAnswer(e.core, i, worker, token, check).Accepted?
    ensures Enabled(e.core, Heartbeat(check, i, worker, token, base + e.leaseTTL))
    ensures Enabled(e.core, Complete(check, i, worker, token))
    ensures Enabled(e.core, FailMove(e, i, worker, token, retryable, check, base))
  {
    Housed(e, i);
  }

  ghost function HeartbeatCall(e: EngineState, i: Id, worker: string, token: int, check: Time, base: Time): EngineState
    requires EngineInv(e)
  {
    match MessageAnswer(e.core, i, worker, token, check)
    case Accepted => e.(core := Apply(e.core, Heartbeat(check, i, worker, token, base + e.leaseTTL)))
    case Refused(StaleLease) => RejectStale(e, i, worker, token, check, StaleHeartbeatEvent)
    case Refused(_) => e
  }

  ghost function Completion(e: EngineState, i: Id, worker: string, token: int, check: Time, ticks: seq<Time>): State
    requires EngineInv(e) && MessageAnswer(e.core, i, worker, token, check).Accepted?
    requires |e.members[e.core.activities[i].workflow]| < |ticks|
  {
    var w := e.core.activities[i].workflow;
    var n := |e.members[w]|;
    FinishIfDone(ReleaseAll(Apply(e.core, Complete(check, i, worker, token)), e.members[w], ticks), w, ticks[n])
  }

  ghost function CompleteCall(e: EngineState, i: Id, worker: string, token: int, check: Time, ticks: seq<Time>): EngineState
    requires EngineInv(e) && (i in e.core.activities ==> |e.members[e.core.activities[i].workflow]| < |ticks|)
  {
    match MessageAnswer(e.core, i, worker, token, check)
    case Accepted => e.(core := Completion(e, i, worker, token, check, ticks))
    case Refused(StaleLease) => RejectStale(e, i, worker, token, check, StaleCompletionEvent)
    case Refused(_) => e
  }

  ghost function FailMove(e: EngineState, i: Id, worker: string, token: int, retryable: bool, check: Time, base: Time): Move
    requires i in e.core.activities
  {
    var a := e.core.activities[i];
    if retryable && a.attempt < a.maxAttempts then
      Retry(check, i, worker, token, base + a.retryBackoff * a.attempt)
    else Fail(check, i, worker, token)
  }

  ghost function FailCall(e: EngineState, i: Id, worker: string, token: int, retryable: bool, check: Time, base: Time): EngineState
    requires EngineInv(e)
  {
    match MessageAnswer(e.core, i, worker, token, check)
    case Accepted => e.(core := Apply(e.core, FailMove(e, i, worker, token, retryable, check, base)))
    case Refused(StaleLease) => RejectStale(e, i, worker, token, check, StaleFailureEvent)
    case Refused(_) => e
  }

  ghost function CancelAnswer(s: State, w: Id): Answer {
    if w !in s.workflows then Refused(NotFound)
    else if s.workflows[w].status != WorkflowRunning then Refused(InvalidTransition)
    else Accepted
  }

  /** The pending activities of a list, in its order. */
  ghost function PendingAmong(s: State, ids: seq<Id>): seq<Id> {
    if ids == [] then []
    else
      var n := |ids| - 1;
      PendingAmong(s, ids[..n])
      + (if ids[n] in s.activities && Pending(s.activities[ids[n]]) then [ids[n]] else [])
  }

  lemma {:induction false} PendingAmongFacts(s: State, ids: seq<Id>)
    requires forall j, k :: 0 <= j < k < |ids| ==> ids[j] != ids[k]
    ensures var xs := PendingAmong(s, ids);
            && (forall j, k :: 0 <= j < k < |xs| ==> xs[j] != xs[k])
            && (forall x :: x in xs <==> x in ids && x in s.activities && Pending(s.activities[x]))
  {
    if ids != [] {
      var n := |ids| - 1;
      PendingAmongFacts(s, ids[..n]);
      assert ids == ids[..n] + [ids[n]];
    }
  }

  lemma CanCancel(e: EngineState, w: Id, now: Time)
    requires Shaped(e) && CancelAnswer(e.core, w).Accepted?
    ensures Enabled(e.core, Cancel(now, w, PendingAmong(e.core, e.members[w])))
  {
    PendingAmongFacts(e.core, e.members[w]);
  }

  ghost function CancelCall(e: EngineState, w: Id, now: Time): EngineState
    requires EngineInv(e)
  {
    if !CancelAnswer(e.core, w).Accepted? then e
    else
      CanCancel(e, w, now);
      e.(core := Apply(e.core, Cancel(now, w, PendingAmong(e.core, e.members[w]))))
  }

  ghost function PassCall(e: EngineState, now: Time): EngineState {
    e.(core := VisitAll(e.core, Sorted(e.core.activities.Keys), now))
  }

  // ---------------------------------------------------------------- calls as sequences of moves

  /** Every reading of the moves lies between lo and hi. */
  ghost predicate Within(ms: seq<Move>, lo: Time, hi: Time) {
    Ordered(ms) && forall k :: 0 <= k < |ms| ==> lo <= ms[k].at <= hi
  }

  predicate NoLaunch(ms: seq<Move>) {
    forall k :: 0 <= k < |ms| ==> !ms[k].Launch?
  }

  /** Moves that neither create nor complete an activity. */
  predicate Quiet(ms: seq<Move>) {
    forall k :: 0 <= k < |ms| ==> !ms[k].Launch? && !ms[k].Complete?
  }

  predicate ClaimsNothing(ms: seq<Move>) {
    forall k :: 0 <= k < |ms| ==> !ms[k].Claim?
  }

  predicate ReportsNothing(ms: seq<Move>) {
    forall k :: 0 <= k < |ms| ==> !ms[k].Retry? && !ms[k].Fail?
  }

  ghost predicate Increasing(ticks: seq<Time>) {
    forall j, k :: 0 <= j < k < |ticks| ==> ticks[j] <= ticks[k]
  }

  lemma {:induction false} ReleaseAllLeads(s: State, ids: seq<Id>, ticks: seq<Time>) returns (ms: seq<Move>)
    requires |ids| <= |ticks|
    ensures Leads(s, ms, ReleaseAll(s, ids, ticks))
    ensures forall k :: 0 <= k < |ms| ==> ms[k].Release? && ids != []
    ensures Increasing(ticks) ==>
      Ordered(ms) && forall k :: 0 <= k < |ms| ==> ids != [] && ticks[0] <= ms[k].at <= ticks[|ids| - 1]
    decreases |ids|
  {
    if ids == [] {
      ms := [];
      LeadsNowhere(s);
    } else {
      var n := |ids| - 1;
      ms := ReleaseAllLeads(s, ids[..n], ticks);
      var t, m := ReleaseAll(s, ids[..n], ticks), Release(ticks[n], ids[n]);
      if Enabled(t, m) {
        LeadsThenOne(s, ms, t, m);
        ms := ms + [m];
      }
    }
  }

  lemma VisitLeads(s: State, i: Id, now: Time) returns (ms: seq<Move>)
    ensures Leads(s, ms, Visit(s, i, now)) && |ms| <= 1 && Silent(ms)
    ensures forall k :: 0 <= k < |ms| ==> ms[k].at == now && (ms[k].Reap? || ms[k].ReapFail? || ms[k].Release?)
  {
    if Enabled(s, Reap(now, i)) {
      LeadsOne(s, Reap(now, i));
      ms := [Reap(now, i)];
    } else if Enabled(s, ReapFail(now, i, false)) {
      LeadsOne(s, ReapFail(now, i, false));
      ms := [ReapFail(now, i, false)];
    } else if Enabled(s, Release(now, i)) {
      LeadsOne(s, Release(now, i));
      ms := [Release(now, i)];
    } else {
      LeadsNowhere(s);
      ms := [];
    }
  }

  lemma {:induction false} VisitAllLeads(s: State, order: seq<Id>, now: Time) returns (ms: seq<Move>)
    ensures Leads(s, ms, VisitAll(s, order, now)) && Silent(ms)
    ensures forall k :: 0 <= k < |ms| ==> ms[k].at == now && (ms[k].Reap? || ms[k].ReapFail? || ms[k].Release?)
  {
    if order == [] {
      LeadsNowhere(s);
      ms := [];
    } else {
      var n := |order| - 1;
      var before := VisitAllLeads(s, order[..n], now);
      var last := VisitLeads(VisitAll(s, order[..n], now), order[n], now);
      LeadsThrough(s, before, VisitAll(s, order[..n], now), last, VisitAll(s, order, now));
      ms := before + last;
    }
  }

  lemma LeadsFirst(s: State, m: Move, ms: seq<Move>, t: State)
    requires Enabled(s, m) && Leads(Apply(s, m), ms, t)
    ensures Leads(s, [m] + ms, t)
  {
    LeadsOne(s, m);
    LeadsThrough(s, [m], Apply(s, m), ms, t);
  }

  lemma FinishLeads(s: State, w: Id, at: Time) returns (ms: seq<Move>)
    ensures Leads(s, ms, FinishIfDone(s, w, at)) && |ms| <= 1
    ensures forall k :: 0 <= k < |ms| ==> ms[k] == Finish(at, w)
  {
    if Enabled(s, Finish(at, w)) {
      LeadsOne(s, Finish(at, w));
      ms := [Finish(at, w)];
    } else {
      LeadsNowhere(s);
      ms := [];
    }
  }

  /** What follows a completion. */
  lemma WrapUpLeads(s: State, w: Id, ids: seq<Id>, ticks: seq<Time>) returns (ms: seq<Move>)
    requires |ids| < |ticks|
    ensures Leads(s, ms, FinishIfDone(ReleaseAll(s, ids, ticks), w, ticks[|ids|]))
    ensures NoLaunch(ms) && Silent(ms) && ClaimsNothing(ms) && ReportsNothing(ms)
    ensures Increasing(ticks) ==> Within(ms, ticks[0], ticks[|ids|])
  {
    var rs := ReleaseAllLeads(s, ids, ticks);
    var t := ReleaseAll(s, ids, ticks);
    var fs := FinishLeads(t, w, ticks[|ids|]);
    LeadsThrough(s, rs, t, fs, FinishIfDone(t, w, ticks[|ids|]));
    ms := rs + fs;
  }

  lemma WithinFirst(m: Move, ms: seq<Move>, lo: Time, hi: Time)
    ensures Within(ms, lo, hi) && m.at <= lo <= hi ==> Within([m] + ms, m.at, hi)
    ensures !m.ReapFail? && Silent(ms) ==> Silent([m] + ms)
  {
  }

  lemma CompletionLeads(e: EngineState, i: Id, worker: string, token: int, check: Time, ticks: seq<Time>)
    returns (ms: seq<Move>)
    requires EngineInv(e) && MessageAnswer(e.core, i, worker, token, check).Accepted?
    requires |e.members[e.core.activities[i].workflow]| < |ticks|
    ensures Leads(e.core, ms, Completion(e, i, worker, token, check, ticks))
    ensures NoLaunch(ms) && Silent(ms) && ClaimsNothing(ms) && ReportsNothing(ms)
    ensures Increasing(ticks) && check <= ticks[0] ==>
      Within(ms, check, ticks[|e.members[e.core.activities[i].workflow]|])
  {
    hide EngineInv, Apply, Enabled, ReleaseAll, FinishIfDone, Leads, Current;
    AcceptedEnables(e, i, worker, token, check, check, true);
    Housed(e, i);
    var w := e.core.activities[i].workflow;
    var m := Complete(check, i, worker, token);
    var rest := WrapUpLeads(Apply(e.core, m), w, e.members[w], ticks);
    LeadsFirst(e.core, m, rest, Completion(e, i, worker, token, check, ticks));
    WithinFirst(m, rest, ticks[0], ticks[|e.members[w]|]);
    ms := [m] + rest;
  }
}
