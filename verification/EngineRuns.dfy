/** Runs of the in-memory engine: any sequence of calls, with any arguments, under any clock.  Every such
    run is a run of the lease machine, so all theorems about the machine hold for it; on top of that come
    the theorems about the engine's own maps and answers.  Where a theorem needs the clock not to go back,
    it says so. */
module EngineRuns {
  import opened Machine
  import opened Invariants
  import opened Ids
  import opened Logs
  import opened Topology
  import opened EngineSteps

  /** One call with its arguments and the clock readings it takes. */
  datatype Call =
    | StartingCall(def: WorkflowDefinition, key: string, now: Time, ticks: seq<Time>)
    | ClaimingCall(worker: string, queue: string, now: Time)
    | HeartbeatingCall(act: Id, worker: string, token: int, check: Time, base: Time)
    | CompletingCall(act: Id, worker: string, token: int, check: Time, ticks: seq<Time>)
    | FailingCall(act: Id, worker: string, token: int, retryable: bool, check: Time, base: Time)
    | CancellingCall(workflow: Id, now: Time)
    | PassingCall(now: Time)

  ghost predicate Between(lo: Time, ticks: seq<Time>, hi: Time) {
    Increasing(ticks) && lo <= hi && forall k :: 0 <= k < |ticks| ==> lo <= ticks[k] <= hi
  }

  /** The same reading n times. */
  function Still(n: nat, at: Time): (r: seq<Time>)
    ensures |r| == n && forall k :: 0 <= k < n ==> r[k] == at
  {
    seq(n, _ => at)
  }

  /** The call brings as many readings as it takes. */
  ghost predicate Enough(e: EngineState, c: Call) {
    match c
    case StartingCall(def, _, _, ticks) => |def.activities| <= |ticks|
    case CompletingCall(i, _, _, _, ticks) =>
      i in e.core.activities && e.core.activities[i].workflow in e.members ==>
        |e.members[e.core.activities[i].workflow]| < |ticks|
    case _ => true
  }

  /** The readings of the call do not go back and lie between lo and hi. */
  ghost predicate ReadsInOrder(c: Call, lo: Time, hi: Time) {
    match c
    case StartingCall(_, _, now, ticks) => lo <= now && Between(now, ticks, hi)
    case ClaimingCall(_, _, now) => lo <= now <= hi
    case HeartbeatingCall(_, _, _, check, base) => lo <= check <= base <= hi
    case CompletingCall(_, _, _, check, ticks) => lo <= check && Between(check, ticks, hi)
    case FailingCall(_, _, _, _, check, base) => lo <= check <= base <= hi
    case CancellingCall(_, now) => lo <= now <= hi
    case PassingCall(now) => lo <= now <= hi
  }

  /** The call takes enough readings, and they lie in order between lo and hi.  Bounds that are themselves
      out of order say nothing of the clock. */
  ghost predicate Timely(e: EngineState, c: Call, lo: Time, hi: Time) {
    Enough(e, c) && (lo <= hi ==> ReadsInOrder(c, lo, hi))
  }

  lemma MembersKnown(e: EngineState, i: Id)
    requires EngineInv(e)
    ensures i in e.core.activities ==> e.core.activities[i].workflow in e.members
  {
    if i in e.core.activities { Housed(e, i); }
  }

  ghost function Step(e: EngineState, c: Call): EngineState
    requires EngineInv(e) && exists lo, hi :: Timely(e, c, lo, hi)
  {
    hide EngineInv;
    match c
    case StartingCall(def, key, now, ticks) => StartCall(e, def, key, now, ticks)
    case ClaimingCall(worker, queue, now) => ClaimCall(e, worker, queue, now)
    case HeartbeatingCall(i, worker, token, check, base) => HeartbeatCall(e, i, worker, token, check, base)
    case CompletingCall(i, worker, token, check, ticks) =>
      MembersKnown(e, i);
      CompleteCall(e, i, worker, token, check, ticks)
    case FailingCall(i, worker, token, retryable, check, base) =>
      FailCall(e, i, worker, token, retryable, check, base)
    case CancellingCall(w, now) => CancelCall(e, w, now)
    case PassingCall(now) => PassCall(e, now)
  }

  predicate IsNew(e: EngineState) {
    && e.core == EMPTY && e.members == map[] && e.index == map[] && e.nextWorkflow == 0 && e.nextActivity == 0
    && e.leaseTTL > 0 && e.maxAttempts > 0
  }

  /** es are the states of an engine before, between and after the calls cs; clock[k] is a bound on
      the readings up to call k.  If the clock does not go back, the bounds are in order. */
  ghost predicate IsEngineRun(es: seq<EngineState>, cs: seq<Call>, clock: seq<Time>) {
    && |es| == |cs| + 1 == |clock| && IsNew(es[0])
    && forall k :: 0 <= k < |cs| ==> CallAt(es, cs, clock, k)
  }

  /** The same from any state that an engine can be in. */
  ghost predicate IsStretch(es: seq<EngineState>, cs: seq<Call>, clock: seq<Time>) {
    && |es| == |cs| + 1 == |clock| && EngineInv(es[0])
    && forall k :: 0 <= k < |cs| ==> CallAt(es, cs, clock, k)
  }

  ghost predicate CallAt(es: seq<EngineState>, cs: seq<Call>, clock: seq<Time>, k: nat)
    requires |es| == |cs| + 1 == |clock| && k < |cs|
  {
    Timely(es[k], cs[k], clock[k], clock[k + 1]) && (EngineInv(es[k]) ==> es[k + 1] == Step(es[k], cs[k]))
  }

  // ---------------------------------------------------------------- every call is a sequence of moves

  lemma StartLeads(e: EngineState, def: WorkflowDefinition, key: string, now: Time, ticks: seq<Time>, hi: Time)
    returns (ms: seq<Move>)
    requires EngineInv(e) && |def.activities| <= |ticks|
    ensures Leads(e.core, ms, StartCall(e, def, key, now, ticks).core) && Silent(ms) && ClaimsNothing(ms)
    ensures ReportsNothing(ms)
    ensures Between(now, ticks, hi) ==> Within(ms, now, hi)
  {
    hide Inv, Shaped, Apply, Enabled, ReleaseAll, Leads, StartAnswerOf;
    if StartAnswerOf(e, def, key).Started? {
      CanStart(e, def, key, now);
      var m := LaunchMove(e, def, key, now);
      var rs := ReleaseAllLeads(Apply(e.core, m), NewMembers(e, def), ticks);
      LeadsFirst(e.core, m, rs, ReleaseAll(Apply(e.core, m), NewMembers(e, def), ticks));
      ms := [m] + rs;
    } else {
      LeadsNowhere(e.core);
      ms := [];
    }
  }

  lemma OneMoveLeads(s: State, m: Move) returns (ms: seq<Move>)
    requires Enabled(s, m) && !m.Launch? && !m.ReapFail?
    ensures Leads(s, ms, Apply(s, m)) && Within(ms, m.at, m.at) && NoLaunch(ms) && Silent(ms)
    ensures !m.Complete? ==> Quiet(ms)
    ensures !m.Claim? ==> ClaimsNothing(ms)
    ensures !m.Retry? && !m.Fail? ==> ReportsNothing(ms)
  {
    LeadsOne(s, m);
    ms := [m];
  }

  lemma NoMoveLeads(s: State) returns (ms: seq<Move>)
    ensures Leads(s, ms, s) && ms == []
  {
    LeadsNowhere(s);
    ms := [];
  }

  lemma ClaimLeads(e: EngineState, worker: string, queue: string, now: Time) returns (ms: seq<Move>)
    requires EngineInv(e)
    ensures Leads(e.core, ms, ClaimCall(e, worker, queue, now).core) && Within(ms, now, now) && Quiet(ms) && Silent(ms)
    ensures ReportsNothing(ms)
  {
    hide Apply, EngineInv, Leads;
    if Claimable(e.core, queue) == {} {
      ms := NoMoveLeads(e.core);
    } else {
      var i := Least(Claimable(e.core, queue));
      Housed(e, i);
      ms := OneMoveLeads(e.core, Claim(now, i, worker, queue, now + e.leaseTTL));
    }
  }

  lemma RejectLeads(e: EngineState, i: Id, worker: string, token: int, check: Time, kind: Kind)
    returns (ms: seq<Move>)
    requires EngineInv(e) && IsStale(kind) && MessageAnswer(e.core, i, worker, token, check) == Refused(StaleLease)
    ensures Leads(e.core, ms, RejectStale(e, i, worker, token, check, kind).core)
    ensures Within(ms, check, check) && Quiet(ms) && Silent(ms) && ClaimsNothing(ms)
    ensures ReportsNothing(ms)
  {
    Housed(e, i);
    hide Apply, EngineInv, Leads;
    ms := OneMoveLeads(e.core, Reject(check, i, worker, token, kind));
  }

  lemma HeartbeatLeads(e: EngineState, i: Id, worker: string, token: int, check: Time, base: Time)
    returns (ms: seq<Move>)
    requires EngineInv(e)
    ensures Leads(e.core, ms, HeartbeatCall(e, i, worker, token, check, base).core)
    ensures Within(ms, check, check) && Quiet(ms) && Silent(ms) && ClaimsNothing(ms)
    ensures ReportsNothing(ms)
  {
    hide Apply, Enabled, EngineInv, Leads, RejectStale;
    match MessageAnswer(e.core, i, worker, token, check) {
      case Accepted =>
        AcceptedEnables(e, i, worker, token, check, base, true);
        ms := OneMoveLeads(e.core, Heartbeat(check, i, worker, token, base + e.leaseTTL));
      case Refused(StaleLease) => ms := RejectLeads(e, i, worker, token, check, StaleHeartbeatEvent);
      case Refused(_) => ms := NoMoveLeads(e.core);
    }
  }

  lemma CompleteLeads(e: EngineState, i: Id, worker: string, token: int, check: Time, ticks: seq<Time>, hi: Time)
    returns (ms: seq<Move>)
    requires EngineInv(e)
    requires i in e.core.activities ==> |e.members[e.core.activities[i].workflow]| < |ticks|
    ensures Leads(e.core, ms, CompleteCall(e, i, worker, token, check, ticks).core)
    ensures NoLaunch(ms) && Silent(ms) && ClaimsNothing(ms) && ReportsNothing(ms)
    ensures Between(check, ticks, hi) ==> Within(ms, check, hi)
    ensures !MessageAnswer(e.core, i, worker, token, check).Accepted? ==> Quiet(ms)
  {
    hide Apply, EngineInv, Leads, RejectStale, Completion;
    match MessageAnswer(e.core, i, worker, token, check) {
      case Accepted => ms := CompletionLeads(e, i, worker, token, check, ticks);
      case Refused(StaleLease) => ms := RejectLeads(e, i, worker, token, check, StaleCompletionEvent);
      case Refused(_) => ms := NoMoveLeads(e.core);
    }
  }

  lemma FailLeads(e: EngineState, i: Id, worker: string, token: int, retryable: bool, check: Time, base: Time)
    returns (ms: seq<Move>)
    requires EngineInv(e)
    ensures Leads(e.core, ms, FailCall(e, i, worker, token, retryable, check, base).core)
    ensures Within(ms, check, check) && Quiet(ms) && Silent(ms) && ClaimsNothing(ms)
  {
    hide Apply, Enabled, EngineInv, Leads, RejectStale;
    match MessageAnswer(e.core, i, worker, token, check) {
      case Accepted =>
        AcceptedEnables(e, i, worker, token, check, base, retryable);
        ms := OneMoveLeads(e.core, FailMove(e, i, worker, token, retryable, check, base));
      case Refused(StaleLease) => ms := RejectLeads(e, i, worker, token, check, StaleFailureEvent);
      case Refused(_) => ms := NoMoveLeads(e.core);
    }
  }

  lemma CancelLeads(e: EngineState, w: Id, now: Time) returns (ms: seq<Move>)
    requires EngineInv(e)
    ensures Leads(e.core, ms, CancelCall(e, w, now).core) && Within(ms, now, now) && Quiet(ms) && Silent(ms)
    ensures ClaimsNothing(ms) && ReportsNothing(ms)
  {
    hide Apply, Enabled, Inv, Leads;
    if CancelAnswer(e.core, w).Accepted? {
      CanCancel(e, w, now);
      ms := OneMoveLeads(e.core, Cancel(now, w, PendingAmong(e.core, e.members[w])));
    } else {
      ms := NoMoveLeads(e.core);
    }
  }

  /** The call completes an activity. */
  predicate Completes(e: EngineState, c: Call) {
    c.CompletingCall? && MessageAnswer(e.core, c.act, c.worker, c.token, c.check).Accepted?
  }

  /** Every call of the engine is a sequence of moves of the lease machine, made between its first
      and its last clock reading unless the clock goes back; it never announces a last expiry. */
  lemma StepLeads(e: EngineState, c: Call, lo: Time, hi: Time) returns (ms: seq<Move>)
    requires EngineInv(e) && Timely(e, c, lo, hi)
    ensures Leads(e.core, ms, Step(e, c).core) && Silent(ms)
    ensures lo <= hi ==> Within(ms, lo, hi)
    ensures !c.StartingCall? ==> NoLaunch(ms)
    ensures !c.StartingCall? && !Completes(e, c) ==> Quiet(ms)
    ensures !c.ClaimingCall? ==> ClaimsNothing(ms)
    ensures !c.FailingCall? ==> ReportsNothing(ms)
  {
    hide Apply, Enabled, Gated, Consistent, UniqueKeys, Counted, Filed, Leads, StartCall, ClaimCall,
      HeartbeatCall, CompleteCall, FailCall, CancelCall, VisitAll, Sorted;
    match c {
      case StartingCall(def, key, now, ticks) => ms := StartLeads(e, def, key, now, ticks, hi);
      case ClaimingCall(worker, queue, now) => ms := ClaimLeads(e, worker, queue, now);
      case HeartbeatingCall(i, worker, token, check, base) => ms := HeartbeatLeads(e, i, worker, token, check, base);
      case CompletingCall(i, worker, token, check, ticks) =>
        ms := CompleteLeads(e, i, worker, token, check, ticks, hi);
      case FailingCall(i, worker, token, retryable, check, base) =>
        ms := FailLeads(e, i, worker, token, retryable, check, base);
      case CancellingCall(w, now) => ms := CancelLeads(e, w, now);
      case PassingCall(now) => ms := VisitAllLeads(e.core, Sorted(e.core.activities.Keys), now);
    }
  }

  // ---------------------------------------------------------------- the shape of the maps is kept

  lemma {:induction false} RunSameKeys(ss: seq<State>, ms: seq<Move>, k: nat)
    requires IsRun(ss, ms) && NoLaunch(ms) && k <= |ms| && WellFormed(ss[0])
    ensures ss[k].activities.Keys == ss[0].activities.Keys && ss[k].workflows.Keys == ss[0].workflows.Keys
  {
    if 0 < k {
      RunSameKeys(ss, ms, k - 1);
      assert StepAt(ss, ms, k - 1);
      SameRecords(ss[k - 1], ms[k - 1]);
    }
  }

  lemma LeadsSameKeys(s: State, ms: seq<Move>, t: State)
    requires Leads(s, ms, t) && NoLaunch(ms) && WellFormed(s)
    ensures t.activities.Keys == s.activities.Keys && t.workflows.Keys == s.workflows.Keys
  {
    var ss :| IsRun(ss, ms) && ss[0] == s && ss[|ms|] == t;
    RunSameKeys(ss, ms, |ms|);
  }

  lemma ShapeStays(e: EngineState, t: State)
    requires Shaped(e) && Evolves(e.core, t)
    requires t.activities.Keys == e.core.activities.Keys && t.workflows.Keys == e.core.workflows.Keys
    ensures Shaped(e.(core := t))
  {
    var e' := e.(core := t);
    forall w | w in e.members ensures Lists(e.members[w], ActivitiesOf(t, w)) {
      SameActivities(e.core, t, w);
    }
    forall w | w in t.workflows
      ensures t.workflows[w].key == e.core.workflows[w].key && FiledUnder(e', w) == FiledUnder(e, w)
    {
      assert t.workflows[w].(status := e.core.workflows[w].status) == e.core.workflows[w];
    }
  }

  lemma SameActivities(s: State, t: State, w: Id)
    requires Evolves(s, t) && t.activities.Keys == s.activities.Keys
    ensures ActivitiesOf(t, w) == ActivitiesOf(s, w)
  {
    forall i ensures i in ActivitiesOf(t, w) <==> i in ActivitiesOf(s, w) {
      if i in s.activities { assert Later(s.activities[i], t.activities[i]); }
    }
  }

  /** The engine right after the launch, before anything is released. */
  ghost function Launched(e: EngineState, def: WorkflowDefinition, key: string, now: Time): EngineState
    requires EngineInv(e) && StartAnswerOf(e, def, key).Started?
  {
    CanStart(e, def, key, now);
    var m := LaunchMove(e, def, key, now);
    e.(core := Apply(e.core, m),
       members := e.members[m.workflow := NewMembers(e, def)],
       index := if key != "" then e.index[Join(def.namespace, key) := m.workflow] else e.index,
       nextWorkflow := e.nextWorkflow + 1,
       nextActivity := e.nextActivity + |def.activities|)
  }

  lemma NewMembersAreRows(e: EngineState, def: WorkflowDefinition, key: string, now: Time, x: Id)
    ensures x in NewMembers(e, def) <==> HasRow(LaunchMove(e, def, key, now).rows, x)
  {
    hide ActivityId, WorkflowId, NewActivity;
    var xs, rows := NewMembers(e, def), LaunchMove(e, def, key, now).rows;
    if x in xs {
      var k :| 0 <= k < |xs| && xs[k] == x;
      assert rows[k].id == x;
    }
    if HasRow(rows, x) {
      var k :| 0 <= k < |rows| && rows[k].id == x;
      assert xs[k] == x;
    }
  }

  lemma NewMembersDistinct(e: EngineState, def: WorkflowDefinition)
    ensures var xs := NewMembers(e, def); forall j, k :: 0 <= j < k < |xs| ==> xs[j] != xs[k]
  {
    var xs := NewMembers(e, def);
    forall j, k | 0 <= j < k < |xs| ensures xs[j] != xs[k] {
      IdsInjective(e.nextActivity + 1 + j, e.nextActivity + 1 + k);
    }
  }

  lemma NewMembersListed(e: EngineState, def: WorkflowDefinition, key: string, now: Time)
    requires EngineInv(e) && StartAnswerOf(e, def, key).Started?
    ensures var e' := Launched(e, def, key, now);
            Lists(NewMembers(e, def), ActivitiesOf(e'.core, LaunchMove(e, def, key, now).workflow))
  {
    CanStart(e, def, key, now);
    hide Apply, Enabled, Shaped, WellFormed, Counted, Gated, Consistent, UniqueKeys, StartAnswerOf;
    var m, e' := LaunchMove(e, def, key, now), Launched(e, def, key, now);
    var xs := NewMembers(e, def);
    NewMembersDistinct(e, def);
    hide NewMembers;
    forall x ensures x in xs <==> x in ActivitiesOf(e'.core, m.workflow) {
      LaunchedRecord(e.core, m, x);
      NewMembersAreRows(e, def, key, now, x);
    }
  }

  lemma OldMembersListed(e: EngineState, def: WorkflowDefinition, key: string, now: Time, w: Id)
    requires EngineInv(e) && StartAnswerOf(e, def, key).Started?
    requires w in e.core.workflows
    ensures ActivitiesOf(Launched(e, def, key, now).core, w) == ActivitiesOf(e.core, w)
  {
    hide Apply, Enabled, Inv, Shaped, StartAnswerOf, NewRows, NewMembers, WorkflowId, Join;
    CanStart(e, def, key, now);
    var m, e' := LaunchMove(e, def, key, now), Launched(e, def, key, now);
    MoveEvolves(e.core, m);
    forall x ensures x in ActivitiesOf(e'.core, w) <==> x in ActivitiesOf(e.core, w) {
      if x in e.core.activities { assert Later(e.core.activities[x], e'.core.activities[x]); }
    }
  }

  lemma LaunchedIssued(e: EngineState, def: WorkflowDefinition, key: string, now: Time)
    requires EngineInv(e) && StartAnswerOf(e, def, key).Started?
    ensures var e' := Launched(e, def, key, now);
            && (forall w :: w in e'.core.workflows ==> IssuedWorkflow(w, e'.nextWorkflow))
            && (forall i :: i in e'.core.activities ==> IssuedActivity(i, e'.nextActivity))
  {
    hide Apply, Enabled, Inv, Filed, Lists, StartAnswerOf, WorkflowId, ActivityId, Join, CanLaunch, Fresh;
    CanStart(e, def, key, now);
    var m, e' := LaunchMove(e, def, key, now), Launched(e, def, key, now);
    LaunchGrows(e.core, m);
    hide IssuedWorkflow, IssuedActivity;
    forall w | w in e'.core.workflows ensures IssuedWorkflow(w, e'.nextWorkflow) {
      StillIssued(w, "", e, e'.nextWorkflow, e'.nextActivity);
    }
    forall i | i in e'.core.activities ensures IssuedActivity(i, e'.nextActivity) {
      if i in e.core.activities {
        StillIssued("", i, e, e'.nextWorkflow, e'.nextActivity);
      } else {
        assert HasRow(m.rows, i);
        NewlyIssued(e, def, key, now, i);
      }
    }
  }

  lemma StillIssued(w: Id, i: Id, e: EngineState, nextWorkflow: nat, nextActivity: nat)
    requires nextWorkflow == e.nextWorkflow + 1 && e.nextActivity <= nextActivity
    ensures IssuedWorkflow(w, e.nextWorkflow) || w == WorkflowId(nextWorkflow) ==> IssuedWorkflow(w, nextWorkflow)
    ensures IssuedActivity(i, e.nextActivity) ==> IssuedActivity(i, nextActivity)
  {
    hide WorkflowId, ActivityId;
    if IssuedWorkflow(w, e.nextWorkflow) {
      var k :| 1 <= k <= e.nextWorkflow && WorkflowId(k) == w;
      assert 1 <= k <= nextWorkflow && WorkflowId(k) == w;
    }
    if IssuedActivity(i, e.nextActivity) {
      var k :| 1 <= k <= e.nextActivity && ActivityId(k) == i;
      assert 1 <= k <= nextActivity && ActivityId(k) == i;
    }
  }

  lemma NewlyIssued(e: EngineState, def: WorkflowDefinition, key: string, now: Time, i: Id)
    requires HasRow(LaunchMove(e, def, key, now).rows, i)
    ensures IssuedActivity(i, e.nextActivity + |def.activities|)
  {
    hide ActivityId;
    var rows := LaunchMove(e, def, key, now).rows;
    var k :| 0 <= k < |rows| && rows[k].id == i;
    assert 1 <= e.nextActivity + 1 + k <= e.nextActivity + |def.activities| && ActivityId(e.nextActivity + 1 + k) == i;
  }

  lemma LaunchedWorkflows(e: EngineState, def: WorkflowDefinition, key: string, now: Time)
    requires EngineInv(e) && StartAnswerOf(e, def, key).Started?
    ensures var m := LaunchMove(e, def, key, now);
            && m.workflow !in e.core.workflows && m.info == Workflow(def.namespace, def.name, key, WorkflowRunning)
            && Launched(e, def, key, now).core.workflows == e.core.workflows[m.workflow := m.info]
  {
    CanStart(e, def, key, now);
  }

  lemma LaunchedFiled(e: EngineState, def: WorkflowDefinition, key: string, now: Time)
    requires EngineInv(e) && StartAnswerOf(e, def, key).Started?
    ensures Filed(Launched(e, def, key, now))
  {
    LaunchedWorkflows(e, def, key, now);
    var m, e' := LaunchMove(e, def, key, now), Launched(e, def, key, now);
    NewlyFiled(e, e', m.workflow, m.info);
  }

  lemma NewlyFiled(e: EngineState, e': EngineState, w: Id, info: Workflow)
    requires Filed(e) && w !in e.core.workflows && e'.core.workflows == e.core.workflows[w := info]
    requires info.key != "" ==> Join(info.namespace, info.key) !in e.index
    requires e'.index == if info.key != "" then e.index[Join(info.namespace, info.key) := w] else e.index
    ensures Filed(e')
  {
    forall v | v in e.core.workflows ensures FiledUnder(e', v) == FiledUnder(e, v) {
    }
    forall v | v in e'.core.workflows && e'.core.workflows[v].key != ""
      ensures FiledUnder(e', v) in e'.index && e'.index[FiledUnder(e', v)] == v
    {
      if v != w { assert FiledUnder(e, v) in e.index; }
    }
  }

  /** The engine right after the launch is in order. */
  lemma LaunchedInv(e: EngineState, def: WorkflowDefinition, key: string, now: Time)
    requires EngineInv(e) && StartAnswerOf(e, def, key).Started?
    ensures EngineInv(Launched(e, def, key, now))
  {
    hide Apply, Enabled, Inv, WellFormed, Filed, IssuedWorkflow, IssuedActivity, Lists;
    CanStart(e, def, key, now);
    var m, e' := LaunchMove(e, def, key, now), Launched(e, def, key, now);
    KeepsInv(e.core, m);
    LaunchedIssued(e, def, key, now);
    LaunchedFiled(e, def, key, now);
    LaunchedWorkflows(e, def, key, now);
    forall w | w in e'.members ensures Lists(e'.members[w], ActivitiesOf(e'.core, w)) {
      if w == m.workflow {
        NewMembersListed(e, def, key, now);
      } else {
        OldMembersListed(e, def, key, now, w);
      }
    }
  }

  lemma StartKeepsShape(e: EngineState, def: WorkflowDefinition, key: string, now: Time, ticks: seq<Time>)
    requires EngineInv(e) && |def.activities| <= |ticks|
    ensures Shaped(StartCall(e, def, key, now, ticks))
  {
    hide Apply, Enabled, WellFormed, Counted, Gated, Consistent, UniqueKeys, Shaped, Leads, Evolves;
    if StartAnswerOf(e, def, key).Started? {
      CanStart(e, def, key, now);
      var e' := Launched(e, def, key, now);
      LaunchedInv(e, def, key, now);
      var t := ReleaseAll(e'.core, NewMembers(e, def), ticks);
      var rs := ReleaseAllLeads(e'.core, NewMembers(e, def), ticks);
      LeadsKeepsInv(e'.core, rs, t);
      LeadsSameKeys(e'.core, rs, t);
      ShapeStays(e', t);
      assert e'.(core := t) == StartCall(e, def, key, now, ticks);
    }
  }

  /** Every call keeps the invariant of the machine and the shape of the engine's maps. */
  lemma StepKeepsEngineInv(e: EngineState, c: Call, lo: Time, hi: Time)
    requires EngineInv(e) && Timely(e, c, lo, hi)
    ensures EngineInv(Step(e, c))
  {
    var ms := StepLeads(e, c, lo, hi);
    LeadsKeepsInv(e.core, ms, Step(e, c).core);
    if c.StartingCall? {
      StartKeepsShape(e, c.def, c.key, c.now, c.ticks);
    } else {
      LeadsSameKeys(e.core, ms, Step(e, c).core);
      ShapeStays(e, Step(e, c).core);
      OnlyCore(e, c);
    }
  }

  lemma OnlyCore(e: EngineState, c: Call)
    requires EngineInv(e) && (exists lo, hi :: Timely(e, c, lo, hi)) && !c.StartingCall?
    ensures Step(e, c) == e.(core := Step(e, c).core)
  {
    hide Apply, Inv, Shaped, Enabled, ReleaseAll, VisitAll, Sorted;
  }

  lemma NewIsFine(e: EngineState)
    requires IsNew(e)
    ensures EngineInv(e)
  {
    EmptyInv();
  }

  lemma WithinBoth(ms: seq<Move>, ns: seq<Move>, lo: Time, mid: Time, hi: Time)
    ensures Within(ms, lo, mid) && Within(ns, mid, hi) && lo <= mid <= hi ==> Within(ms + ns, lo, hi)
    ensures Silent(ms) && Silent(ns) ==> Silent(ms + ns)
  {
  }

  lemma RunIsStretch(es: seq<EngineState>, cs: seq<Call>, clock: seq<Time>)
    requires IsEngineRun(es, cs, clock)
    ensures IsStretch(es, cs, clock)
  {
    hide EngineInv, Step, Timely, IsNew;
    NewIsFine(es[0]);
  }

  lemma {:induction false} StretchInv(es: seq<EngineState>, cs: seq<Call>, clock: seq<Time>, k: nat)
    requires IsStretch(es, cs, clock) && k <= |cs|
    ensures EngineInv(es[k])
  {
    hide EngineInv, Step, Timely;
    if 0 < k {
      StretchInv(es, cs, clock, k - 1);
      assert CallAt(es, cs, clock, k - 1);
      StepKeepsEngineInv(es[k - 1], cs[k - 1], clock[k - 1], clock[k]);
    }
  }

  lemma EngineRunInv(es: seq<EngineState>, cs: seq<Call>, clock: seq<Time>, k: nat)
    requires IsEngineRun(es, cs, clock) && k <= |cs|
    ensures EngineInv(es[k])
  {
    hide EngineInv, Step, Timely, IsNew, IsStretch;
    RunIsStretch(es, cs, clock);
    StretchInv(es, cs, clock, k);
  }

  /** Any sequence of calls is a run of the lease machine, in order of time unless the clock goes back. */
  lemma {:induction false} StretchLeads(es: seq<EngineState>, cs: seq<Call>, clock: seq<Time>, j: nat, k: nat)
    returns (ms: seq<Move>)
    requires IsStretch(es, cs, clock) && j <= k <= |cs|
    ensures EngineInv(es[j]) && EngineInv(es[k])
    ensures Leads(es[j].core, ms, es[k].core) && Silent(ms)
    ensures Increasing(clock) ==> Within(ms, clock[j], clock[k])
    decreases k - j
  {
    hide EngineInv, Step, Timely, Leads, Within;
    StretchInv(es, cs, clock, j);
    if j == k {
      LeadsNowhere(es[j].core);
      ms := [];
      assert Within([], clock[j], clock[k]) by { NothingWithin(clock[j]); }
    } else {
      var before := StretchLeads(es, cs, clock, j, k - 1);
      assert CallAt(es, cs, clock, k - 1);
      StretchInv(es, cs, clock, k);
      var last := StepLeads(es[k - 1], cs[k - 1], clock[k - 1], clock[k]);
      LeadsThrough(es[j].core, before, es[k - 1].core, last, es[k].core);
      WithinBoth(before, last, clock[j], clock[k - 1], clock[k]);
      ms := before + last;
    }
  }

  /** Every run of the engine is a run of the lease machine, in order of time unless the clock goes back. */
  lemma EngineRunLeads(es: seq<EngineState>, cs: seq<Call>, clock: seq<Time>, j: nat, k: nat)
    returns (ms: seq<Move>)
    requires IsEngineRun(es, cs, clock) && j <= k <= |cs|
    ensures EngineInv(es[j]) && EngineInv(es[k])
    ensures Leads(es[j].core, ms, es[k].core) && Silent(ms)
    ensures Increasing(clock) ==> Within(ms, clock[j], clock[k])
  {
    hide EngineInv, Step, Timely, Leads, Within, IsNew, IsStretch;
    RunIsStretch(es, cs, clock);
    ms := StretchLeads(es, cs, clock, j, k);
  }

  lemma NothingWithin(t: Time)
    ensures Within([], t, t)
  {
  }

  /** What holds in every reachable state of the engine: the statuses are consistent, the logs are
      numbered without gap, balance and replay to the stored records, claims and completions stand in
      dependency order, and the index agrees with the stored workflows. */
  lemma EveryEngineState(es: seq<EngineState>, cs: seq<Call>, clock: seq<Time>, k: nat)
    requires IsEngineRun(es, cs, clock) && k <= |cs|
    ensures var s := es[k].core;
            Inv(s) && Partitioned(s) && Accounted(s) && Replayable(s) && InOrder(s) && Filed(es[k])
  {
    var ms := EngineRunLeads(es, cs, clock, 0, k);
    var ss :| IsRun(ss, ms) && ss[0] == EMPTY && ss[|ms|] == es[k].core;
    LogsTellAll(ss, ms, |ms|);
    RunsInOrder(ss, ms, |ms|);
  }

  // ---------------------------------------------------------------- messages under old tokens

  /** The records, without the logs. */
  ghost predicate SameRecordsAs(e: EngineState, e': EngineState) {
    && e'.core.workflows == e.core.workflows && e'.core.activities == e.core.activities
    && e' == e.(core := e'.core)
  }

  predicate IsMessage(c: Call) {
    c.HeartbeatingCall? || c.CompletingCall? || c.FailingCall?
  }

  predicate StaleKind(c: Call, kind: Kind) {
    kind == match c
            case HeartbeatingCall(_, _, _, _, _) => StaleHeartbeatEvent
            case FailingCall(_, _, _, _, _, _) => StaleFailureEvent
            case _ => StaleCompletionEvent
  }

  lemma RefusedStep(e: EngineState, c: Call, lo: Time, hi: Time) returns (m: Move)
    requires EngineInv(e) && Timely(e, c, lo, hi) && IsMessage(c) && c.act in e.core.activities
    requires !Current(e.core.activities[c.act], c.worker, c.token, c.check)
    ensures if e.core.activities[c.act].status != Running then Step(e, c) == e
            else m.Reject? && m.act == c.act && StaleKind(c, m.kind) && Enabled(e.core, m)
                 && Step(e, c) == e.(core := Apply(e.core, m))
  {
    hide EngineInv, Apply, Enabled, StartCall, ClaimCall, CancelCall, PassCall, Completion, FailMove;
    var kind := if c.HeartbeatingCall? then StaleHeartbeatEvent
                else if c.FailingCall? then StaleFailureEvent else StaleCompletionEvent;
    m := Reject(c.check, c.act, c.worker, c.token, kind);
    if e.core.activities[c.act].status == Running {
      RejectEnabled(e, c.act, c.worker, c.token, c.check, kind);
    }
  }

  lemma RejectEnabled(e: EngineState, i: Id, worker: string, token: int, check: Time, kind: Kind)
    requires EngineInv(e) && IsStale(kind) && MessageAnswer(e.core, i, worker, token, check) == Refused(StaleLease)
    ensures Enabled(e.core, Reject(check, i, worker, token, kind))
  {
    Housed(e, i);
  }

  /** A refused message changes no record.  It leaves one stale-rejection event when the activity is
      running, and no trace at all when it is not. */
  lemma RefusedMessage(e: EngineState, c: Call, lo: Time, hi: Time)
    requires EngineInv(e) && Timely(e, c, lo, hi) && IsMessage(c) && c.act in e.core.activities
    requires !Current(e.core.activities[c.act], c.worker, c.token, c.check)
    ensures SameRecordsAs(e, Step(e, c))
    ensures var w := e.core.activities[c.act].workflow;
            if e.core.activities[c.act].status != Running then Step(e, c) == e
            else && History(Step(e, c).core, w) == History(e.core, w) + [Entry(c.act,
                      if c.HeartbeatingCall? then StaleHeartbeatEvent
                      else if c.CompletingCall? then StaleCompletionEvent else StaleFailureEvent)]
                 && forall v :: v != w ==> History(Step(e, c).core, v) == History(e.core, v)
  {
    hide EngineInv, Step, Timely, History;
    var m := RefusedStep(e, c, lo, hi);
    if e.core.activities[c.act].status == Running {
      var w := e.core.activities[c.act].workflow;
      MoveHistory(e.core, m, w);
      forall v | v != w ensures History(Step(e, c).core, v) == History(e.core, v) {
        MoveHistory(e.core, m, v);
      }
    }
  }

  /** What an accepted heartbeat or failure report, and a granted claim, leave in the log. */
  lemma AcceptedIsLogged(e: EngineState, c: Call, lo: Time, hi: Time)
    requires EngineInv(e) && Timely(e, c, lo, hi) && (c.HeartbeatingCall? || c.FailingCall?)
    requires MessageAnswer(e.core, c.act, c.worker, c.token, c.check).Accepted?
    ensures Known(e.core, c.act)
    ensures var a := e.core.activities[c.act];
      History(Step(e, c).core, a.workflow) == History(e.core, a.workflow)
        + if c.HeartbeatingCall? then [Entry(c.act, HeartbeatEvent)]
          else if c.retryable && a.attempt < a.maxAttempts then [Entry(c.act, RetryEvent)]
          else [Entry(c.act, FailedEvent), Entry("", WorkflowFailedEvent)]
  {
    hide EngineInv, Apply, Enabled, Timely, History, StartCall, ClaimCall, CancelCall, PassCall, CompleteCall, RejectStale;
    Housed(e, c.act);
    AcceptedEnables(e, c.act, c.worker, c.token, c.check, c.base, c.HeartbeatingCall? || c.retryable);
    var m := if c.HeartbeatingCall? then Heartbeat(c.check, c.act, c.worker, c.token, c.base + e.leaseTTL)
             else FailMove(e, c.act, c.worker, c.token, c.retryable, c.check, c.base);
    MoveHistory(e.core, m, e.core.activities[c.act].workflow);
  }

  lemma GrantIsLogged(e: EngineState, worker: string, queue: string, now: Time)
    requires EngineInv(e) && ClaimAnswerOf(e, queue).Granted?
    ensures var i := ClaimAnswerOf(e, queue).activity;
      && Known(e.core, i)
      && History(ClaimCall(e, worker, queue, now).core, e.core.activities[i].workflow)
         == History(e.core, e.core.activities[i].workflow) + [Entry(i, ClaimedEvent)]
  {
    hide EngineInv, Apply, History, Before;
    var i := Least(Claimable(e.core, queue));
    Housed(e, i);
    MoveHistory(e.core, Claim(now, i, worker, queue, now + e.leaseTTL), e.core.activities[i].workflow);
  }

  /** Fencing, seen from the caller: once a newer claim of an activity was granted, every later
      message under an older token, whenever and however often it is delivered, is refused and
      changes no record. */
  lemma OldTokensChangeNothing(es: seq<EngineState>, cs: seq<Call>, clock: seq<Time>, j: nat, k: nat, i: Id)
    requires IsEngineRun(es, cs, clock) && j < k < |cs|
    requires i in es[j + 1].core.activities && IsMessage(cs[k]) && cs[k].act == i
    requires cs[k].token < es[j + 1].core.activities[i].fencingToken
    ensures EngineInv(es[k]) && SameRecordsAs(es[k], es[k + 1]) && i in es[k].core.activities
    ensures MessageAnswer(es[k].core, i, cs[k].worker, cs[k].token, cs[k].check)
            == Refused(if es[k].core.activities[i].status == Running then StaleLease else InvalidTransition)
  {
    hide Gated, Consistent, UniqueKeys, Counted, WellFormed, Filed, Apply, Enabled, Leads, StartCall, ClaimCall,
      HeartbeatCall, CompleteCall, FailCall, CancelCall, PassCall;
    var ms := EngineRunLeads(es, cs, clock, j + 1, k);
    LeadsKeepsInv(es[j + 1].core, ms, es[k].core);
    assert Later(es[j + 1].core.activities[i], es[k].core.activities[i]);
    assert CallAt(es, cs, clock, k);
    RefusedMessage(es[k], cs[k], clock[k], clock[k + 1]);
  }

  // ---------------------------------------------------------------- claims

  /** Claim grants the oldest ready activity that matches the queue, as long as at most 999,999
      activities have been created. */
  lemma ClaimIsOldestFirst(e: EngineState, queue: string, a: nat, b: nat)
    requires EngineInv(e) && e.nextActivity <= 999_999
    requires ClaimAnswerOf(e, queue).Granted? && ClaimAnswerOf(e, queue).activity == ActivityId(a)
    requires 1 <= a <= e.nextActivity && 1 <= b <= e.nextActivity && ActivityId(b) in Claimable(e.core, queue)
    ensures a <= b
  {
    if b < a {
      SixDigitsInOrder(b, a);
      var x, y := ActivityId(b), ActivityId(a);
      IdsInjective(a, b);
      assert Before(y, x);
      BeforeTransitive(x, y, x);
      BeforeIrreflexive(x);
    }
  }

  // ---------------------------------------------------------------- idempotency keys

  /** For namespaces without NUL the answer Duplicate means just what it says: it names the stored
      workflow with this namespace and key, and it is given exactly when there is one. */
  lemma DuplicateMeansStored(e: EngineState, def: WorkflowDefinition, key: string, w: Id)
    requires EngineInv(e) && !Complains(def) && key != ""
    requires '\0' !in def.namespace
    requires forall v :: v in e.core.workflows ==> '\0' !in e.core.workflows[v].namespace
    ensures StartAnswerOf(e, def, key) == Duplicate(w) <==>
              w in e.core.workflows && e.core.workflows[w].namespace == def.namespace && e.core.workflows[w].key == key
  {
    if w in e.core.workflows && e.core.workflows[w].namespace == def.namespace && e.core.workflows[w].key == key {
      assert FiledUnder(e, w) == Join(def.namespace, key);
    }
    if Join(def.namespace, key) in e.index {
      var v := e.index[Join(def.namespace, key)];
      assert FiledUnder(e, v) == Join(def.namespace, key);
      JoinInjective(def.namespace, e.core.workflows[v].namespace, key, e.core.workflows[v].key);
    }
  }

  /** Repeating an accepted start gives back the workflow it created, from any later state of the
      run. */
  lemma RepeatedStart(es: seq<EngineState>, cs: seq<Call>, clock: seq<Time>, j: nat, k: nat)
    requires IsEngineRun(es, cs, clock) && j < k <= |cs| && cs[j].StartingCall? && cs[j].key != ""
    requires EngineInv(es[j]) && !StartAnswerOf(es[j], cs[j].def, cs[j].key).Rejected?
    ensures StartAnswerOf(es[k], cs[j].def, cs[j].key) == Duplicate(StartAnswerOf(es[j], cs[j].def, cs[j].key).id)
  {
    hide Gated, Consistent, UniqueKeys, Counted, WellFormed, Apply, Enabled, Leads, ReleaseAll, WorkflowId, ActivityId;
    var ms := EngineRunLeads(es, cs, clock, j + 1, k);
    assert CallAt(es, cs, clock, j);
    var w := StartAnswerOf(es[j], cs[j].def, cs[j].key).id;
    var filed := Join(cs[j].def.namespace, cs[j].key);
    assert filed in es[j + 1].index && es[j + 1].index[filed] == w;
    LeadsKeepsInv(es[j + 1].core, ms, es[k].core);
    assert FiledUnder(es[j + 1], w) == filed;
    assert FiledUnder(es[k], w) == filed;
  }

  // ---------------------------------------------------------------- application keys

  lemma WorkflowIdHasNoColon(n: nat)
    ensures ':' !in WorkflowId(n)
  {
    ValueOfPadded(n);
    forall k | 0 <= k < |WorkflowId(n)| ensures WorkflowId(n)[k] != ':' {
      if k >= 3 { assert WorkflowId(n)[k] == Padded(n)[k - 3]; }
    }
  }

  lemma ColonInside(u: string, x: string, v: string, y: string)
    requires u + ":" + x == v + ":" + y && |u| < |v|
    ensures ':' in v
  {
    assert (u + ":" + x)[|u|] == ':' && (v + ":" + y)[|u|] == v[|u|];
  }

  lemma SplitAtColon(u: string, x: string, v: string, y: string)
    requires u + ":" + x == v + ":" + y && ':' !in u && ':' !in v
    ensures u == v && x == y
  {
    if |u| < |v| { ColonInside(u, x, v, y); }
    if |v| < |u| { ColonInside(v, y, u, x); }
    var z := u + ":" + x;
    assert z[..|u|] == u && z[..|v|] == v && z[|u| + 1..] == x && z[|v| + 1..] == y;
  }

  /** The application key belongs to one activity: two claims, however far apart, hand out the same key if and
      only if they hand out the same activity.  r and t are their receipts, es[j] and es[k] the states that
      they leave. */
  lemma ApplicationKeyIsUnique(es: seq<EngineState>, cs: seq<Call>, clock: seq<Time>, j: nat, k: nat, r: Receipt, t: Receipt)
    requires IsEngineRun(es, cs, clock) && j <= k <= |cs|
    requires r.activity in es[j].core.activities && t.activity in es[k].core.activities
    requires var a := es[j].core.activities[r.activity];
      r.workflow == a.workflow && r.name == a.name && r.applicationKey == r.workflow + ":" + r.name
    requires var a := es[k].core.activities[t.activity];
      t.workflow == a.workflow && t.name == a.name && t.applicationKey == t.workflow + ":" + t.name
    ensures r.applicationKey == t.applicationKey <==> r.activity == t.activity
  {
    hide EngineInv, Inv, Step, Timely, Leads, IsNew, Within, Evolves;
    var ms := EngineRunLeads(es, cs, clock, j, k);
    NameStays(es[j], ms, es[k], r.activity);
    KeysDiffer(es[k], r.activity, t.activity);
  }

  lemma NameStays(e: EngineState, ms: seq<Move>, e': EngineState, a: Id)
    requires EngineInv(e) && Leads(e.core, ms, e'.core) && a in e.core.activities
    ensures a in e'.core.activities
    ensures e'.core.activities[a].workflow == e.core.activities[a].workflow
    ensures e'.core.activities[a].name == e.core.activities[a].name
  {
    hide Inv, Shaped, Leads;
    LeadsKeepsInv(e.core, ms, e'.core);
    assert Later(e.core.activities[a], e'.core.activities[a]);
  }

  lemma KeysDiffer(e: EngineState, a: Id, b: Id)
    requires EngineInv(e) && a in e.core.activities && b in e.core.activities
    ensures var x, y := e.core.activities[a], e.core.activities[b];
            x.workflow + ":" + x.name == y.workflow + ":" + y.name <==> a == b
  {
    hide Shaped, Counted, Gated, Consistent, UniqueKeys;
    var x, y := e.core.activities[a], e.core.activities[b];
    if x.workflow + ":" + x.name == y.workflow + ":" + y.name {
      IssuedHasNoColon(e, x.workflow);
      IssuedHasNoColon(e, y.workflow);
      SplitAtColon(x.workflow, x.name, y.workflow, y.name);
      assert Siblings(e.core, a, b);
    }
  }

  lemma IssuedHasNoColon(e: EngineState, w: Id)
    requires EngineInv(e) && w in e.core.workflows
    ensures ':' !in w
  {
    assert IssuedWorkflow(w, e.nextWorkflow);
    var k :| 1 <= k <= e.nextWorkflow && WorkflowId(k) == w;
    WorkflowIdHasNoColon(k);
  }
}
