/** The back end over a relational database.  Every method is one transaction, taken as atomic, with one
    reading of the clock, and changes the rows statement by statement.  Beside the rows the object keeps
    the run of the lease machine that the transactions so far amount to. */
module Postgres {
  import opened Announcements
  import opened Clocks
  import opened EngineSteps
  import opened Ids
  import opened Invariants
  import opened Logs
  import opened Machine
  import opened Runs
  import opened Scheduler
  import opened Statements
  import opened Tables
  import opened Topology
  import opened Transactions
  import opened Writes

  const DEFAULT_LEASE: Time := 30 * SECOND
  const DEFAULT_ATTEMPTS: nat := 3

  class Postgres {
    const leaseTTL: Time
    const maxAttempts: nat
    const clock: Clock
    var workflows: map<Id, WorkflowRow>
    var keys: map<Key, Id>
    var activities: map<Id, ActivityRow>
    var dependencies: set<Dependency>
    var events: seq<EventRow>
    ghost var core: State
    ghost var moves: seq<Move>

    function Stored(): Rows
      reads this
    {
      Rows(workflows, keys, activities, dependencies, events)
    }

    /** core is what the moves so far make of the empty state. */
    ghost predicate Traced()
      reads this, clock
    {
      && leaseTTL > 0 && maxAttempts > 0 && clock.steady && clock.last > 0
      && Inv(core) && Leads(EMPTY, moves, core) && Ordered(moves) && Announcing(moves)
      && forall k :: 0 <= k < |moves| ==> moves[k].at <= clock.last
    }

    /** The rows stand for a state that a run of the lease machine reaches, and bear the times of their
        starts. */
    ghost predicate Valid()
      reads this, clock
    {
      Traced() && Refines(Stored(), core) && Dated(activities, moves)
    }

    constructor (leaseTTL: Time, maxAttempts: int, clock: Clock)
      requires clock.steady && clock.last > 0
      ensures Valid() && Stored() == NO_ROWS && moves == [] && this.clock == clock
      ensures this.leaseTTL == if leaseTTL > 0 then leaseTTL else 30_000_000_000
      ensures this.maxAttempts == if maxAttempts > 0 then maxAttempts else 3
    {
      this.leaseTTL := if leaseTTL <= 0 then DEFAULT_LEASE else leaseTTL;
      this.maxAttempts := if maxAttempts <= 0 then DEFAULT_ATTEMPTS else maxAttempts;
      this.clock := clock;
      workflows, keys, activities, dependencies, events := map[], map[], map[], {}, [];
      core, moves := EMPTY, [];
      new;
      EmptyInv();
      LeadsNowhere(EMPTY);
      NoRowsRefineEmpty();
    }

    /** Note down the move that the statements since the last one amount to. */
    ghost method Record(m: Move)
      requires Traced() && Enabled(core, m) && m.at == clock.last && (m.ReapFail? ==> m.announced)
      modifies this`core, this`moves
      ensures Traced() && core == Apply(old(core), m) && moves == old(moves) + [m]
    {
      hide Inv, Leads, Enabled, Apply;
      KeepsInv(core, m);
      LeadsThenOne(EMPTY, moves, core, m);
      core := Apply(core, m);
      moves := moves + [m];
    }

    method AppendEvent(w: Id, i: Id, kind: Kind)
      modifies this`events
      ensures events == old(events) + [EventRow(w, Entry(i, kind))]
    {
      events := events + [EventRow(w, Entry(i, kind))];
    }

    /** Insert one activity of a new workflow; a repeated dependency violates the primary key. */
    method InsertActivity(a: ActivityDefinition, w: Id, i: Id, now: Time, ghost s: State) returns (ok: bool)
      requires Refines(Stored(), s) && w in workflows && i !in activities && maxAttempts > 0
      requires forall x :: x in dependencies ==> x.workflow != w || x.name != a.name
      requires forall j :: j in activities ==> activities[j].workflow != w || activities[j].name != a.name
      modifies this`activities, this`dependencies, this`events
      ensures ok <==> !HasRepeat(a.dependsOn)
      ensures ok ==> activities == old(activities)[i := NewActivityRow(a, w, now, maxAttempts)]
      ensures ok ==> dependencies == old(dependencies) + DependencyRows(w, a.name, a.dependsOn)
      ensures ok ==> Refines(Stored(), Emit(s.(activities := s.activities[i := RecordOf(a, w, now, maxAttempts)]), w,
                                            [Entry(i, ScheduledEvent)]))
    {
      hide Refines, Dated, Emit;
      ghost var d := Stored();
      var status := Ready;
      if |a.dependsOn| > 0 {
        status := RetryPending;
      }
      var attempts: int := a.maxAttempts;
      if attempts <= 0 {
        attempts := maxAttempts;
      }
      var backoff := a.retryBackoff;
      if backoff <= 0 {
        backoff := SECOND;
      }
      var taskQueue := a.taskQueue;
      if taskQueue == "" {
        taskQueue := "default";
      }
      activities := activities[i :=
        ActivityRow(w, a.name, taskQueue, status, 0, attempts, backoff / MILLISECOND, None, None, 0, now, now)];
      ok := InsertDependencies(w, a.name, a.dependsOn);
      if !ok {
        return;
      }
      ActivityInserted(d, s, i, NewActivityRow(a, w, now, maxAttempts), RecordOf(a, w, now, maxAttempts));
      EventInserted(Stored(), s.(activities := s.activities[i := RecordOf(a, w, now, maxAttempts)]), w, Entry(i, ScheduledEvent));
      AppendEvent(w, i, ScheduledEvent);
    }

    method InsertDependencies(w: Id, name: string, dependsOn: seq<string>) returns (ok: bool)
      requires forall x :: x in dependencies ==> x.workflow != w || x.name != name
      modifies this`dependencies
      ensures ok <==> !HasRepeat(dependsOn)
      ensures ok ==> dependencies == old(dependencies) + DependencyRows(w, name, dependsOn)
    {
      for k := 0 to |dependsOn|
        invariant dependencies == old(dependencies) + DependencyRows(w, name, dependsOn[..k])
        invariant forall j, l :: 0 <= j < l < k ==> dependsOn[j] != dependsOn[l]
      {
        var x := Dependency(w, name, dependsOn[k]);
        if x in dependencies {
          assert dependsOn[k] in dependsOn[..k];
          return false;
        }
        forall j | 0 <= j < k ensures dependsOn[j] != dependsOn[k] {
          assert Dependency(w, name, dependsOn[j]) in DependencyRows(w, name, dependsOn[..k]);
        }
        OneMoreDependency(w, name, dependsOn, k);
        dependencies := dependencies + {x};
      }
      assert dependsOn[..|dependsOn|] == dependsOn;
      return true;
    }

    method InsertActivities(def: WorkflowDefinition, w: Id, ids: seq<Id>, now: Time, ghost s: State) returns (ok: bool)
      requires Refines(Stored(), s) && w in workflows && maxAttempts > 0 && ValidNames(def) && |ids| == |def.activities|
      requires forall k :: 0 <= k < |ids| ==> ids[k] !in activities
      requires forall j, k :: 0 <= j < k < |ids| ==> ids[j] != ids[k]
      requires forall x :: x in dependencies ==> x.workflow != w
      requires forall j :: j in activities ==> activities[j].workflow != w
      modifies this`activities, this`dependencies, this`events
      ensures ok <==> !Repeats(def)
      ensures ok ==> Refines(Stored(), WithRows(s, RecordsOf(def, ids, w, now, maxAttempts), w))
      ensures ok ==> forall k, d :: 0 <= k < |ids| ==>
        (Dependency(w, def.activities[k].name, d) in dependencies <==> d in def.activities[k].dependsOn)
      ensures ok ==> forall i :: i in activities <==> i in old(activities) || i in ids
      ensures ok ==> forall i :: i in old(activities) ==> activities[i] == old(activities)[i]
      ensures ok ==> forall k :: 0 <= k < |ids| ==> activities[ids[k]] == NewActivityRow(def.activities[k], w, now, maxAttempts)
    {
      hide Refines, Dated, ValidNames, RecordOf, HasRepeat, AddRows, Emit, NewActivityRow;
      ghost var rows := RecordsOf(def, ids, w, now, maxAttempts);
      NothingScheduled(Stored(), s, rows, w);
      for k := 0 to |def.activities|
        invariant Refines(Stored(), WithRows(s, rows[..k], w))
        invariant forall i :: i in activities <==> i in old(activities) || i in ids[..k]
        invariant forall i :: i in old(activities) ==> activities[i] == old(activities)[i]
        invariant forall j :: 0 <= j < k ==> activities[ids[j]] == NewActivityRow(def.activities[j], w, now, maxAttempts)
        invariant forall j, d :: 0 <= j < k ==>
          (Dependency(w, def.activities[j].name, d) in dependencies <==> d in def.activities[j].dependsOn)
        invariant forall j :: 0 <= j < k ==> !HasRepeat(def.activities[j].dependsOn)
        invariant forall j :: k <= j < |ids| ==> ids[j] !in activities
        invariant forall x :: x in dependencies && x.workflow == w ==> IsNamed(def, k, x.name)
        invariant forall j :: j in activities && activities[j].workflow == w ==> IsNamed(def, k, activities[j].name)
      {
        NameIsNew(def, k);
        RowNames(def.activities[k], w, now, maxAttempts);
        ghost var before := dependencies;
        ok := InsertActivity(def.activities[k], w, ids[k], now, WithRows(s, rows[..k], w));
        if !ok {
          return;
        }
        OneMoreRow(s, rows, k, w);
        DependenciesSoFar(def, k, w, before, dependencies);
        assert ids[..k + 1] == ids[..k] + [ids[k]];
        assert IsNamed(def, k + 1, def.activities[k].name);
        StillNamed(def, k);
      }
      assert rows[..|rows|] == rows && ids[..|ids|] == ids;
      ok := true;
    }

    /** The rows of a new workflow itself. */
    method InsertWorkflow(def: WorkflowDefinition, key: string, w: Id)
      requires Refines(Stored(), core) && w !in workflows
      requires key != "" ==> Key(def.namespace, key) !in keys
      modifies this`workflows, this`keys, this`events
      ensures workflows == old(workflows)[w := WorkflowRow(def.namespace, def.name, WorkflowRunning)]
      ensures keys == if key != "" then old(keys)[Key(def.namespace, key) := w] else old(keys)
      ensures var info := Workflow(def.namespace, def.name, key, WorkflowRunning);
        Refines(Stored(), Emit(core.(workflows := core.workflows[w := info]), w, [Entry("", StartedEvent)]))
    {
      hide Refines, Dated, Emit;
      ghost var d, info := Stored(), Workflow(def.namespace, def.name, key, WorkflowRunning);
      workflows := workflows[w := WorkflowRow(def.namespace, def.name, WorkflowRunning)];
      if key != "" {
        keys := keys[Key(def.namespace, key) := w];
      }
      WorkflowInserted(d, core, w, info);
      EventInserted(Stored(), core.(workflows := core.workflows[w := info]), w, Entry("", StartedEvent));
      AppendEvent(w, "", StartedEvent);
    }

    /** w and ids are what gen_random_uuid() will draw.  A start that fails half way is rolled back. */
    method Start(def: WorkflowDefinition, key: string, w: Id, ids: seq<Id>) returns (reply: StartReply)
      requires Valid() && AreNew(Stored(), def, w, ids)
      modifies this, clock
      ensures Valid() && reply == StartReplyOf(old(Stored()), def, key, w)
      ensures if reply.Begun? then moves == old(moves) + [BeginMove(def, key, w, ids, clock.last, maxAttempts)]
              else moves == old(moves) && Stored() == old(Stored())
      ensures reply.Begun? ==>
        && w in workflows && workflows[w].namespace == def.namespace && workflows[w].name == def.name
        && workflows[w].status == WorkflowRunning
        && (key != "" ==> Key(def.namespace, key) in keys && keys[Key(def.namespace, key)] == w)
      ensures reply.Begun? ==> forall k :: 0 <= k < |ids| ==>
        && ids[k] in activities
        && var a, row := def.activities[k], activities[ids[k]];
        && row.workflow == w && row.name == a.name
        && row.taskQueue == (if a.taskQueue == "" then "default" else a.taskQueue)
        && row.status == (if a.dependsOn == [] then Ready else RetryPending) && row.attempt == row.fencingToken == 0
        && row.maxAttempts == (if a.maxAttempts > 0 then a.maxAttempts else maxAttempts)
        && row.backoffMs == (if a.retryBackoff > 0 then a.retryBackoff / 1_000_000 else 1_000)
        && row.leaseOwner.None? && row.leaseExpiresAt.None? && row.nextAttemptAt == row.createdAt == clock.last
      ensures reply.Begun? ==> forall k, d :: 0 <= k < |ids| ==>
        (Dependency(w, def.activities[k].name, d) in dependencies <==> d in def.activities[k].dependsOn)
      ensures reply.Begun? ==> forall i :: i in activities <==> i in old(activities) || i in ids
      ensures forall i :: i in old(activities) ==> i in activities && activities[i] == old(activities)[i]
      ensures Committed(old(core), old(moves), core, moves)
    {
      hide Refines, Dated, Inv, Enabled, Apply, Leads, Ordered, Emit, ValidNames, ValidDependencies, RecordOf, HasRepeat,
        AddRows, Committed;
      CommittedNothing(core, moves);
      if def.namespace == "" || def.name == "" || |def.activities| == 0 {
        return Invalid;
      }
      var ok := Validate(def);
      if !ok {
        return Invalid;
      }
      var now := clock.Now();
      var saved := Stored();
      if key != "" && Key(def.namespace, key) in keys {
        return Existing(keys[Key(def.namespace, key)]);
      }
      ghost var m := BeginMove(def, key, w, ids, now, maxAttempts);
      CanBegin(saved, core, def, key, w, ids, now, maxAttempts);
      NothingOf(saved, core, w);
      ghost var begun := core.(workflows := core.workflows[w := m.info]);
      InsertWorkflow(def, key, w);
      ok := InsertActivities(def, w, ids, now, Emit(begun, w, [Entry("", StartedEvent)]));
      if !ok {
        workflows, keys, activities, dependencies, events :=
          saved.workflows, saved.keys, saved.activities, saved.dependencies, saved.events;
        return KeyViolation;
      }
      StartedThenScheduled(begun, w, m.rows);
      LaunchedCore(core, m);
      CommittedOne(core, moves, m);
      forall k | 0 <= k < |ids| {
        NewRowIs(def.activities[k], w, now, maxAttempts);
      }
      forall i | i in activities && i !in saved.activities ensures activities[i].createdAt == now && HasRow(m.rows, i) {
        RecordsHaveIds(def, ids, w, now, maxAttempts, i);
        var k :| 0 <= k < |ids| && ids[k] == i;
      }
      DatedByLaunch(saved.activities, activities, moves, m);
      Record(m);
      reply := Begun(w);
    }

    /** SELECT ... FOR UPDATE of one activity, and whether its lease is current by database time. */
    method LockActivity(i: Id, now: Time) returns (reply: Reply, leaseCurrent: bool)
      ensures reply.Done? <==>
        i in activities && activities[i].leaseExpiresAt.Some? && activities[i].status == Running
      ensures !reply.Done? ==> forall worker, token :: ReplyTo(Stored(), i, worker, token, now) == reply
      ensures reply.Done? ==> (leaseCurrent <==> activities[i].leaseExpiresAt.value > now)
    {
      leaseCurrent := false;
      if i !in activities {
        return Declined(NotFound), false;
      }
      if activities[i].leaseExpiresAt.None? {
        return ScanFailed, false;
      }
      leaseCurrent := activities[i].leaseExpiresAt.value > now;
      if activities[i].status != Running {
        return Declined(InvalidTransition), leaseCurrent;
      }
      return Done, leaseCurrent;
    }

    /** A stale message leaves its event. */
    method RejectMessage(i: Id, worker: string, token: int, now: Time, kind: Kind)
      requires Valid() && now == clock.last && IsStale(kind)
      requires ReplyTo(Stored(), i, worker, token, now) == Declined(StaleLease)
      modifies this`events, this`core, this`moves
      ensures Valid() && moves == old(moves) + [Reject(now, i, worker, token, kind)]
      ensures Committed(old(core), old(moves), core, moves)
      ensures SameDates(old(activities), activities)
    {
      hide Refines, Dated, Inv, Enabled, Apply, Emit, Committed;
      ghost var before := moves;
      RowBehind(Stored(), core, i);
      RepliesAgree(Stored(), core, i, worker, token, now);
      ghost var m := Reject(now, i, worker, token, kind);
      RejectPossible(core, m);
      MoveCore(core, m);
      NothingRewritten(core, m);
      EventInserted(Stored(), core, activities[i].workflow, Entry(i, kind));
      AppendEvent(activities[i].workflow, i, kind);
      CommittedOne(core, moves, m);
      Record(m);
      DatedStays(activities, activities, before, moves);
    }

    method Heartbeat(activityID: Id, workerID: string, token: int) returns (reply: Reply)
      requires Valid()
      modifies this, clock
      ensures Valid() && reply == ReplyTo(old(Stored()), activityID, workerID, token, clock.last)
      ensures moves == old(moves) + match reply
        case Done => [Machine.Heartbeat(clock.last, activityID, workerID, token, clock.last + WholeSeconds(leaseTTL))]
        case Declined(StaleLease) => [Reject(clock.last, activityID, workerID, token, StaleHeartbeatEvent)]
        case _ => []
      ensures reply == Declined(NotFound) <==> activityID !in old(activities)
      ensures reply == ScanFailed <==> activityID in old(activities) && old(activities)[activityID].leaseExpiresAt.None?
      ensures reply == Declined(InvalidTransition) <==>
        activityID in old(activities) && var row := old(activities)[activityID];
        row.leaseExpiresAt.Some? && row.status != Running
      ensures reply.Done? <==>
        activityID in old(activities) && var row := old(activities)[activityID];
        && row.status == Running && OwnerOf(row) == workerID && row.fencingToken == token
        && row.leaseExpiresAt.Some? && clock.last < row.leaseExpiresAt.value
      ensures activities == if reply.Done? then
          old(activities)[activityID := old(activities)[activityID].(
            leaseExpiresAt := Some(clock.last + WholeSeconds(leaseTTL)))]
        else old(activities)
      ensures workflows == old(workflows)
      ensures Committed(old(core), old(moves), core, moves)
      ensures SameDates(old(activities), activities)
    {
      hide Refines, Dated, Inv, Enabled, Apply, Emit, Leads, Committed;
      CommittedNothing(core, moves);
      var now := clock.Now();
      var leaseCurrent;
      reply, leaseCurrent := LockActivity(activityID, now);
      if !reply.Done? {
        return;
      }
      var row := activities[activityID];
      if OwnerOf(row) != workerID || row.fencingToken != token || !leaseCurrent {
        RejectMessage(activityID, workerID, token, now, StaleHeartbeatEvent);
        return Declined(StaleLease);
      }
      Extend(activityID, workerID, token, now);
    }

    /** The statements of Heartbeat for an activity whose holder has been checked. */
    method Extend(i: Id, ghost worker: string, ghost token: int, now: Time)
      requires Valid() && now == clock.last && ReplyTo(Stored(), i, worker, token, now).Done?
      modifies this`activities, this`events, this`core, this`moves
      ensures Valid()
      ensures moves == old(moves) + [Machine.Heartbeat(now, i, worker, token, now + WholeSeconds(leaseTTL))]
      ensures i in old(activities) && activities ==
        old(activities)[i := old(activities)[i].(leaseExpiresAt := Some(now + WholeSeconds(leaseTTL)))]
      ensures Committed(old(core), old(moves), core, moves)
      ensures SameDates(old(activities), activities)
    {
      hide Refines, Dated, Inv, Enabled, Apply, Emit, Leads, Ordered, Committed;
      ghost var rows, before := activities, moves;
      var row := activities[i];
      RowBehind(Stored(), core, i);
      RepliesAgree(Stored(), core, i, worker, token, now);
      ghost var d, m := Stored(), Machine.Heartbeat(now, i, worker, token, now + WholeSeconds(leaseTTL));
      CurrentEnables(core, m);
      MoveCore(core, m);
      activities := activities[i := row.(leaseExpiresAt := Some(now + WholeSeconds(leaseTTL)))];
      RowUpdated(d, core, i, activities[i], After(core.activities[i], m, i));
      EventInserted(Stored(), Rewritten(core, m), row.workflow, Entry(i, HeartbeatEvent));
      AppendEvent(row.workflow, i, HeartbeatEvent);
      CommittedOne(core, moves, m);
      Record(m);
      DatedStays(rows, activities, before, moves);
    }

    method Fail(activityID: Id, workerID: string, token: int, retryable: bool) returns (reply: Reply)
      requires Valid()
      modifies this, clock
      ensures Valid() && reply == ReplyTo(old(Stored()), activityID, workerID, token, clock.last)
      ensures reply.Done? ==> activityID in old(core).activities && old(core).activities[activityID].retryBackoff >= 0
      ensures moves == old(moves) + match reply
        case Done => [FailureMove(old(core), activityID, workerID, token, retryable, clock.last)]
        case Declined(StaleLease) => [Reject(clock.last, activityID, workerID, token, StaleFailureEvent)]
        case _ => []
      ensures reply == Declined(NotFound) <==> activityID !in old(activities)
      ensures reply == ScanFailed <==> activityID in old(activities) && old(activities)[activityID].leaseExpiresAt.None?
      ensures reply == Declined(InvalidTransition) <==>
        activityID in old(activities) && var row := old(activities)[activityID];
        row.leaseExpiresAt.Some? && row.status != Running
      ensures reply.Done? <==>
        activityID in old(activities) && var row := old(activities)[activityID];
        && row.status == Running && OwnerOf(row) == workerID && row.fencingToken == token
        && row.leaseExpiresAt.Some? && clock.last < row.leaseExpiresAt.value
      ensures if !reply.Done? then activities == old(activities) && workflows == old(workflows)
        else var row := old(activities)[activityID];
          if retryable && row.attempt < row.maxAttempts then
            && activities == old(activities)[activityID := row.(status := RetryPending, leaseOwner := None,
                 nextAttemptAt := clock.last + RetryDelay(row.backoffMs, row.attempt))]
            && workflows == old(workflows)
          else
            && activities == old(activities)[activityID := row.(status := Failed, leaseOwner := None)]
            && row.workflow in old(workflows)
            && workflows == old(workflows)[row.workflow := old(workflows)[row.workflow].(status := WorkflowFailed)]
      ensures Committed(old(core), old(moves), core, moves)
      ensures SameDates(old(activities), activities)
    {
      hide Refines, Dated, Inv, Enabled, Apply, Emit, Leads, Committed;
      CommittedNothing(core, moves);
      var now := clock.Now();
      var leaseCurrent;
      reply, leaseCurrent := LockActivity(activityID, now);
      if !reply.Done? {
        return;
      }
      var row := activities[activityID];
      if OwnerOf(row) != workerID || row.fencingToken != token || !leaseCurrent {
        RejectMessage(activityID, workerID, token, now, StaleFailureEvent);
        return Declined(StaleLease);
      }
      FailCurrent(activityID, workerID, token, retryable, now);
    }

    /** The statements of Fail for an activity whose holder has been checked. */
    method FailCurrent(i: Id, ghost worker: string, ghost token: int, retryable: bool, now: Time)
      requires Valid() && now == clock.last && ReplyTo(Stored(), i, worker, token, now).Done?
      modifies this`workflows, this`activities, this`events, this`core, this`moves
      ensures Valid() && i in old(core).activities && old(core).activities[i].retryBackoff >= 0
      ensures moves == old(moves) + [FailureMove(old(core), i, worker, token, retryable, now)]
      ensures i in old(activities) && var row := old(activities)[i];
        if retryable && row.attempt < row.maxAttempts then
          && activities == old(activities)[i := row.(status := RetryPending, leaseOwner := None,
               nextAttemptAt := now + RetryDelay(row.backoffMs, row.attempt))]
          && workflows == old(workflows)
        else
          && activities == old(activities)[i := row.(status := Failed, leaseOwner := None)]
          && row.workflow in old(workflows)
          && workflows == old(workflows)[row.workflow := old(workflows)[row.workflow].(status := WorkflowFailed)]
      ensures Committed(old(core), old(moves), core, moves)
      ensures SameDates(old(activities), activities)
    {
      hide Refines, Dated, Inv, Enabled, Apply, Emit, Leads, Committed, Ordered;
      RowBehind(Stored(), core, i);
      if retryable && activities[i].attempt < activities[i].maxAttempts {
        RetryLater(i, worker, token, now);
      } else {
        GiveUp(i, worker, token, retryable, now);
      }
    }

    method RetryLater(i: Id, ghost worker: string, ghost token: int, now: Time)
      requires Valid() && now == clock.last && ReplyTo(Stored(), i, worker, token, now).Done?
      requires activities[i].attempt < activities[i].maxAttempts
      modifies this`activities, this`events, this`core, this`moves
      ensures Valid() && i in old(core).activities && old(core).activities[i].retryBackoff >= 0
      ensures moves == old(moves) + [FailureMove(old(core), i, worker, token, true, now)]
      ensures i in old(activities) && var row := old(activities)[i];
        activities == old(activities)[i := row.(status := RetryPending, leaseOwner := None,
          nextAttemptAt := now + RetryDelay(row.backoffMs, row.attempt))]
      ensures Committed(old(core), old(moves), core, moves)
    {
      hide Refines, Dated, Inv, Enabled, Apply, Emit, Leads, Committed, Ordered;
      ghost var rows, before := activities, moves;
      var row := activities[i];
      RowBehind(Stored(), core, i);
      RepliesAgree(Stored(), core, i, worker, token, now);
      ghost var d, m := Stored(), FailureMove(core, i, worker, token, true, now);
      CurrentEnables(core, m);
      CommittedOne(core, moves, m);
      MoveCore(core, m);
      activities := activities[i := row.(status := RetryPending, leaseOwner := None,
                                         nextAttemptAt := now + RetryDelay(row.backoffMs, row.attempt))];
      RowUpdated(d, core, i, activities[i], After(core.activities[i], m, i));
      EventInserted(Stored(), Rewritten(core, m), row.workflow, Entry(i, RetryEvent));
      AppendEvent(row.workflow, i, RetryEvent);
      Record(m);
      DatedStays(rows, activities, before, moves);
    }

    method GiveUp(i: Id, ghost worker: string, ghost token: int, ghost retryable: bool, now: Time)
      requires Valid() && now == clock.last && ReplyTo(Stored(), i, worker, token, now).Done?
      requires !(retryable && activities[i].attempt < activities[i].maxAttempts)
      modifies this`workflows, this`activities, this`events, this`core, this`moves
      ensures Valid() && i in old(core).activities && old(core).activities[i].retryBackoff >= 0
      ensures moves == old(moves) + [FailureMove(old(core), i, worker, token, retryable, now)]
      ensures i in old(activities) && var row := old(activities)[i];
        && activities == old(activities)[i := row.(status := Failed, leaseOwner := None)]
        && row.workflow in old(workflows)
        && workflows == old(workflows)[row.workflow := old(workflows)[row.workflow].(status := WorkflowFailed)]
      ensures Committed(old(core), old(moves), core, moves)
    {
      hide Refines, Dated, Inv, Enabled, Apply, Emit, Leads, Committed, Ordered;
      ghost var rows, before := activities, moves;
      var row := activities[i];
      RowBehind(Stored(), core, i);
      RepliesAgree(Stored(), core, i, worker, token, now);
      ghost var d, m := Stored(), FailureMove(core, i, worker, token, retryable, now);
      CurrentEnables(core, m);
      CommittedOne(core, moves, m);
      MoveCore(core, m);
      GivenUp(d, core, m);
      activities := activities[i := row.(status := Failed, leaseOwner := None)];
      workflows := workflows[row.workflow := workflows[row.workflow].(status := WorkflowFailed)];
      AppendEvent(row.workflow, i, FailedEvent);
      AppendEvent(row.workflow, "", WorkflowFailedEvent);
      Record(m);
      DatedStays(rows, activities, before, moves);
    }

    /** What a RETURNING clause gives: the rows hit, in no particular order. */
    static method Returning(ids: set<Id>) returns (rows: seq<Id>)
      ensures Lists(rows, ids) && |rows| == |ids|
    {
      rows := [];
      var rest := ids;
      while rest != {}
        invariant rest <= ids && |rows| + |rest| == |ids|
        invariant forall x :: x in rows <==> x in ids - rest
        invariant forall j, k :: 0 <= j < k < |rows| ==> rows[j] != rows[k]
        decreases rest
      {
        var x :| x in rest;
        assert x !in rows;
        rows := rows + [x];
        rest := rest - {x};
      }
    }

    /** Make every due retry ready, of one workflow or, with scope "", of all.  One statement changes the
        rows, judging all of them by the state before it; then the events are appended one by one. */
    method ReleaseReady(scope: Id, now: Time) returns (released: nat)
      requires Valid() && now == clock.last
      modifies this`activities, this`events, this`core, this`moves
      ensures Valid() && released == |DueOf(old(core), scope, now)|
      ensures PassedOver(old(core), core, DueOf(old(core), scope, now), now)
      ensures OnlyReleases(old(moves), moves, now)
      ensures forall i :: i in old(activities) ==>
        && i in activities
        && var row := old(activities)[i];
           activities[i] == row
           || (row.status == RetryPending && row.nextAttemptAt <= now && activities[i] == row.(status := Ready))
      ensures Continued(old(core), old(moves), core, moves)
      ensures SameDates(old(activities), activities)
    {
      hide Refines, Dated, Inv, Enabled, Apply, Leads, HalfWritten, NoneOpen, DueOf, PassedOver, Ordered, Released, Continued,
        OnlyReleases, Lists, Ahead;
      ContinuedNowhere(core, moves);
      NoMovesYet(moves, now);
      ghost var before, d0, s0 := moves, Stored(), core;
      var hits := set i | i in activities && activities[i].status == RetryPending
                          && activities[i].nextAttemptAt <= now
                          && (scope == "" || activities[i].workflow == scope) && NoneOpen(Stored(), activities[i]);
      var rows := Returning(hits);
      activities := Released(activities, hits);
      HitsAreDue(d0, s0, scope, now, hits);
      ghost var after, passed := activities, {};
      AheadOfAll(rows, hits);
      ReleasedOnly(d0.activities, hits);
      NothingWritten(d0, s0, hits, after, now);
      for k := 0 to |rows|
        invariant Traced() && OnlyReleases(old(moves), moves, now)
        invariant Continued(s0, old(moves), core, moves)
        invariant activities == after && HalfWritten(Stored(), d0.activities, hits, s0, core, passed, Ahead(rows, k), now)
      {
        var i := rows[k];
        AheadOfNext(rows, hits, k);
        ReleaseStep(Stored(), d0.activities, hits, s0, core, passed, Ahead(rows, k), scope, now, i);
        AppendEvent(activities[i].workflow, i, ReadyEvent);
        ContinuedOne(s0, old(moves), core, moves, Release(now, i));
        OneMoreMove(old(moves), moves, Release(now, i), now);
        Record(Release(now, i));
        passed := passed + {i};
      }
      AllWritten(Stored(), d0.activities, hits, s0, core, passed, now);
      ReleasedRows(d0.activities, hits, now);
      ReleasedDates(d0.activities, hits);
      ReleasesAppend(before, moves, now);
      DatedStays(d0.activities, activities, before, moves);
      released := |rows|;
    }

    /** The statements that follow for one expired row. */
    method AnnounceExpiry(i: Id)
      requires i in activities && activities[i].workflow in workflows
      modifies this`workflows, this`events
      ensures Stored() == Announced(old(Stored()), i)
    {
      var row := activities[i];
      var kind := ExpiredEvent;
      if row.status == Failed {
        kind := ExpiredFailedEvent;
        workflows := workflows[row.workflow := workflows[row.workflow].(status := WorkflowFailed)];
        AppendEvent(row.workflow, "", WorkflowFailedEvent);
      }
      AppendEvent(row.workflow, i, kind);
    }

    /** Expire every lapsed lease: one statement for all of them, then their events. */
    method ExpireLeases(now: Time) returns (changed: nat)
      requires Valid() && now == clock.last
      modifies this`workflows, this`activities, this`events, this`core, this`moves
      ensures Valid() && changed == |LapsedOf(old(core), now)|
      ensures PassedOver(old(core), core, LapsedOf(old(core), now), now)
      ensures OnlyExpiries(old(moves), moves, now)
      ensures forall i :: i in old(activities) ==>
        && i in activities
        && var row := old(activities)[i];
           activities[i] ==
             if row.status == Running && row.leaseExpiresAt.Some? && row.leaseExpiresAt.value <= now
             then row.(status := if row.attempt < row.maxAttempts then Ready else Failed, leaseOwner := None)
             else row
      ensures Continued(old(core), old(moves), core, moves)
      ensures SameDates(old(activities), activities)
    {
      hide Refines, Dated, Inv, Enabled, Apply, Leads, HalfWritten, LapsedOf, PassedOver, Ordered, ExpiredRows,
        Announced, ExpiryMove, Continued, OnlyExpiries, Lists, Ahead;
      ContinuedNowhere(core, moves);
      NoMovesYet(moves, now);
      ghost var before, d0, s0 := moves, Stored(), core;
      var hits := set i | i in activities && HasLapsed(activities[i], now);
      var rows := Returning(hits);
      activities := ExpiredRows(activities, hits);
      HitsHaveLapsed(d0, s0, now, hits);
      ghost var after, passed := activities, {};
      AheadOfAll(rows, hits);
      ExpiredOnly(d0.activities, hits);
      NothingWritten(d0, s0, hits, after, now);
      changed := 0;
      for k := 0 to |rows|
        invariant Traced() && OnlyExpiries(old(moves), moves, now) && changed == k
        invariant Continued(s0, old(moves), core, moves)
        invariant activities == after && HalfWritten(Stored(), d0.activities, hits, s0, core, passed, Ahead(rows, k), now)
      {
        var i := rows[k];
        AheadOfNext(rows, hits, k);
        ghost var m := ExpiryMove(d0.activities, i, now);
        IsAnExpiry(d0.activities, i, now);
        ExpireStep(Stored(), d0.activities, hits, s0, core, passed, Ahead(rows, k), now, i);
        AnnounceExpiry(i);
        ContinuedOne(s0, old(moves), core, moves, m);
        OneMoreMove(old(moves), moves, m, now);
        Record(m);
        passed := passed + {i};
        changed := changed + 1;
      }
      AllWritten(Stored(), d0.activities, hits, s0, core, passed, now);
      ExpiredDates(d0.activities, hits);
      ExpiredInPlace(d0.activities, hits, now);
      ReleasesAppend(before, moves, now);
      DatedStays(d0.activities, activities, before, moves);
    }

    /** A pass: the count and the records come out as for the engine's loop over single activities. */
    method RunSchedulerPass() returns (changed: nat)
      requires Valid()
      modifies this, clock
      ensures Valid() && changed == |Changed(old(core), clock.last)|
      ensures core.activities == PassActivities(old(core), clock.last)
      ensures core.workflows == PassWorkflows(old(core), clock.last)
      ensures Appended(old(moves), moves, clock.last) && Committed(old(core), old(moves), core, moves)
      ensures forall k :: |old(moves)| <= k < |moves| ==> IsExpiry(moves[k]) || moves[k].Release?
      ensures forall i :: i in old(activities) ==>
        && i in activities
        && var row, later := old(activities)[i], activities[i];
           if row.status == Running && row.leaseExpiresAt.Some? && row.leaseExpiresAt.value <= clock.last
           then later == row.(status := if row.attempt < row.maxAttempts then Ready else Failed, leaseOwner := None)
           else later == row
                || (row.status == RetryPending && row.nextAttemptAt <= clock.last && later == row.(status := Ready))
      ensures SameDates(old(activities), activities)
    {
      hide Refines, Dated, Inv, Enabled, Apply, Leads, PassedOver, LapsedOf, DueOf, Changed, Committed, Continued;
      ghost var s := core;
      var now := clock.Now();
      changed := ExpireLeases(now);
      ghost var t, middle := core, moves;
      var released := ReleaseReady("", now);
      ContinuedThrough(s, old(moves), t, middle, core, moves);
      NoFinish(old(moves), middle, moves);
      CommittedWithoutFinish(s, old(moves), core, moves);
      TwoStages(s, t, core, now);
      changed := changed + released;
    }

    method CompleteWorkflowIfDone(w: Id, now: Time)
      requires Valid() && now == clock.last && w in workflows
      modifies this`workflows, this`events, this`core, this`moves
      ensures Valid() && core == FinishIfDone(old(core), w, now) && Appended(old(moves), moves, now)
      ensures forall k :: |old(moves)| <= k < |moves| ==> moves[k] == Finish(now, w)
      ensures Continued(old(core), old(moves), core, moves)
      ensures SameDates(old(activities), activities)
    {
      hide Refines, Dated, Inv, Enabled, Apply, Leads, Ordered, Emit, WithStatus, Continued;
      ghost var before := moves;
      ContinuedNowhere(core, moves);
      FinishCondition(Stored(), core, w, now);
      if workflows[w].status == WorkflowRunning
         && NoneIncomplete(activities, w) {
        ghost var d := Stored();
        workflows := workflows[w := workflows[w].(status := WorkflowCompleted)];
        StatusUpdated(d, core, w, WorkflowCompleted);
        EventInserted(Stored(), WithStatus(core, w, WorkflowCompleted), w, Entry("", FinishedEvent));
        AppendEvent(w, "", FinishedEvent);
        FinishWritten(core, now, w);
        ContinuedOne(core, moves, core, moves, Finish(now, w));
        Record(Finish(now, w));
        DatedStays(activities, activities, before, moves);
      }
    }

    method Complete(activityID: Id, workerID: string, token: int) returns (reply: Reply)
      requires Valid()
      modifies this, clock
      ensures Valid() && reply == ReplyTo(old(Stored()), activityID, workerID, token, clock.last)
      ensures reply.Done? ==>
        var m := Machine.Complete(clock.last, activityID, workerID, token);
        && Enabled(old(core), m) && Appended(old(moves) + [m], moves, clock.last)
        && WrappedUp(Apply(old(core), m), core, old(core).activities[activityID].workflow, clock.last)
        && forall k :: |old(moves)| < k < |moves| ==> moves[k].Release? || moves[k].Finish?
      ensures reply == Declined(StaleLease) ==>
        moves == old(moves) + [Reject(clock.last, activityID, workerID, token, StaleCompletionEvent)]
      ensures !reply.Done? && reply != Declined(StaleLease) ==> moves == old(moves)
      ensures reply == Declined(NotFound) <==> activityID !in old(activities)
      ensures reply == ScanFailed <==> activityID in old(activities) && old(activities)[activityID].leaseExpiresAt.None?
      ensures reply == Declined(InvalidTransition) <==>
        activityID in old(activities) && var row := old(activities)[activityID];
        row.leaseExpiresAt.Some? && row.status != Running
      ensures reply.Done? <==>
        activityID in old(activities) && var row := old(activities)[activityID];
        && row.status == Running && OwnerOf(row) == workerID && row.fencingToken == token
        && row.leaseExpiresAt.Some? && clock.last < row.leaseExpiresAt.value
      ensures !reply.Done? ==> activities == old(activities) && workflows == old(workflows)
      ensures reply.Done? ==> forall i :: i in old(activities) ==>
        && i in activities
        && var row := old(activities)[i];
           if i == activityID then activities[i] == row.(status := Completed, leaseOwner := None)
           else activities[i] == row || (row.status == RetryPending && activities[i] == row.(status := Ready))
      ensures Committed(old(core), old(moves), core, moves)
      ensures SameDates(old(activities), activities)
    {
      hide Refines, Dated, Inv, Enabled, Apply, Emit, Leads, Ordered, DueOf, PassedOver, WrappedUp, WellFormed, FinishIfDone,
        Committed, Continued;
      CommittedNothing(core, moves);
      ContinuedNowhere(core, moves);
      var now := clock.Now();
      var leaseCurrent;
      reply, leaseCurrent := LockActivity(activityID, now);
      if !reply.Done? {
        return;
      }
      var row := activities[activityID];
      if OwnerOf(row) != workerID || row.fencingToken != token || !leaseCurrent {
        RejectMessage(activityID, workerID, token, now, StaleCompletionEvent);
        return Declined(StaleLease);
      }
      CompleteCurrent(activityID, workerID, token, now);
    }

    /** The statements of Complete for an activity whose holder has been checked. */
    method CompleteCurrent(i: Id, ghost worker: string, ghost token: int, now: Time)
      requires Valid() && now == clock.last && ReplyTo(Stored(), i, worker, token, now).Done?
      modifies this`workflows, this`activities, this`events, this`core, this`moves
      ensures var m := Machine.Complete(now, i, worker, token);
        && Enabled(old(core), m) && Appended(old(moves) + [m], moves, now)
        && WrappedUp(Apply(old(core), m), core, old(core).activities[i].workflow, now)
        && forall k :: |old(moves)| < k < |moves| ==> moves[k].Release? || moves[k].Finish?
      ensures forall j :: j in old(activities) ==>
        && j in activities
        && var row := old(activities)[j];
           if j == i then activities[j] == row.(status := Completed, leaseOwner := None)
           else activities[j] == row || (row.status == RetryPending && activities[j] == row.(status := Ready))
      ensures Valid() && Committed(old(core), old(moves), core, moves) && SameDates(old(activities), activities)
    {
      hide Refines, Dated, Inv, Enabled, Apply, Emit, Leads, Ordered, DueOf, PassedOver, WrappedUp, WellFormed, FinishIfDone,
        Committed, Continued, ReplyTo;
      ghost var m := Machine.Complete(now, i, worker, token);
      MarkCompleted(i, worker, token, now);
      var w := activities[i].workflow;
      ghost var s, first := core, moves;
      var _ := ReleaseReady(w, now);
      ghost var t, middle := core, moves;
      CompleteWorkflowIfDone(w, now);
      WrapsUp(s, t, w, now);
      ContinuedThrough(s, first, t, middle, core, moves);
      ContinuedThrough(old(core), old(moves), s, first, core, moves);
      CommittedAfterCompletion(old(core), old(moves), core, moves, m, w);
    }

    /** The statements of Complete for its own row. */
    method MarkCompleted(i: Id, ghost worker: string, ghost token: int, now: Time)
      requires Valid() && now == clock.last && ReplyTo(Stored(), i, worker, token, now).Done?
      modifies this`activities, this`events, this`core, this`moves
      ensures var m := Machine.Complete(now, i, worker, token);
        && Enabled(old(core), m) && core == Apply(old(core), m) && moves == old(moves) + [m]
      ensures Valid() && i in old(core).activities && old(core).activities[i].workflow == old(activities)[i].workflow
      ensures activities == old(activities)[i := old(activities)[i].(status := Completed, leaseOwner := None)]
      ensures Continued(old(core), old(moves), core, moves)
      ensures var w := old(activities)[i].workflow; w in workflows && w in core.workflows
      ensures SameDates(old(activities), activities)
    {
      hide Refines, Dated, Inv, Enabled, Apply, Emit, Leads, Ordered, Continued, WellFormed;
      ghost var rows, before := activities, moves;
      var row := activities[i];
      RowBehind(Stored(), core, i);
      RepliesAgree(Stored(), core, i, worker, token, now);
      ghost var d, m := Stored(), Machine.Complete(now, i, worker, token);
      CurrentEnables(core, m);
      MoveCore(core, m);
      activities := activities[i := CompletedRow(row)];
      RowUpdated(d, core, i, activities[i], After(core.activities[i], m, i));
      EventInserted(Stored(), Rewritten(core, m), row.workflow, Entry(i, CompletedEvent));
      AppendEvent(row.workflow, i, CompletedEvent);
      StillStored(core, m, row.workflow);
      ContinuedNowhere(core, moves);
      ContinuedOne(core, moves, core, moves, m);
      Record(m);
      DatedStays(rows, activities, before, moves);
    }

    /** The two UPDATE statements of a cancellation. */
    method CancelRows(w: Id, now: Time) returns (cancelled: seq<Id>)
      requires Refines(Stored(), core) && w in workflows && CancelAnswer(core, w).Accepted?
      modifies this`workflows, this`activities
      ensures Enabled(core, Machine.Cancel(now, w, cancelled)) && w in core.workflows
      ensures Refines(Stored(), Emit(CancelRecords(core, w), w, CancelledEntries([])))
      ensures workflows == old(workflows)[w := old(workflows)[w].(status := WorkflowCancelled)]
      ensures activities.Keys == old(activities).Keys
      ensures forall i :: i in old(activities) ==>
        var row := old(activities)[i];
        activities[i] == if row.workflow == w && (row.status == Ready || row.status == RetryPending)
                         then row.(status := ActivityStatus.Cancelled) else row
    {
      hide Refines, Enabled, Emit, CancelAnswer, CancelledEntries;
      ghost var d := Stored();
      workflows := workflows[w := workflows[w].(status := WorkflowCancelled)];
      var hits := set i | i in activities && activities[i].workflow == w && activities[i].status in {Ready, RetryPending};
      cancelled := Returning(hits);
      activities := map i | i in activities ::
        if i in hits then activities[i].(status := ActivityStatus.Cancelled) else activities[i];
      CancelStatements(d, core, w, hits, cancelled, now, Stored());
    }

    /** The event of each cancelled activity. */
    method AnnounceCancellations(w: Id, cancelled: seq<Id>, ghost s: State)
      requires Refines(Stored(), Emit(s, w, CancelledEntries([]))) && w in workflows
      modifies this`events
      ensures Refines(Stored(), Emit(s, w, CancelledEntries(cancelled)))
    {
      hide Refines, Emit, CancelledEntries;
      assert cancelled[..0] == [];
      for k := 0 to |cancelled|
        invariant Refines(Stored(), Emit(s, w, CancelledEntries(cancelled[..k])))
      {
        OneMoreCancelled(s, w, cancelled, k);
        EventInserted(Stored(), Emit(s, w, CancelledEntries(cancelled[..k])), w, Entry(cancelled[k], CancelledEvent));
        AppendEvent(w, cancelled[k], CancelledEvent);
      }
      assert cancelled[..|cancelled|] == cancelled;
    }

    method Cancel(workflowID: Id) returns (answer: Answer)
      requires Valid()
      modifies this, clock
      ensures Valid() && answer == CancelAnswer(old(core), workflowID)
      ensures answer == Refused(NotFound) <==> workflowID !in old(workflows)
      ensures answer == Refused(InvalidTransition) <==>
        workflowID in old(workflows) && old(workflows)[workflowID].status != WorkflowRunning
      ensures answer.Accepted? ==>
        && workflowID in old(workflows)
        && workflows == old(workflows)[workflowID := old(workflows)[workflowID].(status := WorkflowCancelled)]
        && activities.Keys == old(activities).Keys
        && forall i :: i in old(activities) ==>
             var row := old(activities)[i];
             activities[i] == if row.workflow == workflowID && (row.status == Ready || row.status == RetryPending)
                              then row.(status := ActivityStatus.Cancelled) else row
      ensures if answer.Accepted? then
                exists order :: moves == old(moves) + [Machine.Cancel(clock.last, workflowID, order)]
              else moves == old(moves) && Stored() == old(Stored())
      ensures Committed(old(core), old(moves), core, moves)
      ensures SameDates(old(activities), activities)
    {
      hide Refines, Dated, Inv, Enabled, Apply, Emit, Leads, Ordered, CancelAnswer, CancelledEntries, Committed;
      CommittedNothing(core, moves);
      var now := clock.Now();
      StatusBehind(Stored(), core, workflowID);
      if workflowID !in workflows {
        return Refused(NotFound);
      }
      if workflows[workflowID].status != WorkflowRunning {
        return Refused(InvalidTransition);
      }
      ghost var rows, before := activities, moves;
      ghost var s := CancelRecords(core, workflowID);
      var cancelled := CancelRows(workflowID, now);
      ghost var m := Machine.Cancel(now, workflowID, cancelled);
      AnnounceCancellations(workflowID, cancelled, s);
      EventInserted(Stored(), Emit(s, workflowID, CancelledEntries(cancelled)), workflowID, Entry("", WorkflowCancelledEvent));
      EmitTwice(s, workflowID, CancelledEntries(cancelled), [Entry("", WorkflowCancelledEvent)]);
      AppendEvent(workflowID, "", WorkflowCancelledEvent);
      CancelCore(core, m);
      CommittedOne(core, moves, m);
      Record(m);
      DatedStays(rows, activities, before, moves);
      assert moves == old(moves) + [Machine.Cancel(clock.last, workflowID, cancelled)];
      answer := Accepted;
    }

    /** The first of the rows to be had: SELECT ... ORDER BY created_at, id FOR UPDATE SKIP LOCKED LIMIT 1. */
    method Pick(taskQueue: string, locked: set<Id>) returns (found: bool, i: Id)
      requires Refines(Stored(), core)
      ensures var free := Claimable(core, taskQueue) - locked;
        && free <= activities.Keys && (found <==> free != {}) && (found ==> i in free && IsFirst(activities, i, free))
      ensures found ==> i in activities && i !in locked && activities[i].status == Ready
      ensures found ==> taskQueue == "" || activities[i].taskQueue == "" || activities[i].taskQueue == taskQueue
      ensures forall j ::
        (&& j in activities && j !in locked && activities[j].status == Ready
         && (taskQueue == "" || activities[j].taskQueue == "" || activities[j].taskQueue == taskQueue))
        ==> && found && activities[i].createdAt <= activities[j].createdAt
            && (activities[i].createdAt == activities[j].createdAt ==> !Before(j, i))
    {
      hide Refines, Claimable, IsFirst, Before;
      var free := set j | j in activities && activities[j].status == Ready
                          && (taskQueue == "" || activities[j].taskQueue == "" || activities[j].taskQueue == taskQueue)
                          && j !in locked;
      assert forall j :: j in free <==>
        && j in activities && activities[j].status == Ready && j !in locked
        && (taskQueue == "" || activities[j].taskQueue == "" || activities[j].taskQueue == taskQueue);
      FreeIsClaimable(Stored(), core, taskQueue, locked, free);
      if free == {} {
        return false, "";
      }
      FirstExists(activities, free);
      i :| i in free && IsFirst(activities, i, free);
      forall j | j in free
        ensures activities[i].createdAt <= activities[j].createdAt
        ensures activities[i].createdAt == activities[j].createdAt ==> !Before(j, i)
      {
        FirstIsEarliest(activities, i, free, j);
      }
      found := true;
    }

    /** locked are the rows that other transactions hold; they are skipped. */
    method Claim(workerID: string, taskQueue: string, locked: set<Id>) returns (answer: ClaimAnswer, receipt: Receipt)
      requires Valid()
      modifies this, clock
      ensures Valid()
      ensures var free := Claimable(old(core), taskQueue) - locked;
        && free <= old(activities).Keys
        && (if free == {} then answer.NothingReady? && moves == old(moves) && Stored() == old(Stored())
            else answer.Granted? && IsFirst(old(activities), answer.activity, free)
                 && answer.token == old(core).activities[answer.activity].fencingToken + 1
                 && moves == old(moves) + [Machine.Claim(clock.last, answer.activity, workerID, taskQueue,
                                                         clock.last + WholeSeconds(leaseTTL))])
      ensures if answer.Granted? then
                var i := answer.activity;
                && i in old(activities) && i in activities && receipt.activity == i
                && receipt.workflow == activities[i].workflow == old(activities)[i].workflow
                && receipt.name == activities[i].name == old(activities)[i].name
                && receipt.attempt == activities[i].attempt == old(activities)[i].attempt + 1
                && receipt.token == answer.token == activities[i].fencingToken == old(activities)[i].fencingToken + 1
                && activities[i].leaseExpiresAt == Some(receipt.expires)
                && activities[i].status == Running && activities[i].leaseOwner == Some(workerID)
                && receipt.expires == clock.last + WholeSeconds(leaseTTL)
                && receipt.applicationKey == receipt.workflow + ":" + receipt.name
                && old(activities)[i].status == Ready && i !in locked
                && (taskQueue == "" || old(activities)[i].taskQueue == "" || old(activities)[i].taskQueue == taskQueue)
              else receipt == NO_RECEIPT
      ensures forall j ::
        (&& j in old(activities) && j !in locked && old(activities)[j].status == Ready
         && (taskQueue == "" || old(activities)[j].taskQueue == "" || old(activities)[j].taskQueue == taskQueue))
        ==> && answer.Granted?
            && var first, other := old(activities)[answer.activity].createdAt, old(activities)[j].createdAt;
               first <= other && (first == other ==> !Before(j, answer.activity))
      ensures Committed(old(core), old(moves), core, moves)
      ensures SameDates(old(activities), activities)
    {
      hide Refines, Dated, Inv, Enabled, Apply, Emit, Leads, Ordered, IsFirst, Claimable, Committed, Before;
      CommittedNothing(core, moves);
      var now := clock.Now();
      var found, i := Pick(taskQueue, locked);
      if !found {
        return NothingReady, NO_RECEIPT;
      }
      TokenBehind(Stored(), core, i);
      Take(i, workerID, taskQueue, now);
      var row := activities[i];
      answer := Granted(i, row.fencingToken);
      receipt := Receipt(i, row.workflow, row.name, row.attempt, row.fencingToken, DeadlineOf(row),
                         row.workflow + ":" + row.name);
    }

    /** The UPDATE of the claim statement, for the row picked. */
    method Take(i: Id, workerID: string, taskQueue: string, now: Time)
      requires Valid() && now == clock.last && i in Claimable(core, taskQueue) && i in activities
      modifies this`activities, this`events, this`core, this`moves
      ensures Valid()
      ensures var row := old(activities)[i]; activities == old(activities)[i :=
        row.(status := Running, attempt := row.attempt + 1, leaseOwner := Some(workerID),
             fencingToken := row.fencingToken + 1, leaseExpiresAt := Some(now + WholeSeconds(leaseTTL)))]
      ensures Committed(old(core), old(moves), core, moves)
      ensures moves == old(moves) + [Machine.Claim(now, i, workerID, taskQueue, now + WholeSeconds(leaseTTL))]
      ensures SameDates(old(activities), activities)
    {
      hide Refines, Dated, Inv, Enabled, Apply, Emit, Leads, Ordered, Claimable, Committed;
      ghost var rows, before := activities, moves;
      var row := activities[i];
      ghost var d, m := Stored(), Machine.Claim(now, i, workerID, taskQueue, now + WholeSeconds(leaseTTL));
      RowBehind(d, core, i);
      ClaimPossible(core, m);
      MoveCore(core, m);
      activities := activities[i := row.(status := Running, attempt := row.attempt + 1, leaseOwner := Some(workerID),
        fencingToken := row.fencingToken + 1, leaseExpiresAt := Some(now + WholeSeconds(leaseTTL)))];
      RowUpdated(d, core, i, activities[i], After(core.activities[i], m, i));
      EventInserted(Stored(), Rewritten(core, m), row.workflow, Entry(i, ClaimedEvent));
      AppendEvent(row.workflow, i, ClaimedEvent);
      CommittedOne(core, moves, m);
      Record(m);
      DatedStays(rows, activities, before, moves);
    }
  }

  /** Every activity was launched once, and its row bears the time of that: so the order of claims is the
      order of starts. */
  lemma CreatedAtStart(p: Postgres, i: Id, k: nat, at: Time)
    requires p.Valid() && i in p.activities && LaunchedBy(p.moves, k, i, at)
    ensures p.activities[i].createdAt == at
  {
    hide Inv, Refines;
    var l: nat :| LaunchedBy(p.moves, l, i, p.activities[i].createdAt);
    var ss :| IsRun(ss, p.moves) && ss[0] == EMPTY && ss[|p.moves|] == p.core;
    if k < l { LaunchedOnce(ss, p.moves, i, k, l); }
    if l < k { LaunchedOnce(ss, p.moves, i, l, k); }
  }

  lemma LaunchedOnce(ss: seq<State>, ms: seq<Move>, i: Id, k: nat, l: nat)
    requires IsRun(ss, ms) && k < l < |ms| && ms[k].Launch? && ms[l].Launch?
    ensures !(HasRow(ms[k].rows, i) && HasRow(ms[l].rows, i))
  {
    hide Apply, Enabled, Evolves;
    assert StepAt(ss, ms, k) && StepAt(ss, ms, l);
    LaunchGrows(ss[k], ms[k]);
    LaunchGrows(ss[l], ms[l]);
    if HasRow(ms[k].rows, i) {
      assert i in ss[k + 1].activities;
      StaysThere(ss, ms, i, k + 1);
    }
  }

  /** Fencing as the rows show it: the row of a completed activity bears the token of the claim whose worker
      reported the completion. */
  lemma CompletedRowWasReported(p: Postgres, i: Id) returns (j: nat, l: nat)
    requires p.Valid() && i in p.activities && p.activities[i].status == Completed
    ensures j < l < |p.moves| && IsClaim(p.moves[j], i) && p.moves[l].Complete? && p.moves[l].act == i
    ensures p.moves[l].worker == p.moves[j].worker && p.moves[l].token == p.activities[i].fencingToken
    ensures forall k :: j < k < l ==> !IsClaim(p.moves[k], i) && !IsOutcome(p.moves[k], i)
  {
    hide Inv, SameWorkflows, SameKeys, SameEvents, SameDependencies;
    var ss :| IsRun(ss, p.moves) && ss[0] == EMPTY && ss[|p.moves|] == p.core;
    assert SaysSame(p.activities[i], p.core.activities[i]);
    j, l := CompletedWasReported(ss, p.moves, i, |p.moves|);
  }

  /** What holds of the rows after any sequence of transactions: they stand for a state of the lease
      machine that a run reaches, so all that is proved about such states holds of them. */
  lemma EveryDatabaseState(p: Postgres)
    requires p.Valid()
    ensures Inv(p.core) && Partitioned(p.core) && Accounted(p.core) && Replayable(p.core) && InOrder(p.core)
    ensures forall i :: i in p.activities ==> SaysSame(p.activities[i], p.core.activities[i])
    ensures forall w :: w in p.workflows ==> Log(p.core, w) == LogOf(p.events, w)
    ensures forall w :: w in p.core.workflows ==>
      (p.core.workflows[w].status == WorkflowFailed <==> ANNOUNCEMENT in History(p.core, w))
  {
    var ss :| IsRun(ss, p.moves) && ss[0] == EMPTY && ss[|p.moves|] == p.core;
    LogsTellAll(ss, p.moves, |p.moves|);
    RunsInOrder(ss, p.moves, |p.moves|);
    forall w | w in p.core.workflows
      ensures p.core.workflows[w].status == WorkflowFailed <==> ANNOUNCEMENT in History(p.core, w)
    {
      WhoTellsOfFailure(ss, p.moves, |p.moves|, w);
    }
  }
}
