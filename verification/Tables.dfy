/** The rows of the database, and what it means that they stand for a state of the lease machine. */
module Tables {
  import opened Ids
  import opened Invariants
  import opened Machine
  import opened Writes

  /** A column that may be NULL. */
  datatype Option<T> = None | Some(value: T)

  /** workflow_executions, with the names of its namespace and definition. */
  datatype WorkflowRow = WorkflowRow(namespace: string, name: string, status: WorkflowStatus)

  /** activity_executions. */
  datatype ActivityRow = ActivityRow(
    workflow: Id,
    name: string,
    taskQueue: string,
    status: ActivityStatus,
    attempt: nat,
    maxAttempts: nat,
    backoffMs: nat,
    leaseOwner: Option<string>,
    leaseExpiresAt: Option<Time>,
    fencingToken: nat,
    nextAttemptAt: Time,
    createdAt: Time)

  /** activity_dependencies. */
  datatype Dependency = Dependency(workflow: Id, name: string, dependsOn: string)

  /** idempotency_keys: its primary key. */
  datatype Key = Key(namespace: string, key: string)

  /** workflow_events, in the order of their sequence numbers, which count from 1. */
  datatype EventRow = EventRow(workflow: Id, entry: Entry)

  datatype Rows = Rows(
    workflows: map<Id, WorkflowRow>,
    keys: map<Key, Id>,
    activities: map<Id, ActivityRow>,
    dependencies: set<Dependency>,
    events: seq<EventRow>)

  const NO_ROWS: Rows := Rows(map[], map[], map[], {}, [])

  const MILLISECOND: Time := 1_000_000

  function OwnerOf(row: ActivityRow): string {
    if row.leaseOwner.Some? then row.leaseOwner.value else ""
  }

  function DeadlineOf(row: ActivityRow): Time {
    if row.leaseExpiresAt.Some? then row.leaseExpiresAt.value else NO_DEADLINE
  }

  /** The row says what the record says.  The expiry is NULL exactly until the first claim. */
  predicate SaysSame(row: ActivityRow, a: Activity) {
    && a == Activity(row.workflow, row.name, row.taskQueue, row.status, row.attempt, row.maxAttempts, OwnerOf(row),
                     DeadlineOf(row), row.fencingToken, row.nextAttemptAt, a.dependsOn, row.backoffMs * MILLISECOND)
    && (row.leaseExpiresAt.None? <==> row.attempt == 0)
    && (row.leaseExpiresAt.Some? ==> row.leaseExpiresAt.value > 0)
    && (row.leaseOwner.Some? <==> row.status == Running)
  }

  /** The log of workflow w: SELECT ... WHERE workflow_execution_id = w ORDER BY sequence. */
  ghost function LogOf(events: seq<EventRow>, w: Id): seq<Event> {
    if events == [] then []
    else
      var n := |events| - 1;
      LogOf(events[..n], w) + (if events[n].workflow == w then [Event(n + 1, events[n].entry)] else [])
  }

  ghost predicate SameDependencies(d: Rows, row: ActivityRow, dependsOn: seq<string>) {
    forall x :: x in dependsOn <==> Dependency(row.workflow, row.name, x) in d.dependencies
  }

  ghost predicate SameWorkflows(d: Rows, s: State) {
    && d.workflows.Keys == s.workflows.Keys
    && (forall w :: w in d.workflows ==>
          s.workflows[w] == Workflow(d.workflows[w].namespace, d.workflows[w].name, s.workflows[w].key, d.workflows[w].status))
  }

  ghost predicate SameActivities(d: Rows, s: State) {
    && d.activities.Keys == s.activities.Keys
    && (forall i :: i in d.activities ==>
          SaysSame(d.activities[i], s.activities[i])
          && SameDependencies(d, d.activities[i], s.activities[i].dependsOn))
    && (forall x :: x in d.dependencies ==> x.workflow in d.workflows)
  }

  /** idempotency_keys holds the keys of the workflows that were started with one. */
  ghost predicate SameKeys(d: Rows, s: State) {
    && (forall w :: w in s.workflows && s.workflows[w].key != "" ==>
          KeyOf(s.workflows[w]) in d.keys && d.keys[KeyOf(s.workflows[w])] == w)
    && (forall k :: k in d.keys ==>
          d.keys[k] in s.workflows && s.workflows[d.keys[k]].key != "" && KeyOf(s.workflows[d.keys[k]]) == k)
  }

  function KeyOf(w: Workflow): Key {
    Key(w.namespace, w.key)
  }

  ghost predicate SameEvents(d: Rows, s: State) {
    s.nextEvent == |d.events| && forall w :: Log(s, w) == LogOf(d.events, w)
  }

  /** The rows stand for the state s. */
  ghost predicate Refines(d: Rows, s: State) {
    SameWorkflows(d, s) && SameActivities(d, s) && SameKeys(d, s) && SameEvents(d, s)
  }

  lemma NoRowsRefineEmpty()
    ensures Refines(NO_ROWS, EMPTY)
  {
  }

  // ---------------------------------------------------------------- what a statement leaves alone

  lemma SameWorkflowsKept(d: Rows, s: State, d': Rows, s': State)
    requires SameWorkflows(d, s) && d'.workflows == d.workflows && s'.workflows == s.workflows
    ensures SameWorkflows(d', s')
  {
  }

  lemma SameActivitiesKept(d: Rows, s: State, d': Rows, s': State)
    requires SameActivities(d, s) && d'.workflows.Keys == d.workflows.Keys
    requires d'.activities == d.activities && d'.dependencies == d.dependencies && s'.activities == s.activities
    ensures SameActivities(d', s')
  {
    hide SaysSame;
    forall i | i in d'.activities ensures SameDependencies(d', d'.activities[i], s'.activities[i].dependsOn) {
      assert SameDependencies(d, d.activities[i], s.activities[i].dependsOn);
    }
  }

  lemma SameKeysKept(d: Rows, s: State, d': Rows, s': State)
    requires SameKeys(d, s) && d'.keys == d.keys && s'.workflows.Keys == s.workflows.Keys
    requires forall w :: w in s.workflows ==> s'.workflows[w].(status := s.workflows[w].status) == s.workflows[w]
    ensures SameKeys(d', s')
  {
    forall w | w in s.workflows
      ensures s'.workflows[w].key == s.workflows[w].key && KeyOf(s'.workflows[w]) == KeyOf(s.workflows[w])
    {
      assert s'.workflows[w].(status := s.workflows[w].status) == s.workflows[w];
    }
  }

  lemma SameEventsKept(d: Rows, s: State, d': Rows, s': State)
    requires SameEvents(d, s) && d'.events == d.events && s'.events == s.events && s'.nextEvent == s.nextEvent
    ensures SameEvents(d', s')
  {
    forall w ensures Log(s', w) == LogOf(d'.events, w) { assert Log(s, w) == LogOf(d.events, w); }
  }

  // ---------------------------------------------------------------- single statements

  /** INSERT INTO workflow_events. */
  lemma EventInserted(d: Rows, s: State, w: Id, x: Entry)
    requires Refines(d, s)
    ensures Refines(d.(events := d.events + [EventRow(w, x)]), Emit(s, w, [x]))
  {
    hide SameWorkflows, SameActivities, SameKeys, SameEvents, Emit;
    var d', t := d.(events := d.events + [EventRow(w, x)]), Emit(s, w, [x]);
    EmitsOnly(s, w, [x]);
    SameWorkflowsKept(d, s, d', t);
    SameActivitiesKept(d, s, d', t);
    SameKeysKept(d, s, d', t);
    LogExtended(d, s, w, x);
  }

  lemma EmitsOnly(s: State, w: Id, xs: seq<Entry>)
    ensures Emit(s, w, xs).workflows == s.workflows && Emit(s, w, xs).activities == s.activities
  {
  }

  lemma LogExtended(d: Rows, s: State, w: Id, x: Entry)
    requires SameEvents(d, s)
    ensures SameEvents(d.(events := d.events + [EventRow(w, x)]), Emit(s, w, [x]))
  {
    hide LogOf, Log, Emit;
    var d', t := d.(events := d.events + [EventRow(w, x)]), Emit(s, w, [x]);
    EmitCounts(s, w, x);
    forall v ensures Log(t, v) == LogOf(d'.events, v) {
      assert Log(s, v) == LogOf(d.events, v);
      LogOneMore(d.events, EventRow(w, x), v);
      EmitLog(s, w, x, v);
    }
  }

  lemma LogOneMore(events: seq<EventRow>, row: EventRow, v: Id)
    ensures LogOf(events + [row], v)
            == LogOf(events, v) + (if row.workflow == v then [Event(|events| + 1, row.entry)] else [])
  {
    assert (events + [row])[..|events|] == events;
  }

  lemma EmitCounts(s: State, w: Id, x: Entry)
    ensures Emit(s, w, [x]).nextEvent == s.nextEvent + 1
  {
  }

  lemma EmitLog(s: State, w: Id, x: Entry, v: Id)
    ensures Log(Emit(s, w, [x]), v) == Log(s, v) + (if w == v then [Event(s.nextEvent + 1, x)] else [])
  {
    assert Number(s.nextEvent, [x]) == [Event(s.nextEvent + 1, x)];
  }

  /** Two events in a row. */
  lemma TwoEventsInserted(d: Rows, s: State, w: Id, x: Entry, y: Entry)
    requires Refines(d, s)
    ensures Refines(d.(events := d.events + [EventRow(w, x)] + [EventRow(w, y)]), Emit(s, w, [x, y]))
  {
    hide Refines, Emit;
    EventInserted(d, s, w, x);
    EventInserted(d.(events := d.events + [EventRow(w, x)]), Emit(s, w, [x]), w, y);
    EmitTwice(s, w, [x], [y]);
    assert [x] + [y] == [x, y];
  }

  /** UPDATE activity_executions of one row, in the sense of the record it stands for. */
  lemma RowUpdated(d: Rows, s: State, i: Id, row: ActivityRow, a: Activity)
    requires Refines(d, s) && i in d.activities && SaysSame(row, a) && SameDefinition(s.activities[i], a)
    ensures Refines(d.(activities := d.activities[i := row]), s.(activities := s.activities[i := a]))
  {
    hide SameWorkflows, SameKeys, SameEvents;
    var d', s' := d.(activities := d.activities[i := row]), s.(activities := s.activities[i := a]);
    assert SaysSame(d.activities[i], s.activities[i]) && SameDependencies(d, d.activities[i], s.activities[i].dependsOn);
    assert SameActivities(d', s');
    SameEventsKept(d, s, d', s');
    SameKeysKept(d, s, d', s');
    SameWorkflowsKept(d, s, d', s');
  }

  /** UPDATE workflow_executions SET status. */
  lemma StatusUpdated(d: Rows, s: State, w: Id, status: WorkflowStatus)
    requires Refines(d, s) && w in d.workflows
    ensures w in s.workflows
    ensures Refines(d.(workflows := d.workflows[w := d.workflows[w].(status := status)]), WithStatus(s, w, status))
  {
    hide SameActivities, SameKeys, SameEvents;
    var d', t := d.(workflows := d.workflows[w := d.workflows[w].(status := status)]), WithStatus(s, w, status);
    SameActivitiesKept(d, s, d', t);
    SameKeysKept(d, s, d', t);
    SameEventsKept(d, s, d', t);
  }

  /** UPDATE activity_executions of many rows. */
  lemma RowsUpdated(d: Rows, s: State, d': Rows, s': State)
    requires Refines(d, s) && d'.activities.Keys == d.activities.Keys && d' == d.(activities := d'.activities)
    requires s'.activities.Keys == s.activities.Keys && s' == s.(activities := s'.activities)
    requires forall i :: i in d.activities ==>
      SaysSame(d'.activities[i], s'.activities[i]) && SameDefinition(s.activities[i], s'.activities[i])
    ensures Refines(d', s')
  {
    hide SameWorkflows, SameKeys, SameEvents;
    forall i | i in d.activities ensures SameDependencies(d', d'.activities[i], s'.activities[i].dependsOn) {
      assert SaysSame(d.activities[i], s.activities[i]) && SameDependencies(d, d.activities[i], s.activities[i].dependsOn);
    }
    SameEventsKept(d, s, d', s');
    SameKeysKept(d, s, d', s');
    SameWorkflowsKept(d, s, d', s');
  }

  /** INSERT INTO workflow_executions and, for a non-empty key, idempotency_keys. */
  lemma WorkflowInserted(d: Rows, s: State, w: Id, info: Workflow)
    requires Refines(d, s) && w !in d.workflows && (info.key != "" ==> KeyOf(info) !in d.keys)
    ensures Refines(
      d.(workflows := d.workflows[w := WorkflowRow(info.namespace, info.name, info.status)],
         keys := if info.key != "" then d.keys[KeyOf(info) := w] else d.keys),
      s.(workflows := s.workflows[w := info]))
  {
    hide SameEvents, SaysSame, SameKeys;
    var d' := d.(workflows := d.workflows[w := WorkflowRow(info.namespace, info.name, info.status)],
                 keys := if info.key != "" then d.keys[KeyOf(info) := w] else d.keys);
    var s' := s.(workflows := s.workflows[w := info]);
    forall i | i in d'.activities ensures SameDependencies(d', d'.activities[i], s'.activities[i].dependsOn) {
      assert SameDependencies(d, d.activities[i], s.activities[i].dependsOn);
    }
    KeyInserted(d, s, w, info, d', s');
    SameEventsKept(d, s, d', s');
  }

  lemma KeyInserted(d: Rows, s: State, w: Id, info: Workflow, d': Rows, s': State)
    requires SameKeys(d, s) && w !in s.workflows && (info.key != "" ==> KeyOf(info) !in d.keys)
    requires d'.keys == (if info.key != "" then d.keys[KeyOf(info) := w] else d.keys)
    requires s'.workflows == s.workflows[w := info]
    ensures SameKeys(d', s')
  {
    forall v | v in s'.workflows && s'.workflows[v].key != ""
      ensures KeyOf(s'.workflows[v]) in d'.keys && d'.keys[KeyOf(s'.workflows[v])] == v
    {
      if v != w { assert KeyOf(s.workflows[v]) in d.keys; }
    }
  }

  ghost function DependencyRows(w: Id, name: string, dependsOn: seq<string>): set<Dependency> {
    set x | x in dependsOn :: Dependency(w, name, x)
  }

  /** INSERT INTO activity_executions, with its activity_dependencies. */
  lemma ActivityInserted(d: Rows, s: State, i: Id, row: ActivityRow, a: Activity)
    requires Refines(d, s) && i !in d.activities && SaysSame(row, a) && row.workflow in d.workflows
    requires forall x :: x in d.dependencies ==> x.workflow != row.workflow || x.name != row.name
    requires forall j :: j in d.activities ==>
      d.activities[j].workflow != row.workflow || d.activities[j].name != row.name
    ensures Refines(
      d.(activities := d.activities[i := row],
         dependencies := d.dependencies + DependencyRows(row.workflow, row.name, a.dependsOn)),
      s.(activities := s.activities[i := a]))
  {
    hide SameWorkflows, SameKeys, SameEvents, SaysSame;
    var d' := d.(activities := d.activities[i := row],
                 dependencies := d.dependencies + DependencyRows(row.workflow, row.name, a.dependsOn));
    var s' := s.(activities := s.activities[i := a]);
    forall j | j in d'.activities
      ensures SaysSame(d'.activities[j], s'.activities[j])
      ensures SameDependencies(d', d'.activities[j], s'.activities[j].dependsOn)
    {
      if j != i {
        assert SaysSame(d.activities[j], s.activities[j]);
        assert SameDependencies(d, d.activities[j], s.activities[j].dependsOn);
      }
    }
    SameEventsKept(d, s, d', s');
    SameKeysKept(d, s, d', s');
    SameWorkflowsKept(d, s, d', s');
  }

  // ---------------------------------------------------------------- conditions of the statements

  /** The NOT EXISTS condition of releaseReady: no dependency row joins an activity that is not
      completed. */
  predicate NoneOpen(d: Rows, row: ActivityRow) {
    !exists x, j :: x in d.dependencies && j in d.activities && Blocks(d, row, x, j)
  }

  predicate Blocks(d: Rows, row: ActivityRow, x: Dependency, j: Id)
    requires j in d.activities
  {
    && x.workflow == row.workflow && x.name == row.name
    && d.activities[j].workflow == x.workflow && d.activities[j].name == x.dependsOn
    && d.activities[j].status != Completed
  }

  /** On well-formed rows NOT EXISTS says that all dependencies are completed.  It is the invariant that
      every dependency names a sibling that makes this so. */
  lemma NoneOpenMeansDone(d: Rows, s: State, i: Id)
    requires Refines(d, s) && WellFormed(s) && i in d.activities
    ensures NoneOpen(d, d.activities[i]) <==> DependenciesDone(s.activities, s.activities[i])
  {
    var row, a := d.activities[i], s.activities[i];
    assert SaysSame(row, a) && SameDependencies(d, row, a.dependsOn);
    if !NoneOpen(d, row) {
      var x, j :| x in d.dependencies && j in d.activities && Blocks(d, row, x, j);
      assert SaysSame(d.activities[j], s.activities[j]);
      assert x == Dependency(row.workflow, row.name, x.dependsOn);
      assert !NameCompleted(s.activities, a.workflow, x.dependsOn);
    } else {
      forall n | n in a.dependsOn
        ensures Names(s.activities, a.workflow, n) && NameCompleted(s.activities, a.workflow, n)
      {
        assert Names(s.activities, a.workflow, n);
        forall j | j in s.activities && s.activities[j].workflow == a.workflow && s.activities[j].name == n
          ensures s.activities[j].status == Completed
        {
          assert SaysSame(d.activities[j], s.activities[j]);
          assert !Blocks(d, row, Dependency(row.workflow, row.name, n), j);
        }
      }
    }
  }

  /** Without that invariant the two differ: a dependency on a missing name does not block the row, while
      the engine waits for it. */
  lemma MissingNameDiffers() returns (d: Rows, s: State)
    ensures Refines(d, s) && "x" in d.activities
    ensures NoneOpen(d, d.activities["x"]) && !DependenciesDone(s.activities, s.activities["x"])
  {
    var row := ActivityRow("w", "a", "default", RetryPending, 0, 3, 1000, None, None, 0, 1, 1);
    var a := Activity("w", "a", "default", RetryPending, 0, 3, "", NO_DEADLINE, 0, 1, ["b"], 1000 * MILLISECOND);
    d := Rows(map["w" := WorkflowRow("n", "d", WorkflowRunning)], map[], map["x" := row],
              {Dependency("w", "a", "b")}, []);
    s := State(map["w" := Workflow("n", "d", "", WorkflowRunning)], map["x" := a], map[], 0);
    assert SaysSame(row, a);
    assert "b" in a.dependsOn && !Names(s.activities, "w", "b");
  }

  /** status = 'running' AND lease_expires_at <= now(): NULL does not count as past. */
  predicate HasLapsed(row: ActivityRow, now: Time) {
    row.status == Running && row.leaseExpiresAt.Some? && row.leaseExpiresAt.value <= now
  }

  lemma LapsedMeansExpired(row: ActivityRow, a: Activity, now: Time)
    requires SaysSame(row, a)
    ensures HasLapsed(row, now) <==> Expired(a, now)
  {
  }

  // ---------------------------------------------------------------- the time of creation

  /** Move k of the run launched activity i at the time given. */
  ghost predicate LaunchedBy(moves: seq<Move>, k: nat, i: Id, at: Time) {
    k < |moves| && moves[k].Launch? && moves[k].at == at && HasRow(moves[k].rows, i)
  }

  /** Every row bears the time at which its workflow was started. */
  ghost predicate Dated(activities: map<Id, ActivityRow>, moves: seq<Move>) {
    forall i :: i in activities ==> exists k: nat :: LaunchedBy(moves, k, i, activities[i].createdAt)
  }

  /** No row is lost, and none is given another time of creation. */
  ghost predicate SameDates(a: map<Id, ActivityRow>, b: map<Id, ActivityRow>) {
    forall i :: i in a ==> i in b && b[i].createdAt == a[i].createdAt
  }

  lemma DatedStays(a: map<Id, ActivityRow>, b: map<Id, ActivityRow>, before: seq<Move>, after: seq<Move>)
    requires Dated(a, before) && SameDates(a, b) && b.Keys <= a.Keys && before <= after
    ensures Dated(b, after)
  {
    forall i | i in b ensures exists k: nat :: LaunchedBy(after, k, i, b[i].createdAt) {
      var k: nat :| LaunchedBy(before, k, i, a[i].createdAt);
      assert LaunchedBy(after, k, i, b[i].createdAt);
    }
  }

  /** The rows of a launch are dated by it. */
  lemma DatedByLaunch(a: map<Id, ActivityRow>, b: map<Id, ActivityRow>, before: seq<Move>, m: Move)
    requires Dated(a, before) && SameDates(a, b) && m.Launch?
    requires forall i :: i in b && i !in a ==> b[i].createdAt == m.at && HasRow(m.rows, i)
    ensures Dated(b, before + [m])
  {
    forall i | i in b ensures exists k: nat :: LaunchedBy(before + [m], k, i, b[i].createdAt) {
      if i in a {
        var k: nat :| LaunchedBy(before, k, i, a[i].createdAt);
        assert LaunchedBy(before + [m], k, i, b[i].createdAt);
      } else {
        assert LaunchedBy(before + [m], |before|, i, b[i].createdAt);
      }
    }
  }

  /** Which of two activities was created first; ids decide between equal times. */
  predicate Earlier(activities: map<Id, ActivityRow>, i: Id, j: Id)
    requires i in activities && j in activities
  {
    activities[i].createdAt < activities[j].createdAt
    || (activities[i].createdAt == activities[j].createdAt && Before(i, j))
  }

  /** ORDER BY created_at, id LIMIT 1. */
  predicate IsFirst(activities: map<Id, ActivityRow>, i: Id, ids: set<Id>)
    requires ids <= activities.Keys
  {
    i in ids && forall j :: j in ids && j != i ==> Earlier(activities, i, j)
  }

  lemma FirstIsEarliest(activities: map<Id, ActivityRow>, i: Id, ids: set<Id>, j: Id)
    requires ids <= activities.Keys && IsFirst(activities, i, ids) && j in ids
    ensures activities[i].createdAt <= activities[j].createdAt
    ensures activities[i].createdAt == activities[j].createdAt ==> !Before(j, i)
  {
    hide Before;
    BeforeIrreflexive(i);
    if j != i && Before(i, j) && Before(j, i) { BeforeTransitive(i, j, i); }
  }

  lemma {:induction false} FirstExists(activities: map<Id, ActivityRow>, ids: set<Id>)
    requires ids != {} && ids <= activities.Keys
    ensures exists i :: i in ids && IsFirst(activities, i, ids)
    decreases |ids|
  {
    hide Before;
    var x :| x in ids;
    if ids - {x} == {} {
      assert ids == {x};
      assert IsFirst(activities, x, ids);
    } else {
      FirstExists(activities, ids - {x});
      var y :| y in ids - {x} && IsFirst(activities, y, ids - {x});
      BeforeTotal(x, y);
      if Earlier(activities, y, x) {
        assert IsFirst(activities, y, ids);
      } else {
        forall j | j in ids && j != x ensures Earlier(activities, x, j) {
          if j != y {
            assert Earlier(activities, y, j);
            if Before(x, y) && Before(y, j) { BeforeTransitive(x, y, j); }
          }
        }
        assert IsFirst(activities, x, ids);
      }
    }
  }
}
