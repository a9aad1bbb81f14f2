/** The lease machine: the one protocol that both back ends run.

    A state holds the workflow records, the activity records and one event log per workflow.
    A move is the smallest change that either back end makes and logs in one go; a call of the
    engine, or a transaction of the database, is a short sequence of moves.  Expiry times, retry
    times and the worker that is served are parameters of a move, so the machine leaves open what
    the back ends decide differently. */
module Machine {

  type Id = string

  /** Nanoseconds since the zero time of the clock. */
  type Time = int

  /** The zero time stands for "no deadline". */
  const NO_DEADLINE: Time := 0

  datatype WorkflowStatus = WorkflowRunning | WorkflowCompleted | WorkflowFailed | WorkflowCancelled

  datatype ActivityStatus = Ready | Running | RetryPending | Completed | Failed | Cancelled

  datatype Workflow = Workflow(namespace: string, name: string, key: string, status: WorkflowStatus)

  datatype Activity = Activity(
    workflow: Id,
    name: string,
    taskQueue: string,
    status: ActivityStatus,
    attempt: nat,
    maxAttempts: nat,
    leaseOwner: string,
    leaseExpiresAt: Time,
    fencingToken: nat,
    nextAttemptAt: Time,
    dependsOn: seq<string>,
    retryBackoff: Time)

  datatype Kind =
    | StartedEvent | FinishedEvent | WorkflowFailedEvent | WorkflowCancelledEvent
    | ScheduledEvent | ReadyEvent | ClaimedEvent | HeartbeatEvent | CompletedEvent
    | RetryEvent | FailedEvent | CancelledEvent | ExpiredEvent | ExpiredFailedEvent
    | StaleHeartbeatEvent | StaleCompletionEvent | StaleFailureEvent

  /** What an event says; the activity is "" for an event of the whole workflow. */
  datatype Entry = Entry(activity: Id, kind: Kind)

  datatype Event = Event(sequence: nat, entry: Entry)

  datatype State = State(
    workflows: map<Id, Workflow>,
    activities: map<Id, Activity>,
    events: map<Id, seq<Event>>,
    nextEvent: nat)

  const EMPTY: State := State(map[], map[], map[], 0)

  /** An activity record together with the id it is stored under. */
  datatype Row = Row(id: Id, activity: Activity)

  datatype Move =
    | Launch(at: Time, workflow: Id, info: Workflow, rows: seq<Row>)
    | Claim(at: Time, act: Id, worker: string, queue: string, expires: Time)
    | Heartbeat(at: Time, act: Id, worker: string, token: int, expires: Time)
    | Complete(at: Time, act: Id, worker: string, token: int)
    | Retry(at: Time, act: Id, worker: string, token: int, nextAt: Time)
    | Fail(at: Time, act: Id, worker: string, token: int)
    | Reject(at: Time, act: Id, worker: string, token: int, kind: Kind)
    | Reap(at: Time, act: Id)
    | ReapFail(at: Time, act: Id, announced: bool)
    | Release(at: Time, act: Id)
    | Finish(at: Time, workflow: Id)
    | Cancel(at: Time, workflow: Id, order: seq<Id>)

  // ---------------------------------------------------------------- guards

  /** The caller holds the live lease: owner and token match and the expiry is still ahead. */
  predicate Current(a: Activity, worker: string, token: int, now: Time) {
    && a.status == Running && a.leaseOwner == worker && a.fencingToken == token
    && (a.leaseExpiresAt == NO_DEADLINE || a.leaseExpiresAt > now)
  }

  predicate Expired(a: Activity, now: Time) {
    a.status == Running && a.leaseExpiresAt != NO_DEADLINE && a.leaseExpiresAt <= now
  }

  /** An empty name on either side matches every queue. */
  predicate QueueMatches(queue: string, taskQueue: string) {
    queue == "" || taskQueue == "" || queue == taskQueue
  }

  predicate Pending(a: Activity) {
    a.status == Ready || a.status == RetryPending
  }

  ghost predicate Siblings(s: State, i: Id, j: Id) {
    i in s.activities && j in s.activities && s.activities[i].workflow == s.activities[j].workflow
  }

  ghost predicate Known(s: State, i: Id) {
    i in s.activities && s.activities[i].workflow in s.workflows
  }

  /** Some activity of workflow w carries the name. */
  ghost predicate Names(activities: map<Id, Activity>, w: Id, name: string) {
    exists j :: j in activities && activities[j].workflow == w && activities[j].name == name
  }

  /** Every activity of workflow w that carries the name is completed. */
  ghost predicate NameCompleted(activities: map<Id, Activity>, w: Id, name: string) {
    forall j :: j in activities && activities[j].workflow == w && activities[j].name == name
      ==> activities[j].status == Completed
  }

  /** Every dependency of activity a names a sibling, and all siblings of that name are completed. */
  ghost predicate DependenciesDone(activities: map<Id, Activity>, a: Activity) {
    forall d :: d in a.dependsOn ==>
      Names(activities, a.workflow, d) && NameCompleted(activities, a.workflow, d)
  }

  ghost predicate AllCompleted(activities: map<Id, Activity>, w: Id) {
    forall j :: j in activities && activities[j].workflow == w ==> activities[j].status == Completed
  }

  /** The pending activities of workflow w. */
  ghost function PendingOf(s: State, w: Id): set<Id> {
    set i | i in s.activities && s.activities[i].workflow == w && Pending(s.activities[i])
  }

  /** xs lists the elements of S, each exactly once. */
  ghost predicate Lists<T(!new)>(xs: seq<T>, S: set<T>) {
    && (forall j, k :: 0 <= j < k < |xs| ==> xs[j] != xs[k])
    && (forall x :: x in xs <==> x in S)
  }

  predicate IsStale(kind: Kind) {
    kind == StaleHeartbeatEvent || kind == StaleCompletionEvent || kind == StaleFailureEvent
  }

  /** The record that a new workflow creates for an activity. */
  predicate Fresh(a: Activity, w: Id, at: Time) {
    && a.workflow == w && a.status == (if a.dependsOn == [] then Ready else RetryPending)
    && a.attempt == 0 && a.fencingToken == 0 && a.maxAttempts > 0 && a.leaseOwner == ""
    && a.leaseExpiresAt == NO_DEADLINE && a.nextAttemptAt == at
  }

  ghost predicate CanLaunch(s: State, at: Time, w: Id, info: Workflow, rows: seq<Row>) {
    && w !in s.workflows && info.status == WorkflowRunning && |rows| > 0
    && (info.key != "" ==> forall v :: v in s.workflows ==>
          s.workflows[v].namespace != info.namespace || s.workflows[v].key != info.key)
    && (forall k :: 0 <= k < |rows| ==> rows[k].id !in s.activities && Fresh(rows[k].activity, w, at))
    && (forall j, k :: 0 <= j < k < |rows| ==>
          rows[j].id != rows[k].id && rows[j].activity.name != rows[k].activity.name)
    && (forall k, d :: 0 <= k < |rows| && d in rows[k].activity.dependsOn ==> RowNamed(rows, d))
  }

  ghost predicate RowNamed(rows: seq<Row>, name: string) {
    exists j :: 0 <= j < |rows| && rows[j].activity.name == name
  }

  /** When a move may be made. */
  ghost predicate Enabled(s: State, m: Move) {
    match m
    case Launch(at, w, info, rows) => CanLaunch(s, at, w, info, rows)
    case Claim(_, i, _, queue, _) =>
      Known(s, i) && s.activities[i].status == Ready && QueueMatches(queue, s.activities[i].taskQueue)
    case Heartbeat(at, i, worker, token, _) => Known(s, i) && Current(s.activities[i], worker, token, at)
    case Complete(at, i, worker, token) => Known(s, i) && Current(s.activities[i], worker, token, at)
    case Retry(at, i, worker, token, _) =>
      Known(s, i) && Current(s.activities[i], worker, token, at)
      && s.activities[i].attempt < s.activities[i].maxAttempts
    case Fail(at, i, worker, token) => Known(s, i) && Current(s.activities[i], worker, token, at)
    case Reject(at, i, worker, token, kind) =>
      Known(s, i) && s.activities[i].status == Running && IsStale(kind)
      && !Current(s.activities[i], worker, token, at)
    case Reap(at, i) =>
      Known(s, i) && Expired(s.activities[i], at) && s.activities[i].attempt < s.activities[i].maxAttempts
    case ReapFail(at, i, _) =>
      Known(s, i) && Expired(s.activities[i], at) && s.activities[i].attempt >= s.activities[i].maxAttempts
    case Release(at, i) =>
      Known(s, i) && s.activities[i].status == RetryPending && s.activities[i].nextAttemptAt <= at
      && DependenciesDone(s.activities, s.activities[i])
    case Finish(_, w) =>
      w in s.workflows && s.workflows[w].status == WorkflowRunning && AllCompleted(s.activities, w)
    case Cancel(_, w, order) =>
      w in s.workflows && s.workflows[w].status == WorkflowRunning && Lists(order, PendingOf(s, w))
  }

  // ---------------------------------------------------------------- effects

  ghost function Log(s: State, w: Id): seq<Event> {
    if w in s.events then s.events[w] else []
  }

  /** The entries as events, numbered from n + 1. */
  ghost function Number(n: nat, entries: seq<Entry>): (r: seq<Event>) {
    seq(|entries|, k requires 0 <= k < |entries| => Event(n + 1 + k, entries[k]))
  }

  /** Append the entries to the log of workflow w. */
  ghost function Emit(s: State, w: Id, entries: seq<Entry>): State {
    s.(events := s.events[w := Log(s, w) + Number(s.nextEvent, entries)],
       nextEvent := s.nextEvent + |entries|)
  }

  ghost function WithStatus(s: State, w: Id, status: WorkflowStatus): State
    requires w in s.workflows
  {
    s.(workflows := s.workflows[w := s.workflows[w].(status := status)])
  }

  /** Replace the record of activity i. */
  ghost function Put(s: State, i: Id, a: Activity): State {
    s.(activities := s.activities[i := a])
  }

  ghost function AddRows(activities: map<Id, Activity>, rows: seq<Row>): map<Id, Activity> {
    if rows == [] then activities
    else AddRows(activities, rows[..|rows| - 1])[rows[|rows| - 1].id := rows[|rows| - 1].activity]
  }

  ghost function ScheduledEntries(rows: seq<Row>): (r: seq<Entry>) {
    seq(|rows|, k requires 0 <= k < |rows| => Entry(rows[k].id, ScheduledEvent))
  }

  ghost function CancelledEntries(order: seq<Id>): (r: seq<Entry>) {
    seq(|order|, k requires 0 <= k < |order| => Entry(order[k], CancelledEvent))
  }

  ghost function CancelPending(activities: map<Id, Activity>, w: Id): map<Id, Activity> {
    map i | i in activities ::
      if activities[i].workflow == w && Pending(activities[i]) then activities[i].(status := Cancelled)
      else activities[i]
  }

  /** The workflow whose log a move extends. */
  ghost function Home(s: State, m: Move): Id
    requires Enabled(s, m)
  {
    if m.Launch? || m.Finish? || m.Cancel? then m.workflow else s.activities[m.act].workflow
  }

  /** What a move writes to that log. */
  ghost function Entries(m: Move): seq<Entry> {
    match m
    case Launch(_, _, _, rows) => [Entry("", StartedEvent)] + ScheduledEntries(rows)
    case Claim(_, i, _, _, _) => [Entry(i, ClaimedEvent)]
    case Heartbeat(_, i, _, _, _) => [Entry(i, HeartbeatEvent)]
    case Complete(_, i, _, _) => [Entry(i, CompletedEvent)]
    case Retry(_, i, _, _, _) => [Entry(i, RetryEvent)]
    case Fail(_, i, _, _) => [Entry(i, FailedEvent), Entry("", WorkflowFailedEvent)]
    case Reject(_, i, _, _, kind) => [Entry(i, kind)]
    case Reap(_, i) => [Entry(i, ExpiredEvent)]
    case ReapFail(_, i, announced) =>
      if announced then [Entry("", WorkflowFailedEvent), Entry(i, ExpiredFailedEvent)]
      else [Entry(i, ExpiredFailedEvent)]
    case Release(_, i) => [Entry(i, ReadyEvent)]
    case Finish(_, _) => [Entry("", FinishedEvent)]
    case Cancel(_, _, order) => CancelledEntries(order) + [Entry("", WorkflowCancelledEvent)]
  }

  /** What a move does to the records, before anything is logged. */
  ghost function Change(s: State, m: Move): State
    requires Enabled(s, m)
  {
    match m
    case Launch(_, w, info, rows) =>
      s.(workflows := s.workflows[w := info], activities := AddRows(s.activities, rows))
    case Claim(_, i, worker, _, expires) =>
      var a := s.activities[i];
      Put(s, i, a.(status := Running, attempt := a.attempt + 1, leaseOwner := worker,
                   fencingToken := a.fencingToken + 1, leaseExpiresAt := expires))
    case Heartbeat(_, i, _, _, expires) => Put(s, i, s.activities[i].(leaseExpiresAt := expires))
    case Complete(_, i, _, _) => Put(s, i, s.activities[i].(status := Completed, leaseOwner := ""))
    case Retry(_, i, _, _, nextAt) =>
      Put(s, i, s.activities[i].(status := RetryPending, leaseOwner := "", nextAttemptAt := nextAt))
    case Fail(_, i, _, _) =>
      Put(WithStatus(s, s.activities[i].workflow, WorkflowFailed), i,
          s.activities[i].(status := Failed, leaseOwner := ""))
    case Reject(_, _, _, _, _) => s
    case Reap(_, i) => Put(s, i, s.activities[i].(status := Ready, leaseOwner := ""))
    case ReapFail(_, i, _) =>
      Put(WithStatus(s, s.activities[i].workflow, WorkflowFailed), i,
          s.activities[i].(status := Failed, leaseOwner := ""))
    case Release(_, i) => Put(s, i, s.activities[i].(status := Ready))
    case Finish(_, w) => WithStatus(s, w, WorkflowCompleted)
    case Cancel(_, w, _) =>
      WithStatus(s, w, WorkflowCancelled).(activities := CancelPending(s.activities, w))
  }

  ghost function Apply(s: State, m: Move): State
    requires Enabled(s, m)
  {
    Emit(Change(s, m), Home(s, m), Entries(m))
  }

  // ---------------------------------------------------------------- runs

  /** ss are the states before, between and after the moves ms. */
  ghost predicate IsRun(ss: seq<State>, ms: seq<Move>) {
    && |ss| == |ms| + 1
    && forall k :: 0 <= k < |ms| ==> StepAt(ss, ms, k)
  }

  /** Last expiries are not announced by an event of the workflow. */
  predicate Silent(ms: seq<Move>) {
    forall k :: 0 <= k < |ms| ==> ms[k].ReapFail? ==> !ms[k].announced
  }

  /** Last expiries are announced by an event of the workflow. */
  predicate Announcing(ms: seq<Move>) {
    forall k :: 0 <= k < |ms| ==> ms[k].ReapFail? ==> ms[k].announced
  }

  ghost predicate StepAt(ss: seq<State>, ms: seq<Move>, k: nat)
    requires |ss| == |ms| + 1 && k < |ms|
  {
    Enabled(ss[k], ms[k]) && ss[k + 1] == Apply(ss[k], ms[k])
  }

  /** The clock readings of the moves never go back. */
  ghost predicate Ordered(ms: seq<Move>) {
    forall j, k :: 0 <= j < k < |ms| ==> ms[j].at <= ms[k].at
  }

  /** Some run leads from s to t by the moves ms. */
  ghost predicate Leads(s: State, ms: seq<Move>, t: State) {
    exists ss :: IsRun(ss, ms) && ss[0] == s && ss[|ms|] == t
  }

  // ---------------------------------------------------------------- facts about the pieces

  /** r holds exactly the old records and the rows. */
  ghost predicate Extends(r: map<Id, Activity>, activities: map<Id, Activity>, rows: seq<Row>) {
    && (forall i :: i in activities ==> i in r && r[i] == activities[i])
    && (forall k :: 0 <= k < |rows| ==> rows[k].id in r && r[rows[k].id] == rows[k].activity)
    && (forall i :: i in r && i !in activities ==> HasRow(rows, i))
  }

  ghost predicate HasRow(rows: seq<Row>, i: Id) {
    exists k :: 0 <= k < |rows| && rows[k].id == i
  }

  lemma {:induction false} AddRowsExtends(activities: map<Id, Activity>, rows: seq<Row>)
    requires forall k :: 0 <= k < |rows| ==> rows[k].id !in activities
    requires forall j, k :: 0 <= j < k < |rows| ==> rows[j].id != rows[k].id
    ensures Extends(AddRows(activities, rows), activities, rows)
  {
    if rows != [] {
      var n := |rows| - 1;
      AddRowsExtends(activities, rows[..n]);
      AddOneRow(AddRows(activities, rows[..n]), activities, rows[..n], rows[n]);
      assert rows[..n] + [rows[n]] == rows;
    }
  }

  lemma AddOneRow(r: map<Id, Activity>, activities: map<Id, Activity>, rows: seq<Row>, row: Row)
    requires Extends(r, activities, rows) && row.id !in activities
    requires forall k :: 0 <= k < |rows| ==> rows[k].id != row.id
    ensures Extends(r[row.id := row.activity], activities, rows + [row])
  {
    var all := rows + [row];
    forall i | i in r[row.id := row.activity] && i !in activities ensures HasRow(all, i) {
      if i == row.id {
        assert all[|rows|].id == i;
      } else {
        var k :| 0 <= k < |rows| && rows[k].id == i;
        assert all[k].id == i;
      }
    }
  }

  lemma NumberTwice(n: nat, xs: seq<Entry>, ys: seq<Entry>)
    ensures Number(n, xs) + Number(n + |xs|, ys) == Number(n, xs + ys)
  {
    var a, b := Number(n, xs) + Number(n + |xs|, ys), Number(n, xs + ys);
    forall k | 0 <= k < |a| ensures a[k] == b[k] {
      if k < |xs| { assert (xs + ys)[k] == xs[k]; } else { assert (xs + ys)[k] == ys[k - |xs|]; }
    }
  }

  lemma EmitTwice(s: State, w: Id, xs: seq<Entry>, ys: seq<Entry>)
    ensures Emit(Emit(s, w, xs), w, ys) == Emit(s, w, xs + ys)
  {
    NumberTwice(s.nextEvent, xs, ys);
    var n, log := s.nextEvent, Log(s, w);
    assert (log + Number(n, xs)) + Number(n + |xs|, ys) == log + Number(n, xs + ys);
  }

  lemma LeadsNowhere(s: State)
    ensures Leads(s, [], s)
  {
    assert IsRun([s], []);
  }

  lemma LeadsOne(s: State, m: Move)
    requires Enabled(s, m)
    ensures Leads(s, [m], Apply(s, m))
  {
    var ss := [s, Apply(s, m)];
    assert StepAt(ss, [m], 0);
    assert IsRun(ss, [m]);
  }

  lemma LeadsThrough(s: State, ms: seq<Move>, t: State, ns: seq<Move>, u: State)
    requires Leads(s, ms, t) && Leads(t, ns, u)
    ensures Leads(s, ms + ns, u)
  {
    var ss :| IsRun(ss, ms) && ss[0] == s && ss[|ms|] == t;
    var ts :| IsRun(ts, ns) && ts[0] == t && ts[|ns|] == u;
    hide Apply, Enabled;
    var us := ss + ts[1..];
    assert forall k :: 0 <= k <= |ms| ==> us[k] == ss[k];
    assert forall k :: 0 <= k <= |ns| ==> us[|ms| + k] == ts[k];
    forall k | 0 <= k < |ms + ns| ensures StepAt(us, ms + ns, k) {
      if k < |ms| { assert StepAt(ss, ms, k); } else { assert StepAt(ts, ns, k - |ms|); }
    }
    assert IsRun(us, ms + ns);
  }

  lemma LeadsThenOne(s: State, ms: seq<Move>, t: State, m: Move)
    requires Leads(s, ms, t) && Enabled(t, m)
    ensures Leads(s, ms + [m], Apply(t, m))
  {
    LeadsOne(t, m);
    LeadsThrough(s, ms, t, [m], Apply(t, m));
  }
}
