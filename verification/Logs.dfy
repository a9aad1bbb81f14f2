/** The event logs: how they are numbered, that they account for every lease, and that the stored
    records can be replayed from them. */
module Logs {
  import opened Machine
  import opened Invariants

  // ---------------------------------------------------------------- histories

  ghost function Said(log: seq<Event>): (r: seq<Entry>) {
    seq(|log|, k requires 0 <= k < |log| => log[k].entry)
  }

  /** The log of workflow w without the numbers. */
  ghost function History(s: State, w: Id): seq<Entry> {
    Said(Log(s, w))
  }

  lemma EmitHistory(s: State, w: Id, xs: seq<Entry>, v: Id)
    ensures History(Emit(s, w, xs), v) == if v == w then History(s, v) + xs else History(s, v)
  {
    if v == w {
      assert Said(Log(s, v) + Number(s.nextEvent, xs)) == Said(Log(s, v)) + xs;
    }
  }

  /** A move only ever appends to the log of its own workflow. */
  lemma MoveHistory(s: State, m: Move, v: Id)
    requires Enabled(s, m)
    ensures History(Apply(s, m), v)
            == if v == Home(s, m) then History(s, v) + Entries(m) else History(s, v)
  {
    EmitHistory(Change(s, m), Home(s, m), Entries(m), v);
    assert Change(s, m).events == s.events;
  }

  lemma NewHistory(s: State, m: Move)
    requires m.Launch? && Enabled(s, m) && WellFormed(s)
    ensures History(s, m.workflow) == []
    ensures History(Apply(s, m), m.workflow) == [Entry("", StartedEvent)] + ScheduledEntries(m.rows)
  {
    MoveHistory(s, m, m.workflow);
    assert [] + Entries(m) == Entries(m);
  }

  // ---------------------------------------------------------------- numbering

  /** Event p of workflow w carries number n. */
  ghost predicate Numbered(s: State, w: Id, p: nat, n: nat) {
    w in s.events && p < |s.events[w]| && s.events[w][p].sequence == n
  }

  ghost predicate Used(s: State, n: nat) {
    exists w, p :: Numbered(s, w, p, n)
  }

  /** Inside a log the numbers increase, and the logs share out 1 .. nextEvent: every number is used
      once and no other number occurs. */
  ghost predicate Partitioned(s: State) {
    && (forall w, p, q :: w in s.events && 0 <= p < q < |s.events[w]| ==>
          s.events[w][p].sequence < s.events[w][q].sequence)
    && (forall w, p :: w in s.events && 0 <= p < |s.events[w]| ==> 1 <= s.events[w][p].sequence <= s.nextEvent)
    && (forall n :: 1 <= n <= s.nextEvent ==> Used(s, n))
    && (forall v, w, p, q, n :: Numbered(s, v, p, n) && Numbered(s, w, q, n) ==> v == w && p == q)
  }

  lemma EmitKeepsRange(s: State, w: Id, xs: seq<Entry>)
    requires Partitioned(s)
    ensures var t := Emit(s, w, xs);
            && (forall v, p, q :: v in t.events && 0 <= p < q < |t.events[v]| ==>
                  t.events[v][p].sequence < t.events[v][q].sequence)
            && (forall v, p :: v in t.events && 0 <= p < |t.events[v]| ==> 1 <= t.events[v][p].sequence <= t.nextEvent)
  {
  }

  lemma EmitUsesAll(s: State, w: Id, xs: seq<Entry>, n: nat)
    requires Partitioned(s) && 1 <= n <= s.nextEvent + |xs|
    ensures Used(Emit(s, w, xs), n)
  {
    var t := Emit(s, w, xs);
    if n <= s.nextEvent {
      assert Used(s, n);
      var v, p :| Numbered(s, v, p, n);
      assert Numbered(t, v, p, n);
    } else {
      assert Numbered(t, w, |Log(s, w)| + (n - s.nextEvent - 1), n);
    }
  }

  /** Where a number beyond the old ones stands. */
  lemma NewNumber(s: State, w: Id, xs: seq<Entry>, v: Id, p: nat, n: nat)
    requires Partitioned(s) && Numbered(Emit(s, w, xs), v, p, n)
    ensures if n <= s.nextEvent then Numbered(s, v, p, n)
            else v == w && p == |Log(s, w)| + (n - s.nextEvent - 1)
  {
    var t := Emit(s, w, xs);
    if v == w && p >= |Log(s, w)| {
      assert t.events[v][p] == Number(s.nextEvent, xs)[p - |Log(s, w)|];
    } else {
      assert Numbered(s, v, p, n);
    }
  }

  lemma KeepsPartitioned(s: State, m: Move)
    requires Enabled(s, m) && Partitioned(s)
    ensures Partitioned(Apply(s, m))
  {
    var c, w, xs, t := Change(s, m), Home(s, m), Entries(m), Apply(s, m);
    assert c.events == s.events && c.nextEvent == s.nextEvent;
    SameNumbers(s, c);
    EmitKeepsRange(c, w, xs);
    forall n | 1 <= n <= t.nextEvent ensures Used(t, n) {
      EmitUsesAll(c, w, xs, n);
    }
    forall u, v, p, q, n | Numbered(t, u, p, n) && Numbered(t, v, q, n) ensures u == v && p == q {
      NewNumber(c, w, xs, u, p, n);
      NewNumber(c, w, xs, v, q, n);
    }
  }

  lemma SameNumbers(s: State, c: State)
    requires Partitioned(s) && c.events == s.events && c.nextEvent == s.nextEvent
    ensures Partitioned(c)
  {
    forall n | 1 <= n <= c.nextEvent ensures Used(c, n) {
      assert Used(s, n);
      var w, p :| Numbered(s, w, p, n);
      assert Numbered(c, w, p, n);
    }
    forall v, w, p, q, n | Numbered(c, v, p, n) && Numbered(c, w, q, n) ensures v == w && p == q {
      assert Numbered(s, v, p, n) && Numbered(s, w, q, n);
    }
  }

  /** Along a run no log ever loses or changes an event. */
  lemma {:induction false} LogsOnlyGrow(ss: seq<State>, ms: seq<Move>, w: Id, j: nat, k: nat)
    requires IsRun(ss, ms) && j <= k <= |ms|
    ensures Log(ss[j], w) <= Log(ss[k], w)
    decreases k - j
  {
    if j < k {
      LogsOnlyGrow(ss, ms, w, j, k - 1);
      assert StepAt(ss, ms, k - 1);
      assert Change(ss[k - 1], ms[k - 1]).events == ss[k - 1].events;
    }
  }

  // ---------------------------------------------------------------- accounting

  ghost function Count(h: seq<Entry>, i: Id, kind: Kind): nat {
    if h == [] then 0
    else Count(h[..|h| - 1], i, kind) + (if h[|h| - 1] == Entry(i, kind) then 1 else 0)
  }

  lemma CountOne(h: seq<Entry>, x: Entry, i: Id, kind: Kind)
    ensures Count(h + [x], i, kind) == Count(h, i, kind) + (if x == Entry(i, kind) then 1 else 0)
  {
    assert (h + [x])[..|h|] == h;
  }

  lemma {:induction false} CountNone(h: seq<Entry>, xs: seq<Entry>, i: Id, kind: Kind)
    requires Entry(i, kind) !in xs
    ensures Count(h + xs, i, kind) == Count(h, i, kind)
  {
    if xs == [] {
      assert h + xs == h;
    } else {
      var n := |xs| - 1;
      assert h + xs == (h + xs[..n]) + [xs[n]];
      CountOne(h + xs[..n], xs[n], i, kind);
      CountNone(h, xs[..n], i, kind);
    }
  }

  lemma {:induction false} CountedOccurs(h: seq<Entry>, i: Id, kind: Kind)
    requires Count(h, i, kind) > 0
    ensures Entry(i, kind) in h
  {
    var n := |h| - 1;
    if h[n] != Entry(i, kind) {
      CountedOccurs(h[..n], i, kind);
    }
  }

  function One(b: bool): nat {
    if b then 1 else 0
  }

  /** The books of one activity: each claim is answered by exactly one of the five outcomes, except
      a claim that still runs; attempt and token count the claims; completion, final failure and
      scheduling are recorded once. */
  ghost predicate Balanced(a: Activity, h: seq<Entry>, i: Id) {
    && Count(h, i, ClaimedEvent) == a.attempt == a.fencingToken
    && Count(h, i, ClaimedEvent)
       == Count(h, i, CompletedEvent) + Count(h, i, RetryEvent) + Count(h, i, FailedEvent)
          + Count(h, i, ExpiredEvent) + Count(h, i, ExpiredFailedEvent) + One(a.status == Running)
    && Count(h, i, CompletedEvent) == One(a.status == Completed)
    && Count(h, i, FailedEvent) + Count(h, i, ExpiredFailedEvent) == One(a.status == Failed)
    && Count(h, i, ScheduledEvent) == 1
  }

  ghost predicate Accounted(s: State) {
    forall i :: i in s.activities ==>
      Balanced(s.activities[i], History(s, s.activities[i].workflow), i)
  }

  lemma {:induction false} CountScheduled(rows: seq<Row>, h: seq<Entry>, k: nat)
    requires k < |rows| && forall p, q :: 0 <= p < q < |rows| ==> rows[p].id != rows[q].id
    ensures Count(h + ScheduledEntries(rows), rows[k].id, ScheduledEvent) == Count(h, rows[k].id, ScheduledEvent) + 1
  {
    var n := |rows| - 1;
    var xs := ScheduledEntries(rows);
    var ys := ScheduledEntries(rows[..n]);
    assert xs == ys + [xs[n]];
    assert h + xs == (h + ys) + [xs[n]];
    CountOne(h + ys, xs[n], rows[k].id, ScheduledEvent);
    if k == n {
      CountNone(h, ys, rows[k].id, ScheduledEvent);
    } else {
      CountScheduled(rows[..n], h, k);
    }
  }

  lemma LaunchBalances(s: State, m: Move, k: nat)
    requires m.Launch? && Enabled(s, m) && k < |m.rows|
    ensures Balanced(m.rows[k].activity, [Entry("", StartedEvent)] + ScheduledEntries(m.rows), m.rows[k].id)
  {
    var i, h, xs := m.rows[k].id, [Entry("", StartedEvent)], ScheduledEntries(m.rows);
    CountScheduled(m.rows, h, k);
    forall kind | kind != ScheduledEvent && kind != StartedEvent ensures Count(h + xs, i, kind) == 0 {
      CountNone(h, xs, i, kind);
      CountNone([], h, i, kind);
      assert [] + h == h;
    }
    CountNone([], h, i, ScheduledEvent);
    assert [] + h == h;
    assert Count(h + xs, i, ClaimedEvent) == 0;
    assert Count(h + xs, i, CompletedEvent) == 0;
    assert Count(h + xs, i, RetryEvent) == 0;
    assert Count(h + xs, i, FailedEvent) == 0;
    assert Count(h + xs, i, ExpiredEvent) == 0;
    assert Count(h + xs, i, ExpiredFailedEvent) == 0;
  }

  lemma {:induction false} CountBoth(h: seq<Entry>, xs: seq<Entry>, i: Id, kind: Kind)
    ensures Count(h + xs, i, kind) == Count(h, i, kind) + Count(xs, i, kind)
  {
    if xs == [] {
      assert h + xs == h;
    } else {
      var n := |xs| - 1;
      assert h + xs == (h + xs[..n]) + [xs[n]];
      CountOne(h + xs[..n], xs[n], i, kind);
      CountBoth(h, xs[..n], i, kind);
    }
  }

  lemma CountSingle(x: Entry, i: Id, kind: Kind)
    ensures Count([x], i, kind) == One(x == Entry(i, kind))
  {
    assert [x][..0] == [];
  }

  lemma CountFew(xs: seq<Entry>, i: Id, kind: Kind)
    requires 1 <= |xs| <= 2
    ensures Count(xs, i, kind) == One(xs[0] == Entry(i, kind)) + One(|xs| == 2 && xs[1] == Entry(i, kind))
  {
    hide Count;
    CountSingle(xs[0], i, kind);
    if |xs| == 2 {
      CountOne([xs[0]], xs[1], i, kind);
      assert xs == [xs[0]] + [xs[1]];
    } else {
      assert xs == [xs[0]];
    }
  }

  /** The books of one activity under new entries. */
  lemma BalancedAfter(a: Activity, b: Activity, h: seq<Entry>, xs: seq<Entry>, i: Id)
    requires Balanced(a, h, i)
    requires Count(xs, i, ScheduledEvent) == 0
    requires b.attempt - a.attempt == b.fencingToken - a.fencingToken == Count(xs, i, ClaimedEvent)
    requires Count(xs, i, CompletedEvent) == One(b.status == Completed) - One(a.status == Completed)
    requires Count(xs, i, FailedEvent) + Count(xs, i, ExpiredFailedEvent)
             == One(b.status == Failed) - One(a.status == Failed)
    requires Count(xs, i, ClaimedEvent) + One(a.status == Running)
             == Count(xs, i, CompletedEvent) + Count(xs, i, RetryEvent) + Count(xs, i, FailedEvent)
                + Count(xs, i, ExpiredEvent) + Count(xs, i, ExpiredFailedEvent) + One(b.status == Running)
    ensures Balanced(b, h + xs, i)
  {
    CountBoth(h, xs, i, ScheduledEvent);
    CountBoth(h, xs, i, ClaimedEvent);
    CountBoth(h, xs, i, CompletedEvent);
    CountBoth(h, xs, i, RetryEvent);
    CountBoth(h, xs, i, FailedEvent);
    CountBoth(h, xs, i, ExpiredEvent);
    CountBoth(h, xs, i, ExpiredFailedEvent);
  }

  lemma CancelBooksNothing(order: seq<Id>, i: Id, kind: Kind)
    requires kind != CancelledEvent && kind != WorkflowCancelledEvent
    ensures Count(CancelledEntries(order) + [Entry("", WorkflowCancelledEvent)], i, kind) == 0
  {
    hide Count;
    var xs, last := CancelledEntries(order), Entry("", WorkflowCancelledEvent);
    CountNone([], xs, i, kind);
    CountNone(xs, [last], i, kind);
    CountEmpty(i, kind);
    assert [] + xs == xs;
  }

  lemma CountEmpty(i: Id, kind: Kind)
    ensures Count([], i, kind) == 0
  {
  }

  lemma FewEntries(m: Move)
    requires !m.Launch? && !m.Cancel?
    ensures 1 <= |Entries(m)| <= 2
  {
  }

  /** How many entries of a booked kind a move writes for activity i. */
  ghost function Books(m: Move, i: Id, kind: Kind): nat
    requires !m.Launch?
  {
    One(!m.Finish? && !m.Cancel? && m.act == i &&
        match kind
        case ClaimedEvent => m.Claim?
        case CompletedEvent => m.Complete?
        case RetryEvent => m.Retry?
        case FailedEvent => m.Fail?
        case ExpiredEvent => m.Reap?
        case ExpiredFailedEvent => m.ReapFail?
        case _ => false)
  }

  predicate Booked(kind: Kind) {
    kind.ClaimedEvent? || kind.CompletedEvent? || kind.RetryEvent? || kind.FailedEvent? || kind.ExpiredEvent?
    || kind.ExpiredFailedEvent? || kind.ScheduledEvent?
  }

  lemma CountFailure(m: Move, i: Id, kind: Kind)
    requires (m.Fail? || m.ReapFail?) && Booked(kind)
    ensures Count(Entries(m), i, kind) == Books(m, i, kind)
  {
    hide Count;
    FewEntries(m);
    CountFew(Entries(m), i, kind);
  }

  lemma CountCancel(m: Move, i: Id, kind: Kind)
    requires m.Cancel? && Booked(kind)
    ensures Count(Entries(m), i, kind) == Books(m, i, kind)
  {
    hide Count;
    CancelBooksNothing(m.order, i, kind);
  }

  lemma CountSingleEntry(m: Move, i: Id, kind: Kind)
    requires !m.Launch? && !m.Cancel? && !m.Fail? && !m.ReapFail? && (m.Reject? ==> IsStale(m.kind)) && Booked(kind)
    ensures Count(Entries(m), i, kind) == Books(m, i, kind)
  {
    hide Count;
    CountSingle(Entries(m)[0], i, kind);
    assert Entries(m) == [Entries(m)[0]];
  }

  lemma CountEntries(s: State, m: Move, i: Id, kind: Kind)
    requires Enabled(s, m) && !m.Launch? && Booked(kind)
    ensures Count(Entries(m), i, kind) == Books(m, i, kind)
  {
    hide Enabled, Count, Entries, Books;
    StatusesBefore(s, m);
    if m.Cancel? {
      CountCancel(m, i, kind);
    } else if m.Fail? || m.ReapFail? {
      CountFailure(m, i, kind);
    } else {
      CountSingleEntry(m, i, kind);
    }
  }

  lemma StepBalances(s: State, m: Move, i: Id, h: seq<Entry>)
    requires Enabled(s, m) && !m.Launch? && i in s.activities && Balanced(s.activities[i], h, i)
    ensures Balanced(After(s.activities[i], m, i), h + Entries(m), i)
  {
    hide Enabled, Count, Balanced, DependenciesDone;
    CountEntries(s, m, i, ScheduledEvent);
    CountEntries(s, m, i, ClaimedEvent);
    CountEntries(s, m, i, CompletedEvent);
    CountEntries(s, m, i, RetryEvent);
    CountEntries(s, m, i, FailedEvent);
    CountEntries(s, m, i, ExpiredEvent);
    CountEntries(s, m, i, ExpiredFailedEvent);
    hide Entries;
    CountsAgree(s, m, i);
    BalancedAfter(s.activities[i], After(s.activities[i], m, i), h, Entries(m), i);
  }

  /** What is booked for a move agrees with what it does to the record. */
  lemma CountsAgree(s: State, m: Move, i: Id)
    requires Enabled(s, m) && !m.Launch? && i in s.activities
    ensures Tallies(s.activities[i], m, i)
  {
    hide Enabled, Tallies;
    StatusesBefore(s, m);
    if m.Finish? || m.Cancel? || m.act != i {
      NothingBooked(s.activities[i], m, i);
    } else if m.Claim? || m.Heartbeat? || m.Reject? || m.Release? {
      KeepsOpen(s.activities[i], m);
    } else {
      EndsAttempt(s.activities[i], m);
    }
  }

  /** What is booked for a move agrees with what it does to one record. */
  ghost predicate Tallies(a: Activity, m: Move, i: Id)
    requires !m.Launch?
  {
    var b := After(a, m, i);
    && Books(m, i, ScheduledEvent) == 0
    && b.attempt - a.attempt == b.fencingToken - a.fencingToken == Books(m, i, ClaimedEvent)
    && Books(m, i, CompletedEvent) == One(b.status == Completed) - One(a.status == Completed)
    && Books(m, i, FailedEvent) + Books(m, i, ExpiredFailedEvent) == One(b.status == Failed) - One(a.status == Failed)
    && Books(m, i, ClaimedEvent) + One(a.status == Running)
       == Books(m, i, CompletedEvent) + Books(m, i, RetryEvent) + Books(m, i, FailedEvent)
          + Books(m, i, ExpiredEvent) + Books(m, i, ExpiredFailedEvent) + One(b.status == Running)
  }

  lemma NothingBooked(a: Activity, m: Move, i: Id)
    requires !m.Launch? && (m.Finish? || m.Cancel? || m.act != i)
    ensures Tallies(a, m, i)
  {
  }

  lemma KeepsOpen(a: Activity, m: Move)
    requires m.Claim? || m.Heartbeat? || m.Reject? || m.Release?
    requires a.status == if m.Claim? then Ready else if m.Release? then RetryPending else Running
    ensures Tallies(a, m, m.act)
  {
  }

  lemma EndsAttempt(a: Activity, m: Move)
    requires m.Complete? || m.Retry? || m.Fail? || m.Reap? || m.ReapFail?
    requires a.status == Running
    ensures Tallies(a, m, m.act)
  {
  }

  /** A move leaves the activities of other workflows alone. */
  lemma ElsewhereUnchanged(s: State, m: Move, i: Id)
    requires Enabled(s, m) && i in s.activities && s.activities[i].workflow != Home(s, m)
    ensures i in Apply(s, m).activities && Apply(s, m).activities[i] == s.activities[i]
  {
    if m.Launch? { AddRowsExtends(s.activities, m.rows); }
  }

  lemma KeepsAccounted(s: State, m: Move)
    requires Enabled(s, m) && WellFormed(s) && Accounted(s)
    ensures Accounted(Apply(s, m))
  {
    var t := Apply(s, m);
    MoveEvolves(s, m);
    forall i | i in t.activities
      ensures Balanced(t.activities[i], History(t, t.activities[i].workflow), i)
    {
      if i in s.activities {
        var w := s.activities[i].workflow;
        assert Later(s.activities[i], t.activities[i]);
        assert Balanced(s.activities[i], History(s, w), i);
        MoveHistory(s, m, w);
        if w == Home(s, m) {
          StepBalances(s, m, i, History(s, w));
          AfterMove(s, m, i);
        } else {
          ElsewhereUnchanged(s, m, i);
        }
      } else {
        CreatedBalanced(s, m, i);
      }
    }
  }

  lemma CreatedBalanced(s: State, m: Move, i: Id)
    requires Enabled(s, m) && WellFormed(s) && i !in s.activities && i in Apply(s, m).activities
    ensures var a := Apply(s, m).activities[i]; Balanced(a, History(Apply(s, m), a.workflow), i)
  {
    if m.Launch? {
      AddRowsExtends(s.activities, m.rows);
      assert HasRow(m.rows, i);
      var k :| 0 <= k < |m.rows| && m.rows[k].id == i;
      LaunchBalances(s, m, k);
      NewHistory(s, m);
    } else {
      SameRecords(s, m);
    }
  }

  // ---------------------------------------------------------------- replay

  datatype Core = Core(status: ActivityStatus, attempt: nat, token: nat)

  datatype View = View(workflow: WorkflowStatus, activities: map<Id, Core>)

  const BLANK: View := View(WorkflowRunning, map[])

  ghost function Mark(v: View, i: Id, status: ActivityStatus): View {
    if i in v.activities then v.(activities := v.activities[i := v.activities[i].(status := status)]) else v
  }

  /** The pure transition function: what one log entry makes of a view.  waiting are the activities
      that the definition gives dependencies. */
  ghost function Replay1(waiting: set<Id>, v: View, x: Entry): View {
    var i := x.activity;
    match x.kind
    case StartedEvent => BLANK
    case ScheduledEvent =>
      v.(activities := v.activities[i := Core(if i in waiting then RetryPending else Ready, 0, 0)])
    case ClaimedEvent =>
      if i in v.activities then
        var c := v.activities[i];
        v.(activities := v.activities[i := Core(Running, c.attempt + 1, c.token + 1)])
      else v
    case ReadyEvent | ExpiredEvent => Mark(v, i, Ready)
    case RetryEvent => Mark(v, i, RetryPending)
    case CompletedEvent => Mark(v, i, Completed)
    case CancelledEvent => Mark(v, i, Cancelled)
    case FailedEvent | ExpiredFailedEvent => Mark(v, i, Failed).(workflow := WorkflowFailed)
    case FinishedEvent => v.(workflow := WorkflowCompleted)
    case WorkflowFailedEvent => v.(workflow := WorkflowFailed)
    case WorkflowCancelledEvent => v.(workflow := WorkflowCancelled)
    case HeartbeatEvent | StaleHeartbeatEvent | StaleCompletionEvent | StaleFailureEvent => v
  }

  ghost function Replay(waiting: set<Id>, h: seq<Entry>): View {
    if h == [] then BLANK
    else Replay1(waiting, Replay(waiting, h[..|h| - 1]), h[|h| - 1])
  }

  ghost function Waiting(s: State, w: Id): set<Id> {
    set i | i in s.activities && s.activities[i].workflow == w && s.activities[i].dependsOn != []
  }

  ghost function CoreOf(a: Activity): Core {
    Core(a.status, a.attempt, a.fencingToken)
  }

  /** What the records say about workflow w. */
  ghost function Stored(s: State, w: Id): View
    requires w in s.workflows
  {
    View(s.workflows[w].status,
         map i | i in s.activities && s.activities[i].workflow == w :: CoreOf(s.activities[i]))
  }

  ghost predicate Replayable(s: State) {
    forall w :: w in s.workflows ==> Replay(Waiting(s, w), History(s, w)) == Stored(s, w)
  }

  lemma ReplayOne(waiting: set<Id>, h: seq<Entry>, x: Entry)
    ensures Replay(waiting, h + [x]) == Replay1(waiting, Replay(waiting, h), x)
  {
    assert (h + [x])[..|h|] == h;
  }

  /** The view right after the rows were scheduled. */
  ghost predicate Scheduled(v: View, waiting: set<Id>, rows: seq<Row>) {
    && v.workflow == WorkflowRunning
    && (forall i :: i in v.activities ==> HasRow(rows, i) && v.activities[i] == First(waiting, i))
    && (forall k :: 0 <= k < |rows| ==> rows[k].id in v.activities)
  }

  ghost function First(waiting: set<Id>, i: Id): Core {
    Core(if i in waiting then RetryPending else Ready, 0, 0)
  }

  lemma ScheduleOne(v: View, waiting: set<Id>, rows: seq<Row>, row: Row)
    requires Scheduled(v, waiting, rows)
    ensures Scheduled(Replay1(waiting, v, Entry(row.id, ScheduledEvent)), waiting, rows + [row])
  {
    var u, all := Replay1(waiting, v, Entry(row.id, ScheduledEvent)), rows + [row];
    forall i | i in u.activities ensures HasRow(all, i) {
      if i == row.id {
        assert all[|rows|].id == i;
      } else {
        var k :| 0 <= k < |rows| && rows[k].id == i;
        assert all[k].id == i;
      }
    }
  }

  lemma {:induction false} ReplayScheduled(waiting: set<Id>, rows: seq<Row>)
    ensures Scheduled(Replay(waiting, [Entry("", StartedEvent)] + ScheduledEntries(rows)), waiting, rows)
  {
    var h := [Entry("", StartedEvent)];
    if rows == [] {
      assert h + ScheduledEntries(rows) == [] + h;
      ReplayOne(waiting, [], h[0]);
    } else {
      var n := |rows| - 1;
      ReplayScheduled(waiting, rows[..n]);
      var xs, ys := ScheduledEntries(rows), ScheduledEntries(rows[..n]);
      assert h + xs == (h + ys) + [Entry(rows[n].id, ScheduledEvent)];
      ReplayOne(waiting, h + ys, Entry(rows[n].id, ScheduledEvent));
      ScheduleOne(Replay(waiting, h + ys), waiting, rows[..n], rows[n]);
      assert rows == rows[..n] + [rows[n]];
    }
  }

  lemma {:induction false} ReplayCancelled(waiting: set<Id>, h: seq<Entry>, order: seq<Id>)
    ensures var u, v := Replay(waiting, h), Replay(waiting, h + CancelledEntries(order));
            && v.workflow == u.workflow && v.activities.Keys == u.activities.Keys
            && forall i :: i in u.activities ==>
                 v.activities[i] == if i in order then u.activities[i].(status := Cancelled) else u.activities[i]
  {
    hide Replay;
    if order == [] {
      assert h + CancelledEntries(order) == h;
    } else {
      var n := |order| - 1;
      ReplayCancelled(waiting, h, order[..n]);
      var xs, ys := CancelledEntries(order), CancelledEntries(order[..n]);
      assert h + xs == (h + ys) + [xs[n]];
      ReplayOne(waiting, h + ys, xs[n]);
      assert order == order[..n] + [order[n]];
    }
  }

  /** The records of a new workflow are those of its rows. */
  lemma LaunchedRecord(s: State, m: Move, i: Id)
    requires m.Launch? && Enabled(s, m) && WellFormed(s)
    ensures HasRow(m.rows, i) <==>
              i in Apply(s, m).activities && Apply(s, m).activities[i].workflow == m.workflow
    ensures HasRow(m.rows, i) ==> Fresh(Apply(s, m).activities[i], m.workflow, m.at)
  {
    AddRowsExtends(s.activities, m.rows);
  }

  lemma LaunchStores(s: State, m: Move)
    requires m.Launch? && Enabled(s, m) && WellFormed(s)
    ensures m.workflow in Apply(s, m).workflows
    ensures Scheduled(Stored(Apply(s, m), m.workflow), Waiting(Apply(s, m), m.workflow), m.rows)
  {
    var t, w := Apply(s, m), m.workflow;
    var v := Stored(t, w);
    forall i | i in v.activities
      ensures HasRow(m.rows, i) && v.activities[i] == First(Waiting(t, w), i)
    {
      LaunchedRecord(s, m, i);
    }
    forall k | 0 <= k < |m.rows| ensures m.rows[k].id in v.activities {
      assert HasRow(m.rows, m.rows[k].id);
      LaunchedRecord(s, m, m.rows[k].id);
    }
  }

  lemma ScheduledUnique(u: View, v: View, waiting: set<Id>, rows: seq<Row>)
    requires Scheduled(u, waiting, rows) && Scheduled(v, waiting, rows)
    ensures u == v
  {
    assert u.activities == v.activities;
  }

  lemma LaunchReplays(s: State, m: Move)
    requires m.Launch? && Enabled(s, m) && WellFormed(s)
    ensures var t, w := Apply(s, m), m.workflow;
            w in t.workflows && Replay(Waiting(t, w), History(t, w)) == Stored(t, w)
  {
    var t, w := Apply(s, m), m.workflow;
    LaunchStores(s, m);
    NewHistory(s, m);
    ReplayScheduled(Waiting(t, w), m.rows);
    ScheduledUnique(Replay(Waiting(t, w), History(t, w)), Stored(t, w), Waiting(t, w), m.rows);
  }

  /** What the records say about the workflow of a move afterwards. */
  lemma StoredAfter(s: State, m: Move)
    requires Enabled(s, m) && !m.Launch?
    ensures var t, w := Apply(s, m), Home(s, m);
      && w in s.workflows && w in t.workflows
      && Stored(t, w).workflow == t.workflows[w].status
      && Stored(t, w).activities.Keys == Stored(s, w).activities.Keys
      && forall i :: i in Stored(s, w).activities ==>
           Stored(t, w).activities[i] == CoreOf(After(s.activities[i], m, i))
  {
    hide Apply, Enabled, After;
    SameRecords(s, m);
    HomeStored(s, m);
    var t, w := Apply(s, m), Home(s, m);
    forall i | i in s.activities
      ensures i in t.activities && t.activities[i] == After(s.activities[i], m, i)
              && t.activities[i].workflow == s.activities[i].workflow
    {
      AfterMove(s, m, i);
      StatusOfActivity(s, m, i);
    }
  }

  lemma HomeStored(s: State, m: Move)
    requires Enabled(s, m) && !m.Launch?
    ensures Home(s, m) in s.workflows && Home(s, m) in Apply(s, m).workflows
  {
    hide Apply, Enabled;
    StatusesBefore(s, m);
    StatusEffect(s, m, Home(s, m));
  }

  lemma CancelLists(s: State, m: Move)
    requires m.Cancel? && Enabled(s, m)
    ensures Home(s, m) == m.workflow && m.workflow in s.workflows && Lists(m.order, PendingOf(s, m.workflow))
    ensures Entries(m) == CancelledEntries(m.order) + [Entry("", WorkflowCancelledEvent)]
    ensures m.workflow in Apply(s, m).workflows && Apply(s, m).workflows[m.workflow].status == WorkflowCancelled
    ensures forall i :: i in s.activities && s.activities[i].workflow == m.workflow ==>
              After(s.activities[i], m, i)
              == if i in m.order then s.activities[i].(status := Cancelled) else s.activities[i]
  {
    assert forall i :: i in m.order <==> i in PendingOf(s, m.workflow);

  }

  lemma CancelReplays(s: State, m: Move)
    requires m.Cancel? && Enabled(s, m)
    requires Replay(Waiting(s, m.workflow), History(s, m.workflow)) == Stored(s, m.workflow)
    ensures var t, w := Apply(s, m), m.workflow;
            w in t.workflows && Replay(Waiting(s, w), History(t, w)) == Stored(t, w)
  {
    hide Apply, Enabled, History, Replay, CancelledEntries, Waiting;
    var t, w := Apply(s, m), m.workflow;
    CancelLists(s, m);
    var h, xs, x := History(s, w), CancelledEntries(m.order), Entry("", WorkflowCancelledEvent);
    assert History(t, w) == (h + xs) + [x] by { MoveHistory(s, m, w); }
    ReplayCancelled(Waiting(s, w), h, m.order);
    ReplayOne(Waiting(s, w), h + xs, x);
    StoredAfter(s, m);
    var u, v := Replay(Waiting(s, w), History(t, w)), Stored(t, w);
    assert u.activities == v.activities;
  }

  /** Two entries at once: a failure that also announces the failed workflow. */
  lemma ReplayTwo(waiting: set<Id>, h: seq<Entry>, x: Entry, y: Entry)
    ensures Replay(waiting, h + [x, y]) == Replay1(waiting, Replay1(waiting, Replay(waiting, h), x), y)
  {
    assert h + [x, y] == (h + [x]) + [y];
    ReplayOne(waiting, h, x);
    ReplayOne(waiting, h + [x], y);
  }

  /** What the entries of a move make of a view. */
  ghost function Replays(waiting: set<Id>, v: View, m: Move): View
    requires !m.Launch? && !m.Cancel?
  {
    FewEntries(m);
    var xs := Entries(m);
    if |xs| == 1 then Replay1(waiting, v, xs[0]) else Replay1(waiting, Replay1(waiting, v, xs[0]), xs[1])
  }

  lemma ReplayMove(s: State, m: Move)
    requires !m.Launch? && !m.Cancel? && Enabled(s, m)
    ensures var w := Home(s, m);
            Replay(Waiting(s, w), History(Apply(s, m), w))
            == Replays(Waiting(s, w), Replay(Waiting(s, w), History(s, w)), m)
  {
    hide Apply, Enabled, Replay, Replay1, Entries, Waiting, History;
    var w, xs := Home(s, m), Entries(m);
    MoveHistory(s, m, w);
    FewEntries(m);
    if |xs| == 1 {
      ReplayOne(Waiting(s, w), History(s, w), xs[0]);
      assert xs == [xs[0]];
    } else {
      ReplayTwo(Waiting(s, w), History(s, w), xs[0], xs[1]);
      assert xs == [xs[0], xs[1]];
    }
  }

  /** The transition function agrees with the move, record by record. */
  lemma ReplaysAgree(s: State, m: Move, waiting: set<Id>, i: Id)
    requires !m.Launch? && !m.Cancel? && Enabled(s, m) && Home(s, m) in s.workflows
    ensures var u, v := Stored(s, Home(s, m)), Replays(waiting, Stored(s, Home(s, m)), m);
      && v.activities.Keys == u.activities.Keys
      && (i in u.activities ==> v.activities[i] == CoreOf(After(s.activities[i], m, i)))
  {
    hide Enabled, Replays;
    StatusesBefore(s, m);
    if m.Fail? || m.ReapFail? {
      ReplaysFailure(waiting, Stored(s, Home(s, m)), m);
    } else {
      ReplaysOnce(waiting, Stored(s, Home(s, m)), m);
    }
  }

  lemma ReplaysFailure(waiting: set<Id>, v: View, m: Move)
    requires (m.Fail? || m.ReapFail?) && m.act in v.activities
    ensures Replays(waiting, v, m) == Mark(v, m.act, Failed).(workflow := WorkflowFailed)
  {
  }

  lemma ReplaysOnce(waiting: set<Id>, v: View, m: Move)
    requires !m.Launch? && !m.Cancel? && !m.Fail? && !m.ReapFail?
    ensures |Entries(m)| == 1 && Replays(waiting, v, m) == Replay1(waiting, v, Entries(m)[0])
  {
    hide Replay1;
  }

  lemma ReplaysStatus(s: State, m: Move, waiting: set<Id>)
    requires !m.Launch? && !m.Cancel? && Enabled(s, m) && Home(s, m) in s.workflows
    ensures Home(s, m) in Apply(s, m).workflows
    ensures Replays(waiting, Stored(s, Home(s, m)), m).workflow == Apply(s, m).workflows[Home(s, m)].status
  {
    hide Apply, DependenciesDone;
    StatusEffect(s, m, Home(s, m));
  }

  lemma OthersReplay(s: State, m: Move)
    requires !m.Launch? && !m.Cancel? && Enabled(s, m) && Home(s, m) in s.workflows
    requires Replay(Waiting(s, Home(s, m)), History(s, Home(s, m))) == Stored(s, Home(s, m))
    ensures var t, w := Apply(s, m), Home(s, m);
            w in t.workflows && Replay(Waiting(s, w), History(t, w)) == Stored(t, w)
  {
    var t, w := Apply(s, m), Home(s, m);
    ReplayMove(s, m);
    StoredAfter(s, m);
    ReplaysStatus(s, m, Waiting(s, w));
    var u, v := Replay(Waiting(s, w), History(t, w)), Stored(t, w);
    ReplaysAgree(s, m, Waiting(s, w), "");
    forall i | i in v.activities ensures u.activities[i] == v.activities[i] {
      ReplaysAgree(s, m, Waiting(s, w), i);
    }
    assert u.activities == v.activities;
  }

  lemma ElsewhereReplays(s: State, m: Move, w: Id)
    requires Enabled(s, m) && w in s.workflows && w != Home(s, m)
    ensures var t := Apply(s, m);
            w in t.workflows && Stored(t, w) == Stored(s, w) && History(t, w) == History(s, w)
  {
    MoveHistory(s, m, w);
    var t := Apply(s, m);
    if m.Launch? {
      AddRowsExtends(s.activities, m.rows);
      forall i | i in t.activities && i !in s.activities ensures t.activities[i].workflow != w {
        assert HasRow(m.rows, i);
      }
    } else {
      SameRecords(s, m);
    }
    forall i | i in s.activities && s.activities[i].workflow == w
      ensures i in t.activities && t.activities[i] == s.activities[i]
    {
      ElsewhereUnchanged(s, m, i);
    }
    StoredSame(s, m, w);
  }

  lemma StoredSame(s: State, m: Move, w: Id)
    requires Enabled(s, m) && w in s.workflows && w in Apply(s, m).workflows && w != Home(s, m)
    requires Apply(s, m).workflows[w] == s.workflows[w]
    requires forall i :: i in s.activities && s.activities[i].workflow == w ==>
               i in Apply(s, m).activities && Apply(s, m).activities[i] == s.activities[i]
    requires forall i :: i in Apply(s, m).activities && i !in s.activities ==> Apply(s, m).activities[i].workflow != w
    ensures Stored(Apply(s, m), w) == Stored(s, w)
  {
    hide Apply, Enabled;
    var t := Apply(s, m);
    MoveEvolves(s, m);
    forall i ensures i in Stored(t, w).activities <==> i in Stored(s, w).activities {
      if i in Stored(t, w).activities { assert Later(s.activities[i], t.activities[i]); }
    }
    assert Stored(t, w).activities == Stored(s, w).activities;
  }

  lemma SameWaiting(s: State, m: Move, w: Id)
    requires Enabled(s, m) && w in s.workflows
    ensures Waiting(Apply(s, m), w) == Waiting(s, w)
  {
    hide Apply, Enabled;
    MoveEvolves(s, m);
    var t := Apply(s, m);
    forall i ensures i in Waiting(t, w) <==> i in Waiting(s, w) {
      if i in s.activities { assert Later(s.activities[i], t.activities[i]); }
    }
  }

  lemma KeepsReplayable(s: State, m: Move)
    requires Enabled(s, m) && WellFormed(s) && Replayable(s)
    ensures Replayable(Apply(s, m))
  {
    var t := Apply(s, m);
    forall w | w in t.workflows ensures Replay(Waiting(t, w), History(t, w)) == Stored(t, w) {
      if m.Launch? && w == m.workflow {
        LaunchReplays(s, m);
      } else {
        assert w in s.workflows;
        SameWaiting(s, m, w);
        if w != Home(s, m) {
          ElsewhereReplays(s, m, w);
        } else if m.Cancel? {
          CancelReplays(s, m);
        } else {
          OthersReplay(s, m);
        }
      }
    }
  }

  // ---------------------------------------------------------------- all together

  lemma EmptyLogs()
    ensures Partitioned(EMPTY) && Accounted(EMPTY) && Replayable(EMPTY)
  {
  }

  /** In every state of every run the logs are numbered without gap or repeat, balance, and replay
      to exactly the stored statuses, attempts, tokens and workflow statuses. */
  lemma {:induction false} LogsTellAll(ss: seq<State>, ms: seq<Move>, k: nat)
    requires IsRun(ss, ms) && ss[0] == EMPTY && k <= |ms|
    ensures Inv(ss[k]) && Partitioned(ss[k]) && Accounted(ss[k]) && Replayable(ss[k])
  {
    hide Apply, Enabled, WellFormed, Counted, Gated, Consistent, UniqueKeys, Partitioned, Accounted, Replayable;
    if k == 0 {
      EmptyInv();
      EmptyLogs();
    } else {
      LogsTellAll(ss, ms, k - 1);
      assert StepAt(ss, ms, k - 1);
      KeepsInv(ss[k - 1], ms[k - 1]);
      KeepsPartitioned(ss[k - 1], ms[k - 1]);
      KeepsAccounted(ss[k - 1], ms[k - 1]);
      KeepsReplayable(ss[k - 1], ms[k - 1]);
    }
  }
}
