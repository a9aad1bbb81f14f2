/** The statements of the database transactions: what each answers and which move of the lease machine
    it amounts to. */
module Statements {
  import opened EngineSteps
  import opened Ids
  import opened Invariants
  import opened Machine
  import opened Scheduler
  import opened Tables
  import opened Writes

  /** ScanFailed: the expiry of an activity that was never claimed is NULL, so the comparison with now()
      is NULL too and does not fit the boolean it is read into. */
  datatype Reply = Done | Declined(error: Error) | ScanFailed

  /** KeyViolation: a dependency listed twice runs into the primary key of activity_dependencies. */
  datatype StartReply = Begun(id: Id) | Existing(id: Id) | Invalid | KeyViolation

  /** A duration cut down to whole seconds, as passed to make_interval. */
  function WholeSeconds(d: Time): Time
    requires d >= 0
  {
    d / SECOND * SECOND
  }

  /** The retry delay after attempt k. */
  function RetryDelay(backoffMs: nat, attempt: nat): Time {
    WholeSeconds(backoffMs * MILLISECOND * attempt)
  }

  /** The answer to a message of a worker, read off the rows. */
  function ReplyTo(d: Rows, i: Id, worker: string, token: int, now: Time): Reply {
    if i !in d.activities then Declined(NotFound)
    else if d.activities[i].leaseExpiresAt.None? then ScanFailed
    else if d.activities[i].status != Running then Declined(InvalidTransition)
    else if OwnerOf(d.activities[i]) != worker || d.activities[i].fencingToken != token
            || d.activities[i].leaseExpiresAt.value <= now then Declined(StaleLease)
    else Done
  }

  /** Both back ends answer a message alike, except that the database answers one about an activity
      that was never claimed with an internal error instead of InvalidTransition. */
  lemma RepliesAgree(d: Rows, s: State, i: Id, worker: string, token: int, now: Time)
    requires Refines(d, s) && Inv(s)
    ensures ReplyTo(d, i, worker, token, now)
            == match MessageAnswer(s, i, worker, token, now)
               case Accepted => Done
               case Refused(e) =>
                 if i in s.activities && s.activities[i].attempt == 0 then ScanFailed else Declined(e)
  {
    hide Refines, Inv;
    SameIds(d, s);
    if i in d.activities { RowBehind(d, s, i); }
  }

  lemma SameIds(d: Rows, s: State)
    requires Refines(d, s)
    ensures d.activities.Keys == s.activities.Keys && d.workflows.Keys == s.workflows.Keys
  {
  }

  lemma RowBehind(d: Rows, s: State, i: Id)
    requires Refines(d, s) && Inv(s) && i in d.activities
    ensures Known(s, i) && SaysSame(d.activities[i], s.activities[i]) && Counters(s.activities[i])
    ensures d.activities[i].workflow in d.workflows
  {
  }

  /** The effect of a retry or a final failure on the machine. */
  ghost function FailureMove(s: State, i: Id, worker: string, token: int, retryable: bool, now: Time): Move
    requires i in s.activities && s.activities[i].retryBackoff >= 0
  {
    var a := s.activities[i];
    if retryable && a.attempt < a.maxAttempts then
      Retry(now, i, worker, token, now + WholeSeconds(a.retryBackoff * a.attempt))
    else Fail(now, i, worker, token)
  }

  // ---------------------------------------------------------------- starting

  predicate HasRepeat(xs: seq<string>) {
    exists j, k :: 0 <= j < k < |xs| && xs[j] == xs[k]
  }

  /** Some activity lists a dependency twice. */
  predicate Repeats(def: WorkflowDefinition) {
    exists k :: 0 <= k < |def.activities| && HasRepeat(def.activities[k].dependsOn)
  }

  /** How Start answers if w is the id drawn for a new workflow.  The definition is checked before the
      key is looked up. */
  function StartReplyOf(d: Rows, def: WorkflowDefinition, key: string, w: Id): StartReply {
    if Complains(def) || !ValidNames(def) || !ValidDependencies(def) then Invalid
    else if key != "" && Key(def.namespace, key) in d.keys then Existing(d.keys[Key(def.namespace, key)])
    else if Repeats(def) then KeyViolation
    else Begun(w)
  }

  function NewActivityRow(a: ActivityDefinition, w: Id, now: Time, defaultAttempts: nat): ActivityRow {
    ActivityRow(w, a.name, if a.taskQueue == "" then "default" else a.taskQueue,
                if |a.dependsOn| > 0 then RetryPending else Ready,
                0, if a.maxAttempts <= 0 then defaultAttempts else a.maxAttempts,
                (if a.retryBackoff <= 0 then SECOND else a.retryBackoff) / MILLISECOND,
                None, None, 0, now, now)
  }

  /** The record that the new row stands for. */
  function RecordOf(a: ActivityDefinition, w: Id, now: Time, defaultAttempts: nat): Activity {
    var row := NewActivityRow(a, w, now, defaultAttempts);
    Activity(w, row.name, row.taskQueue, row.status, 0, row.maxAttempts, "", NO_DEADLINE, 0, now, a.dependsOn,
             row.backoffMs * MILLISECOND)
  }

  function RecordsOf(def: WorkflowDefinition, ids: seq<Id>, w: Id, now: Time, defaultAttempts: nat): (r: seq<Row>)
    requires |ids| == |def.activities|
  {
    seq(|ids|, k requires 0 <= k < |ids| => Row(ids[k], RecordOf(def.activities[k], w, now, defaultAttempts)))
  }

  function BeginMove(def: WorkflowDefinition, key: string, w: Id, ids: seq<Id>, now: Time, defaultAttempts: nat): Move
    requires |ids| == |def.activities|
  {
    Launch(now, w, Workflow(def.namespace, def.name, key, WorkflowRunning), RecordsOf(def, ids, w, now, defaultAttempts))
  }

  /** Ids drawn by the database are new. */
  ghost predicate AreNew(d: Rows, def: WorkflowDefinition, w: Id, ids: seq<Id>) {
    && w !in d.workflows && |ids| == |def.activities|
    && (forall k :: 0 <= k < |ids| ==> ids[k] !in d.activities)
    && (forall j, k :: 0 <= j < k < |ids| ==> ids[j] != ids[k])
  }

  /** The engine finds another workflow under the joined key: its namespace differs, and one of the two
      namespaces holds NUL. */
  ghost predicate Clashes(e: EngineState, def: WorkflowDefinition, key: string) {
    && key != "" && Join(def.namespace, key) in e.index && e.index[Join(def.namespace, key)] in e.core.workflows
    && KeyOf(e.core.workflows[e.index[Join(def.namespace, key)]]) != Key(def.namespace, key)
  }

  /** Exactly where the two back ends answer the same start differently, given the same workflows and keys.
      A definition with a repeated dependency fails in the database only; a repeated start whose definition
      is invalid is a duplicate for the engine only; and a clash of joined keys makes the engine, but not the
      database, give back a workflow of another namespace. */
  lemma StartsCompared(d: Rows, e: EngineState, def: WorkflowDefinition, key: string, w: Id)
    requires Refines(d, e.core) && EngineInv(e)
    ensures var r, a, valid, clash := StartReplyOf(d, def, key, w), StartAnswerOf(e, def, key),
                                      ValidNames(def) && ValidDependencies(def), Clashes(e, def, key);
      && (r.Begun? <==> (a.Started? || (a.Duplicate? && clash && valid)) && !Repeats(def))
      && (r.KeyViolation? <==> (a.Started? || (a.Duplicate? && clash && valid)) && Repeats(def))
      && (r.Existing? <==> a.Duplicate? && !clash && valid)
      && (r.Invalid? <==> a.Rejected? || (a.Duplicate? && !valid))
      && (r.Existing? ==> r.id == a.id)
  {
    hide ValidNames, ValidDependencies, Repeats, Inv, Refines, EngineInv, Join, Clashes;
    if key != "" {
      SameLookup(d, e, def, key);
    }
  }

  lemma SameLookup(d: Rows, e: EngineState, def: WorkflowDefinition, key: string)
    requires Refines(d, e.core) && EngineInv(e) && key != ""
    ensures Key(def.namespace, key) in d.keys <==> Join(def.namespace, key) in e.index && !Clashes(e, def, key)
    ensures Key(def.namespace, key) in d.keys ==> d.keys[Key(def.namespace, key)] == e.index[Join(def.namespace, key)]
  {
    hide Inv, SameActivities, SameEvents, Join;
    var k, j := Key(def.namespace, key), Join(def.namespace, key);
    if k in d.keys {
      assert FiledUnder(e, d.keys[k]) == j;
    }
    if j in e.index {
      assert FiledUnder(e, e.index[j]) == j;
    }
  }

  /** Without NUL in the namespaces keys never clash. */
  lemma NoClashWithoutNul(e: EngineState, def: WorkflowDefinition, key: string)
    requires EngineInv(e) && '\0' !in def.namespace
    requires forall v :: v in e.core.workflows ==> '\0' !in e.core.workflows[v].namespace
    ensures !Clashes(e, def, key)
  {
    if Clashes(e, def, key) {
      var v := e.index[Join(def.namespace, key)];
      assert FiledUnder(e, v) == Join(def.namespace, key);
      JoinInjective(def.namespace, e.core.workflows[v].namespace, key, e.core.workflows[v].key);
    }
  }

  // ---------------------------------------------------------------- the statements

  /** One of the first k activities carries the name. */
  ghost predicate IsNamed(def: WorkflowDefinition, k: nat, name: string) {
    exists j :: 0 <= j < k && j < |def.activities| && def.activities[j].name == name
  }

  lemma NameIsNew(def: WorkflowDefinition, k: nat)
    requires ValidNames(def) && k < |def.activities|
    ensures !IsNamed(def, k, def.activities[k].name)
  {
  }

  /** What the row of a new activity says. */
  lemma NewRowIs(a: ActivityDefinition, w: Id, now: Time, attempts: nat)
    ensures var row := NewActivityRow(a, w, now, attempts);
      && row.workflow == w && row.name == a.name
      && row.taskQueue == (if a.taskQueue == "" then "default" else a.taskQueue)
      && row.status == (if a.dependsOn == [] then Ready else RetryPending) && row.attempt == row.fencingToken == 0
      && row.maxAttempts == (if a.maxAttempts > 0 then a.maxAttempts else attempts)
      && row.backoffMs == (if a.retryBackoff > 0 then a.retryBackoff / 1_000_000 else 1_000)
      && row.leaseOwner.None? && row.leaseExpiresAt.None? && row.nextAttemptAt == row.createdAt == now
  {
  }

  lemma RecordsHaveIds(def: WorkflowDefinition, ids: seq<Id>, w: Id, now: Time, attempts: nat, i: Id)
    requires |ids| == |def.activities| && i in ids
    ensures HasRow(RecordsOf(def, ids, w, now, attempts), i)
  {
    var k :| 0 <= k < |ids| && ids[k] == i;
    assert RecordsOf(def, ids, w, now, attempts)[k].id == i;
  }

  /** The dependencies of one more activity leave those of the others as they were. */
  lemma DependenciesSoFar(def: WorkflowDefinition, k: nat, w: Id, before: set<Dependency>, after: set<Dependency>)
    requires ValidNames(def) && k < |def.activities|
    requires forall x :: x in before && x.workflow == w ==> IsNamed(def, k, x.name)
    requires forall j, d :: 0 <= j < k ==> (Dependency(w, def.activities[j].name, d) in before <==> d in def.activities[j].dependsOn)
    requires after == before + DependencyRows(w, def.activities[k].name, def.activities[k].dependsOn)
    ensures forall j, d :: 0 <= j < k + 1 ==> (Dependency(w, def.activities[j].name, d) in after <==> d in def.activities[j].dependsOn)
  {
    var name := def.activities[k].name;
    forall j, d | 0 <= j < k + 1
      ensures Dependency(w, def.activities[j].name, d) in after <==> d in def.activities[j].dependsOn
    {
      var x := Dependency(w, def.activities[j].name, d);
      if j < k {
        assert def.activities[j].name != name;
      } else if x in before {
        NameIsNew(def, k);
      }
    }
  }

  lemma RowNames(a: ActivityDefinition, w: Id, now: Time, attempts: nat)
    ensures NewActivityRow(a, w, now, attempts).name == a.name && NewActivityRow(a, w, now, attempts).workflow == w
  {
  }

  lemma StillNamed(def: WorkflowDefinition, k: nat)
    ensures forall x :: IsNamed(def, k, x) ==> IsNamed(def, k + 1, x)
  {
    forall x | IsNamed(def, k, x) ensures IsNamed(def, k + 1, x) {
      var j :| 0 <= j < k && j < |def.activities| && def.activities[j].name == x;
      assert j < k + 1;
    }
  }

  lemma OneMoreDependency(w: Id, name: string, xs: seq<string>, k: nat)
    requires k < |xs|
    ensures DependencyRows(w, name, xs[..k + 1]) == DependencyRows(w, name, xs[..k]) + {Dependency(w, name, xs[k])}
  {
    assert xs[..k + 1] == xs[..k] + [xs[k]];
  }

  /** A workflow that is not stored has no rows in the other tables. */
  lemma NothingOf(d: Rows, s: State, w: Id)
    requires Refines(d, s) && Inv(s) && w !in d.workflows
    ensures forall x :: x in d.dependencies ==> x.workflow != w
    ensures forall j :: j in d.activities ==> d.activities[j].workflow != w
  {
    hide Counted, Gated, Consistent, UniqueKeys, SameKeys, SameEvents, SameDependencies;
    forall j | j in d.activities ensures d.activities[j].workflow != w {
      assert SaysSame(d.activities[j], s.activities[j]);
    }
  }

  lemma NothingScheduled(d: Rows, s: State, rows: seq<Row>, w: Id)
    requires Refines(d, s)
    ensures Refines(d, WithRows(s, rows[..0], w))
  {
    hide Refines, Emit;
    assert rows[..0] == [] && ScheduledEntries([]) == [];
    NoEventInserted(d, s, w);
  }

  lemma CanBegin(d: Rows, s: State, def: WorkflowDefinition, key: string, w: Id, ids: seq<Id>, now: Time, attempts: nat)
    requires Refines(d, s) && AreNew(d, def, w, ids) && attempts > 0
    requires !Complains(def) && ValidNames(def) && ValidDependencies(def)
    requires key != "" ==> Key(def.namespace, key) !in d.keys
    ensures Enabled(s, BeginMove(def, key, w, ids, now, attempts))
  {
    hide SaysSame, SameDependencies, SameEvents;
    var m := BeginMove(def, key, w, ids, now, attempts);
    forall j, k | 0 <= j < k < |m.rows|
      ensures m.rows[j].id != m.rows[k].id && m.rows[j].activity.name != m.rows[k].activity.name
    {
      assert ids[j] != ids[k] && def.activities[j].name != def.activities[k].name;
    }
    forall k | 0 <= k < |m.rows|
      ensures m.rows[k].id !in s.activities && Fresh(m.rows[k].activity, m.workflow, m.at)
    {
      assert ids[k] !in d.activities;
    }
    forall k, x | 0 <= k < |m.rows| && x in m.rows[k].activity.dependsOn ensures RowNamed(m.rows, x) {
      assert HasName(def, x);
      var j :| 0 <= j < |def.activities| && def.activities[j].name == x;
      assert m.rows[j].activity.name == x;
    }
    if key != "" {
      forall v | v in s.workflows ensures s.workflows[v].namespace != def.namespace || s.workflows[v].key != key {
        assert s.workflows[v].key != "" ==> KeyOf(s.workflows[v]) in d.keys;
      }
    }
  }

  predicate IsExpiry(m: Move) {
    m.Reap? || (m.ReapFail? && m.announced)
  }

  /** What a completion brings about at once: the due retries of the workflow are released, all judged
      by the state right after the completion, and the workflow is finished if that was the last. */
  ghost predicate WrappedUp(s: State, t: State, w: Id, now: Time) {
    && t.activities == Readied(s.activities, DueOf(s, w, now))
    && w in s.workflows
    && t.workflows == if s.workflows[w].status == WorkflowRunning && AllCompleted(s.activities, w)
                      then s.workflows[w := s.workflows[w].(status := WorkflowCompleted)] else s.workflows
  }

  ghost function Readied(activities: map<Id, Activity>, hits: set<Id>): map<Id, Activity> {
    map i | i in activities :: if i in hits then activities[i].(status := Ready) else activities[i]
  }

  lemma WrapsUp(s: State, t: State, w: Id, now: Time)
    requires PassedOver(s, t, DueOf(s, w, now), now) && w in s.workflows
    ensures WrappedUp(s, FinishIfDone(t, w, now), w, now)
  {
    hide DependenciesDone;
    assert t.activities == Readied(s.activities, DueOf(s, w, now));
    forall v | v in s.workflows ensures t.workflows[v] == s.workflows[v] {
    }
    assert t.workflows == s.workflows;
    assert AllCompleted(t.activities, w) <==> AllCompleted(s.activities, w) by {
      forall j | j in s.activities && s.activities[j].workflow == w
        ensures t.activities[j].workflow == w && (t.activities[j].status == Completed <==> s.activities[j].status == Completed)
      {
      }
      if AllCompleted(t.activities, w) {
        forall j | j in s.activities && s.activities[j].workflow == w ensures s.activities[j].status == Completed {
          assert t.activities[j].status == Completed;
        }
      }
    }
  }

  lemma StillStored(s: State, m: Move, w: Id)
    requires Enabled(s, m) && w in s.workflows
    ensures w in Apply(s, m).workflows
  {
  }

  /** The UPDATE of a completion. */
  function CompletedRow(row: ActivityRow): ActivityRow {
    row.(status := Completed, leaseOwner := None)
  }

  /** The NOT EXISTS condition of completeWorkflowIfDone. */
  predicate NoneIncomplete(activities: map<Id, ActivityRow>, w: Id) {
    !exists i :: i in activities && activities[i].workflow == w && activities[i].status != Completed
  }

  lemma FinishCondition(d: Rows, s: State, w: Id, now: Time)
    requires Refines(d, s) && w in d.workflows
    ensures Enabled(s, Finish(now, w)) <==>
      d.workflows[w].status == WorkflowRunning && NoneIncomplete(d.activities, w)
    ensures w in s.workflows
  {
    forall i | i in d.activities ensures SaysSame(d.activities[i], s.activities[i]) {
    }
  }

  lemma FinishWritten(s: State, now: Time, w: Id)
    requires Enabled(s, Finish(now, w))
    ensures w in s.workflows
    ensures Apply(s, Finish(now, w)) == Emit(WithStatus(s, w, WorkflowCompleted), w, [Entry("", FinishedEvent)])
  {
  }

  lemma StatusBehind(d: Rows, s: State, w: Id)
    requires Refines(d, s)
    ensures CancelAnswer(s, w)
            == if w !in d.workflows then Refused(NotFound)
               else if d.workflows[w].status != WorkflowRunning then Refused(InvalidTransition) else Accepted
    ensures w in d.workflows <==> w in s.workflows
  {
  }

  /** The records of a cancelled workflow, before anything is logged. */
  ghost function CancelRecords(s: State, w: Id): State
    requires w in s.workflows
  {
    WithStatus(s, w, WorkflowCancelled).(activities := CancelPending(s.activities, w))
  }

  lemma CancelStatements(d: Rows, s: State, w: Id, hits: set<Id>, order: seq<Id>, now: Time, d': Rows)
    requires Refines(d, s) && CancelAnswer(s, w).Accepted? && Lists(order, hits)
    requires hits == set i | i in d.activities && d.activities[i].workflow == w && d.activities[i].status in {Ready, RetryPending}
    requires w in d.workflows
    requires d' == d.(workflows := d.workflows[w := d.workflows[w].(status := WorkflowCancelled)],
                      activities := map i | i in d.activities ::
                        if i in hits then d.activities[i].(status := Cancelled) else d.activities[i])
    ensures Enabled(s, Machine.Cancel(now, w, order)) && w in s.workflows
    ensures Refines(d', Emit(CancelRecords(s, w), w, CancelledEntries([])))
  {
    hide Refines, Emit;
    SameIds(d, s);
    forall i | i in d.activities ensures SaysSame(d.activities[i], s.activities[i]) { SaysSameAt(d, s, i); }
    assert hits == PendingOf(s, w);
    StatusUpdated(d, s, w, WorkflowCancelled);
    var d1, s1 := d.(workflows := d'.workflows), WithStatus(s, w, WorkflowCancelled);
    RowsUpdated(d1, s1, d', CancelRecords(s, w));
    assert CancelledEntries([]) == [];
    NoEventInserted(d', CancelRecords(s, w), w);
  }

  lemma SaysSameAt(d: Rows, s: State, i: Id)
    requires Refines(d, s) && i in d.activities
    ensures i in s.activities && SaysSame(d.activities[i], s.activities[i])
  {
  }

  lemma NoEventInserted(d: Rows, s: State, w: Id)
    requires Refines(d, s)
    ensures Refines(d, Emit(s, w, []))
  {
    hide SaysSame, LogOf;
    var t := Emit(s, w, []);
    assert Number(s.nextEvent, []) == [];
    forall v ensures Log(t, v) == LogOf(d.events, v) { assert Log(s, v) == LogOf(d.events, v); }
    assert SameEvents(d, t);
    SameActivitiesKept(d, s, d, t);
    SameKeysKept(d, s, d, t);
  }

  lemma OneMoreCancelled(s: State, w: Id, order: seq<Id>, k: nat)
    requires k < |order|
    ensures Emit(Emit(s, w, CancelledEntries(order[..k])), w, [Entry(order[k], CancelledEvent)])
            == Emit(s, w, CancelledEntries(order[..k + 1]))
  {
    hide Emit;
    EmitTwice(s, w, CancelledEntries(order[..k]), [Entry(order[k], CancelledEvent)]);
    assert CancelledEntries(order[..k]) + [Entry(order[k], CancelledEvent)] == CancelledEntries(order[..k + 1]);
  }

  lemma FreeIsClaimable(d: Rows, s: State, queue: string, locked: set<Id>, free: set<Id>)
    requires Refines(d, s)
    requires free == set i | i in d.activities && d.activities[i].status == Ready
      && (queue == "" || d.activities[i].taskQueue == "" || d.activities[i].taskQueue == queue) && i !in locked
    ensures free == Claimable(s, queue) - locked
  {
    hide Refines;
    SameIds(d, s);
    forall i | i in d.activities ensures SaysSame(d.activities[i], s.activities[i]) { SaysSameAt(d, s, i); }
  }

  lemma TokenBehind(d: Rows, s: State, i: Id)
    requires Refines(d, s) && Inv(s) && i in d.activities
    ensures i in s.activities && s.activities[i].fencingToken == d.activities[i].fencingToken
  {
    hide Refines, Inv;
    RowBehind(d, s, i);
  }

  lemma ClaimPossible(s: State, m: Move)
    requires m.Claim? && m.act in Claimable(s, m.queue) && Known(s, m.act)
    ensures Enabled(s, m)
  {
  }

  // ---------------------------------------------------------------- the expiry statement

  function ExpiredRow(row: ActivityRow): ActivityRow {
    row.(status := if row.attempt < row.maxAttempts then Ready else Failed, leaseOwner := None)
  }

  function ExpiredRows(activities: map<Id, ActivityRow>, hits: set<Id>): map<Id, ActivityRow> {
    map i | i in activities :: if i in hits then ExpiredRow(activities[i]) else activities[i]
  }

  lemma ExpiredOnly(activities: map<Id, ActivityRow>, hits: set<Id>)
    ensures ExpiredRows(activities, hits).Keys == activities.Keys
    ensures forall i :: i in activities && i !in hits ==> ExpiredRows(activities, hits)[i] == activities[i]
  {
  }

  ghost function ExpiryMove(before: map<Id, ActivityRow>, i: Id, now: Time): Move
    requires i in before
  {
    if before[i].attempt < before[i].maxAttempts then Reap(now, i) else ReapFail(now, i, true)
  }

  lemma IsAnExpiry(before: map<Id, ActivityRow>, i: Id, now: Time)
    requires i in before
    ensures IsExpiry(ExpiryMove(before, i, now)) && ExpiryMove(before, i, now).at == now
  {
  }

  lemma HitsHaveLapsed(d: Rows, s: State, now: Time, hits: set<Id>)
    requires Refines(d, s) && hits == set i | i in d.activities && HasLapsed(d.activities[i], now)
    ensures hits == LapsedOf(s, now)
  {
    hide Refines;
    SameIds(d, s);
    forall i | i in d.activities ensures HasLapsed(d.activities[i], now) <==> Expired(s.activities[i], now) {
      SaysSameAt(d, s, i);
      LapsedMeansExpired(d.activities[i], s.activities[i], now);
    }
  }

  /** The statements that follow for one expired row. */
  ghost function Announced(d: Rows, i: Id): Rows
    requires i in d.activities && d.activities[i].workflow in d.workflows
  {
    var w := d.activities[i].workflow;
    if d.activities[i].status == Failed then
      d.(workflows := d.workflows[w := d.workflows[w].(status := WorkflowFailed)],
         events := d.events + [EventRow(w, Entry("", WorkflowFailedEvent))] + [EventRow(w, Entry(i, ExpiredFailedEvent))])
    else d.(events := d.events + [EventRow(w, Entry(i, ExpiredEvent))])
  }

  /** What had lapsed at the beginning, and was not passed over yet, can still be expired. */
  lemma LapsedBefore(s: State, t: State, passed: set<Id>, now: Time, i: Id, before: map<Id, ActivityRow>)
    requires Inv(s) && PassedOver(s, t, passed, now) && i in LapsedOf(s, now) && i !in passed && i in before
    requires before[i].attempt == t.activities[i].attempt && before[i].maxAttempts == t.activities[i].maxAttempts
    ensures Enabled(t, ExpiryMove(before, i, now)) && i in s.activities
  {
    hide DependenciesDone, PassedOver;
    SameBefore(s, t, passed, now, i);
  }

  lemma OneExpired(d: Rows, before: map<Id, ActivityRow>, rest: set<Id>, s: State, m: Move)
    requires m.Reap? || m.ReapFail?
    requires Refines(Undone(d, before, rest), s) && Inv(s) && m.act in rest && Known(s, m.act)
    requires before.Keys == d.activities.Keys && m.act in before && m == ExpiryMove(before, m.act, m.at)
    requires d.activities[m.act] == ExpiredRow(before[m.act]) && s.activities[m.act].status == Running
    ensures d.activities[m.act].workflow in d.workflows
    ensures Refines(Undone(Announced(d, m.act), before, rest - {m.act}), Written(s, m))
  {
    hide Refines, Inv, Emit;
    var i, u := m.act, Undone(d, before, rest);
    var w := d.activities[i].workflow;
    RowBehind(u, s, i);
    var a := After(s.activities[i], m, i);
    RowUpdated(u, s, i, d.activities[i], a);
    var v, t := u.(activities := u.activities[i := d.activities[i]]), s.(activities := s.activities[i := a]);
    if m.Reap? {
      EventInserted(v, Rewritten(s, m), w, Entry(i, ExpiredEvent));
    } else {
      StatusUpdated(v, t, w, WorkflowFailed);
      TwoEventsInserted(v.(workflows := v.workflows[w := v.workflows[w].(status := WorkflowFailed)]), Rewritten(s, m), w,
                        Entry("", WorkflowFailedEvent), Entry(i, ExpiredFailedEvent));
    }
    assert Undone(Announced(d, i), before, rest - {i}).activities == v.activities;
  }

  lemma ExpireStep(d: Rows, before: map<Id, ActivityRow>, hits: set<Id>, s0: State, s: State,
                   passed: set<Id>, rest: set<Id>, now: Time, i: Id)
    requires HalfWritten(d, before, hits, s0, s, passed, rest, now) && i in rest
    requires hits == LapsedOf(s0, now) && d.activities == ExpiredRows(before, hits)
    ensures i in before && i in d.activities && d.activities[i].workflow in d.workflows
    ensures var m := ExpiryMove(before, i, now);
      Enabled(s, m) && HalfWritten(Announced(d, i), before, hits, s0, Apply(s, m), passed + {i}, rest - {i}, now)
  {
    hide Refines, Inv, Enabled, Apply, Undone, PassedOver, LapsedOf, Written, WellFormed, SaysSame, Announced;
    var m := ExpiryMove(before, i, now);
    BehindUndone(d, before, rest, s, i);
    LapsedBefore(s0, s, passed, now, i, before);
    MoveCore(s, m);
    WasRunning(s, m);
    OneExpired(d, before, rest, s, m);
    AnnouncedKeeps(d, i);
    OneMoreWritten(d, Announced(d, i), before, hits, s0, s, passed, rest, now, m);
  }

  lemma BehindUndone(d: Rows, before: map<Id, ActivityRow>, rest: set<Id>, s: State, i: Id)
    requires Refines(Undone(d, before, rest), s) && before.Keys == d.activities.Keys && i in rest && i in before
    ensures i in s.activities && SaysSame(before[i], s.activities[i])
  {
    SaysSameAt(Undone(d, before, rest), s, i);
  }

  lemma AnnouncedKeeps(d: Rows, i: Id)
    requires i in d.activities && d.activities[i].workflow in d.workflows
    ensures Announced(d, i).activities == d.activities
  {
  }

  lemma WasRunning(s: State, m: Move)
    requires (m.Reap? || m.ReapFail?) && Enabled(s, m)
    ensures m.act in s.activities && s.activities[m.act].status == Running
  {
  }

  /** Moves made at one reading were added to the run. */
  lemma NoFinish(before: seq<Move>, middle: seq<Move>, after: seq<Move>)
    requires before <= middle <= after
    requires forall k :: |before| <= k < |middle| ==> IsExpiry(middle[k])
    requires forall k :: |middle| <= k < |after| ==> after[k].Release?
    ensures forall k :: |before| <= k < |after| ==> !after[k].Finish?
  {
    forall k | |before| <= k < |middle| ensures after[k] == middle[k] {
    }
  }

  ghost predicate Appended(before: seq<Move>, after: seq<Move>, now: Time) {
    before <= after && forall k :: |before| <= k < |after| ==> after[k].at == now
  }

  ghost predicate OnlyReleases(before: seq<Move>, after: seq<Move>, now: Time) {
    Appended(before, after, now) && forall k :: |before| <= k < |after| ==> after[k].Release?
  }

  ghost predicate OnlyExpiries(before: seq<Move>, after: seq<Move>, now: Time) {
    Appended(before, after, now) && forall k :: |before| <= k < |after| ==> IsExpiry(after[k])
  }

  lemma NoMovesYet(moves: seq<Move>, now: Time)
    ensures OnlyReleases(moves, moves, now) && OnlyExpiries(moves, moves, now)
  {
  }

  lemma OneMoreMove(before: seq<Move>, after: seq<Move>, m: Move, now: Time)
    requires m.at == now
    ensures OnlyReleases(before, after, now) && m.Release? ==> OnlyReleases(before, after + [m], now)
    ensures OnlyExpiries(before, after, now) && IsExpiry(m) ==> OnlyExpiries(before, after + [m], now)
  {
  }

  lemma ReleasesAppend(before: seq<Move>, after: seq<Move>, now: Time)
    requires OnlyReleases(before, after, now) || OnlyExpiries(before, after, now)
    ensures before <= after
  {
  }

  lemma ReleasedDates(activities: map<Id, ActivityRow>, hits: set<Id>)
    ensures SameDates(activities, Released(activities, hits)) && Released(activities, hits).Keys == activities.Keys
  {
  }

  lemma ReleasedRows(activities: map<Id, ActivityRow>, hits: set<Id>, now: Time)
    requires forall i :: i in hits ==>
      i in activities && activities[i].status == RetryPending && activities[i].nextAttemptAt <= now
    ensures forall i :: i in activities ==>
      && i in Released(activities, hits)
      && var row, later := activities[i], Released(activities, hits)[i];
         later == row || (row.status == RetryPending && row.nextAttemptAt <= now && later == row.(status := Ready))
  {
  }

  lemma ExpiredInPlace(activities: map<Id, ActivityRow>, hits: set<Id>, now: Time)
    requires forall i :: i in hits <==> i in activities && HasLapsed(activities[i], now)
    ensures forall i :: i in activities ==>
      && i in ExpiredRows(activities, hits)
      && var row := activities[i];
         ExpiredRows(activities, hits)[i] ==
           if row.status == Running && row.leaseExpiresAt.Some? && row.leaseExpiresAt.value <= now
           then row.(status := if row.attempt < row.maxAttempts then Ready else Failed, leaseOwner := None)
           else row
  {
  }

  lemma ExpiredDates(activities: map<Id, ActivityRow>, hits: set<Id>)
    ensures SameDates(activities, ExpiredRows(activities, hits)) && ExpiredRows(activities, hits).Keys == activities.Keys
  {
  }

  function Released(activities: map<Id, ActivityRow>, hits: set<Id>): map<Id, ActivityRow> {
    map i | i in activities :: if i in hits then activities[i].(status := Ready) else activities[i]
  }

  lemma ReleasedOnly(activities: map<Id, ActivityRow>, hits: set<Id>)
    ensures Released(activities, hits).Keys == activities.Keys
    ensures forall i :: i in activities && i !in hits ==> Released(activities, hits)[i] == activities[i]
  {
  }

  /** The rows as they were before the statement whose events are still to be written for rest. */
  ghost function Undone(d: Rows, before: map<Id, ActivityRow>, rest: set<Id>): Rows {
    d.(activities := map i | i in d.activities :: if i in rest && i in before then before[i] else d.activities[i])
  }

  lemma AllUndone(d: Rows, after: map<Id, ActivityRow>, hits: set<Id>)
    requires after.Keys == d.activities.Keys && hits <= after.Keys
    requires forall i :: i in after && i !in hits ==> after[i] == d.activities[i]
    ensures Undone(d.(activities := after), d.activities, hits) == d
  {
    assert Undone(d.(activities := after), d.activities, hits).activities == d.activities;
  }

  lemma NothingUndone(d: Rows, before: map<Id, ActivityRow>)
    ensures Undone(d, before, {}) == d
  {
    assert Undone(d, before, {}).activities == d.activities;
  }

  lemma NothingPassed(s: State, now: Time)
    ensures PassedOver(s, s, {}, now)
  {
  }

  /** The condition of the release statement picks what is due. */
  lemma HitsAreDue(d: Rows, s: State, scope: Id, now: Time, hits: set<Id>)
    requires Refines(d, s) && Inv(s)
    requires forall i :: i in hits <==>
      i in d.activities && d.activities[i].status == RetryPending && d.activities[i].nextAttemptAt <= now
      && (scope == "" || d.activities[i].workflow == scope) && NoneOpen(d, d.activities[i])
    ensures hits == DueOf(s, scope, now)
  {
    hide Refines, DependenciesDone, NoneOpen, Gated, Consistent, UniqueKeys, Counted, WellFormed;
    SameIds(d, s);
    forall i | i in d.activities ensures i in hits <==> i in DueOf(s, scope, now) {
      RowBehind(d, s, i);
      NoneOpenMeansDone(d, s, i);
    }
  }

  /** What was due at the beginning, and was not passed over yet, can still be released. */
  lemma DueBefore(s: State, t: State, passed: set<Id>, now: Time, i: Id, scope: Id)
    requires Inv(s) && PassedOver(s, t, passed, now) && i in DueOf(s, scope, now) && i !in passed
    ensures Enabled(t, Release(now, i)) && WellFormed(s) && i in s.activities
  {
    hide DependenciesDone, PassedOver;
    SameBefore(s, t, passed, now, i);
  }

  /** The rows from the k-th on. */
  ghost function Ahead(rows: seq<Id>, k: nat): set<Id>
    requires k <= |rows|
  {
    set i | i in rows[k..]
  }

  lemma AheadOfAll(rows: seq<Id>, ids: set<Id>)
    requires Lists(rows, ids)
    ensures Ahead(rows, 0) == ids && Ahead(rows, |rows|) == {}
  {
    assert rows[0..] == rows;
  }

  lemma AheadOfNext(rows: seq<Id>, ids: set<Id>, k: nat)
    requires Lists(rows, ids) && k < |rows|
    ensures rows[k] in Ahead(rows, k) && Ahead(rows, k + 1) == Ahead(rows, k) - {rows[k]}
  {
    assert rows[k..] == [rows[k]] + rows[k + 1..];
  }

  /** A statement has changed the rows of hits; the events for passed are written and the run has
      followed, the events for rest are still to come. */
  ghost predicate HalfWritten(d: Rows, before: map<Id, ActivityRow>, hits: set<Id>, s0: State, s: State,
                              passed: set<Id>, rest: set<Id>, now: Time)
  {
    && Inv(s0) && Inv(s) && passed !! rest && passed + rest == hits <= before.Keys == d.activities.Keys
    && (forall i :: i in before && i !in hits ==> d.activities[i] == before[i])
    && PassedOver(s0, s, passed, now) && Refines(Undone(d, before, rest), s)
  }

  lemma NothingWritten(d: Rows, s: State, hits: set<Id>, after: map<Id, ActivityRow>, now: Time)
    requires Refines(d, s) && Inv(s) && hits <= d.activities.Keys == after.Keys
    requires forall i :: i in after && i !in hits ==> after[i] == d.activities[i]
    ensures HalfWritten(d.(activities := after), d.activities, hits, s, s, {}, hits, now)
  {
    hide Refines, Inv, PassedOver, Undone;
    NothingPassed(s, now);
    AllUndone(d, after, hits);
    assert {} + hits == hits;
  }

  lemma AllWritten(d: Rows, before: map<Id, ActivityRow>, hits: set<Id>, s0: State, s: State, passed: set<Id>, now: Time)
    requires HalfWritten(d, before, hits, s0, s, passed, {}, now)
    ensures Refines(d, s) && PassedOver(s0, s, hits, now)
  {
    hide Refines, Inv, PassedOver, Undone;
    assert passed + {} == passed;
    NothingUndone(d, before);
  }

  /** One more of the hits is written: its move is made, and its row is no longer ahead of the run. */
  lemma OneMoreWritten(d: Rows, d': Rows, before: map<Id, ActivityRow>, hits: set<Id>, s0: State, s: State,
                       passed: set<Id>, rest: set<Id>, now: Time, m: Move)
    requires HalfWritten(d, before, hits, s0, s, passed, rest, now) && d'.activities == d.activities
    requires (m.Reap? || m.ReapFail? || m.Release?) && m.at == now && m.act in rest && Enabled(s, m)
    requires m.act in s0.activities && m.act !in passed
    requires Refines(Undone(d', before, rest - {m.act}), Apply(s, m))
    ensures HalfWritten(d', before, hits, s0, Apply(s, m), passed + {m.act}, rest - {m.act}, now)
  {
    hide Refines, Enabled, Apply, Undone, PassedOver, Counted, Gated, Consistent, UniqueKeys, WellFormed;
    KeepsInv(s, m);
    MovePasses(s0, s, passed, now, m);
    assert passed + {m.act} + (rest - {m.act}) == passed + rest;
  }

  lemma ReleaseStep(d: Rows, before: map<Id, ActivityRow>, hits: set<Id>, s0: State, s: State,
                    passed: set<Id>, rest: set<Id>, scope: Id, now: Time, i: Id)
    requires HalfWritten(d, before, hits, s0, s, passed, rest, now) && i in rest
    requires hits == DueOf(s0, scope, now) && d.activities == Released(before, hits)
    ensures i in d.activities && Enabled(s, Release(now, i))
    ensures HalfWritten(d.(events := d.events + [EventRow(d.activities[i].workflow, Entry(i, ReadyEvent))]),
                        before, hits, s0, Apply(s, Release(now, i)), passed + {i}, rest - {i}, now)
  {
    hide Refines, Inv, Enabled, Apply, Undone, PassedOver, DueOf, Written, WellFormed, SaysSame;
    var m := Release(now, i);
    DueBefore(s0, s, passed, now, i, scope);
    MoveCore(s, m);
    WaitingToReady(s, m);
    OneReleased(d, before, rest, s, m);
    OneMoreWritten(d, d.(events := d.events + [EventRow(d.activities[i].workflow, Entry(i, ReadyEvent))]),
                   before, hits, s0, s, passed, rest, now, m);
  }

  lemma WaitingToReady(s: State, m: Move)
    requires m.Release? && Enabled(s, m)
    ensures m.act in s.activities && s.activities[m.act].status == RetryPending
  {
  }

  /** The event of one released row is written. */
  lemma OneReleased(d: Rows, before: map<Id, ActivityRow>, rest: set<Id>, s: State, m: Move)
    requires Refines(Undone(d, before, rest), s) && Inv(s) && m.Release? && m.act in rest && Known(s, m.act)
    requires before.Keys == d.activities.Keys && m.act in before
    requires d.activities[m.act] == before[m.act].(status := Ready) && s.activities[m.act].status != Running
    ensures Refines(Undone(d.(events := d.events + [EventRow(d.activities[m.act].workflow, Entry(m.act, ReadyEvent))]),
                           before, rest - {m.act}), Written(s, m))
  {
    hide Refines, Inv, Emit;
    var i := m.act;
    var u, w := Undone(d, before, rest), d.activities[i].workflow;
    RowBehind(u, s, i);
    RowUpdated(u, s, i, d.activities[i], After(s.activities[i], m, i));
    var v := u.(activities := u.activities[i := d.activities[i]]);
    EventInserted(v, Rewritten(s, m), w, Entry(i, ReadyEvent));
    assert Undone(d.(events := d.events + [EventRow(w, Entry(i, ReadyEvent))]), before, rest - {i}).activities == v.activities;
  }

  /** The statements for a final failure. */
  lemma GivenUp(d: Rows, s: State, m: Move)
    requires Refines(d, s) && Inv(s) && m.Fail? && m.act in d.activities && Known(s, m.act)
    ensures var row := d.activities[m.act];
      && row.workflow in d.workflows
      && Refines(d.(activities := d.activities[m.act := row.(status := Failed, leaseOwner := None)],
                    workflows := d.workflows[row.workflow := d.workflows[row.workflow].(status := WorkflowFailed)],
                    events := d.events + [EventRow(row.workflow, Entry(m.act, FailedEvent))]
                                       + [EventRow(row.workflow, Entry("", WorkflowFailedEvent))]),
                 Written(s, m))
  {
    hide Refines, Inv, Emit;
    RowBehind(d, s, m.act);
    var row, a := d.activities[m.act], After(s.activities[m.act], m, m.act);
    var d1 := d.(activities := d.activities[m.act := row.(status := Failed, leaseOwner := None)]);
    RowUpdated(d, s, m.act, d1.activities[m.act], a);
    StatusUpdated(d1, s.(activities := s.activities[m.act := a]), row.workflow, WorkflowFailed);
    TwoEventsInserted(d1.(workflows := d1.workflows[row.workflow := d1.workflows[row.workflow].(status := WorkflowFailed)]),
                      Rewritten(s, m), row.workflow, Entry(m.act, FailedEvent), Entry("", WorkflowFailedEvent));
  }

  lemma RejectPossible(s: State, m: Move)
    requires m.Reject? && IsStale(m.kind) && Known(s, m.act)
    requires MessageAnswer(s, m.act, m.worker, m.token, m.at) == Refused(StaleLease)
    ensures Enabled(s, m)
  {
  }

  lemma NothingRewritten(s: State, m: Move)
    requires m.Reject? && Known(s, m.act)
    ensures Rewritten(s, m) == s
  {
    assert s.activities[m.act := s.activities[m.act]] == s.activities;
  }

  /** An accepted message can make its move. */
  lemma CurrentEnables(s: State, m: Move)
    requires m.Heartbeat? || m.Complete? || m.Retry? || m.Fail?
    requires Known(s, m.act) && MessageAnswer(s, m.act, m.worker, m.token, m.at).Accepted?
    requires m.Retry? ==> s.activities[m.act].attempt < s.activities[m.act].maxAttempts
    ensures Enabled(s, m)
  {
  }
}
