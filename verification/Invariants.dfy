/** What every move of the lease machine keeps, hence what holds in every reachable state. */
module Invariants {
  import opened Machine

  /** Records refer to existing records; names identify activities inside a workflow. */
  ghost predicate WellFormed(s: State) {
    && (forall i :: i in s.activities ==> s.activities[i].workflow in s.workflows)
    && (forall i, j :: Siblings(s, i, j) && s.activities[i].name == s.activities[j].name ==> i == j)
    && (forall i, d :: i in s.activities && d in s.activities[i].dependsOn ==>
          Names(s.activities, s.activities[i].workflow, d))
    && (forall w :: w in s.workflows ==> HasActivity(s, w))
    && (forall w :: w in s.events ==> w in s.workflows)
  }

  ghost predicate HasActivity(s: State, w: Id) {
    exists i :: i in s.activities && s.activities[i].workflow == w
  }

  /** The counters of one activity agree with each other, and an idle activity has no owner. */
  predicate Counters(a: Activity) {
    && a.fencingToken == a.attempt <= a.maxAttempts && 0 < a.maxAttempts
    && (Pending(a) ==> a.attempt < a.maxAttempts)
    && (a.status in {Running, Completed, Failed} ==> 0 < a.attempt)
    && (a.status != Running ==> a.leaseOwner == "")
  }

  ghost predicate Counted(s: State) {
    forall i :: i in s.activities ==> Counters(s.activities[i])
  }

  /** An activity that was ever let through has all its dependencies completed. */
  ghost predicate Gated(s: State) {
    forall i :: i in s.activities && LetThrough(s.activities[i])
      ==> DependenciesDone(s.activities, s.activities[i])
  }

  predicate LetThrough(a: Activity) {
    0 < a.attempt || a.status in {Ready, Running, Completed, Failed}
  }

  ghost predicate HasFailed(s: State, w: Id) {
    exists i :: i in s.activities && s.activities[i].workflow == w && s.activities[i].status == Failed
  }

  /** The status of a workflow agrees with the statuses of its activities. */
  ghost predicate Consistent(s: State) {
    && (forall w :: w in s.workflows ==> (s.workflows[w].status == WorkflowFailed <==> HasFailed(s, w)))
    && (forall i :: Known(s, i) ==> Agrees(s.activities[i].status, s.workflows[s.activities[i].workflow].status))
  }

  predicate Agrees(a: ActivityStatus, w: WorkflowStatus) {
    match w
    case WorkflowCompleted => a == Completed
    case WorkflowRunning => a != Failed && a != Cancelled
    case WorkflowCancelled => a != Failed
    case WorkflowFailed => true
  }

  /** A pair of namespace and non-empty key names at most one workflow. */
  ghost predicate UniqueKeys(s: State) {
    forall v, w :: v in s.workflows && w in s.workflows && s.workflows[v].key != ""
      && s.workflows[v].namespace == s.workflows[w].namespace && s.workflows[v].key == s.workflows[w].key
      ==> v == w
  }

  ghost predicate Inv(s: State) {
    WellFormed(s) && Counted(s) && Gated(s) && Consistent(s) && UniqueKeys(s)
  }

  lemma InvIsWellFormed(s: State)
    requires Inv(s)
    ensures WellFormed(s)
  {
  }

  /** The part of a record that never changes. */
  predicate SameDefinition(a: Activity, b: Activity) {
    && a.workflow == b.workflow && a.name == b.name && a.taskQueue == b.taskQueue
    && a.maxAttempts == b.maxAttempts && a.dependsOn == b.dependsOn && a.retryBackoff == b.retryBackoff
  }

  predicate Later(a: Activity, b: Activity) {
    && SameDefinition(a, b) && a.attempt <= b.attempt && a.fencingToken <= b.fencingToken
    && (a.status == Completed ==> b == a)
  }

  /** What a move other than a launch makes of the record a, stored under id i. */
  function After(a: Activity, m: Move, i: Id): Activity
    requires !m.Launch?
  {
    if m.Finish? || (!m.Cancel? && m.act != i) then a
    else match m
    case Cancel(_, w, _) => if a.workflow == w && Pending(a) then a.(status := Cancelled) else a
    case Claim(_, _, worker, _, expires) =>
      a.(status := Running, attempt := a.attempt + 1, leaseOwner := worker,
         fencingToken := a.fencingToken + 1, leaseExpiresAt := expires)
    case Heartbeat(_, _, _, _, expires) => a.(leaseExpiresAt := expires)
    case Complete(_, _, _, _) => a.(status := Completed, leaseOwner := "")
    case Retry(_, _, _, _, nextAt) => a.(status := RetryPending, leaseOwner := "", nextAttemptAt := nextAt)
    case Fail(_, _, _, _) => a.(status := Failed, leaseOwner := "")
    case Reject(_, _, _, _, _) => a
    case Reap(_, _) => a.(status := Ready, leaseOwner := "")
    case ReapFail(_, _, _) => a.(status := Failed, leaseOwner := "")
    case Release(_, _) => a.(status := Ready)
  }

  lemma AfterMove(s: State, m: Move, i: Id)
    requires Enabled(s, m) && !m.Launch? && i in s.activities
    ensures i in Apply(s, m).activities && Apply(s, m).activities[i] == After(s.activities[i], m, i)
  {
  }

  /** The status of workflow w after a move. */
  ghost function StatusAfter(s: State, m: Move, w: Id): WorkflowStatus
    requires Enabled(s, m) && w in s.workflows
  {
    if (m.Fail? || m.ReapFail?) && s.activities[m.act].workflow == w then WorkflowFailed
    else if m.Finish? && m.workflow == w then WorkflowCompleted
    else if m.Cancel? && m.workflow == w then WorkflowCancelled
    else s.workflows[w].status
  }

  lemma StatusEffect(s: State, m: Move, w: Id)
    requires Enabled(s, m) && w in s.workflows
    ensures w in Apply(s, m).workflows && Apply(s, m).workflows[w].status == StatusAfter(s, m, w)
  {
    hide DependenciesDone;
  }

  /** What the guard of a move says about the statuses it starts from. */
  lemma StatusesBefore(s: State, m: Move)
    requires Enabled(s, m)
    ensures !m.Launch? && !m.Finish? && !m.Cancel? ==> Known(s, m.act)
    ensures m.Fail? || m.ReapFail? ==> s.activities[m.act].status == Running
    ensures m.Claim? ==> s.activities[m.act].status == Ready
    ensures m.Heartbeat? || m.Complete? || m.Retry? || m.Reap? || m.Reject? ==> s.activities[m.act].status == Running
    ensures m.Release? ==> s.activities[m.act].status == RetryPending
    ensures m.Reject? ==> IsStale(m.kind)
    ensures m.Finish? || m.Cancel? ==> m.workflow in s.workflows && s.workflows[m.workflow].status == WorkflowRunning
    ensures m.Finish? ==> AllCompleted(s.activities, m.workflow)
  {
    hide DependenciesDone;
  }

  /** t can come after s: nothing is deleted, a completed activity stays as it is, the counters
      only grow, and new activities belong to new workflows. */
  ghost predicate Evolves(s: State, t: State) {
    && (forall w :: w in s.workflows ==>
          w in t.workflows && t.workflows[w].(status := s.workflows[w].status) == s.workflows[w])
    && (forall i :: i in s.activities ==> i in t.activities && Later(s.activities[i], t.activities[i]))
    && (forall i :: i in t.activities && i !in s.activities ==> t.activities[i].workflow !in s.workflows)
  }

  lemma EvolvesThrough(s: State, t: State, u: State)
    requires Evolves(s, t) && Evolves(t, u)
    ensures Evolves(s, u)
  {
    forall i | i in u.activities && i !in s.activities ensures u.activities[i].workflow !in s.workflows {
      if i in t.activities { assert SameDefinition(t.activities[i], u.activities[i]); }
    }
  }

  /** t is s with the records of a launch. */
  ghost predicate Grown(s: State, m: Move, t: State)
    requires m.Launch?
  {
    && m.workflow !in s.workflows && t.workflows == s.workflows[m.workflow := m.info]
    && (forall i :: i in s.activities ==> i in t.activities && t.activities[i] == s.activities[i])
    && (forall k :: 0 <= k < |m.rows| ==>
          m.rows[k].id !in s.activities && m.rows[k].id in t.activities
          && t.activities[m.rows[k].id] == m.rows[k].activity)
    && (forall i :: i in t.activities && i !in s.activities ==>
          HasRow(m.rows, i) && Fresh(t.activities[i], m.workflow, m.at))
  }

  lemma LaunchGrows(s: State, m: Move)
    requires m.Launch? && Enabled(s, m)
    ensures Grown(s, m, Apply(s, m)) && CanLaunch(s, m.at, m.workflow, m.info, m.rows)
    ensures forall w :: w in Apply(s, m).events ==> w in s.events || w == m.workflow
  {
    AddRowsExtends(s.activities, m.rows);
  }

  lemma LaunchEvolves(s: State, m: Move)
    requires m.Launch? && Enabled(s, m)
    ensures Evolves(s, Apply(s, m))
  {
    LaunchGrows(s, m);
  }

  /** The record of one activity under a move other than a launch. */
  lemma RecordEvolves(s: State, m: Move, i: Id)
    requires Enabled(s, m) && !m.Launch? && i in s.activities
    ensures i in Apply(s, m).activities && Later(s.activities[i], Apply(s, m).activities[i])
  {
    hide Apply, Enabled;
    AfterMove(s, m, i);
    StatusesBefore(s, m);
  }

  lemma MoveEvolves(s: State, m: Move)
    requires Enabled(s, m)
    ensures Evolves(s, Apply(s, m))
  {
    if m.Launch? {
      LaunchEvolves(s, m);
    } else {
      SameRecords(s, m);
      var t := Apply(s, m);
      forall i | i in s.activities ensures i in t.activities && Later(s.activities[i], t.activities[i]) {
        RecordEvolves(s, m, i);
      }
      forall w | w in s.workflows
        ensures w in t.workflows && t.workflows[w].(status := s.workflows[w].status) == s.workflows[w]
      {
      }
    }
  }

  lemma {:induction false} RunEvolves(ss: seq<State>, ms: seq<Move>, j: nat, k: nat)
    requires IsRun(ss, ms) && j <= k <= |ms|
    ensures Evolves(ss[j], ss[k])
    decreases k - j
  {
    hide Apply, Enabled;
    if j < k {
      RunEvolves(ss, ms, j, k - 1);
      assert StepAt(ss, ms, k - 1);
      MoveEvolves(ss[k - 1], ms[k - 1]);
      EvolvesThrough(ss[j], ss[k - 1], ss[k]);
    }
  }

  /** Completed dependencies stay completed: siblings are created together and completion is final. */
  lemma DoneStays(s: State, t: State, i: Id)
    requires Evolves(s, t) && Known(s, i) && DependenciesDone(s.activities, s.activities[i])
    ensures DependenciesDone(t.activities, t.activities[i])
  {
    var w := s.activities[i].workflow;
    forall d | d in t.activities[i].dependsOn
      ensures Names(t.activities, w, d) && NameCompleted(t.activities, w, d)
    {
      assert Names(s.activities, w, d) && NameCompleted(s.activities, w, d);
      var j :| j in s.activities && s.activities[j].workflow == w && s.activities[j].name == d;
      assert Later(s.activities[j], t.activities[j]);
    }
  }

  lemma LaunchKeepsWellFormed(s: State, m: Move)
    requires m.Launch? && Enabled(s, m) && WellFormed(s)
    ensures WellFormed(Apply(s, m))
  {
    hide Apply, Enabled;
    LaunchGrows(s, m);
    var t, w := Apply(s, m), m.workflow;
    forall i, d | i in t.activities && d in t.activities[i].dependsOn
      ensures Names(t.activities, t.activities[i].workflow, d)
    {
      if i in s.activities {
        var j :| j in s.activities && s.activities[j].workflow == s.activities[i].workflow
                 && s.activities[j].name == d;
        assert j in t.activities;
      } else {
        var k :| 0 <= k < |m.rows| && m.rows[k].id == i;
        assert RowNamed(m.rows, d);
        var j :| 0 <= j < |m.rows| && m.rows[j].activity.name == d;
        assert m.rows[j].id in t.activities;
      }
    }
    forall v | v in t.workflows ensures HasActivity(t, v) {
      if v == w {
        assert m.rows[0].id in t.activities;
      } else {
        assert HasActivity(s, v);
      }
    }
    forall i, j | Siblings(t, i, j) && t.activities[i].name == t.activities[j].name ensures i == j {
      LaunchedNamesUnique(s, m, i, j);
    }
  }

  lemma LaunchedNamesUnique(s: State, m: Move, i: Id, j: Id)
    requires m.Launch? && Enabled(s, m) && WellFormed(s)
    requires Siblings(Apply(s, m), i, j) && Apply(s, m).activities[i].name == Apply(s, m).activities[j].name
    ensures i == j
  {
    hide Apply, Enabled, Names, HasActivity;
    LaunchGrows(s, m);
    if i in s.activities || j in s.activities {
      assert i in s.activities && j in s.activities;
      assert Siblings(s, i, j);
    } else {
      assert HasRow(m.rows, i) && HasRow(m.rows, j);
    }
  }

  lemma KeepsWellFormed(s: State, m: Move)
    requires Enabled(s, m) && WellFormed(s)
    ensures WellFormed(Apply(s, m))
  {
    if m.Launch? {
      LaunchKeepsWellFormed(s, m);
    } else {
      MoveEvolves(s, m);
      SameRecords(s, m);
      SameRecordsWellFormed(s, Apply(s, m));
    }
  }

  lemma SameRecordsWellFormed(s: State, t: State)
    requires WellFormed(s) && Evolves(s, t)
    requires t.activities.Keys == s.activities.Keys && t.workflows.Keys == s.workflows.Keys
    requires t.events.Keys <= t.workflows.Keys
    ensures WellFormed(t)
  {
    forall i | i in t.activities ensures t.activities[i].workflow in t.workflows {
      assert Later(s.activities[i], t.activities[i]);
    }
    forall i, d | i in t.activities && d in t.activities[i].dependsOn
      ensures Names(t.activities, t.activities[i].workflow, d)
    {
      NamesStay(s, t, i, d);
    }
    forall w | w in t.workflows ensures HasActivity(t, w) {
      ActivityStays(s, t, w);
    }
    forall i, j | Siblings(t, i, j) && t.activities[i].name == t.activities[j].name ensures i == j {
      NamesStayUnique(s, t, i, j);
    }
  }

  lemma ActivityStays(s: State, t: State, w: Id)
    requires Evolves(s, t) && HasActivity(s, w)
    ensures HasActivity(t, w)
  {
    var i :| i in s.activities && s.activities[i].workflow == w;
    assert Later(s.activities[i], t.activities[i]);
  }

  lemma NamesStay(s: State, t: State, i: Id, d: string)
    requires WellFormed(s) && Evolves(s, t) && i in s.activities && i in t.activities
    requires d in t.activities[i].dependsOn
    ensures Names(t.activities, t.activities[i].workflow, d)
  {
    assert Later(s.activities[i], t.activities[i]);
    assert Names(s.activities, s.activities[i].workflow, d);
    var j :| j in s.activities && s.activities[j].workflow == s.activities[i].workflow
             && s.activities[j].name == d;
    assert Later(s.activities[j], t.activities[j]);
  }

  lemma NamesStayUnique(s: State, t: State, i: Id, j: Id)
    requires WellFormed(s) && Evolves(s, t) && t.activities.Keys == s.activities.Keys
    requires Siblings(t, i, j) && t.activities[i].name == t.activities[j].name
    ensures i == j
  {
    assert Later(s.activities[i], t.activities[i]) && Later(s.activities[j], t.activities[j]);
    assert Siblings(s, i, j);
  }

  /** Only a launch adds records. */
  lemma SameRecords(s: State, m: Move)
    requires Enabled(s, m) && !m.Launch?
    ensures Apply(s, m).activities.Keys == s.activities.Keys
    ensures Apply(s, m).workflows.Keys == s.workflows.Keys
    ensures Apply(s, m).events.Keys == s.events.Keys + {Home(s, m)}
    ensures Home(s, m) in s.workflows
  {
  }

  lemma KeepsCounted(s: State, m: Move)
    requires Enabled(s, m) && Counted(s)
    ensures Counted(Apply(s, m))
  {
    hide Apply, Enabled, Counters;
    var t := Apply(s, m);
    if m.Launch? {
      LaunchGrows(s, m);
      forall i | i in t.activities && i !in s.activities ensures Counters(t.activities[i]) {
        FreshCounters(t.activities[i], m.workflow, m.at);
      }
    } else {
      SameRecords(s, m);
      forall i | i in t.activities ensures Counters(t.activities[i]) {
        StillCounts(s, m, i);
      }
    }
  }

  lemma FreshCounters(a: Activity, w: Id, at: Time)
    requires Fresh(a, w, at)
    ensures Counters(a)
  {
  }

  lemma StillCounts(s: State, m: Move, i: Id)
    requires Enabled(s, m) && !m.Launch? && i in s.activities && Counters(s.activities[i])
    ensures i in Apply(s, m).activities && Counters(Apply(s, m).activities[i])
  {
    hide Apply, DependenciesDone;
    AfterMove(s, m, i);
  }

  /** Nothing is let through, unless it was before, it has no dependencies or they are completed. */
  lemma LetThroughBy(s: State, m: Move, i: Id)
    requires Enabled(s, m) && i in Apply(s, m).activities && LetThrough(Apply(s, m).activities[i])
    ensures if i in s.activities then
              LetThrough(s.activities[i]) || DependenciesDone(s.activities, s.activities[i])
            else Apply(s, m).activities[i].dependsOn == []
  {
    if m.Launch? {
      AddRowsExtends(s.activities, m.rows);
      if i !in s.activities { assert HasRow(m.rows, i); }
    }
  }

  lemma KeepsGated(s: State, m: Move)
    requires Enabled(s, m) && WellFormed(s) && Gated(s)
    ensures Gated(Apply(s, m))
  {
    var t := Apply(s, m);
    forall i | i in t.activities && LetThrough(t.activities[i])
      ensures DependenciesDone(t.activities, t.activities[i])
    {
      LetThroughBy(s, m, i);
      if i in s.activities {
        MoveEvolves(s, m);
        DoneStays(s, t, i);
      }
    }
  }

  lemma LaunchKeepsConsistent(s: State, m: Move)
    requires m.Launch? && Enabled(s, m) && WellFormed(s) && Consistent(s)
    ensures Consistent(Apply(s, m))
  {
    hide Apply, Enabled;
    LaunchGrows(s, m);
    var t := Apply(s, m);
    forall w | w in t.workflows ensures t.workflows[w].status == WorkflowFailed <==> HasFailed(t, w) {
      if w != m.workflow {
        assert s.workflows[w].status == WorkflowFailed <==> HasFailed(s, w);
        if HasFailed(s, w) {
          var i :| i in s.activities && s.activities[i].workflow == w && s.activities[i].status == Failed;
          assert t.activities[i] == s.activities[i];
        }
      }
    }
  }

  lemma KeepsConsistent(s: State, m: Move)
    requires Enabled(s, m) && WellFormed(s) && Consistent(s)
    ensures Consistent(Apply(s, m))
  {
    if m.Launch? {
      LaunchKeepsConsistent(s, m);
    } else {
      SameRecords(s, m);
      KeepsAgreement(s, m);
      var t := Apply(s, m);
      forall w | w in t.workflows ensures t.workflows[w].status == WorkflowFailed <==> HasFailed(t, w) {
        FailedTogether(s, m, w);
      }
    }
  }

  /** Which moves end an activity in failure or cancellation. */
  lemma StatusOfActivity(s: State, m: Move, i: Id)
    requires Enabled(s, m) && !m.Launch? && i in s.activities
    ensures i in Apply(s, m).activities
    ensures var a, b := s.activities[i], Apply(s, m).activities[i];
      && b.workflow == a.workflow
      && (b.status == Failed <==> a.status == Failed || ((m.Fail? || m.ReapFail?) && m.act == i))
      && (b.status == Cancelled <==> a.status == Cancelled || (m.Cancel? && a.workflow == m.workflow && Pending(a)))
      && (a.status == Completed ==> b.status == Completed)
  {
    hide Apply, Enabled, DependenciesDone;
    AfterMove(s, m, i);
    StatusesBefore(s, m);
  }

  lemma KeepsAgreement(s: State, m: Move)
    requires Enabled(s, m) && !m.Launch? && WellFormed(s) && Consistent(s)
    ensures var t := Apply(s, m);
            forall i :: Known(t, i) ==> Agrees(t.activities[i].status, t.workflows[t.activities[i].workflow].status)
  {
    hide Apply, Enabled, Agrees, WellFormed, Consistent;
    SameRecords(s, m);
    var t := Apply(s, m);
    forall i | Known(t, i)
      ensures Agrees(t.activities[i].status, t.workflows[t.activities[i].workflow].status)
    {
      StillAgrees(s, m, i);
    }
  }

  lemma StillAgrees(s: State, m: Move, i: Id)
    requires Enabled(s, m) && !m.Launch? && WellFormed(s) && Consistent(s) && i in s.activities
    ensures var t := Apply(s, m);
            Known(t, i) && Agrees(t.activities[i].status, t.workflows[t.activities[i].workflow].status)
  {
    hide Apply, Enabled, HasFailed, After;
    var w := s.activities[i].workflow;
    assert Known(s, i);
    assert Agrees(s.activities[i].status, s.workflows[w].status);
    StatusOfActivity(s, m, i);
    StatusEffect(s, m, w);
    StatusesBefore(s, m);
    assert m.Finish? && m.workflow == w ==> s.activities[i].status == Completed;
  }

  lemma FailedTogether(s: State, m: Move, w: Id)
    requires Enabled(s, m) && !m.Launch? && Consistent(s) && w in s.workflows
    ensures Apply(s, m).workflows[w].status == WorkflowFailed <==> HasFailed(Apply(s, m), w)
  {
    hide Apply, Enabled, Agrees;
    StatusEffect(s, m, w);
    StatusesBefore(s, m);
    FailedAfter(s, m, w);
    assert s.workflows[w].status == WorkflowFailed <==> HasFailed(s, w);
    hide HasFailed;
  }

  /** A move fails an activity of workflow w, or leaves the failed ones as they are. */
  lemma FailedAfter(s: State, m: Move, w: Id)
    requires Enabled(s, m) && !m.Launch?
    ensures HasFailed(Apply(s, m), w) <==>
              HasFailed(s, w) || ((m.Fail? || m.ReapFail?) && m.act in s.activities && s.activities[m.act].workflow == w)
  {
    hide Apply, Enabled, After;
    SameRecords(s, m);
    StatusesBefore(s, m);
    var t := Apply(s, m);
    if HasFailed(s, w) {
      var i :| i in s.activities && s.activities[i].workflow == w && s.activities[i].status == Failed;
      StatusOfActivity(s, m, i);
    }
    if (m.Fail? || m.ReapFail?) && s.activities[m.act].workflow == w {
      StatusOfActivity(s, m, m.act);
    }
    if HasFailed(t, w) {
      var i :| i in t.activities && t.activities[i].workflow == w && t.activities[i].status == Failed;
      StatusOfActivity(s, m, i);
    }
  }

  lemma KeepsUniqueKeys(s: State, m: Move)
    requires Enabled(s, m) && UniqueKeys(s)
    ensures UniqueKeys(Apply(s, m))
  {
  }

  /** Every move keeps the invariant. */
  lemma KeepsInv(s: State, m: Move)
    requires Enabled(s, m) && Inv(s)
    ensures Inv(Apply(s, m))
  {
    KeepsWellFormed(s, m);
    KeepsCounted(s, m);
    KeepsGated(s, m);
    KeepsConsistent(s, m);
    KeepsUniqueKeys(s, m);
  }

  /** The invariant holds along every run that starts in a state that has it. */
  lemma {:induction false} RunKeepsInv(ss: seq<State>, ms: seq<Move>, k: nat)
    requires IsRun(ss, ms) && Inv(ss[0]) && k <= |ms|
    ensures Inv(ss[k])
  {
    hide Apply, Enabled, Inv;
    if 0 < k {
      RunKeepsInv(ss, ms, k - 1);
      assert StepAt(ss, ms, k - 1);
      KeepsInv(ss[k - 1], ms[k - 1]);
    }
  }

  lemma LeadsKeepsInv(s: State, ms: seq<Move>, t: State)
    requires Leads(s, ms, t) && Inv(s)
    ensures Inv(t) && Evolves(s, t)
  {
    hide Apply, Enabled, Inv, Evolves;
    var ss :| IsRun(ss, ms) && ss[0] == s && ss[|ms|] == t;
    RunKeepsInv(ss, ms, |ms|);
    RunEvolves(ss, ms, 0, |ms|);
  }

  lemma EmptyInv()
    ensures Inv(EMPTY)
  {
  }
}
