/** The two back ends end in the same records when they start from the same records at the same time:
    the one-by-one loops of the engine come to the same as the set-based statements of the database. */
module Agreement {
  import opened Backoff
  import opened EngineRuns
  import opened EngineSteps
  import opened Ids
  import opened Invariants
  import opened Machine
  import opened Scheduler
  import opened Starts
  import opened Statements
  import opened Tables

  ghost function DueAmong(s: State, ids: seq<Id>, now: Time): set<Id> {
    set i | i in ids && Due(s, i, now)
  }

  /** Releasing the listed activities one after the other, at one time, releases what was due at first. */
  lemma {:induction false} ReleaseAllPasses(s: State, ids: seq<Id>, ticks: seq<Time>, now: Time)
    requires WellFormed(s) && |ids| <= |ticks| && forall k :: 0 <= k < |ids| ==> ids[k] in s.activities
    requires forall j, k :: 0 <= j < k < |ids| ==> ids[j] != ids[k]
    requires forall k :: 0 <= k < |ids| ==> ticks[k] == now
    ensures PassedOver(s, ReleaseAll(s, ids, ticks), DueAmong(s, ids, now), now)
    decreases |ids|
  {
    hide Apply, Enabled, PassedOver, WellFormed, Due;
    if ids == [] {
      NothingPassed(s, now);
      assert DueAmong(s, ids, now) == {};
    } else {
      var n := |ids| - 1;
      ReleaseAllPasses(s, ids[..n], ticks, now);
      var t, xs, m := ReleaseAll(s, ids[..n], ticks), DueAmong(s, ids[..n], now), Release(now, ids[n]);
      assert ids == ids[..n] + [ids[n]];
      assert ids[n] !in xs;
      ReleasableMeansDue(s, t, xs, now, ids[n]);
      if Enabled(t, m) {
        MovePasses(s, t, xs, now, m);
        assert DueAmong(s, ids, now) == xs + {ids[n]};
      } else {
        assert DueAmong(s, ids, now) == xs;
      }
    }
  }

  lemma ReleasableMeansDue(s: State, t: State, xs: set<Id>, now: Time, i: Id)
    requires WellFormed(s) && PassedOver(s, t, xs, now) && i in s.activities && i !in xs
    ensures Enabled(t, Release(now, i)) <==> Due(s, i, now)
  {
    hide DependenciesDone, PassedOver;
    SameBefore(s, t, xs, now, i);
  }

  lemma MembersDue(e: EngineState, s: State, w: Id, now: Time)
    requires EngineInv(e) && w in e.members && WellFormed(s)
    requires ActivitiesOf(s, w) == ActivitiesOf(e.core, w)
    ensures DueAmong(s, e.members[w], now) == DueOf(s, w, now)
    ensures forall k :: 0 <= k < |e.members[w]| ==> e.members[w][k] in s.activities
    ensures forall j, k :: 0 <= j < k < |e.members[w]| ==> e.members[w][j] != e.members[w][k]
  {
    hide Due, Inv;
    assert Lists(e.members[w], ActivitiesOf(e.core, w));
    IdNotEmpty(e, w);
    forall i ensures i in DueAmong(s, e.members[w], now) <==> i in DueOf(s, w, now) {
      if i in DueOf(s, w, now) { assert i in ActivitiesOf(s, w) by { assert i in s.activities; } }
      if i in e.members[w] { assert i in ActivitiesOf(s, w); }
    }
    forall k | 0 <= k < |e.members[w]| ensures e.members[w][k] in s.activities {
      assert e.members[w][k] in ActivitiesOf(s, w);
    }
  }

  lemma IdNotEmpty(e: EngineState, w: Id)
    requires EngineInv(e) && w in e.core.workflows
    ensures w != ""
  {
    assert IssuedWorkflow(w, e.nextWorkflow);
    var k :| 1 <= k <= e.nextWorkflow && WorkflowId(k) == w;
  }

  lemma SameRecordsWrapUp(s: State, t: State, u: State, w: Id, now: Time)
    requires WrappedUp(s, t, w, now) && WrappedUp(s, u, w, now)
    ensures t.activities == u.activities && t.workflows == u.workflows
  {
  }

  /** An accepted completion: the engine's loops over the members, at one time, bring about exactly what
      the database's statements do. */
  lemma CompletionsAgree(e: EngineState, i: Id, worker: string, token: int, now: Time, ticks: seq<Time>, t: State)
    requires EngineInv(e) && MessageAnswer(e.core, i, worker, token, now).Accepted?
    requires |e.members[e.core.activities[i].workflow]| < |ticks| && forall k :: 0 <= k < |ticks| ==> ticks[k] == now
    requires Enabled(e.core, Complete(now, i, worker, token))
    requires WrappedUp(Apply(e.core, Complete(now, i, worker, token)), t, e.core.activities[i].workflow, now)
    ensures Completion(e, i, worker, token, now, ticks).activities == t.activities
    ensures Completion(e, i, worker, token, now, ticks).workflows == t.workflows
  {
    hide Apply, Enabled, Inv, Shaped, WellFormed, PassedOver, Due, DueOf, WrappedUp, ReleaseAll, FinishIfDone, Evolves;
    var w, m := e.core.activities[i].workflow, Complete(now, i, worker, token);
    Housed(e, i);
    var s := Apply(e.core, m);
    AfterCompletion(e, m);
    MembersDue(e, s, w, now);
    ReleaseAllPasses(s, e.members[w], ticks, now);
    var r := ReleaseAll(s, e.members[w], ticks);
    WrapsUp(s, r, w, now);
    SameRecordsWrapUp(s, FinishIfDone(r, w, now), t, w, now);
  }

  lemma AfterCompletion(e: EngineState, m: Move)
    requires EngineInv(e) && m.Complete? && Enabled(e.core, m)
    ensures Known(e.core, m.act)
    ensures var s, w := Apply(e.core, m), e.core.activities[m.act].workflow;
            WellFormed(s) && w in s.workflows && ActivitiesOf(s, w) == ActivitiesOf(e.core, w)
  {
    hide Apply, Shaped, Evolves, Gated, Counted, Consistent, UniqueKeys, WellFormed;
    KeepsInv(e.core, m);
    MoveEvolves(e.core, m);
    SameRecords(e.core, m);
    Housed(e, m.act);
    EngineRuns.SameActivities(e.core, Apply(e.core, m), e.core.activities[m.act].workflow);
  }

  /** A pass over the same records, whatever the logs, changes as many of them and to the same. */
  lemma PassesAgree(e: EngineState, s: State, t: State, now: Time)
    requires EngineInv(e)
    requires s.activities == e.core.activities && s.workflows == e.core.workflows
    requires t.activities == PassActivities(s, now) && t.workflows == PassWorkflows(s, now)
    ensures PassCall(e, now).core.activities == t.activities && PassCall(e, now).core.workflows == t.workflows
    ensures VisitCount(e.core, Sorted(e.core.activities.Keys), now) == |Changed(s, now)|
  {
    hide EngineInv, VisitAll, Sorted, VisitCount;
    EnginePass(e, now);
    assert PassActivities(s, now) == PassActivities(e.core, now);
    assert PassWorkflows(s, now) == PassWorkflows(e.core, now);
    assert Changed(s, now) == Changed(e.core, now);
  }

  // ---------------------------------------------------------------- queues and claims

  /** The activities of the two back ends are matched by the same claims exactly if a queue is named, or
      the claim asks for any queue or for "default". */
  lemma QueuesCompared(a: ActivityDefinition, w: Id, now: Time, attempts: nat, queue: string)
    ensures (QueueMatches(queue, a.taskQueue) <==> QueueMatches(queue, RecordOf(a, w, now, attempts).taskQueue))
            <==> a.taskQueue != "" || queue in {"", "default"}
  {
  }

  /** What follows for claims, from a start of the same definition in each back end: an activity that depends
      on nothing can be claimed from the same queues, except that one without a queue is handed out by the
      engine to every worker and by the database only to those that ask for any queue or for "default". */
  lemma ClaimsCompared(e: EngineState, def: WorkflowDefinition, key: string, now: Time, ticks: seq<Time>,
                       s: State, w: Id, ids: seq<Id>, at: Time, attempts: nat, k: nat, queue: string)
    requires EngineInv(e) && |def.activities| <= |ticks| && StartAnswerOf(e, def, key).Started?
    requires |ids| == |def.activities| && Enabled(s, BeginMove(def, key, w, ids, at, attempts))
    requires k < |ids| && def.activities[k].dependsOn == []
    ensures var r, t := StartCall(e, def, key, now, ticks).core, Apply(s, BeginMove(def, key, w, ids, at, attempts));
      var i, j, named := ActivityId(e.nextActivity + 1 + k), ids[k], def.activities[k].taskQueue;
      && i in r.activities && r.activities[i].status == Ready && j in t.activities && t.activities[j].status == Ready
      && (i in Claimable(r, queue) <==> queue == "" || named == "" || queue == named)
      && (j in Claimable(t, queue) <==> queue == "" || queue == (if named == "" then "default" else named))
      && (j in Claimable(t, queue) <==> i in Claimable(r, queue) && (named != "" || queue in {"", "default"}))
  {
    hide EngineInv, StartCall, StartAnswerOf, Apply, Enabled, ActivityId;
    StartStoresActivity(e, def, key, now, ticks, k);
    var m := BeginMove(def, key, w, ids, at, attempts);
    LaunchGrows(s, m);
    assert m.rows[k].id == ids[k];
    NewRowIs(def.activities[k], w, at, attempts);
  }

  // ---------------------------------------------------------------- failures

  /** Both back ends answer a failure report that the holder makes at the same time by the same kind of move:
      a retry exactly if the error can be retried and an attempt is left, and a final failure otherwise.  The
      database never retries later, and earlier by less than a second and a millisecond per attempt. */
  lemma FailuresAgree(e: EngineState, i: Id, s: State, j: Id, worker: string, token: int, retryable: bool, now: Time)
    requires i in e.core.activities && j in s.activities
    requires var a, b := e.core.activities[i], s.activities[j];
      && b.attempt == a.attempt && b.maxAttempts == a.maxAttempts
      && a.retryBackoff > 0 && b.retryBackoff == a.retryBackoff / 1_000_000 * 1_000_000
    ensures var a := e.core.activities[i];
      var m, n := FailMove(e, i, worker, token, retryable, now, now), FailureMove(s, j, worker, token, retryable, now);
      && (m.Retry? <==> retryable && a.attempt < a.maxAttempts) && (n.Retry? <==> m.Retry?)
      && (!m.Retry? ==> m.Fail? && n.Fail?) && m.act == i && n.act == j && m.at == n.at == now
      && (m.Retry? ==>
            && m.nextAt == now + a.retryBackoff * a.attempt
            && 0 <= m.nextAt - n.nextAt < 1_000_000_000 + a.attempt * 1_000_000)
  {
    var a := e.core.activities[i];
    RetryDelayIsClose(a.retryBackoff, a.attempt);
    assert s.activities[j].retryBackoff == (a.retryBackoff / MILLISECOND) * MILLISECOND;
  }
}
