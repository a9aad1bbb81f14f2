/** What a start needs and what it stores, read off its definition. */
module Starts {
  import opened EngineRuns
  import opened EngineSteps
  import opened Ids
  import opened Invariants
  import opened Machine
  import opened Progress

  /** A start is accepted exactly if the workflow has a namespace, a name and activities, if the activities
      have distinct names and depend on each other only, and if the key is not taken. */
  lemma StartAccepts(e: EngineState, def: WorkflowDefinition, key: string)
    ensures StartAnswerOf(e, def, key).Started? <==>
      && def.namespace != "" && def.name != "" && |def.activities| > 0
      && (key == "" || def.namespace + "\0" + key !in e.index)
      && (forall k :: 0 <= k < |def.activities| ==> def.activities[k].name != "")
      && (forall j, k :: 0 <= j < k < |def.activities| ==> def.activities[j].name != def.activities[k].name)
      && (forall k, d :: 0 <= k < |def.activities| && d in def.activities[k].dependsOn ==>
            exists j :: 0 <= j < |def.activities| && def.activities[j].name == d)
  {
    assert Join(def.namespace, key) == def.namespace + "\0" + key;
    assert Complains(def) <==> def.namespace == "" || def.name == "" || |def.activities| == 0;
    if ValidDependencies(def) {
      forall k, d | 0 <= k < |def.activities| && d in def.activities[k].dependsOn
        ensures exists j :: 0 <= j < |def.activities| && def.activities[j].name == d
      {
        assert HasName(def, d);
      }
    } else {
      var k, d :| 0 <= k < |def.activities| && d in def.activities[k].dependsOn && !HasName(def, d);
      assert !exists j :: 0 <= j < |def.activities| && def.activities[j].name == d;
    }
  }

  /** The workflow that a start creates is the one that its definition describes, running. */
  lemma StartStoresWorkflow(e: EngineState, def: WorkflowDefinition, key: string, now: Time, ticks: seq<Time>)
    requires EngineInv(e) && |def.activities| <= |ticks| && StartAnswerOf(e, def, key).Started?
    ensures var s, w := StartCall(e, def, key, now, ticks).core, StartAnswerOf(e, def, key).id;
      && w !in e.core.workflows && w in s.workflows && s.workflows.Keys == e.core.workflows.Keys + {w}
      && s.workflows[w].namespace == def.namespace && s.workflows[w].name == def.name && s.workflows[w].key == key
      && s.workflows[w].status == WorkflowRunning
      && forall v :: v in e.core.workflows ==> s.workflows[v] == e.core.workflows[v]
  {
    hide EngineInv, Apply, Enabled, ReleaseAll, StartAnswerOf, WorkflowId, NewRows, StartCall;
    StartReleasesNothing(e, def, key, now, ticks);
    AnswerIsId(e, def, key, now);
    LaunchGrows(e.core, LaunchMove(e, def, key, now));
  }

  lemma AnswerIsId(e: EngineState, def: WorkflowDefinition, key: string, now: Time)
    requires StartAnswerOf(e, def, key).Started?
    ensures var m := LaunchMove(e, def, key, now);
      && m.Launch? && m.workflow == StartAnswerOf(e, def, key).id && m.at == now
      && m.info.namespace == def.namespace && m.info.name == def.name && m.info.key == key
      && m.info.status == WorkflowRunning
  {
  }

  /** Its k-th activity is stored under the k-th new id, with the queue, the dependencies, the attempts and the
      backoff that the definition names, the engine's attempts and one second where it names nothing
      positive, never attempted, and ready exactly if it depends on nothing. */
  lemma StartStoresActivity(e: EngineState, def: WorkflowDefinition, key: string, now: Time, ticks: seq<Time>, k: nat)
    requires EngineInv(e) && |def.activities| <= |ticks| && StartAnswerOf(e, def, key).Started? && k < |def.activities|
    ensures var s, i, d := StartCall(e, def, key, now, ticks).core, ActivityId(e.nextActivity + 1 + k), def.activities[k];
      && i !in e.core.activities && i in s.activities
      && var a := s.activities[i];
      && a.workflow == StartAnswerOf(e, def, key).id && a.name == d.name && a.taskQueue == d.taskQueue
      && a.dependsOn == d.dependsOn && a.status == (if d.dependsOn == [] then Ready else RetryPending)
      && a.maxAttempts == (if d.maxAttempts > 0 then d.maxAttempts else e.maxAttempts)
      && a.retryBackoff == (if d.retryBackoff > 0 then d.retryBackoff else 1_000_000_000)
      && a.attempt == a.fencingToken == 0 && a.leaseOwner == "" && a.leaseExpiresAt == NO_DEADLINE
      && a.nextAttemptAt == now
  {
    hide EngineInv, Apply, Enabled, ReleaseAll, StartAnswerOf, WorkflowId, ActivityId, StartCall;
    StartReleasesNothing(e, def, key, now, ticks);
    AnswerIsId(e, def, key, now);
    var m := LaunchMove(e, def, key, now);
    LaunchGrows(e.core, m);
    assert m.rows[k].id == ActivityId(e.nextActivity + 1 + k);
  }

  /** Nothing else is stored, and nothing changed. */
  lemma StartStoresNothingElse(e: EngineState, def: WorkflowDefinition, key: string, now: Time, ticks: seq<Time>)
    requires EngineInv(e) && |def.activities| <= |ticks| && StartAnswerOf(e, def, key).Started?
    ensures var s := StartCall(e, def, key, now, ticks).core;
      && (forall i :: i in e.core.activities ==> i in s.activities && s.activities[i] == e.core.activities[i])
      && (forall i :: i in s.activities && i !in e.core.activities ==>
            exists n :: e.nextActivity < n <= e.nextActivity + |def.activities| && ActivityId(n) == i)
  {
    hide EngineInv, Apply, Enabled, ReleaseAll, StartAnswerOf, WorkflowId, ActivityId, StartCall, NewActivity, Join;
    StartReleasesNothing(e, def, key, now, ticks);
    var m, s := LaunchMove(e, def, key, now), StartCall(e, def, key, now, ticks).core;
    LaunchGrows(e.core, m);
    forall i | i in s.activities && i !in e.core.activities
      ensures exists n :: e.nextActivity < n <= e.nextActivity + |def.activities| && ActivityId(n) == i
    {
      assert HasRow(m.rows, i);
      RowHasNumber(e, def, key, now, i);
    }
  }

  lemma RowHasNumber(e: EngineState, def: WorkflowDefinition, key: string, now: Time, i: Id)
    requires HasRow(LaunchMove(e, def, key, now).rows, i)
    ensures exists n :: e.nextActivity < n <= e.nextActivity + |def.activities| && ActivityId(n) == i
  {
    hide ActivityId, WorkflowId, NewActivity;
    var rows := LaunchMove(e, def, key, now).rows;
    var k :| 0 <= k < |rows| && rows[k].id == i;
    assert ActivityId(e.nextActivity + 1 + k) == i;
  }
}
