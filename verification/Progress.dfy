/** Nothing is overlooked: between calls of the engine, work that can go on is offered to workers or
    waits for a retry time, and finished workflows are marked as finished. */
module Progress {
  import opened Machine
  import opened Invariants
  import opened Ids
  import Logs
  import opened Topology
  import opened EngineSteps
  import opened EngineRuns

  predicate NeverTried(a: Activity) {
    a.status == RetryPending && a.attempt == 0
  }

  /** Activity i only ever waited for its dependencies, they are completed, and still it waits. */
  ghost predicate Overlooked(s: State, i: Id) {
    i in s.activities && NeverTried(s.activities[i]) && DependenciesDone(s.activities, s.activities[i])
  }

  /** All activities of workflow w are completed and still it counts as running. */
  ghost predicate Unfinished(s: State, w: Id) {
    w in s.workflows && s.workflows[w].status == WorkflowRunning && AllCompleted(s.activities, w)
  }

  ghost predicate Settled(s: State) {
    (forall i :: !Overlooked(s, i)) && (forall w :: !Unfinished(s, w))
  }

  /** Activities that were never tried may be released from the clock reading on. */
  ghost predicate NotBefore(s: State, clock: Time) {
    forall i :: i in s.activities && NeverTried(s.activities[i]) ==> s.activities[i].nextAttemptAt <= clock
  }

  // ---------------------------------------------------------------- moves that complete nothing

  /** Both states have the same records apart from what decides nothing here. */
  ghost predicate SameCompletions(s: State, t: State, w: Id) {
    && t.activities.Keys == s.activities.Keys
    && forall j :: j in s.activities ==>
         && SameDefinition(s.activities[j], t.activities[j])
         && (s.activities[j].workflow == w ==>
               (t.activities[j].status == Completed <==> s.activities[j].status == Completed))
  }

  lemma SameDone(s: State, t: State, a: Activity)
    requires SameCompletions(s, t, a.workflow)
    ensures DependenciesDone(t.activities, a) <==> DependenciesDone(s.activities, a)
  {
    var w := a.workflow;
    forall d | d in a.dependsOn
      ensures Names(t.activities, w, d) <==> Names(s.activities, w, d)
      ensures NameCompleted(t.activities, w, d) <==> NameCompleted(s.activities, w, d)
    {
      assert forall j :: j in s.activities ==> SameDefinition(s.activities[j], t.activities[j]);
      if Names(s.activities, w, d) {
        var j :| j in s.activities && s.activities[j].workflow == w && s.activities[j].name == d;
        assert j in t.activities && t.activities[j].workflow == w && t.activities[j].name == d;
      }
      if Names(t.activities, w, d) {
        var j :| j in t.activities && t.activities[j].workflow == w && t.activities[j].name == d;
        assert j in s.activities && s.activities[j].workflow == w && s.activities[j].name == d;
      }
    }
  }

  /** A completion only counts in its own workflow; other moves complete nothing. */
  lemma MoveCompletions(s: State, m: Move, w: Id)
    requires Enabled(s, m) && !m.Launch? && (m.Complete? ==> Home(s, m) != w)
    ensures SameCompletions(s, Apply(s, m), w)
  {
    SameRecords(s, m);
    forall j | j in s.activities
      ensures SameDefinition(s.activities[j], Apply(s, m).activities[j])
      ensures s.activities[j].workflow == w ==>
                (Apply(s, m).activities[j].status == Completed <==> s.activities[j].status == Completed)
    {
      AfterMove(s, m, j);
    }
  }

  lemma NeverTriedBefore(s: State, m: Move, i: Id)
    requires Enabled(s, m) && !m.Launch? && Counted(s) && i in s.activities
    ensures i in Apply(s, m).activities
    ensures NeverTried(Apply(s, m).activities[i]) ==>
              NeverTried(s.activities[i])
              && Apply(s, m).activities[i].nextAttemptAt == s.activities[i].nextAttemptAt
  {
    AfterMove(s, m, i);
    assert Counters(s.activities[i]);
  }

  lemma OverlooksNone(s: State, m: Move, i: Id)
    requires Enabled(s, m) && !m.Launch? && Counted(s) && !Overlooked(s, i)
    requires m.Complete? ==> i in s.activities && Home(s, m) != s.activities[i].workflow
    ensures !Overlooked(Apply(s, m), i)
  {
    SameRecords(s, m);
    if i in s.activities {
      NeverTriedBefore(s, m, i);
      AfterMove(s, m, i);
      MoveCompletions(s, m, s.activities[i].workflow);
      SameDone(s, Apply(s, m), s.activities[i]);
      hide Apply, Enabled, Counted, SameCompletions, Names, NameCompleted;
      assert Apply(s, m).activities[i].dependsOn == s.activities[i].dependsOn
             && Apply(s, m).activities[i].workflow == s.activities[i].workflow;
      assert DependenciesDone(Apply(s, m).activities, s.activities[i])
        <==> DependenciesDone(Apply(s, m).activities, Apply(s, m).activities[i]);
    }
  }

  lemma LeavesNoneUnfinished(s: State, m: Move, w: Id)
    requires Enabled(s, m) && !m.Launch? && !Unfinished(s, w) && (m.Complete? ==> Home(s, m) != w)
    ensures !Unfinished(Apply(s, m), w)
  {
    MoveCompletions(s, m, w);
    SameRecords(s, m);
    if w in s.workflows {
      WorkflowStatusFalls(s, m, w);
      if !AllCompleted(s.activities, w) {
        var j :| j in s.activities && s.activities[j].workflow == w && s.activities[j].status != Completed;
        assert Apply(s, m).activities[j].workflow == w && Apply(s, m).activities[j].status != Completed;
      }
    }
  }

  lemma WorkflowStatusFalls(s: State, m: Move, w: Id)
    requires Enabled(s, m) && !m.Launch? && w in s.workflows
    ensures w in Apply(s, m).workflows
    ensures Apply(s, m).workflows[w].status == WorkflowRunning ==> s.workflows[w].status == WorkflowRunning
  {
  }

  lemma StaysNotBefore(s: State, m: Move, clock: Time)
    requires Enabled(s, m) && !m.Launch? && Counted(s) && NotBefore(s, clock)
    ensures NotBefore(Apply(s, m), clock)
  {
    SameRecords(s, m);
    forall i | i in s.activities && NeverTried(Apply(s, m).activities[i])
      ensures Apply(s, m).activities[i].nextAttemptAt <= clock
    {
      NeverTriedBefore(s, m, i);
    }
  }

  lemma {:induction false} RunStaysSettled(ss: seq<State>, ms: seq<Move>, k: nat, clock: Time)
    requires IsRun(ss, ms) && Quiet(ms) && k <= |ms|
    requires Inv(ss[0]) && NotBefore(ss[0], clock)
    ensures NotBefore(ss[k], clock)
    ensures forall i :: !Overlooked(ss[0], i) ==> !Overlooked(ss[k], i)
    ensures forall w :: !Unfinished(ss[0], w) ==> !Unfinished(ss[k], w)
  {
    hide Overlooked, Unfinished, Apply, Enabled, NotBefore;
    if 0 < k {
      RunStaysSettled(ss, ms, k - 1, clock);
      RunKeepsInv(ss, ms, k - 1);
      assert StepAt(ss, ms, k - 1);
      hide WellFormed, Gated, Consistent, UniqueKeys, Counted, IsRun;
      var s, m := ss[k - 1], ms[k - 1];
      StaysNotBefore(s, m, clock);
      forall i | !Overlooked(ss[0], i) ensures !Overlooked(ss[k], i) {
        OverlooksNone(s, m, i);
      }
      forall w | !Unfinished(ss[0], w) ensures !Unfinished(ss[k], w) {
        LeavesNoneUnfinished(s, m, w);
      }
    }
  }

  lemma LeadsStaysSettled(s: State, ms: seq<Move>, t: State, clock: Time)
    requires Leads(s, ms, t) && Quiet(ms) && Inv(s) && NotBefore(s, clock)
    ensures NotBefore(t, clock)
    ensures forall i :: !Overlooked(s, i) ==> !Overlooked(t, i)
    ensures forall w :: !Unfinished(s, w) ==> !Unfinished(t, w)
  {
    hide Overlooked, Unfinished, NotBefore, Inv;
    var ss :| IsRun(ss, ms) && ss[0] == s && ss[|ms|] == t;
    RunStaysSettled(ss, ms, |ms|, clock);
  }

  // ---------------------------------------------------------------- launch

  lemma LaunchSettles(s: State, m: Move)
    requires m.Launch? && Enabled(s, m) && Inv(s) && Settled(s) && NotBefore(s, m.at)
    ensures Settled(Apply(s, m)) && NotBefore(Apply(s, m), m.at)
  {
    hide Apply, Enabled, Gated, Consistent, Counted, UniqueKeys;
    LaunchGrows(s, m);
    var t := Apply(s, m);
    forall i ensures !Overlooked(t, i) {
      if i in s.activities {
        assert !Overlooked(s, i);
        OldStillWaits(s, m, i);
      } else if i in t.activities && NeverTried(t.activities[i]) {
        NewWaits(s, m, i);
      }
    }
    forall w ensures !Unfinished(t, w) {
      if w == m.workflow {
        assert t.activities[m.rows[0].id].workflow == w && t.activities[m.rows[0].id].status != Completed;
      } else if w in s.workflows {
        assert !Unfinished(s, w);
        if !AllCompleted(s.activities, w) {
          var j :| j in s.activities && s.activities[j].workflow == w && s.activities[j].status != Completed;
          assert t.activities[j] == s.activities[j];
        }
      }
    }
  }

  lemma OldStillWaits(s: State, m: Move, i: Id)
    requires m.Launch? && Enabled(s, m) && WellFormed(s) && i in s.activities && !Overlooked(s, i)
    ensures !Overlooked(Apply(s, m), i)
  {
    hide Apply, Enabled;
    LaunchGrows(s, m);
    var t, a := Apply(s, m), s.activities[i];
    if NeverTried(a) {
      var d :| d in a.dependsOn && !(Names(s.activities, a.workflow, d) && NameCompleted(s.activities, a.workflow, d));
      assert Names(s.activities, a.workflow, d);
      var j :| j in s.activities && s.activities[j].workflow == a.workflow && s.activities[j].name == d
               && s.activities[j].status != Completed;
      assert t.activities[j] == s.activities[j];
      assert !NameCompleted(t.activities, a.workflow, d);
    }
  }

  lemma NewWaits(s: State, m: Move, i: Id)
    requires m.Launch? && Enabled(s, m) && i !in s.activities && i in Apply(s, m).activities
    requires NeverTried(Apply(s, m).activities[i])
    ensures !Overlooked(Apply(s, m), i)
  {
    AddRowsExtends(s.activities, m.rows);
    var t := Apply(s, m);
    assert HasRow(m.rows, i);
    var k :| 0 <= k < |m.rows| && m.rows[k].id == i;
    var a := m.rows[k].activity;
    assert a.dependsOn != [];
    var d := a.dependsOn[0];
    assert RowNamed(m.rows, d);
    var j :| 0 <= j < |m.rows| && m.rows[j].activity.name == d;
    var b := t.activities[m.rows[j].id];
    assert b.workflow == a.workflow && b.name == d && b.status != Completed;
    assert !NameCompleted(t.activities, a.workflow, d);
  }

  // ---------------------------------------------------------------- completion

  /** Releasing with readings that are late enough overlooks none of the listed activities. */
  lemma {:induction false} ReleaseAllClears(s: State, ids: seq<Id>, ticks: seq<Time>, clock: Time)
    requires |ids| <= |ticks| && Inv(s) && NotBefore(s, clock)
    requires forall k :: 0 <= k < |ticks| ==> clock <= ticks[k]
    ensures var t := ReleaseAll(s, ids, ticks);
            && Inv(t) && NotBefore(t, clock)
            && (forall i :: i in ids ==> !Overlooked(t, i))
            && (forall i :: !Overlooked(s, i) ==> !Overlooked(t, i))
            && (forall w :: !Unfinished(s, w) ==> !Unfinished(t, w))
    decreases |ids|
  {
    hide Overlooked, Unfinished, NotBefore, Apply, Enabled, Inv;
    if ids != [] {
      var n := |ids| - 1;
      ReleaseAllClears(s, ids[..n], ticks, clock);
      var t, u, i := ReleaseAll(s, ids[..n], ticks), ReleaseAll(s, ids, ticks), ids[n];
      var m := Release(ticks[n], i);
      assert ids == ids[..n] + [i];
      if Enabled(t, m) {
        KeepsInv(t, m);
        InvCounts(t);
        StaysNotBefore(t, m, clock);
        forall j | !Overlooked(t, j) ensures !Overlooked(u, j) {
          OverlooksNone(t, m, j);
        }
        forall w | !Unfinished(t, w) ensures !Unfinished(u, w) {
          LeavesNoneUnfinished(t, m, w);
        }
        Released(t, m);
      } else {
        NotReleased(t, m, clock);
      }
    }
  }

  lemma InvCounts(s: State)
    requires Inv(s)
    ensures Counted(s) && WellFormed(s)
  {
  }

  lemma Released(s: State, m: Move)
    requires m.Release? && Enabled(s, m)
    ensures !Overlooked(Apply(s, m), m.act)
  {
  }

  lemma NotReleased(s: State, m: Move, clock: Time)
    requires m.Release? && !Enabled(s, m) && Inv(s) && NotBefore(s, clock) && clock <= m.at
    ensures !Overlooked(s, m.act)
  {
    hide DependenciesDone, Inv;
    InvPlaces(s);
  }

  lemma InvPlaces(s: State)
    requires Inv(s)
    ensures forall i :: i in s.activities ==> s.activities[i].workflow in s.workflows
  {
    hide Counted, Gated, Consistent, UniqueKeys;
  }

  lemma FinishSettles(s: State, w: Id, at: Time)
    requires Counted(s) && (forall i :: !Overlooked(s, i)) && (forall v :: v != w ==> !Unfinished(s, v))
    ensures Settled(FinishIfDone(s, w, at))
  {
    var m, t := Finish(at, w), FinishIfDone(s, w, at);
    if Enabled(s, m) {
      forall i ensures !Overlooked(t, i) {
        OverlooksNone(s, m, i);
      }
      forall v ensures !Unfinished(t, v) {
        if v != w { LeavesNoneUnfinished(s, m, v); }
      }
    }
  }

  lemma FinishNotBefore(s: State, w: Id, at: Time, clock: Time)
    requires Counted(s) && NotBefore(s, clock)
    ensures NotBefore(FinishIfDone(s, w, at), clock)
  {
    if Enabled(s, Finish(at, w)) {
      StaysNotBefore(s, Finish(at, w), clock);
    }
  }

  /** A completion can only leave work to do in its own workflow. */
  lemma CompleteElsewhere(s: State, m: Move, clock: Time)
    requires m.Complete? && Enabled(s, m) && Counted(s) && Settled(s) && NotBefore(s, clock)
    ensures NotBefore(Apply(s, m), clock)
    ensures forall j :: j !in ActivitiesOf(s, Home(s, m)) ==> !Overlooked(Apply(s, m), j)
    ensures forall v :: v != Home(s, m) ==> !Unfinished(Apply(s, m), v)
  {
    StaysNotBefore(s, m, clock);
    SameRecords(s, m);
    hide Apply, NotBefore, Unfinished, DependenciesDone, Counted;
    forall j | j !in ActivitiesOf(s, Home(s, m)) ensures !Overlooked(Apply(s, m), j) {
      if j in s.activities { OverlooksNone(s, m, j); }
    }
    forall v | v != Home(s, m) ensures !Unfinished(Apply(s, m), v) {
      LeavesNoneUnfinished(s, m, v);
    }
  }

  lemma WrapUpSettles(s: State, w: Id, ids: seq<Id>, ticks: seq<Time>, clock: Time)
    requires Inv(s) && NotBefore(s, clock) && |ids| < |ticks|
    requires forall k :: 0 <= k < |ticks| ==> clock <= ticks[k]
    requires forall j :: j !in ids ==> !Overlooked(s, j)
    requires forall v :: v != w ==> !Unfinished(s, v)
    ensures var t := FinishIfDone(ReleaseAll(s, ids, ticks), w, ticks[|ids|]); Settled(t) && NotBefore(t, clock)
  {
    hide Overlooked, Unfinished, NotBefore, Inv, Settled, FinishIfDone, ReleaseAll;
    ReleaseAllClears(s, ids, ticks, clock);
    var t := ReleaseAll(s, ids, ticks);
    InvCounts(t);
    FinishSettles(t, w, ticks[|ids|]);
    FinishNotBefore(t, w, ticks[|ids|], clock);
  }

  lemma MembersListed(e: EngineState, i: Id)
    requires EngineInv(e) && i in e.core.activities
    ensures var w := e.core.activities[i].workflow;
            w in e.members && forall j :: j in e.members[w] <==> j in ActivitiesOf(e.core, w)
  {
    Housed(e, i);
    var w := e.core.activities[i].workflow;
    assert Lists(e.members[w], ActivitiesOf(e.core, w));
  }

  /** After a completion everything that it unblocks has been released, and the workflow is marked
      as completed if it was the last. */
  lemma CompletionSettles(e: EngineState, i: Id, worker: string, token: int, check: Time, ticks: seq<Time>, clock: Time)
    requires EngineInv(e) && MessageAnswer(e.core, i, worker, token, check).Accepted?
    requires |e.members[e.core.activities[i].workflow]| < |ticks|
    requires Settled(e.core) && NotBefore(e.core, clock) && forall k :: 0 <= k < |ticks| ==> clock <= ticks[k]
    ensures Settled(Completion(e, i, worker, token, check, ticks))
    ensures NotBefore(Completion(e, i, worker, token, check, ticks), clock)
  {
    hide Apply, Enabled, Shaped, Overlooked, Unfinished, NotBefore, Inv, FinishIfDone, ReleaseAll;
    var s, w, m := e.core, e.core.activities[i].workflow, Complete(check, i, worker, token);
    AcceptedEnables(e, i, worker, token, check, 0, true);
    MembersListed(e, i);
    KeepsInv(s, m);
    InvCounts(s);
    CompleteElsewhere(s, m, clock);
    WrapUpSettles(Apply(s, m), w, e.members[w], ticks, clock);
  }

  // ---------------------------------------------------------------- what a completion overlooks

  lemma OtherReleased(s: State, m: Move, j: Id)
    requires m.Release? && Enabled(s, m) && m.act != j
    ensures Overlooked(Apply(s, m), j) <==> Overlooked(s, j)
    ensures j in s.activities ==> j in Apply(s, m).activities && Apply(s, m).activities[j] == s.activities[j]
  {
    SameRecords(s, m);
    if j in s.activities {
      AfterMove(s, m, j);
      MoveCompletions(s, m, s.activities[j].workflow);
      SameDone(s, Apply(s, m), s.activities[j]);
    }
  }

  /** Of distinct activities, released one after the other, one is overlooked exactly if it was before and
      its reading comes before its time. */
  lemma {:induction false} OverlookedByRelease(s: State, ids: seq<Id>, ticks: seq<Time>, j: Id, k: nat)
    requires |ids| <= |ticks| && Known(s, j)
    requires forall x, y :: 0 <= x < y < |ids| ==> ids[x] != ids[y]
    requires if j in ids then k < |ids| && ids[k] == j else k == |ids|
    ensures var t := ReleaseAll(s, ids, ticks);
      && Known(t, j) && (j !in ids ==> t.activities[j] == s.activities[j])
      && (Overlooked(t, j) <==> Overlooked(s, j) && (j in ids ==> ticks[k] < s.activities[j].nextAttemptAt))
    decreases |ids|
  {
    hide Apply, Enabled, Overlooked;
    if ids != [] {
      var n := |ids| - 1;
      assert ids == ids[..n] + [ids[n]];
      var t, m := ReleaseAll(s, ids[..n], ticks), Release(ticks[n], ids[n]);
      OverlookedByRelease(s, ids[..n], ticks, j, if k < n then k else n);
      if ids[n] == j {
        LastReleased(t, m);
      } else if Enabled(t, m) {
        OtherReleased(t, m, j);
        SameRecords(t, m);
      }
    }
  }

  /** The release of an activity when its turn comes. */
  lemma LastReleased(s: State, m: Move)
    requires m.Release? && Known(s, m.act)
    ensures var t := if Enabled(s, m) then Apply(s, m) else s;
      Known(t, m.act) && (Overlooked(t, m.act) <==> Overlooked(s, m.act) && m.at < s.activities[m.act].nextAttemptAt)
  {
    hide DependenciesDone;
  }

  /** Under any clock: a completion overlooks exactly those members of its workflow that wait, never tried
      and with all dependencies now completed, for a time after the reading taken for them. */
  lemma OverlookedIfEarly(e: EngineState, i: Id, worker: string, token: int, check: Time, ticks: seq<Time>, k: nat)
    requires EngineInv(e) && MessageAnswer(e.core, i, worker, token, check).Accepted?
    requires var w := e.core.activities[i].workflow; w in e.members && k < |e.members[w]| < |ticks|
    ensures var m, j := Complete(check, i, worker, token), e.members[e.core.activities[i].workflow][k];
      && Enabled(e.core, m) && j in Apply(e.core, m).activities
      && (Overlooked(Completion(e, i, worker, token, check, ticks), j) <==>
            Overlooked(Apply(e.core, m), j) && ticks[k] < Apply(e.core, m).activities[j].nextAttemptAt)
  {
    hide EngineInv, Apply, Enabled, ReleaseAll, Overlooked, Current;
    AcceptedEnables(e, i, worker, token, check, check, true);
    var m, w := Complete(check, i, worker, token), e.core.activities[i].workflow;
    var ids, s := e.members[w], Apply(e.core, m);
    MembersDistinct(e, w);
    KnownAfter(e, m, ids[k]);
    OverlookedByRelease(s, ids, ticks, ids[k], k);
    FinishOverlooks(ReleaseAll(s, ids, ticks), w, ticks[|ids|], ids[k]);
  }

  lemma MembersDistinct(e: EngineState, w: Id)
    requires EngineInv(e) && w in e.members
    ensures var ids := e.members[w];
      && (forall x, y :: 0 <= x < y < |ids| ==> ids[x] != ids[y])
      && (forall x :: 0 <= x < |ids| ==> ids[x] in e.core.activities)
  {
    hide Inv;
    assert Lists(e.members[w], ActivitiesOf(e.core, w));
    assert forall x :: 0 <= x < |e.members[w]| ==> e.members[w][x] in e.members[w];
  }

  lemma KnownAfter(e: EngineState, m: Move, j: Id)
    requires EngineInv(e) && Enabled(e.core, m) && j in e.core.activities && !m.Launch?
    ensures Known(Apply(e.core, m), j)
  {
    hide Apply, Enabled, Shaped, Inv;
    KeepsInv(e.core, m);
    SameRecords(e.core, m);
    InvPlaces(Apply(e.core, m));
  }

  lemma FinishOverlooks(s: State, w: Id, at: Time, j: Id)
    ensures Overlooked(FinishIfDone(s, w, at), j) <==> Overlooked(s, j)
  {
  }

  // ---------------------------------------------------------------- all calls

  lemma StartSettles(e: EngineState, def: WorkflowDefinition, key: string, now: Time, ticks: seq<Time>, hi: Time)
    requires EngineInv(e) && |def.activities| <= |ticks| && Between(now, ticks, hi)
    requires Settled(e.core) && NotBefore(e.core, now)
    ensures Settled(StartCall(e, def, key, now, ticks).core) && NotBefore(StartCall(e, def, key, now, ticks).core, now)
  {
    if StartAnswerOf(e, def, key).Started? {
      CanStart(e, def, key, now);
      var m := LaunchMove(e, def, key, now);
      assert Inv(e.core);
      LaunchSettles(e.core, m);
      KeepsInv(e.core, m);
      hide Apply, Enabled, Overlooked, Unfinished, NotBefore, Inv;
      ReleaseAllClears(Apply(e.core, m), NewMembers(e, def), ticks, now);
    }
  }

  /** A start releases nothing, whatever the clock says: every activity with dependencies waits for one that
      is not completed. */
  lemma StartReleasesNothing(e: EngineState, def: WorkflowDefinition, key: string, now: Time, ticks: seq<Time>)
    requires EngineInv(e) && |def.activities| <= |ticks| && StartAnswerOf(e, def, key).Started?
    ensures Enabled(e.core, LaunchMove(e, def, key, now))
    ensures StartCall(e, def, key, now, ticks).core == Apply(e.core, LaunchMove(e, def, key, now))
  {
    hide Apply, EngineInv, Enabled, Inv, LaunchMove, NotBefore, Overlooked, StartAnswerOf;
    assert Shaped(e) && Inv(e.core) by { InvOf(e); }
    CanStart(e, def, key, now);
    var m := LaunchMove(e, def, key, now);
    forall i | i in NewMembers(e, def)
      ensures i in Apply(e.core, m).activities && Apply(e.core, m).activities[i].attempt == 0
      ensures !Overlooked(Apply(e.core, m), i)
    {
      NewMemberWaits(e, def, key, now, i);
    }
    NothingToRelease(Apply(e.core, m), NewMembers(e, def), ticks);
  }

  lemma NewMemberWaits(e: EngineState, def: WorkflowDefinition, key: string, now: Time, i: Id)
    requires EngineInv(e) && StartAnswerOf(e, def, key).Started? && i in NewMembers(e, def)
    requires Enabled(e.core, LaunchMove(e, def, key, now))
    ensures var t := Apply(e.core, LaunchMove(e, def, key, now));
            i in t.activities && t.activities[i].attempt == 0 && !Overlooked(t, i)
  {
    hide Apply, EngineInv, Enabled, Inv, NewMembers, Overlooked, StartAnswerOf;
    InvOf(e);
    var m := LaunchMove(e, def, key, now);
    NewMembersAreRows(e, def, key, now, i);
    LaunchGrows(e.core, m);
    InvCounts(e.core);
    LaunchedIsFresh(e.core, m, i);
    var k :| 0 <= k < |m.rows| && m.rows[k].id == i;
    if NeverTried(Apply(e.core, m).activities[i]) {
      NewWaits(e.core, m, i);
    } else {
      TriedIsNotOverlooked(Apply(e.core, m), i);
    }
  }

  lemma TriedIsNotOverlooked(s: State, i: Id)
    requires i in s.activities && !NeverTried(s.activities[i])
    ensures !Overlooked(s, i)
  {
  }

  lemma LaunchedIsFresh(s: State, m: Move, i: Id)
    requires m.Launch? && Enabled(s, m) && WellFormed(s) && HasRow(m.rows, i)
    ensures i in Apply(s, m).activities && Apply(s, m).activities[i].attempt == 0
  {
    Logs.LaunchedRecord(s, m, i);
  }

  lemma {:induction false} NothingToRelease(s: State, ids: seq<Id>, ticks: seq<Time>)
    requires |ids| <= |ticks|
    requires forall i :: i in ids ==> i in s.activities && s.activities[i].attempt == 0 && !Overlooked(s, i)
    ensures ReleaseAll(s, ids, ticks) == s
    decreases |ids|
  {
    if ids != [] {
      var n := |ids| - 1;
      NothingToRelease(s, ids[..n], ticks);
      assert !Overlooked(s, ids[n]);
      hide DependenciesDone, Apply, Unfinished;
    }
  }

  /** Every call keeps the engine settled, if its readings do not go back. */
  lemma StepSettles(e: EngineState, c: Call, lo: Time, hi: Time)
    requires EngineInv(e) && Timely(e, c, lo, hi) && lo <= hi && Settled(e.core) && NotBefore(e.core, lo)
    ensures Settled(Step(e, c).core) && NotBefore(Step(e, c).core, hi)
  {
    hide Apply, Enabled, Overlooked, Unfinished, WellFormed, Counted, Gated, Consistent, UniqueKeys, Shaped, Completion,
      StartCall, ClaimCall, HeartbeatCall, FailCall, CancelCall, VisitAll, Sorted, Leads, Quiet, Within;
    if c.StartingCall? {
      StartSettles(e, c.def, c.key, c.now, c.ticks, hi);
    } else if Completes(e, c) {
      Housed(e, c.act);
      CompletionSettles(e, c.act, c.worker, c.token, c.check, c.ticks, lo);
    } else {
      var ms := StepLeads(e, c, lo, hi);
      hide Step, Timely;
      LeadsStaysSettled(e.core, ms, Step(e, c).core, lo);
    }
  }

  lemma NewIsSettled(e: EngineState, clock: Time)
    requires IsNew(e)
    ensures Settled(e.core) && NotBefore(e.core, clock)
  {
  }

  /** Under a clock that does not go back, between any two calls of any run no activity is overlooked and no
      workflow left unfinished. */
  lemma {:induction false} EveryStateIsSettled(es: seq<EngineState>, cs: seq<Call>, clock: seq<Time>, k: nat)
    requires IsEngineRun(es, cs, clock) && Increasing(clock) && k <= |cs|
    ensures Settled(es[k].core) && NotBefore(es[k].core, clock[k])
  {
    hide EngineInv, Step, Timely, IsNew, Settled, NotBefore;
    if k == 0 {
      NewIsSettled(es[0], clock[0]);
    } else {
      EveryStateIsSettled(es, cs, clock, k - 1);
      assert CallAt(es, cs, clock, k - 1);
      EngineRunInv(es, cs, clock, k - 1);
      StepSettles(es[k - 1], cs[k - 1], clock[k - 1], clock[k]);
    }
  }

  // ---------------------------------------------------------------- progress

  /** Activity i can go on without anything else happening to its workflow. */
  ghost predicate CanGoOn(s: State, i: Id) {
    && i in s.activities
    && (s.activities[i].status == Ready || s.activities[i].status == Running
        || (s.activities[i].status == RetryPending && s.activities[i].attempt > 0
            && DependenciesDone(s.activities, s.activities[i])))
  }

  /** An activity that is not completed and cannot go on waits for one that is not completed. */
  lemma BlockedBy(s: State, i: Id) returns (j: Id)
    requires Inv(s) && Settled(s) && Known(s, i)
    requires s.workflows[s.activities[i].workflow].status == WorkflowRunning
    requires s.activities[i].status != Completed && !CanGoOn(s, i)
    ensures DependsOn(s, i, j) && s.activities[j].status != Completed
  {
    var a := s.activities[i];
    assert Agrees(a.status, s.workflows[a.workflow].status);
    assert !Overlooked(s, i);
    var d :| d in a.dependsOn && !(Names(s.activities, a.workflow, d) && NameCompleted(s.activities, a.workflow, d));
    assert Names(s.activities, a.workflow, d);
    j :| j in s.activities && s.activities[j].workflow == a.workflow && s.activities[j].name == d
         && s.activities[j].status != Completed;
  }

  /** A path that returns to its k-th activity has that activity on a cycle. */
  lemma ReturnIsCycle(s: State, path: seq<Id>, k: nat)
    requires IsPath(s, path) && k < |path| - 1 && path[k] == path[|path| - 1]
    ensures Behind(s, path[k])
  {
    hide DependsOn;
    var cycle := path[k..];
    forall l | 0 <= l < |cycle| - 1 ensures DependsOn(s, cycle[l], cycle[l + 1]) {
      assert DependsOn(s, path[k + l], path[k + l + 1]);
    }
    assert LeadsToCycle(s, path[k], [path[k]], cycle);
  }

  /** Upstream from an open activity that is behind no cycle, one that can go on is reached. */
  lemma {:induction false} Follow(s: State, w: Id, path: seq<Id>) returns (i: Id)
    requires Inv(s) && Settled(s) && w in s.workflows && s.workflows[w].status == WorkflowRunning
    requires |path| > 0 && (|path| > 1 ==> IsPath(s, path))
    requires forall j, k :: 0 <= j < k < |path| ==> path[j] != path[k]
    requires forall k :: 0 <= k < |path| ==>
      path[k] in s.activities && s.activities[path[k]].workflow == w && s.activities[path[k]].status != Completed
      && !Behind(s, path[k])
    ensures CanGoOn(s, i) && s.activities[i].workflow == w && !Behind(s, i)
    decreases |ActivitiesOf(s, w)| - |path|
  {
    hide Inv, Settled, CanGoOn, Behind;
    var n := |path| - 1;
    i := path[n];
    if !CanGoOn(s, i) {
      var j := BlockedBy(s, i);
      if Behind(s, j) { BehindNext(s, i, j); }
      var longer := path + [j];
      forall k | 0 <= k < |longer| - 1 ensures DependsOn(s, longer[k], longer[k + 1]) {
        if k < n { assert DependsOn(s, path[k], path[k + 1]); }
      }
      if j in path {
        var k :| 0 <= k < |path| && path[k] == j;
        ReturnIsCycle(s, longer, k);
      }
      DistinctFit(longer, ActivitiesOf(s, w));
      i := Follow(s, w, longer);
    }
  }

  lemma {:induction false} DistinctFit(xs: seq<Id>, S: set<Id>)
    requires forall j, k :: 0 <= j < k < |xs| ==> xs[j] != xs[k]
    requires forall k :: 0 <= k < |xs| ==> xs[k] in S
    ensures |xs| <= |S|
  {
    if xs != [] {
      var n := |xs| - 1;
      DistinctFit(xs[..n], S - {xs[n]});
    }
  }

  /** Progress: under a clock that does not go back, in every reachable state a running workflow has an activity that is ready, running, or
      waiting only for its retry time, if and only if it has an open activity behind no dependency cycle. */
  lemma RunningWorkflowCanGoOn(es: seq<EngineState>, cs: seq<Call>, clock: seq<Time>, k: nat, w: Id)
    requires IsEngineRun(es, cs, clock) && Increasing(clock) && k <= |cs|
    requires w in es[k].core.workflows && es[k].core.workflows[w].status == WorkflowRunning
    ensures (exists i :: CanGoOn(es[k].core, i) && es[k].core.activities[i].workflow == w)
            <==> exists j :: IsOpen(es[k].core, j) && es[k].core.activities[j].workflow == w
  {
    hide Step, Timely, EngineInv, Inv, Behind, DependenciesDone, Settled, NotBefore, Logs.Partitioned, Logs.Accounted, Logs.Replayable, InOrder;
    var s := es[k].core;
    EveryStateIsSettled(es, cs, clock, k);
    EveryEngineState(es, cs, clock, k);
    if exists j :: IsOpen(s, j) && s.activities[j].workflow == w {
      var j :| IsOpen(s, j) && s.activities[j].workflow == w;
      InvPlaces(s);
      var i := OpenCanGoOn(s, j);
    }
    if exists i :: CanGoOn(s, i) && s.activities[i].workflow == w {
      var i :| CanGoOn(s, i) && s.activities[i].workflow == w;
      GoesOnIsOpen(es, cs, clock, k, i);
    }
  }

  /** Activity i is not completed and behind no cycle. */
  ghost predicate IsOpen(s: State, i: Id) {
    i in s.activities && s.activities[i].status != Completed && !Behind(s, i)
  }

  lemma GoesOnIsOpen(es: seq<EngineState>, cs: seq<Call>, clock: seq<Time>, k: nat, i: Id)
    requires IsEngineRun(es, cs, clock) && k <= |cs| && CanGoOn(es[k].core, i)
    ensures IsOpen(es[k].core, i)
  {
    hide EngineInv, Behind, DependenciesDone, Step, Timely;
    var s := es[k].core;
    if Behind(s, i) {
      var ms := EngineRunLeads(es, cs, clock, 0, k);
      var ss :| IsRun(ss, ms) && ss[0] == es[0].core && ss[|ms|] == s;
      BehindNeverRuns(ss, ms, |ms|, i);
    }
  }

  lemma OpenCanGoOn(s: State, j: Id) returns (i: Id)
    requires Inv(s) && Settled(s) && IsOpen(s, j) && Known(s, j)
    requires s.workflows[s.activities[j].workflow].status == WorkflowRunning
    ensures CanGoOn(s, i) && s.activities[i].workflow == s.activities[j].workflow && !Behind(s, i)
  {
    hide Inv, Settled, Behind, CanGoOn;
    i := Follow(s, s.activities[j].workflow, [j]);
  }
}
