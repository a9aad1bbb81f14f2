/** A scheduler pass as one simultaneous update of all records, and the proof that visiting the
    activities one by one, in any order, comes to the same. */
module Scheduler {
  import opened Machine
  import opened Invariants
  import opened EngineSteps
  import opened Ids

  /** A retry whose time has come and whose dependencies are completed. */
  ghost predicate Due(s: State, i: Id, now: Time) {
    && i in s.activities && s.activities[i].status == RetryPending && s.activities[i].nextAttemptAt <= now
    && DependenciesDone(s.activities, s.activities[i])
  }

  ghost predicate Lapsed(s: State, i: Id, now: Time) {
    i in s.activities && Expired(s.activities[i], now)
  }

  /** The activities that a pass changes. */
  ghost function Changed(s: State, now: Time): set<Id> {
    set i | i in s.activities && (Lapsed(s, i, now) || Due(s, i, now))
  }

  /** The record of activity i after a pass over s. */
  ghost function PassRecord(s: State, i: Id, now: Time): Activity
    requires i in s.activities
  {
    var a := s.activities[i];
    if Lapsed(s, i, now) then
      a.(status := if a.attempt < a.maxAttempts then Ready else Failed, leaseOwner := "")
    else if Due(s, i, now) then a.(status := Ready)
    else a
  }

  ghost function PassActivities(s: State, now: Time): map<Id, Activity> {
    map i | i in s.activities :: PassRecord(s, i, now)
  }

  /** One of the activities xs of workflow w has lapsed for the last time. */
  ghost predicate Exhausts(s: State, w: Id, xs: set<Id>, now: Time) {
    exists i :: i in xs && Lapsed(s, i, now) && s.activities[i].workflow == w
                && s.activities[i].attempt >= s.activities[i].maxAttempts
  }

  ghost function PassWorkflow(s: State, w: Id, xs: set<Id>, now: Time): Workflow
    requires w in s.workflows
  {
    if Exhausts(s, w, xs, now) then s.workflows[w].(status := WorkflowFailed) else s.workflows[w]
  }

  ghost function PassWorkflows(s: State, now: Time): map<Id, Workflow> {
    map w | w in s.workflows :: PassWorkflow(s, w, s.activities.Keys, now)
  }

  // ---------------------------------------------------------------- a pass half way

  /** t is s after the activities of xs, and no others, were visited. */
  ghost predicate PassedOver(s: State, t: State, xs: set<Id>, now: Time) {
    && t.activities.Keys == s.activities.Keys && t.workflows.Keys == s.workflows.Keys
    && (forall i :: i in s.activities ==>
          t.activities[i] == if i in xs then PassRecord(s, i, now) else s.activities[i])
    && (forall w :: w in s.workflows ==> t.workflows[w] == PassWorkflow(s, w, xs, now))
  }

  /** A pass completes nothing and undoes no completion, so it cannot change what is due. */
  lemma DependenciesUntouched(s: State, t: State, xs: set<Id>, now: Time, i: Id)
    requires PassedOver(s, t, xs, now) && i in s.activities
    ensures DependenciesDone(t.activities, s.activities[i]) <==> DependenciesDone(s.activities, s.activities[i])
  {
    var w := s.activities[i].workflow;
    assert forall j :: j in s.activities ==>
      t.activities[j].workflow == s.activities[j].workflow && t.activities[j].name == s.activities[j].name
      && (t.activities[j].status == Completed <==> s.activities[j].status == Completed);
    forall d | d in s.activities[i].dependsOn
      ensures Names(t.activities, w, d) <==> Names(s.activities, w, d)
      ensures NameCompleted(t.activities, w, d) <==> NameCompleted(s.activities, w, d)
    {
      if Names(s.activities, w, d) {
        var j :| j in s.activities && s.activities[j].workflow == w && s.activities[j].name == d;
        assert j in t.activities;
      }
      if Names(t.activities, w, d) {
        var j :| j in t.activities && t.activities[j].workflow == w && t.activities[j].name == d;
        assert j in s.activities;
      }
    }
  }

  ghost predicate LastLapse(s: State, i: Id, now: Time) {
    Lapsed(s, i, now) && s.activities[i].attempt >= s.activities[i].maxAttempts
  }

  /** What one visit does to the records. */
  lemma VisitEffect(s: State, i: Id, now: Time)
    requires Known(s, i)
    ensures Visited(s, i, now) <==> i in Changed(s, now)
    ensures Visit(s, i, now).activities == s.activities[i := PassRecord(s, i, now)]
    ensures Visit(s, i, now).workflows
            == if LastLapse(s, i, now) then
                 s.workflows[s.activities[i].workflow := s.workflows[s.activities[i].workflow].(status := WorkflowFailed)]
               else s.workflows
  {
    hide DependenciesDone;
    if Visited(s, i, now) {
    } else {
      assert s.activities[i := PassRecord(s, i, now)] == s.activities;
    }
  }

  lemma SameBefore(s: State, t: State, xs: set<Id>, now: Time, i: Id)
    requires WellFormed(s) && PassedOver(s, t, xs, now) && i in s.activities && i !in xs
    ensures Known(t, i) && t.activities[i] == s.activities[i]
    ensures Lapsed(t, i, now) <==> Lapsed(s, i, now)
    ensures Due(t, i, now) <==> Due(s, i, now)
    ensures PassRecord(t, i, now) == PassRecord(s, i, now)
  {
    DependenciesUntouched(s, t, xs, now, i);
    hide DependenciesDone;
  }

  lemma ExhaustsOneMore(s: State, w: Id, xs: set<Id>, i: Id, now: Time)
    requires i in s.activities
    ensures Exhausts(s, w, xs + {i}, now) <==>
              Exhausts(s, w, xs, now) || (LastLapse(s, i, now) && s.activities[i].workflow == w)
  {
    if Exhausts(s, w, xs, now) {
      var j :| j in xs && Lapsed(s, j, now) && s.activities[j].workflow == w
               && s.activities[j].attempt >= s.activities[j].maxAttempts;
      assert j in xs + {i};
    }
    if LastLapse(s, i, now) && s.activities[i].workflow == w {
      assert i in xs + {i};
    }
  }

  lemma OneMoreWorkflow(s: State, t: State, xs: set<Id>, now: Time, i: Id, w: Id)
    requires i in s.activities && w in s.workflows && w in t.workflows
    requires t.workflows[w] == PassWorkflow(s, w, xs, now)
    ensures PassWorkflow(s, w, xs + {i}, now)
            == if LastLapse(s, i, now) && s.activities[i].workflow == w then t.workflows[w].(status := WorkflowFailed)
               else t.workflows[w]
  {
    ExhaustsOneMore(s, w, xs, i, now);
    hide Exhausts, LastLapse;
  }

  /** u is t with one more record passed over. */
  lemma PassesOneMore(s: State, t: State, u: State, xs: set<Id>, now: Time, i: Id)
    requires PassedOver(s, t, xs, now) && i in s.activities && i !in xs
    requires u.activities == t.activities[i := PassRecord(s, i, now)]
    requires u.workflows.Keys == s.workflows.Keys
    requires forall w :: w in s.workflows ==> u.workflows[w] == PassWorkflow(s, w, xs + {i}, now)
    ensures PassedOver(s, u, xs + {i}, now)
  {
    hide PassRecord, PassWorkflow;
  }

  lemma VisitPasses(s: State, t: State, xs: set<Id>, now: Time, i: Id)
    requires WellFormed(s) && PassedOver(s, t, xs, now) && i in s.activities && i !in xs
    ensures PassedOver(s, Visit(t, i, now), xs + {i}, now)
    ensures Visited(t, i, now) <==> i in Changed(s, now)
  {
    SameBefore(s, t, xs, now, i);
    VisitEffect(t, i, now);
    assert LastLapse(t, i, now) <==> LastLapse(s, i, now);
    assert i in Changed(t, now) <==> i in Changed(s, now);
    hide Visit, Visited, PassRecord, WellFormed, Exhausts, Lapsed, Due, PassWorkflow, LastLapse, Changed;
    var u := Visit(t, i, now);
    assert t.workflows.Keys == s.workflows.Keys;
    forall w | w in s.workflows ensures u.workflows[w] == PassWorkflow(s, w, xs + {i}, now) {
      assert t.workflows[w] == PassWorkflow(s, w, xs, now);
      OneMoreWorkflow(s, t, xs, now, i, w);
    }
    hide PassedOver;
    PassesOneMore(s, t, u, xs, now, i);
  }

  /** A single reaping or release is a visit, whether or not it announces a failed workflow. */
  lemma MovePasses(s: State, t: State, xs: set<Id>, now: Time, m: Move)
    requires WellFormed(s) && PassedOver(s, t, xs, now) && (m.Reap? || m.ReapFail? || m.Release?) && m.at == now
    requires m.act in s.activities && m.act !in xs && Enabled(t, m)
    ensures PassedOver(s, Apply(t, m), xs + {m.act}, now)
  {
    hide Apply, Enabled, Visit, WellFormed, PassedOver;
    VisitPasses(s, t, xs, now, m.act);
    SameAsVisit(t, m);
    SamePassed(s, Visit(t, m.act, now), Apply(t, m), xs + {m.act}, now);
  }

  lemma SamePassed(s: State, t: State, u: State, xs: set<Id>, now: Time)
    requires PassedOver(s, t, xs, now) && u.activities == t.activities && u.workflows == t.workflows
    ensures PassedOver(s, u, xs, now)
  {
  }

  lemma SameAsVisit(t: State, m: Move)
    requires (m.Reap? || m.ReapFail? || m.Release?) && Enabled(t, m)
    ensures Apply(t, m).activities == Visit(t, m.act, m.at).activities
    ensures Apply(t, m).workflows == Visit(t, m.act, m.at).workflows
  {
    hide DependenciesDone;
  }

  // ---------------------------------------------------------------- a pass in two stages

  ghost function LapsedOf(s: State, now: Time): set<Id> {
    set i | i in s.activities && Lapsed(s, i, now)
  }

  /** What is due, in workflow w or, for w = "", in all workflows. */
  ghost function DueOf(s: State, w: Id, now: Time): set<Id> {
    set i | i in s.activities && Due(s, i, now) && (w == "" || s.activities[i].workflow == w)
  }

  /** Expiring all lapsed leases at once and then releasing all due retries at once is the whole pass. */
  lemma TwoStages(s: State, t: State, u: State, now: Time)
    requires PassedOver(s, t, LapsedOf(s, now), now) && PassedOver(t, u, DueOf(t, "", now), now)
    ensures u.activities == PassActivities(s, now) && u.workflows == PassWorkflows(s, now)
    ensures |LapsedOf(s, now)| + |DueOf(t, "", now)| == |Changed(s, now)|
  {
    hide DependenciesDone, PassWorkflow, PassRecord, Due, Lapsed;
    forall i | i in s.activities
      ensures Due(t, i, now) <==> Due(s, i, now)
      ensures !(Lapsed(s, i, now) && Due(t, i, now))
      ensures u.activities[i] == PassRecord(s, i, now)
    {
      DependenciesUntouched(s, t, LapsedOf(s, now), now, i);
      SameDueRecord(s, t, now, i);
      assert i in DueOf(t, "", now) <==> Due(t, i, now);
    }
    assert u.activities == PassActivities(s, now);
    assert Changed(s, now) == LapsedOf(s, now) + DueOf(t, "", now);
    forall w | w in s.workflows ensures u.workflows[w] == PassWorkflow(s, w, s.activities.Keys, now) {
      NoLapseAmongDue(t, w, now);
      AllLapses(s, w, now);
    }
    assert u.workflows == PassWorkflows(s, now);
  }

  lemma SameDueRecord(s: State, t: State, now: Time, i: Id)
    requires PassedOver(s, t, LapsedOf(s, now), now) && i in s.activities
    requires DependenciesDone(t.activities, s.activities[i]) <==> DependenciesDone(s.activities, s.activities[i])
    ensures Due(t, i, now) <==> Due(s, i, now)
    ensures !(Lapsed(s, i, now) && Due(t, i, now))
    ensures (if Due(t, i, now) then PassRecord(t, i, now) else t.activities[i]) == PassRecord(s, i, now)
  {
    var a, b := s.activities[i], t.activities[i];
    assert b.workflow == a.workflow && b.dependsOn == a.dependsOn;
    assert DependenciesDone(t.activities, b) <==> DependenciesDone(t.activities, a);
    hide DependenciesDone;
  }

  lemma NoLapseAmongDue(t: State, w: Id, now: Time)
    requires w in t.workflows
    ensures PassWorkflow(t, w, DueOf(t, "", now), now) == t.workflows[w]
  {
  }

  lemma AllLapses(s: State, w: Id, now: Time)
    requires w in s.workflows
    ensures PassWorkflow(s, w, LapsedOf(s, now), now) == PassWorkflow(s, w, s.activities.Keys, now)
  {
    if Exhausts(s, w, s.activities.Keys, now) {
      var i :| i in s.activities && Lapsed(s, i, now) && s.activities[i].workflow == w
               && s.activities[i].attempt >= s.activities[i].maxAttempts;
      assert i in LapsedOf(s, now);
    }
  }

  ghost function Elements(xs: seq<Id>): set<Id> {
    set x | x in xs
  }

  lemma OneMore(c: set<Id>, xs: set<Id>, i: Id)
    requires i !in xs
    ensures |c * (xs + {i})| == |c * xs| + (if i in c then 1 else 0)
  {
    assert c * (xs + {i}) == (c * xs) + (if i in c then {i} else {});
  }

  lemma {:induction false} HalfWay(s: State, order: seq<Id>, now: Time)
    requires WellFormed(s) && Elements(order) <= s.activities.Keys
    requires forall j, k :: 0 <= j < k < |order| ==> order[j] != order[k]
    ensures PassedOver(s, VisitAll(s, order, now), Elements(order), now)
    ensures VisitCount(s, order, now) == |Changed(s, now) * Elements(order)|
  {
    hide Visit, Visited, WellFormed, PassRecord, PassWorkflow;
    if order == [] {
      NothingVisited(s, now);
      assert Elements(order) == {} && Changed(s, now) * {} == {};
    } else {
      hide PassedOver, Changed;
      var n := |order| - 1;
      var i, xs, t := order[n], Elements(order[..n]), VisitAll(s, order[..n], now);
      assert order == order[..n] + [i];
      assert Elements(order) == xs + {i};
      HalfWay(s, order[..n], now);
      assert i !in xs;
      VisitPasses(s, t, xs, now, i);
      OneMore(Changed(s, now), xs, i);
    }
  }

  lemma NothingVisited(s: State, now: Time)
    ensures PassedOver(s, s, {}, now)
  {
  }

  // ---------------------------------------------------------------- the theorems

  /** Visiting the activities one by one, in any order, gives the records of the simultaneous update,
      and the count is the number of activities that it changes. */
  lemma OneByOneIsSimultaneous(s: State, order: seq<Id>, now: Time)
    requires WellFormed(s) && Lists(order, s.activities.Keys)
    ensures var t := VisitAll(s, order, now);
            t.activities == PassActivities(s, now) && t.workflows == PassWorkflows(s, now)
    ensures VisitCount(s, order, now) == |Changed(s, now)|
  {
    assert Elements(order) == s.activities.Keys;
    HalfWay(s, order, now);
    assert Changed(s, now) * s.activities.Keys == Changed(s, now);
    PassedOverAll(s, VisitAll(s, order, now), now);
  }

  lemma PassedOverAll(s: State, t: State, now: Time)
    requires PassedOver(s, t, s.activities.Keys, now)
    ensures t.activities == PassActivities(s, now) && t.workflows == PassWorkflows(s, now)
  {
    hide PassRecord, PassWorkflow;
    assert t.activities == PassActivities(s, now);
    assert t.workflows == PassWorkflows(s, now);
  }

  /** The count is exactly the number of records that differ afterwards. */
  lemma CountIsDifferences(s: State, now: Time)
    ensures Changed(s, now) == set i | i in s.activities && PassActivities(s, now)[i] != s.activities[i]
  {
  }

  /** After a pass no running lease has expired and no due, dependency-complete retry waits. */
  lemma NothingLeft(s: State, t: State, now: Time)
    requires WellFormed(s)
    requires t.activities == PassActivities(s, now) && t.workflows == PassWorkflows(s, now)
    ensures Changed(t, now) == {}
  {
    assert PassedOver(s, t, s.activities.Keys, now);
    forall i | i in t.activities ensures !Lapsed(t, i, now) && !Due(t, i, now) {
      DependenciesUntouched(s, t, s.activities.Keys, now, i);
      assert t.activities[i].dependsOn == s.activities[i].dependsOn;
      assert t.activities[i].workflow == s.activities[i].workflow;
      assert DependenciesDone(t.activities, t.activities[i]) <==> DependenciesDone(t.activities, s.activities[i]);
    }
  }

  lemma {:induction false} IdleVisits(s: State, order: seq<Id>, now: Time)
    requires Changed(s, now) == {}
    ensures VisitAll(s, order, now) == s && VisitCount(s, order, now) == 0
  {
    if order != [] {
      var n := |order| - 1;
      IdleVisits(s, order[..n], now);
      assert order[n] !in Changed(s, now);
    }
  }

  /** A second pass at the same time does nothing, whatever the orders of the two. */
  lemma PassIsIdempotent(s: State, order: seq<Id>, again: seq<Id>, now: Time)
    requires WellFormed(s) && Lists(order, s.activities.Keys)
    ensures var t := VisitAll(s, order, now); VisitAll(t, again, now) == t && VisitCount(t, again, now) == 0
  {
    OneByOneIsSimultaneous(s, order, now);
    NothingLeft(s, VisitAll(s, order, now), now);
    IdleVisits(VisitAll(s, order, now), again, now);
  }

  /** The engine's pass, which goes by sorted ids. */
  lemma EnginePass(e: EngineState, now: Time)
    requires EngineInv(e)
    ensures PassCall(e, now).core.activities == PassActivities(e.core, now)
    ensures PassCall(e, now).core.workflows == PassWorkflows(e.core, now)
    ensures VisitCount(e.core, Sorted(e.core.activities.Keys), now) == |Changed(e.core, now)|
    ensures Changed(PassCall(e, now).core, now) == {}
  {
    SortedLists(e.core.activities.Keys);
    OneByOneIsSimultaneous(e.core, Sorted(e.core.activities.Keys), now);
    NothingLeft(e.core, PassCall(e, now).core, now);
  }
}
