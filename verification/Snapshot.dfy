/** Decisions taken on a committed state that is no longer the latest one.

    Under READ COMMITTED a statement judges other rows by the snapshot it started with, while the rows it
    updates are locked and their own conditions are checked again.  A release decided that way is never
    premature and at worst missed; the completion of a workflow, which checks no locked row, can be missed
    for good. */
module Snapshot {
  import opened Invariants
  import opened Machine
  import opened Scheduler
  import opened Topology

  // ---------------------------------------------------------------- releasing

  /** The release statement hits i: its own columns are judged by the latest state t, its dependencies
      by the snapshot s. */
  ghost predicate ReleaseHits(s: State, t: State, i: Id, now: Time) {
    && i in s.activities && i in t.activities
    && t.activities[i].status == RetryPending && t.activities[i].nextAttemptAt <= now
    && DependenciesDone(s.activities, s.activities[i])
  }

  lemma LeadsOn(s: State, ms: seq<Move>, t: State)
    requires Leads(s, ms, t) && Inv(s)
    ensures Inv(t) && Evolves(s, t)
  {
    LeadsKeepsInv(s, ms, t);
  }

  /** A release decided on an older state is a release that the latest state allows.  All that is needed
      of the two states is that no record was deleted, redefined or, once completed, changed. */
  lemma StaleReleaseIsSound(s: State, t: State, i: Id, now: Time)
    requires Evolves(s, t) && Inv(s) && Inv(t) && ReleaseHits(s, t, i, now)
    ensures Enabled(t, Release(now, i)) && Due(t, i, now)
  {
    hide Inv, Evolves, DependenciesDone;
    Placed(s, i);
    Placed(t, i);
    DoneStays(s, t, i);
  }

  /** What a transaction sees is a committed state with its own completion on top; what it changes is a
      later committed state with that completion on top.  The row it has completed was locked, so no other
      transaction has touched it in between. */
  lemma OwnCompletionOnTop(s: State, ms: seq<Move>, t: State, m: Move)
    requires Leads(s, ms, t) && Inv(s) && m.Complete? && Enabled(s, m)
    requires m.act in s.activities && m.act in t.activities && t.activities[m.act] == s.activities[m.act]
    ensures Enabled(t, m)
    ensures Inv(Apply(s, m)) && Inv(Apply(t, m)) && Evolves(Apply(s, m), Apply(t, m))
  {
    hide Inv, Leads, Apply, Enabled;
    LeadsOn(s, ms, t);
    Placed(t, m.act);
    StillEnabled(s, t, m);
    KeepsInv(s, m);
    KeepsInv(t, m);
    SameRecords(s, m);
    SameRecords(t, m);
    var u, v := Apply(s, m), Apply(t, m);
    forall i | i in u.activities ensures i in v.activities && Later(u.activities[i], v.activities[i]) {
      AfterMove(s, m, i);
      AfterMove(t, m, i);
      assert Later(s.activities[i], t.activities[i]);
    }
    forall i | i in v.activities && i !in u.activities ensures v.activities[i].workflow !in u.workflows {
      AfterMove(t, m, i);
    }
    CompleteKeepsWorkflows(s, m);
    CompleteKeepsWorkflows(t, m);
  }

  lemma StillEnabled(s: State, t: State, m: Move)
    requires m.Complete? && Enabled(s, m) && Known(t, m.act) && t.activities[m.act] == s.activities[m.act]
    ensures Enabled(t, m)
  {
  }

  lemma CompleteKeepsWorkflows(s: State, m: Move)
    requires m.Complete? && Enabled(s, m)
    ensures Apply(s, m).workflows == s.workflows
  {
  }

  lemma Placed(s: State, i: Id)
    requires Inv(s) && i in s.activities
    ensures Known(s, i)
  {
  }

  /** It misses exactly what is due now but had a direct upstream that was not yet completed in the
      snapshot. */
  lemma StaleReleaseMisses(s: State, t: State, i: Id, now: Time)
    requires Inv(s) && i in s.activities && Due(t, i, now)
    ensures !ReleaseHits(s, t, i, now) <==> HasOpenUpstream(s, i)
  {
    hide Inv;
    OpenUpstream(s, i);
    hide DependenciesDone, HasOpenUpstream;
  }

  ghost predicate HasOpenUpstream(s: State, i: Id) {
    exists j :: DependsOn(s, i, j) && s.activities[j].status != Completed
  }

  lemma OpenUpstream(s: State, i: Id)
    requires Inv(s) && i in s.activities
    ensures DependenciesDone(s.activities, s.activities[i]) <==> !HasOpenUpstream(s, i)
  {
    hide Counted, Gated, Consistent, UniqueKeys;
    var a := s.activities[i];
    if !DependenciesDone(s.activities, a) {
      var d :| d in a.dependsOn && !(Names(s.activities, a.workflow, d) && NameCompleted(s.activities, a.workflow, d));
      assert Names(s.activities, a.workflow, d);
      var j :| j in s.activities && s.activities[j].workflow == a.workflow && s.activities[j].name == d
               && s.activities[j].status != Completed;
      assert DependsOn(s, i, j);
    }
    if HasOpenUpstream(s, i) {
      var j :| DependsOn(s, i, j) && s.activities[j].status != Completed;
      assert !NameCompleted(s.activities, a.workflow, s.activities[j].name);
    }
  }

  /** Whatever was missed stays due as long as it waits, and any later pass that sees the completions
      and is past the retry time makes it ready. */
  lemma MissedReleaseComesLater(t: State, ms: seq<Move>, u: State, i: Id, now: Time)
    requires Leads(t, ms, u) && Inv(t) && i in t.activities && DependenciesDone(t.activities, t.activities[i])
    ensures i in u.activities
    ensures u.activities[i].status == RetryPending && u.activities[i].nextAttemptAt <= now ==>
              i in DueOf(u, "", now) && PassActivities(u, now)[i] == u.activities[i].(status := Ready)
  {
    hide Inv, Leads, DependenciesDone;
    LeadsOn(t, ms, u);
    Placed(t, i);
    DoneStays(t, u, i);
    assert Later(t.activities[i], u.activities[i]);
  }
}
