/** Database transactions as stretches of a run of the lease machine. */
module Transactions {
  import opened Invariants
  import opened Machine
  import opened Runs

  /** The run before was continued from s to t. */
  ghost predicate Continued(s: State, before: seq<Move>, t: State, after: seq<Move>) {
    before <= after && Leads(s, after[|before|..], t)
  }

  /** Some move before k completes an activity of the workflow that move k finishes. */
  ghost predicate AfterCompletion(s: State, ms: seq<Move>, k: nat)
    requires k < |ms| && ms[k].Finish?
  {
    exists j :: 0 <= j < k && Completes(s, ms[j], ms[k].workflow)
  }

  ghost predicate Completes(s: State, m: Move, w: Id) {
    m.Complete? && m.act in s.activities && s.activities[m.act].workflow == w
  }

  /** A workflow is finished only by a transaction that has completed one of its activities. */
  ghost predicate FinishesOwn(s: State, ms: seq<Move>) {
    forall k :: 0 <= k < |ms| && ms[k].Finish? ==> AfterCompletion(s, ms, k)
  }

  /** One transaction, from the state it starts in to the state it commits. */
  ghost predicate Transaction(s: State, ms: seq<Move>, t: State) {
    Leads(s, ms, t) && FinishesOwn(s, ms)
  }

  /** The run before was continued by one transaction. */
  ghost predicate Committed(s: State, before: seq<Move>, t: State, after: seq<Move>) {
    before <= after && Transaction(s, after[|before|..], t)
  }

  predicate CancelsWorkflow(ms: seq<Move>, w: Id) {
    exists k :: 0 <= k < |ms| && ms[k].Cancel? && ms[k].workflow == w
  }

  lemma ContinuedNowhere(s: State, ms: seq<Move>)
    ensures Continued(s, ms, s, ms)
  {
    LeadsNowhere(s);
    assert ms[|ms|..] == [];
  }

  lemma ContinuedOne(s: State, before: seq<Move>, t: State, after: seq<Move>, m: Move)
    requires Continued(s, before, t, after) && Enabled(t, m)
    ensures Continued(s, before, Apply(t, m), after + [m])
  {
    hide Leads, Enabled, Apply;
    LeadsThenOne(s, after[|before|..], t, m);
    assert (after + [m])[|before|..] == after[|before|..] + [m];
  }

  lemma ContinuedThrough(s: State, before: seq<Move>, t: State, middle: seq<Move>, u: State, after: seq<Move>)
    requires Continued(s, before, t, middle) && Continued(t, middle, u, after)
    ensures Continued(s, before, u, after)
  {
    hide Leads;
    LeadsThrough(s, middle[|before|..], t, after[|middle|..], u);
    assert after[..|middle|] == middle;
    assert after[|before|..] == middle[|before|..] + after[|middle|..];
  }

  /** A single move that finishes nothing, or none at all, is a transaction. */
  lemma CommittedOne(s: State, before: seq<Move>, m: Move)
    requires Enabled(s, m) && !m.Finish?
    ensures Committed(s, before, Apply(s, m), before + [m])
  {
    hide Leads, Enabled, Apply;
    LeadsOne(s, m);
    assert (before + [m])[|before|..] == [m];
  }

  lemma CommittedNothing(s: State, ms: seq<Move>)
    ensures Committed(s, ms, s, ms)
  {
    LeadsNowhere(s);
    assert ms[|ms|..] == [];
  }

  lemma CommittedWithoutFinish(s: State, before: seq<Move>, t: State, after: seq<Move>)
    requires Continued(s, before, t, after) && forall k :: |before| <= k < |after| ==> !after[k].Finish?
    ensures Committed(s, before, t, after)
  {
    hide Leads;
    var ms := after[|before|..];
    forall k | 0 <= k < |ms| ensures ms[k] == after[|before| + k] {
    }
  }

  /** What follows a completion may finish its workflow, and no other. */
  lemma CommittedAfterCompletion(s: State, before: seq<Move>, t: State, after: seq<Move>, m: Move, w: Id)
    requires Continued(s, before, t, after) && |before| < |after| && after[|before|] == m && Completes(s, m, w)
    requires forall k :: |before| <= k < |after| && after[k].Finish? ==> after[k].workflow == w
    ensures Committed(s, before, t, after)
  {
    hide Leads;
    var ms := after[|before|..];
    forall k | 0 <= k < |ms| && ms[k].Finish? ensures AfterCompletion(s, ms, k) {
      assert ms[k] == after[|before| + k] && ms[0] == m;
      assert Completes(s, ms[0], ms[k].workflow);
    }
  }

  // ---------------------------------------------------------------- a missed completion

  /** All activities are completed, and the workflow is still running. */
  ghost predicate Missed(s: State, w: Id) {
    w in s.workflows && s.workflows[w].status == WorkflowRunning && AllCompleted(s.activities, w)
  }

  /** The records of workflow w are the same in both states. */
  ghost predicate SameOf(s: State, t: State, w: Id) {
    && w in s.workflows && w in t.workflows && t.workflows[w] == s.workflows[w]
    && (forall i :: i in s.activities && s.activities[i].workflow == w ==> i in t.activities && t.activities[i] == s.activities[i])
    && (forall i :: i in t.activities && t.activities[i].workflow == w ==> i in s.activities && s.activities[i].workflow == w)
  }

  lemma ActsElsewhere(s: State, m: Move, w: Id)
    requires Enabled(s, m) && AllCompleted(s.activities, w)
    ensures !m.Launch? && !m.Finish? && !m.Cancel? ==> m.act in s.activities && s.activities[m.act].workflow != w
  {
    hide DependenciesDone;
  }

  /** No activity of the workflow is left to act on, and all that can still change it is that it is
      finished or cancelled. */
  lemma MissedMoves(s: State, m: Move, w: Id)
    requires WellFormed(s) && Enabled(s, m) && Missed(s, w)
    requires !(m.Finish? && m.workflow == w) && !(m.Cancel? && m.workflow == w)
    ensures SameOf(s, Apply(s, m), w) && !Completes(s, m, w)
  {
    hide Apply, Enabled, WellFormed;
    ActsElsewhere(s, m, w);
    if m.Launch? {
      LaunchGrows(s, m);
      assert forall i :: i in s.activities ==> Apply(s, m).activities[i] == s.activities[i];
    } else {
      SameRecords(s, m);
      var t := Apply(s, m);
      forall i | i in s.activities
        ensures i in t.activities && t.activities[i].workflow == s.activities[i].workflow
        ensures s.activities[i].workflow == w ==> t.activities[i] == s.activities[i]
      {
        AfterMove(s, m, i);
      }
      OtherStatus(s, m, w);
    }
  }

  lemma OtherStatus(s: State, m: Move, w: Id)
    requires Enabled(s, m) && !m.Launch? && w in s.workflows
    requires !m.Finish? && !m.Cancel? ==> m.act in s.activities && s.activities[m.act].workflow != w
    requires m.Finish? || m.Cancel? ==> m.workflow != w
    ensures w in Apply(s, m).workflows && Apply(s, m).workflows[w] == s.workflows[w]
  {
    hide DependenciesDone;
  }

  lemma SameStaysMissed(s: State, t: State, w: Id)
    requires Missed(s, w) && SameOf(s, t, w)
    ensures Missed(t, w)
  {
  }

  lemma SameThrough(s: State, t: State, u: State, w: Id)
    requires SameOf(s, t, w) && SameOf(t, u, w)
    ensures SameOf(s, u, w)
  {
  }

  /** Inside a transaction that does not cancel the workflow nothing completes an activity of it, so
      nothing finishes it. */
  lemma {:induction false} MissedInside(ss: seq<State>, ms: seq<Move>, w: Id, k: nat)
    requires IsRun(ss, ms) && FinishesOwn(ss[0], ms) && Inv(ss[0]) && Missed(ss[0], w) && !CancelsWorkflow(ms, w)
    requires k <= |ms|
    ensures SameOf(ss[0], ss[k], w) && Missed(ss[k], w)
    ensures forall j :: 0 <= j < k ==> !Completes(ss[0], ms[j], w)
  {
    hide Apply, Enabled, Inv, Missed, SameOf, Completes, WellFormed;
    if k == 0 {
      SameAsItself(ss[0], w);
    } else {
      MissedInside(ss, ms, w, k - 1);
      var s, m := ss[k - 1], ms[k - 1];
      assert StepAt(ss, ms, k - 1);
      RunWellFormed(ss, ms, k - 1);
      NothingToFinish(ss[0], ms, k - 1, w);
      MissedMoves(s, m, w);
      SameThrough(ss[0], s, ss[k], w);
      SameStaysMissed(s, ss[k], w);
      CompletesLater(ss[0], s, m, w);
    }
  }

  lemma NothingToFinish(s: State, ms: seq<Move>, k: nat, w: Id)
    requires FinishesOwn(s, ms) && k < |ms| && forall j :: 0 <= j < k ==> !Completes(s, ms[j], w)
    ensures !(ms[k].Finish? && ms[k].workflow == w)
  {
    hide Completes;
  }

  lemma SameAsItself(s: State, w: Id)
    requires Missed(s, w)
    ensures SameOf(s, s, w)
  {
  }

  lemma RunWellFormed(ss: seq<State>, ms: seq<Move>, k: nat)
    requires IsRun(ss, ms) && Inv(ss[0]) && k <= |ms|
    ensures WellFormed(ss[k])
  {
    RunKeepsInv(ss, ms, k);
  }

  lemma CompletesLater(s: State, t: State, m: Move, w: Id)
    requires SameOf(s, t, w) && !Completes(t, m, w)
    ensures !Completes(s, m, w)
  {
  }

  // ---------------------------------------------------------------- histories of transactions

  /** ss are the committed states before, between and after the transactions. */
  ghost predicate IsHistory(ss: seq<State>, txs: seq<seq<Move>>) {
    |ss| == |txs| + 1 && forall k :: 0 <= k < |txs| ==> Transaction(ss[k], txs[k], ss[k + 1])
  }

  predicate Cancelled(txs: seq<seq<Move>>, w: Id, k: nat)
    requires k <= |txs|
  {
    exists j :: 0 <= j < k && CancelsWorkflow(txs[j], w)
  }

  lemma TransactionMissed(s: State, ms: seq<Move>, t: State, w: Id)
    requires Transaction(s, ms, t) && Inv(s) && Missed(s, w) && !CancelsWorkflow(ms, w)
    ensures SameOf(s, t, w) && Missed(t, w) && Inv(t)
  {
    hide Inv, Missed, SameOf, CancelsWorkflow, FinishesOwn;
    var ss :| IsRun(ss, ms) && ss[0] == s && ss[|ms|] == t;
    MissedInside(ss, ms, w, |ms|);
    RunKeepsInv(ss, ms, |ms|);
  }

  /** A workflow whose completion was missed is changed by no transaction but its cancellation: claims,
      messages, passes and starts leave its row and all its activities as they are. */
  lemma {:induction false} MissedForGood(ss: seq<State>, txs: seq<seq<Move>>, w: Id, k: nat)
    requires IsHistory(ss, txs) && Inv(ss[0]) && Missed(ss[0], w) && k <= |txs| && !Cancelled(txs, w, k)
    ensures Missed(ss[k], w) && Inv(ss[k]) && SameOf(ss[0], ss[k], w)
  {
    hide Inv, Missed, SameOf, Transaction;
    if k == 0 {
      SameAsItself(ss[0], w);
    } else {
      MissedForGood(ss, txs, w, k - 1);
      assert Transaction(ss[k - 1], txs[k - 1], ss[k]);
      TransactionMissed(ss[k - 1], txs[k - 1], ss[k], w);
      SameThrough(ss[0], ss[k - 1], ss[k], w);
    }
  }

  lemma NotRunningStays(s: State, ms: seq<Move>, t: State, w: Id)
    requires Leads(s, ms, t) && Inv(s) && w in s.workflows && s.workflows[w].status != WorkflowRunning
    ensures Inv(t) && w in t.workflows && t.workflows[w].status != WorkflowRunning
  {
    hide Inv;
    var ss :| IsRun(ss, ms) && ss[0] == s && ss[|ms|] == t;
    StatusIsMonotone(ss, ms, w, 0, |ms|);
    RunKeepsInv(ss, ms, |ms|);
  }

  lemma CancelledInside(s: State, ms: seq<Move>, t: State, w: Id)
    requires Leads(s, ms, t) && Inv(s) && CancelsWorkflow(ms, w)
    ensures Inv(t) && w in t.workflows && t.workflows[w].status != WorkflowRunning
  {
    hide Inv, Evolves;
    var ss :| IsRun(ss, ms) && ss[0] == s && ss[|ms|] == t;
    var k :| 0 <= k < |ms| && ms[k].Cancel? && ms[k].workflow == w;
    assert StepAt(ss, ms, k);
    StatusEffect(ss[k], ms[k], w);
    StatusIsMonotone(ss, ms, w, k + 1, |ms|);
    RunKeepsInv(ss, ms, |ms|);
  }

  /** Only a cancellation ends a workflow whose completion was missed: it is running in exactly those later
      states that come before any cancellation of it. */
  lemma {:induction false} OnlyCancellationEnds(ss: seq<State>, txs: seq<seq<Move>>, w: Id, k: nat)
    requires IsHistory(ss, txs) && Inv(ss[0]) && Missed(ss[0], w) && k <= |txs|
    ensures Inv(ss[k]) && w in ss[k].workflows
    ensures ss[k].workflows[w].status == WorkflowRunning <==> !Cancelled(txs, w, k)
  {
    hide Inv, SameOf, Leads, FinishesOwn, CancelsWorkflow;
    if 0 < k {
      OnlyCancellationEnds(ss, txs, w, k - 1);
      var s, ms, t := ss[k - 1], txs[k - 1], ss[k];
      assert Transaction(s, ms, t);
      if Cancelled(txs, w, k - 1) {
        assert Cancelled(txs, w, k);
        NotRunningStays(s, ms, t, w);
      } else if CancelsWorkflow(ms, w) {
        CancelledInside(s, ms, t, w);
      } else {
        MissedForGood(ss, txs, w, k - 1);
        TransactionMissed(s, ms, t, w);
      }
    }
  }
}
