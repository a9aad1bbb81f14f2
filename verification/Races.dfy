/** The last completions of a workflow, when their transactions overlap.  Under READ COMMITTED the statement
    that finishes the workflow judges the other activities by the committed rows and its own update; it
    locks none of them. */
module Races {
  import opened Invariants
  import opened Machine
  import opened Statements
  import opened Tables
  import opened Transactions
  import opened Writes

  /** The transaction that completes one activity: it has locked and updated its row, having found the
      lease on at its reading of the clock; it has run the statement that finishes the workflow; it has
      committed. */
  datatype Phase = Idle | Updated(at: Time) | Judged(at: Time, sawAll: bool) | Over

  /** The completing transactions of a workflow, one for each activity that is not completed yet, and the
      committed rows. */
  datatype Race = Race(workflow: Id, committed: Rows, phases: map<Id, Phase>)

  /** The reading of a transaction is that of its begin; transactions may commit in another order. */
  datatype Step = Update(act: Id, at: Time) | Judge(act: Id) | Commit(act: Id)

  predicate LeaseOn(row: ActivityRow, at: Time) {
    row.leaseExpiresAt.Some? && row.leaseExpiresAt.value > at
  }

  /** The committed rows with the transaction's own update. */
  function Seen(d: Rows, i: Id): Rows
    requires i in d.activities
  {
    d.(activities := d.activities[i := CompletedRow(d.activities[i])])
  }

  /** The condition of the finishing statement. */
  predicate Finishes(d: Rows, w: Id)
    requires w in d.workflows
  {
    d.workflows[w].status == WorkflowRunning && NoneIncomplete(d.activities, w)
  }

  /** The rows once the transaction of activity i has committed, its events written last. */
  function CommittedRows(d: Rows, w: Id, i: Id, sawAll: bool): Rows
    requires i in d.activities && w in d.workflows
  {
    var t := Seen(d, i).(events := d.events + [EventRow(w, Entry(i, CompletedEvent))]);
    if sawAll then
      t.(workflows := t.workflows[w := t.workflows[w].(status := WorkflowCompleted)],
         events := t.events + [EventRow(w, Entry("", FinishedEvent))])
    else t
  }

  predicate CanStep(r: Race, x: Step) {
    && x.act in r.phases && x.act in r.committed.activities && r.workflow in r.committed.workflows
    && match x
       case Update(i, at) => r.phases[i].Idle? && LeaseOn(r.committed.activities[i], at)
       case Judge(i) => r.phases[i].Updated?
       case Commit(i) => r.phases[i].Judged?
  }

  function Take(r: Race, x: Step): Race
    requires CanStep(r, x)
  {
    match x
    case Update(i, at) => r.(phases := r.phases[i := Updated(at)])
    case Judge(i) =>
      r.(phases := r.phases[i := Judged(r.phases[i].at, Finishes(Seen(r.committed, i), r.workflow))])
    case Commit(i) =>
      r.(phases := r.phases[i := Over], committed := CommittedRows(r.committed, r.workflow, i, r.phases[i].sawAll))
  }

  /** All activities of the running workflow are completed, or running and about to be completed. */
  ghost predicate Starts(r: Race) {
    && RaceOk(r) && r.committed.workflows[r.workflow].status == WorkflowRunning
    && forall i :: i in r.phases ==> r.phases[i].Idle?
  }

  ghost predicate IsRace(rs: seq<Race>, xs: seq<Step>) {
    |rs| == |xs| + 1 && Starts(rs[0]) && forall k :: 0 <= k < |xs| ==> TakenAt(rs, xs, k)
  }

  ghost predicate TakenAt(rs: seq<Race>, xs: seq<Step>, k: nat)
    requires |rs| == |xs| + 1 && k < |xs|
  {
    CanStep(rs[k], xs[k]) && rs[k + 1] == Take(rs[k], xs[k])
  }

  ghost predicate AllOver(r: Race) {
    forall i :: i in r.phases ==> r.phases[i].Over?
  }

  ghost predicate Finished(r: Race) {
    r.workflow in r.committed.workflows && r.committed.workflows[r.workflow].status == WorkflowCompleted
  }

  // ---------------------------------------------------------------- what every step keeps

  /** The transaction has updated its row and not committed. */
  predicate Between(p: Phase) {
    p.Updated? || p.Judged?
  }

  predicate SawAll(p: Phase) {
    p.Judged? && p.sawAll
  }

  /** All other transactions have committed. */
  ghost predicate OthersOver(r: Race, i: Id) {
    forall j :: j in r.phases && j != i ==> r.phases[j].Over?
  }

  ghost predicate RaceOk(r: Race) {
    var d, w := r.committed, r.workflow;
    && w in d.workflows
    && (forall i :: i in r.phases ==>
          i in d.activities && d.activities[i].workflow == w
          && d.activities[i].status == (if r.phases[i].Over? then Completed else Running)
          && (Between(r.phases[i]) ==> LeaseOn(d.activities[i], r.phases[i].at)))
    && (forall i :: i in d.activities && d.activities[i].workflow == w && i !in r.phases ==>
          d.activities[i].status == Completed)
    && (forall i :: i in r.phases && SawAll(r.phases[i]) ==> OthersOver(r, i))
    && (d.workflows[w].status == WorkflowRunning || (d.workflows[w].status == WorkflowCompleted && AllOver(r)))
  }

  /** The finishing statement hits exactly if all other transactions have committed. */
  lemma JudgesOthers(r: Race, i: Id)
    requires RaceOk(r) && i in r.phases && !r.phases[i].Over?
    ensures Finishes(Seen(r.committed, i), r.workflow) <==> OthersOver(r, i)
  {
    var d, w := Seen(r.committed, i), r.workflow;
    assert r.committed.workflows[w].status == WorkflowRunning;
    if OthersOver(r, i) {
      forall j | j in d.activities && d.activities[j].workflow == w ensures d.activities[j].status == Completed {
      }
    }
    if NoneIncomplete(d.activities, w) {
      forall j | j in r.phases && j != i ensures r.phases[j].Over? {
        assert d.activities[j] == r.committed.activities[j];
      }
    }
  }

  lemma StepKeepsRaceOk(r: Race, x: Step)
    requires RaceOk(r) && CanStep(r, x)
    ensures RaceOk(Take(r, x)) && Take(r, x).phases.Keys == r.phases.Keys && Take(r, x).workflow == r.workflow
  {
    var t := Take(r, x);
    if x.Judge? { JudgesOthers(r, x.act); }
    forall i | i in t.phases && SawAll(t.phases[i]) ensures OthersOver(t, i) {
      if x.Judge? && x.act == i { assert OthersOver(r, i); }
    }
  }

  lemma {:induction false} RunIsOk(rs: seq<Race>, xs: seq<Step>, n: nat)
    requires IsRace(rs, xs) && n <= |xs|
    ensures RaceOk(rs[n]) && rs[n].phases.Keys == rs[0].phases.Keys && rs[n].workflow == rs[0].workflow
  {
    hide RaceOk, Take;
    if n == 0 {
      assert Starts(rs[0]);
    } else {
      RunIsOk(rs, xs, n - 1);
      assert TakenAt(rs, xs, n - 1);
      StepKeepsRaceOk(rs[n - 1], xs[n - 1]);
    }
  }

  // ---------------------------------------------------------------- the condition on the schedule

  /** Step k runs the finishing statement of one transaction after all others have committed. */
  ghost predicate JudgesLast(xs: seq<Step>, ids: set<Id>, k: nat) {
    k < |xs| && xs[k].Judge? && forall j :: j in ids && j != xs[k].act ==> Commit(j) in xs[..k]
  }

  ghost predicate SomeJudgesLast(xs: seq<Step>, ids: set<Id>, n: nat) {
    exists k :: 0 <= k < n && JudgesLast(xs, ids, k)
  }

  /** A transaction has committed exactly if its commit has happened. */
  lemma {:induction false} OverMeansCommitted(rs: seq<Race>, xs: seq<Step>, n: nat, i: Id)
    requires IsRace(rs, xs) && n <= |xs| && i in rs[0].phases
    ensures i in rs[n].phases && (rs[n].phases[i].Over? <==> Commit(i) in xs[..n])
  {
    RunIsOk(rs, xs, n);
    if 0 < n {
      OverMeansCommitted(rs, xs, n - 1, i);
      assert TakenAt(rs, xs, n - 1);
      assert xs[..n] == xs[..n - 1] + [xs[n - 1]];
    }
  }

  ghost predicate HasSeenAll(r: Race) {
    Finished(r) || exists i :: i in r.phases && SawAll(r.phases[i])
  }

  lemma OneStepSees(r: Race, x: Step)
    requires RaceOk(r) && CanStep(r, x)
    ensures HasSeenAll(Take(r, x)) <==> HasSeenAll(r) || (x.Judge? && OthersOver(r, x.act))
  {
    var t, i := Take(r, x), x.act;
    if x.Judge? { JudgesOthers(r, i); }
    if HasSeenAll(r) && !Finished(r) {
      var j :| j in r.phases && SawAll(r.phases[j]);
      assert j != i ==> t.phases[j] == r.phases[j];
    }
    if x.Judge? && OthersOver(r, i) { assert SawAll(t.phases[i]); }
    if HasSeenAll(t) && !Finished(t) {
      var j :| j in t.phases && SawAll(t.phases[j]);
      assert j != i ==> r.phases[j] == t.phases[j];
    }
  }

  lemma {:induction false} SeenSoFar(rs: seq<Race>, xs: seq<Step>, n: nat)
    requires IsRace(rs, xs) && n <= |xs|
    ensures HasSeenAll(rs[n]) <==> SomeJudgesLast(xs, rs[0].phases.Keys, n)
  {
    hide RaceOk, Take, HasSeenAll;
    if n == 0 {
      NothingSeen(rs[0]);
    } else {
      var ids := rs[0].phases.Keys;
      SeenSoFar(rs, xs, n - 1);
      RunIsOk(rs, xs, n - 1);
      assert TakenAt(rs, xs, n - 1);
      OneStepSees(rs[n - 1], xs[n - 1]);
      forall j | j in ids ensures rs[n - 1].phases[j].Over? <==> Commit(j) in xs[..n - 1] {
        OverMeansCommitted(rs, xs, n - 1, j);
      }
      assert xs[n - 1].Judge? ==> (OthersOver(rs[n - 1], xs[n - 1].act) <==> JudgesLast(xs, ids, n - 1));
    }
  }

  lemma NothingSeen(r: Race)
    requires Starts(r)
    ensures !HasSeenAll(r)
  {
  }

  /** Once all completions are committed, the workflow is finished if and only if one transaction ran its
      finishing statement after all the others had committed. */
  lemma FinishedIffOneJudgedLast(rs: seq<Race>, xs: seq<Step>)
    requires IsRace(rs, xs) && AllOver(rs[|xs|])
    ensures Finished(rs[|xs|]) <==> SomeJudgesLast(xs, rs[0].phases.Keys, |xs|)
  {
    SeenSoFar(rs, xs, |xs|);
  }

  // ---------------------------------------------------------------- the last judgement

  predicate HasJudged(p: Phase) {
    p.Judged? || p.Over?
  }

  /** The last judgement before step n, if something has been judged by then. */
  lemma {:induction false} LastJudge(rs: seq<Race>, xs: seq<Step>, n: nat) returns (k: nat)
    requires IsRace(rs, xs) && n <= |xs| && exists i :: i in rs[n].phases && HasJudged(rs[n].phases[i])
    ensures k < n && xs[k].Judge? && forall l :: k < l < n ==> !xs[l].Judge?
  {
    var i :| i in rs[n].phases && HasJudged(rs[n].phases[i]);
    assert n > 0;
    assert TakenAt(rs, xs, n - 1);
    if xs[n - 1].Judge? {
      k := n - 1;
    } else {
      assert HasJudged(rs[n - 1].phases[i]);
      k := LastJudge(rs, xs, n - 1);
    }
  }

  /** What has judged stays so. */
  lemma {:induction false} JudgedStays(rs: seq<Race>, xs: seq<Step>, k: nat, n: nat, i: Id)
    requires IsRace(rs, xs) && k <= n <= |xs| && i in rs[k].phases && HasJudged(rs[k].phases[i])
    ensures i in rs[n].phases && HasJudged(rs[n].phases[i])
    decreases n - k
  {
    if k < n {
      JudgedStays(rs, xs, k, n - 1, i);
      assert TakenAt(rs, xs, n - 1);
    }
  }

  /** Only the last judgement can come after all other commits. */
  lemma OnlyTheLastJudgesLast(rs: seq<Race>, xs: seq<Step>, k: nat, l: nat)
    requires IsRace(rs, xs) && k < l < |xs| && xs[k].Judge? && xs[l].Judge?
    ensures !JudgesLast(xs, rs[0].phases.Keys, k)
  {
    var i, j := xs[k].act, xs[l].act;
    assert TakenAt(rs, xs, k) && TakenAt(rs, xs, l);
    RunIsOk(rs, xs, k);
    RunIsOk(rs, xs, l);
    JudgedStays(rs, xs, k + 1, l, i);
    assert j != i;
    if Commit(j) in xs[..k] {
      OverMeansCommitted(rs, xs, k, j);
      JudgedStays(rs, xs, k, l, j);
    }
  }

  /** In terms of the schedule alone: once all completions are committed, the workflow is finished if and
      only if the last judgement came after the commit of every other activity. */
  lemma FinishedIffLastJudgeSawCommits(rs: seq<Race>, xs: seq<Step>, k: nat)
    requires IsRace(rs, xs) && AllOver(rs[|xs|])
    requires k < |xs| && xs[k].Judge? && forall l :: k < l < |xs| ==> !xs[l].Judge?
    ensures Finished(rs[|xs|]) <==> forall j :: j in rs[0].phases && j != xs[k].act ==> Commit(j) in xs[..k]
  {
    hide Finished;
    var ids := rs[0].phases.Keys;
    FinishedIffOneJudgedLast(rs, xs);
    if SomeJudgesLast(xs, ids, |xs|) {
      var l :| 0 <= l < |xs| && JudgesLast(xs, ids, l);
      if l < k { OnlyTheLastJudgesLast(rs, xs, l, k); }
    }
    if forall j :: j in ids && j != xs[k].act ==> Commit(j) in xs[..k] {
      assert JudgesLast(xs, ids, k);
    }
  }

  // ---------------------------------------------------------------- transactions that do not overlap

  /** No update while another transaction is between update and commit. */
  ghost predicate Serial(rs: seq<Race>, xs: seq<Step>) {
    |rs| == |xs| + 1
    && forall k, j :: 0 <= k < |xs| && xs[k].Update? && j in rs[k].phases ==> !Between(rs[k].phases[j])
  }

  lemma {:induction false} OneAtATime(rs: seq<Race>, xs: seq<Step>, n: nat, i: Id, j: Id)
    requires IsRace(rs, xs) && Serial(rs, xs) && n <= |xs| && i in rs[n].phases && j in rs[n].phases
    requires Between(rs[n].phases[i]) && Between(rs[n].phases[j])
    ensures i == j
  {
    if 0 < n {
      assert TakenAt(rs, xs, n - 1);
      if !xs[n - 1].Update? {
        OneAtATime(rs, xs, n - 1, i, j);
      }
    }
  }

  /** What is over at n, with no judgement after step k, had judged by step k. */
  lemma {:induction false} JudgedBefore(rs: seq<Race>, xs: seq<Step>, k: nat, n: nat, j: Id)
    requires IsRace(rs, xs) && k < n <= |xs| && xs[k].Judge? && j != xs[k].act
    requires forall l :: k < l < n ==> !xs[l].Judge?
    requires j in rs[n].phases && HasJudged(rs[n].phases[j])
    ensures j in rs[k].phases && HasJudged(rs[k].phases[j])
    decreases n - k
  {
    assert TakenAt(rs, xs, n - 1);
    if n - 1 > k {
      JudgedBefore(rs, xs, k, n - 1, j);
    }
  }

  /** Completions that do not overlap always finish the workflow. */
  lemma SerialCompletionsFinish(rs: seq<Race>, xs: seq<Step>)
    requires IsRace(rs, xs) && Serial(rs, xs) && rs[0].phases != map[] && AllOver(rs[|xs|])
    ensures Finished(rs[|xs|])
  {
    hide Finished, RaceOk, Take;
    RunIsOk(rs, xs, |xs|);
    var any :| any in rs[0].phases;
    assert HasJudged(rs[|xs|].phases[any]);
    var k := LastJudge(rs, xs, |xs|);
    RunIsOk(rs, xs, k);
    assert TakenAt(rs, xs, k);
    var i := xs[k].act;
    forall j | j in rs[0].phases && j != i ensures Commit(j) in xs[..k] {
      JudgedBefore(rs, xs, k, |xs|, j);
      OverMeansCommitted(rs, xs, k, j);
      if Between(rs[k].phases[j]) { OneAtATime(rs, xs, k, i, j); }
    }
    FinishedIffLastJudgeSawCommits(rs, xs, k);
  }

  // ---------------------------------------------------------------- the lost finish

  lemma OneIsOpen(d: Rows, w: Id, i: Id, j: Id)
    requires w in d.workflows && i in d.activities && j in d.activities && i != j
    requires d.activities[j].workflow == w && d.activities[j].status != Completed
    ensures !Finishes(Seen(d, i), w)
  {
    assert Seen(d, i).activities[j] == d.activities[j];
  }

  lemma NoneIsOpen(r: Race)
    requires RaceOk(r) && AllOver(r)
    ensures NoneIncomplete(r.committed.activities, r.workflow)
  {
  }

  lemma StartsWithTwo(r: Race, i: Id, j: Id)
    requires Starts(r) && r.phases.Keys == {i, j} && i != j
    ensures r.phases == map[i := Idle, j := Idle] && r.workflow in r.committed.workflows
    ensures r.committed.workflows[r.workflow].status == WorkflowRunning
    ensures forall k :: k in {i, j} ==>
      k in r.committed.activities && r.committed.activities[k].workflow == r.workflow
      && r.committed.activities[k].status == Running
  {
  }

  /** The last two completions of any workflow, if they overlap, miss each other: all activities are
      completed, the workflow is not. */
  lemma TwoLastCompletionsCanMiss(r: Race, i: Id, j: Id, at: Time) returns (rs: seq<Race>, xs: seq<Step>)
    requires Starts(r) && r.phases.Keys == {i, j} && i != j
    requires i in r.committed.activities && LeaseOn(r.committed.activities[i], at)
    requires j in r.committed.activities && LeaseOn(r.committed.activities[j], at)
    ensures IsRace(rs, xs) && rs[0] == r && AllOver(rs[|xs|]) && !Finished(rs[|xs|])
    ensures forall k :: 0 <= k < |xs| && xs[k].Update? ==> xs[k].at == at
    ensures var d, w := rs[|xs|].committed, r.workflow;
            w in d.workflows && d.workflows[w].status == WorkflowRunning && NoneIncomplete(d.activities, w)
  {
    hide RaceOk, Finishes, NoneIncomplete, Seen, Starts, LeaseOn;
    StartsWithTwo(r, i, j);
    xs := [Update(i, at), Update(j, at), Judge(i), Judge(j), Commit(i), Commit(j)];
    OneIsOpen(r.committed, r.workflow, i, j);
    OneIsOpen(r.committed, r.workflow, j, i);
    var r1 := Take(r, xs[0]);
    var r2 := Take(r1, xs[1]);
    var r3 := Take(r2, xs[2]);
    var r4 := Take(r3, xs[3]);
    assert r4.committed == r.committed && r4.phases == map[i := Judged(at, false), j := Judged(at, false)];
    var r5, r6 := BothCommit(r4, i, j, at);
    rs := [r, r1, r2, r3, r4, r5, r6];
    forall k | 0 <= k < |xs| ensures TakenAt(rs, xs, k) {
    }
    RunIsOk(rs, xs, |xs|);
    NoneIsOpen(r6);
  }

  lemma BothCommit(r: Race, i: Id, j: Id, at: Time) returns (s: Race, t: Race)
    requires r.workflow in r.committed.workflows && i != j
    requires r.phases == map[i := Judged(at, false), j := Judged(at, false)]
    requires i in r.committed.activities && j in r.committed.activities
    ensures CanStep(r, Commit(i)) && s == Take(r, Commit(i))
    ensures CanStep(s, Commit(j)) && t == Take(s, Commit(j))
    ensures t.workflow == r.workflow && t.committed.workflows == r.committed.workflows && AllOver(t)
  {
    s := Take(r, Commit(i));
    t := Take(s, Commit(j));
  }

  // ---------------------------------------------------------------- races as runs of the lease machine

  /** What the finishing statement looks for is what the lease machine calls a missed completion. */
  lemma MissedOnRows(d: Rows, s: State, w: Id)
    requires Refines(d, s)
    ensures Missed(s, w) <==> w in d.workflows && Finishes(d, w)
  {
    SameIds(d, s);
    if w in d.workflows { FinishCondition(d, s, w, 0); }
  }

  /** A commit is a completion of the lease machine, at the reading of the transaction, followed by the
      finish if the transaction saw all. */
  lemma CommitLeads(r: Race, s: State, i: Id) returns (ms: seq<Move>, t: State)
    requires RaceOk(r) && Inv(s) && Refines(r.committed, s) && CanStep(r, Commit(i))
    ensures Leads(s, ms, t) && Refines(Take(r, Commit(i)).committed, t) && Inv(t)
    ensures forall k :: 0 <= k < |ms| ==> ms[k].at == r.phases[i].at
  {
    hide Refines, Inv, Leads, Enabled, Apply, Emit, WithStatus;
    var d, w := r.committed, r.workflow;
    RowBehind(d, s, i);
    var a := s.activities[i];
    var m := Complete(r.phases[i].at, i, a.leaseOwner, a.fencingToken);
    HolderCanComplete(s, m);
    MoveCore(s, m);
    RowUpdated(d, s, i, CompletedRow(d.activities[i]), After(a, m, i));
    EventInserted(Seen(d, i), Rewritten(s, m), w, Entry(i, CompletedEvent));
    KeepsInv(s, m);
    LeadsOne(s, m);
    ms, t := [m], Apply(s, m);
    if r.phases[i].sawAll {
      var e := CommittedRows(d, w, i, false);
      LastOfAll(r, i);
      FinishCondition(e, t, w, m.at);
      StatusUpdated(e, t, w, WorkflowCompleted);
      EventInserted(e.(workflows := e.workflows[w := e.workflows[w].(status := WorkflowCompleted)]),
                    WithStatus(t, w, WorkflowCompleted), w, Entry("", FinishedEvent));
      FinishWritten(t, m.at, w);
      KeepsInv(t, Finish(m.at, w));
      LeadsThenOne(s, [m], t, Finish(m.at, w));
      ms, t := [m] + [Finish(m.at, w)], Apply(t, Finish(m.at, w));
    }
  }

  lemma HolderCanComplete(s: State, m: Move)
    requires m.Complete? && Known(s, m.act) && s.activities[m.act].status == Running
    requires m.worker == s.activities[m.act].leaseOwner && m.token == s.activities[m.act].fencingToken
    requires m.at < s.activities[m.act].leaseExpiresAt
    ensures Enabled(s, m)
  {
  }

  lemma LastOfAll(r: Race, i: Id)
    requires RaceOk(r) && CanStep(r, Commit(i)) && SawAll(r.phases[i])
    ensures var e := CommittedRows(r.committed, r.workflow, i, false);
            r.workflow in e.workflows && Finishes(e, r.workflow)
  {
    assert OthersOver(r, i) && !r.phases[i].Over?;
    JudgesOthers(r, i);
  }

  /** Step k commits a transaction whose reading was at. */
  predicate CommitsAt(rs: seq<Race>, xs: seq<Step>, k: nat, at: Time)
    requires k < |xs| < |rs|
  {
    && xs[k].Commit? && xs[k].act in rs[k].phases && Between(rs[k].phases[xs[k].act])
    && rs[k].phases[xs[k].act].at == at
  }

  ghost predicate IsReading(rs: seq<Race>, xs: seq<Step>, n: nat, at: Time)
    requires n <= |xs| < |rs|
  {
    exists k :: 0 <= k < n && CommitsAt(rs, xs, k, at)
  }

  /** The reading of each move is that of a transaction committed before step n. */
  ghost predicate AtReadings(rs: seq<Race>, xs: seq<Step>, n: nat, ms: seq<Move>)
    requires n <= |xs| < |rs|
  {
    forall l :: 0 <= l < |ms| ==> IsReading(rs, xs, n, ms[l].at)
  }

  /** The transactions commit in the order of their readings. */
  ghost predicate CommitsInOrder(rs: seq<Race>, xs: seq<Step>, n: nat)
    requires n <= |xs| < |rs|
  {
    forall j, k, at, later :: 0 <= j < k < n && CommitsAt(rs, xs, j, at) && CommitsAt(rs, xs, k, later) ==> at <= later
  }

  lemma ReadingsStay(rs: seq<Race>, xs: seq<Step>, n: nat, ms: seq<Move>)
    requires n < |xs| < |rs| && AtReadings(rs, xs, n, ms)
    ensures AtReadings(rs, xs, n + 1, ms) && (CommitsInOrder(rs, xs, n + 1) ==> CommitsInOrder(rs, xs, n))
  {
    hide CommitsAt;
    forall l | 0 <= l < |ms| ensures IsReading(rs, xs, n + 1, ms[l].at) {
      assert IsReading(rs, xs, n, ms[l].at);
      var k :| 0 <= k < n && CommitsAt(rs, xs, k, ms[l].at);
    }
  }

  lemma LaterReadings(rs: seq<Race>, xs: seq<Step>, n: nat, ms: seq<Move>, ns: seq<Move>, at: Time)
    requires n < |xs| < |rs| && AtReadings(rs, xs, n, ms) && CommitsAt(rs, xs, n, at)
    requires forall k :: 0 <= k < |ns| ==> ns[k].at == at
    ensures AtReadings(rs, xs, n + 1, ms + ns)
    ensures CommitsInOrder(rs, xs, n + 1) && Ordered(ms) ==> Ordered(ms + ns)
  {
    hide CommitsAt;
    ReadingsStay(rs, xs, n, ms);
    assert IsReading(rs, xs, n + 1, at);
    if CommitsInOrder(rs, xs, n + 1) {
      forall l | 0 <= l < |ms| ensures ms[l].at <= at {
        assert IsReading(rs, xs, n, ms[l].at);
        var k :| 0 <= k < n && CommitsAt(rs, xs, k, ms[l].at);
      }
    }
  }

  /** The committed rows of a race stand for states that a run of the lease machine reaches.  Its completions
      take the readings of their transactions; so the readings of the run go back where a transaction with
      an earlier reading commits later, and only there. */
  lemma {:induction false} RaceLeads(rs: seq<Race>, xs: seq<Step>, n: nat, s: State) returns (ms: seq<Move>, t: State)
    requires IsRace(rs, xs) && n <= |xs| && Inv(s) && Refines(rs[0].committed, s)
    ensures Leads(s, ms, t) && Inv(t) && Refines(rs[n].committed, t)
    ensures AtReadings(rs, xs, n, ms)
    ensures CommitsInOrder(rs, xs, n) ==> Ordered(ms)
  {
    hide Refines, Inv, Leads, RaceOk;
    if n == 0 {
      LeadsNowhere(s);
      ms, t := [], s;
    } else {
      ms, t := RaceLeads(rs, xs, n - 1, s);
      RunIsOk(rs, xs, n - 1);
      assert TakenAt(rs, xs, n - 1);
      ReadingsStay(rs, xs, n - 1, ms);
      if xs[n - 1].Commit? {
        var ns, u := CommitLeads(rs[n - 1], t, xs[n - 1].act);
        LeadsThrough(s, ms, t, ns, u);
        LaterReadings(rs, xs, n - 1, ms, ns, rs[n - 1].phases[xs[n - 1].act].at);
        ms, t := ms + ns, u;
      }
    }
  }

  lemma MissedIffNoneJudgedLast(rs: seq<Race>, xs: seq<Step>, t: State)
    requires IsRace(rs, xs) && AllOver(rs[|xs|]) && Refines(rs[|xs|].committed, t)
    ensures Missed(t, rs[0].workflow) <==> !SomeJudgesLast(xs, rs[0].phases.Keys, |xs|)
  {
    hide Refines, Missed;
    RunIsOk(rs, xs, |xs|);
    FinishedIffOneJudgedLast(rs, xs);
    MissedOnRows(rs[|xs|].committed, t, rs[0].workflow);
  }
}
