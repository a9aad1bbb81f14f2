/** A store in which the finish of a workflow can get lost, made by the transactions of the store itself. */
module LostFinish {
  import opened Clocks
  import opened Courses
  import opened EngineSteps
  import opened Invariants
  import opened Machine
  import opened Postgres
  import opened Races
  import opened Statements
  import opened Tables
  import opened Transactions

  function Task(name: string): ActivityDefinition {
    ActivityDefinition(name, "", [], 1, 0)
  }

  function TwoTasks(): WorkflowDefinition {
    WorkflowDefinition("d", "n", [Task("a"), Task("b")])
  }

  lemma OnlyMove(s: State, before: seq<Move>, t: State, after: seq<Move>, m: Move)
    requires Committed(s, before, t, after) && after == before + [m]
    ensures Enabled(s, m) && t == Apply(s, m)
  {
    hide Enabled, Apply;
    assert after[|before|..] == [m];
    var ss :| IsRun(ss, [m]) && ss[0] == s && ss[1] == t;
    assert StepAt(ss, [m], 0);
  }

  /** Activities x and y of workflow w are all there is, each ready or running, and ids are running. */
  ghost predicate Holds(s: State, w: Id, x: Id, y: Id, ids: set<Id>) {
    && s.workflows.Keys == {w} && s.workflows[w].status == WorkflowRunning && s.activities.Keys == {x, y}
    && forall i :: i in s.activities ==>
         && s.activities[i].workflow == w && s.activities[i].status == (if i in ids then Running else Ready)
         && s.activities[i].attempt == (if i in ids then 1 else 0)
  }

  lemma BegunHolds(m: Move, w: Id, x: Id, y: Id, now: Time)
    requires x != y && m == BeginMove(TwoTasks(), "", w, [x, y], now, 3) && Enabled(EMPTY, m)
    ensures Holds(Apply(EMPTY, m), w, x, y, {})
  {
    hide Apply, Enabled;
    LaunchGrows(EMPTY, m);
    assert m.rows[0].id == x && m.rows[1].id == y;
    assert Apply(EMPTY, m).activities.Keys == {x, y};
  }

  lemma ClaimedHolds(s: State, m: Move, w: Id, x: Id, y: Id, ids: set<Id>)
    requires Holds(s, w, x, y, ids) && m.Claim? && Enabled(s, m)
    ensures Holds(Apply(s, m), w, x, y, ids + {m.act}) && m.act !in ids && m.act in {x, y}
    ensures var t := Apply(s, m);
      && (forall i :: i in ids && i in s.activities ==> i in t.activities && t.activities[i] == s.activities[i])
      && m.act in t.activities && t.activities[m.act].leaseExpiresAt == m.expires
  {
    hide Apply;
    ClaimRecord(s, m);
  }

  lemma ReadyOnes(s: State, w: Id, x: Id, y: Id, ids: set<Id>)
    requires Holds(s, w, x, y, ids)
    ensures Claimable(s, "") - {} == {x, y} - ids
  {
  }

  lemma RaceStarts(d: Rows, s: State, w: Id, x: Id, y: Id)
    requires Refines(d, s) && Holds(s, w, x, y, {x, y})
    ensures Starts(Race(w, d, map[x := Idle, y := Idle])) && d.activities.Keys == {x, y}
    ensures forall i :: i in {x, y} ==> d.activities[i].leaseExpiresAt == Some(s.activities[i].leaseExpiresAt)
  {
    hide SameKeys, SameEvents, SameDependencies, SaysSame, Starts;
    forall i | i in d.activities
      ensures d.activities[i].workflow == w && d.activities[i].status == Running
      ensures d.activities[i].leaseExpiresAt == Some(s.activities[i].leaseExpiresAt)
    {
      SaidSame(d.activities[i], s.activities[i]);
    }
    TwoRunningStart(d, w, x, y);
  }

  lemma TwoRunningStart(d: Rows, w: Id, x: Id, y: Id)
    requires w in d.workflows && d.workflows[w].status == WorkflowRunning && d.activities.Keys == {x, y}
    requires forall i :: i in d.activities ==> d.activities[i].workflow == w && d.activities[i].status == Running
    ensures Starts(Race(w, d, map[x := Idle, y := Idle]))
  {
  }

  lemma SaidSame(row: ActivityRow, a: Activity)
    requires SaysSame(row, a)
    ensures row.workflow == a.workflow && row.status == a.status
    ensures a.attempt > 0 ==> row.leaseExpiresAt == Some(a.leaseExpiresAt)
  {
  }

  lemma NothingYet(s: State)
    requires Leads(EMPTY, [], s)
    ensures s == EMPTY
  {
  }

  lemma TwoTasksAreFine(w: Id)
    ensures StartReplyOf(NO_ROWS, TwoTasks(), "", w) == Begun(w)
  {
  }

  /** One more of the two is claimed. */
  method ClaimOne(p: Postgres, worker: string, ghost w: Id, ghost x: Id, ghost y: Id, ghost ids: set<Id>)
    returns (i: Id, expires: Time)
    requires p.Valid() && Holds(p.core, w, x, y, ids) && {x, y} - ids != {}
    modifies p, p.clock
    ensures p.Valid() && Holds(p.core, w, x, y, ids + {i}) && i in {x, y} - ids
    ensures i in p.core.activities && p.core.activities[i].leaseExpiresAt == expires
    ensures forall j :: j in ids && j in old(p.core).activities ==>
      j in p.core.activities && p.core.activities[j] == old(p.core).activities[j]
  {
    hide Refines, Inv, Enabled, Apply, Leads, Holds, Claimable, Committed;
    ghost var s, ms := p.core, p.moves;
    ReadyOnes(s, w, x, y, ids);
    var answer, receipt := p.Claim(worker, "", {});
    i, expires := answer.activity, receipt.expires;
    ghost var now := p.clock.last;
    ghost var m := Machine.Claim(now, i, worker, "", now + WholeSeconds(p.leaseTTL));
    OnlyMove(s, ms, p.core, p.moves, m);
    ClaimedHolds(s, m, w, x, y, ids);
  }

  /** A workflow of two activities is started. */
  method StartTwo(clock: Clock, w: Id, x: Id, y: Id) returns (p: Postgres)
    requires clock.steady && clock.last > 0 && x != y
    modifies clock
    ensures fresh(p) && p.clock == clock && p.Valid() && Holds(p.core, w, x, y, {})
  {
    hide Refines, Inv, Enabled, Apply, Leads, Holds, BeginMove, StartReplyOf, Committed;
    p := new Postgres(0, 0, clock);
    ghost var s := p.core;
    NothingYet(s);
    TwoTasksAreFine(w);
    var reply := p.Start(TwoTasks(), "", w, [x, y]);
    ghost var m := BeginMove(TwoTasks(), "", w, [x, y], clock.last, 3);
    OnlyMove(s, [], p.core, p.moves, m);
    BegunHolds(m, w, x, y, clock.last);
  }

  /** A workflow of two activities is started, and both are claimed.  Until the first of the two leases ends,
      completions that overlap lose the finish. */
  method TwoLeft(clock: Clock, w: Id, x: Id, y: Id) returns (p: Postgres, r: Race, until: Time)
    requires clock.steady && clock.last > 0 && x != y
    modifies clock
    ensures fresh(p) && p.clock == clock && p.Valid() && r == Race(w, p.Stored(), map[x := Idle, y := Idle])
    ensures Starts(r) && x in p.activities && y in p.activities
    ensures forall at :: at < until ==> LeaseOn(p.activities[x], at) && LeaseOn(p.activities[y], at)
    ensures forall at :: at < until ==> FinishGetsLost(r, at)
  {
    hide Refines, Inv, Starts, Holds, FinishGetsLost, LeaseOn;
    p := StartTwo(clock, w, x, y);
    assert x in {x, y} - {};
    var i, first := ClaimOne(p, "p", w, x, y, {});
    assert {} + {i} == {i};
    assert (if i == x then y else x) in {x, y} - {i};
    var j, second := ClaimOne(p, "q", w, x, y, {i});
    assert {i} + {j} == {x, y};
    until := if first < second then first else second;
    r := Race(w, p.Stored(), map[x := Idle, y := Idle]);
    RaceStarts(p.Stored(), p.core, w, x, y);
    forall at | at < until
      ensures LeaseOn(p.activities[x], at) && LeaseOn(p.activities[y], at) && FinishGetsLost(r, at)
    {
      LeaseStillOn(p.activities[x], at);
      LeaseStillOn(p.activities[y], at);
      LosesFinish(r, x, y, at);
    }
  }

  lemma LosesFinish(r: Race, x: Id, y: Id, at: Time)
    requires Starts(r) && r.phases.Keys == {x, y} && x != y
    requires x in r.committed.activities && LeaseOn(r.committed.activities[x], at)
    requires y in r.committed.activities && LeaseOn(r.committed.activities[y], at)
    ensures FinishGetsLost(r, at)
  {
    hide Starts, LeaseOn, IsRace;
    var rs, xs := TwoLastCompletionsCanMiss(r, x, y, at);
    assert IsLost(r, rs, xs, at) by { RaceHasSteps(rs, xs); }
  }

  lemma RaceHasSteps(rs: seq<Race>, xs: seq<Step>)
    requires IsRace(rs, xs)
    ensures |rs| == |xs| + 1
  {
  }

  lemma LeaseStillOn(row: ActivityRow, at: Time)
    ensures row.leaseExpiresAt.Some? && at < row.leaseExpiresAt.value ==> LeaseOn(row, at)
  {
  }

  /** Some overlapping completions, all at the reading given, leave the workflow unfinished. */
  ghost predicate FinishGetsLost(r: Race, at: Time) {
    exists rs, xs :: IsLost(r, rs, xs, at)
  }

  ghost predicate IsLost(r: Race, rs: seq<Race>, xs: seq<Step>, at: Time) {
    && IsRace(rs, xs) && rs[0] == r && AllOver(rs[|xs|]) && !Finished(rs[|xs|])
    && forall k :: 0 <= k < |xs| && xs[k].Update? ==> xs[k].at == at
  }
}
