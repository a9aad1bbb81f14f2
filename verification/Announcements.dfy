/** Which events tell that a workflow has failed. */
module Announcements {
  import opened EngineRuns
  import opened EngineSteps
  import opened Invariants
  import opened Logs
  import opened Machine
  import opened Runs

  const ANNOUNCEMENT: Entry := Entry("", WorkflowFailedEvent)

  ghost predicate Says(h: seq<Entry>, kind: Kind) {
    exists i :: Entry(i, kind) in h
  }

  /** The history tells a failure: by a report of a worker or by a last expiry. */
  ghost predicate TellsFailure(h: seq<Entry>) {
    Says(h, FailedEvent) || Says(h, ExpiredFailedEvent)
  }

  lemma SaysBoth(h: seq<Entry>, xs: seq<Entry>, kind: Kind)
    ensures Says(h + xs, kind) <==> Says(h, kind) || Says(xs, kind)
  {
    if Says(h, kind) {
      var i :| Entry(i, kind) in h;
      assert Entry(i, kind) in h + xs;
    }
    if Says(xs, kind) {
      var i :| Entry(i, kind) in xs;
      assert Entry(i, kind) in h + xs;
    }
  }

  /** What the entries of a move tell. */
  lemma MoveTells(m: Move)
    requires m.Reject? ==> IsStale(m.kind)
    ensures Says(Entries(m), FailedEvent) <==> m.Fail?
    ensures Says(Entries(m), ExpiredFailedEvent) <==> m.ReapFail?
    ensures ANNOUNCEMENT in Entries(m) <==> m.Fail? || (m.ReapFail? && m.announced)
  {
    if m.Fail? {
      assert Entries(m)[0] == Entry(m.act, FailedEvent) && Entries(m)[1] == ANNOUNCEMENT;
    } else if m.ReapFail? {
      assert Entries(m)[|Entries(m)| - 1] == Entry(m.act, ExpiredFailedEvent);
      assert m.announced ==> Entries(m)[0] == ANNOUNCEMENT;
    }
  }

  /** What one move adds to the history of workflow w, and when it fails w. */
  lemma MoveAdds(s: State, m: Move, w: Id)
    requires Enabled(s, m) && WellFormed(s) && w in Apply(s, m).workflows
    ensures var h, t := History(s, w), History(Apply(s, m), w);
      && (Says(t, FailedEvent) <==> Says(h, FailedEvent) || (w == Home(s, m) && m.Fail?))
      && (Says(t, ExpiredFailedEvent) <==> Says(h, ExpiredFailedEvent) || (w == Home(s, m) && m.ReapFail?))
      && (ANNOUNCEMENT in t <==>
            ANNOUNCEMENT in h || (w == Home(s, m) && (m.Fail? || (m.ReapFail? && m.announced))))
  {
    hide Apply, Enabled, WellFormed, History, Says, Entries;
    StaleOnly(s, m);
    MoveHistory(s, m, w);
    MoveTells(m);
    SaysBoth(History(s, w), Entries(m), FailedEvent);
    SaysBoth(History(s, w), Entries(m), ExpiredFailedEvent);
  }

  lemma StaleOnly(s: State, m: Move)
    requires Enabled(s, m)
    ensures m.Reject? ==> IsStale(m.kind)
  {
  }

  lemma MoveFails(s: State, m: Move, w: Id)
    requires Enabled(s, m) && WellFormed(s) && w in Apply(s, m).workflows
    ensures w !in s.workflows ==> History(s, w) == [] && Apply(s, m).workflows[w].status == WorkflowRunning && m.Launch?
    ensures w in s.workflows ==>
      (Apply(s, m).workflows[w].status == WorkflowFailed <==>
         s.workflows[w].status == WorkflowFailed || (w == Home(s, m) && (m.Fail? || m.ReapFail?)))
  {
    hide Apply, Enabled, DependenciesDone;
    if w in s.workflows {
      StatusEffect(s, m, w);
      StatusesBefore(s, m);
    } else {
      assert w !in s.events;
      if m.Launch? { LaunchGrows(s, m); } else { SameRecords(s, m); }
    }
  }

  ghost predicate Told(s: State, w: Id, silent: bool, announcing: bool)
    requires w in s.workflows
  {
    var h, failed := History(s, w), s.workflows[w].status == WorkflowFailed;
    && (failed <==> TellsFailure(h))
    && (silent ==> (ANNOUNCEMENT in h <==> Says(h, FailedEvent)))
    && (announcing ==> (ANNOUNCEMENT in h <==> failed))
  }

  lemma MoveKeepsTold(s: State, m: Move, w: Id, silent: bool, announcing: bool)
    requires Enabled(s, m) && WellFormed(s) && w in Apply(s, m).workflows
    requires w in s.workflows ==> Told(s, w, silent, announcing)
    requires m.ReapFail? ==> (silent ==> !m.announced) && (announcing ==> m.announced)
    ensures Told(Apply(s, m), w, silent, announcing)
  {
    hide Apply, Enabled, WellFormed, History, Says;
    MoveAdds(s, m, w);
    MoveFails(s, m, w);
    NothingSaid(FailedEvent);
    NothingSaid(ExpiredFailedEvent);
  }

  lemma NothingSaid(kind: Kind)
    ensures !Says([], kind)
  {
  }

  lemma {:induction false} RunIsTold(ss: seq<State>, ms: seq<Move>, k: nat, w: Id)
    requires IsRun(ss, ms) && ss[0] == EMPTY && k <= |ms| && w in ss[k].workflows
    ensures Told(ss[k], w, Silent(ms), Announcing(ms))
  {
    hide Apply, Enabled, Told, Counted, Gated, Consistent, UniqueKeys, WellFormed;
    if 0 < k {
      var s, m := ss[k - 1], ms[k - 1];
      assert StepAt(ss, ms, k - 1);
      if w in s.workflows { RunIsTold(ss, ms, k - 1, w); }
      EmptyInv();
      RunKeepsInv(ss, ms, k - 1);
      MoveKeepsTold(s, m, w, Silent(ms), Announcing(ms));
    }
  }

  /** In every run a workflow is failed exactly if its log tells of a failure report or a last expiry.
      The event workflow.failed is there for every failure if last expiries are announced, and only for
      failure reports if they are not. */
  lemma WhoTellsOfFailure(ss: seq<State>, ms: seq<Move>, k: nat, w: Id)
    requires IsRun(ss, ms) && ss[0] == EMPTY && k <= |ms| && w in ss[k].workflows
    ensures var h, failed := History(ss[k], w), ss[k].workflows[w].status == WorkflowFailed;
      && (failed <==> TellsFailure(h))
      && (Silent(ms) ==> (ANNOUNCEMENT in h <==> Says(h, FailedEvent)))
      && (Announcing(ms) ==> (ANNOUNCEMENT in h <==> failed))
  {
    RunIsTold(ss, ms, k, w);
  }

  /** In the engine a workflow's log holds workflow.failed exactly if a worker reported a failure: a
      failure by last expiry alone is silent. */
  lemma EngineFailureEvent(es: seq<EngineState>, cs: seq<Call>, clock: seq<Time>, k: nat, w: Id)
    requires IsEngineRun(es, cs, clock) && k <= |cs| && w in es[k].core.workflows
    ensures var s, h := es[k].core, History(es[k].core, w);
      && (ANNOUNCEMENT in h <==> Says(h, FailedEvent))
      && (s.workflows[w].status == WorkflowFailed && ANNOUNCEMENT !in h <==>
            Says(h, ExpiredFailedEvent) && !Says(h, FailedEvent))
  {
    hide IsEngineRun, EngineInv, Says, History;
    NewEngineIsEmpty(es, cs, clock);
    var ms := EngineRunLeads(es, cs, clock, 0, k);
    var ss :| IsRun(ss, ms) && ss[0] == EMPTY && ss[|ms|] == es[k].core;
    WhoTellsOfFailure(ss, ms, |ms|, w);
  }

  lemma NewEngineIsEmpty(es: seq<EngineState>, cs: seq<Call>, clock: seq<Time>)
    requires IsEngineRun(es, cs, clock)
    ensures |es| == |cs| + 1 == |clock| && es[0].core == EMPTY
  {
  }
}
