/** What the outcome of a handler does to its activity, in the closed system of engine and workers. */
module Outcomes {
  import opened EngineRuns
  import opened EngineSteps
  import opened Invariants
  import opened Machine
  import opened Runs
  import opened Worker

  /** The handler that ran under the token of the record ended with this outcome. */
  ghost predicate EndedSo(w: World, i: Id, outcome: Outcome)
    requires i in w.engine.core.activities
  {
    exists g :: g in w.ended && g.act == i && g.token == w.engine.core.activities[i].fencingToken && w.ended[g] == outcome
  }

  /** The activity failed although it had attempts left. */
  predicate FailedEarly(a: Activity) {
    a.status == Failed && a.attempt < a.maxAttempts
  }

  /** The activity waits for another attempt. */
  predicate Retries(a: Activity) {
    a.status == RetryPending && 0 < a.attempt
  }

  ghost predicate OutcomesOk(w: World) {
    forall i :: i in w.engine.core.activities ==>
      && (FailedEarly(w.engine.core.activities[i]) ==> EndedSo(w, i, NoHandler))
      && (Retries(w.engine.core.activities[i]) ==> EndedSo(w, i, Errored))
  }

  /** Only a report makes an activity wait for another attempt, or fail before its attempts are used up. */
  lemma OnlyReports(s: State, m: Move, i: Id)
    requires Enabled(s, m) && !m.Retry? && !m.Fail? && i in Apply(s, m).activities
    requires FailedEarly(Apply(s, m).activities[i]) || Retries(Apply(s, m).activities[i])
    ensures i in s.activities && s.activities[i] == Apply(s, m).activities[i]
  {
    hide Apply, DependenciesDone;
    if i !in s.activities {
      Created(s, m, i);
    } else if m.Launch? {
      LaunchKeepsRecord(s, m, i);
    } else {
      AfterMove(s, m, i);
    }
  }

  lemma {:induction false} OnlyReportsInside(ss: seq<State>, ms: seq<Move>, k: nat, i: Id)
    requires IsRun(ss, ms) && ReportsNothing(ms) && k <= |ms| && i in ss[k].activities
    requires FailedEarly(ss[k].activities[i]) || Retries(ss[k].activities[i])
    ensures i in ss[0].activities && ss[0].activities[i] == ss[k].activities[i]
  {
    hide Apply, Enabled, FailedEarly, Retries;
    if 0 < k {
      assert StepAt(ss, ms, k - 1);
      OnlyReports(ss[k - 1], ms[k - 1], i);
      OnlyReportsInside(ss, ms, k - 1, i);
    }
  }

  /** The call is an accepted report about activity i under the token of its record, of an error that can be
      retried exactly if the activity is to be retried. */
  predicate ReportedBy(c: Call, i: Id, a: Activity) {
    c.FailingCall? && c.act == i && c.token == a.fencingToken && (c.retryable <==> a.status == RetryPending)
  }

  lemma FailingCallReports(e: EngineState, c: Call, i: Id)
    requires EngineInv(e) && c.FailingCall? && i in FailCall(e, c.act, c.worker, c.token, c.retryable, c.check, c.base).core.activities
    requires var b := FailCall(e, c.act, c.worker, c.token, c.retryable, c.check, c.base).core.activities[i];
             FailedEarly(b) || Retries(b)
    ensures var b := FailCall(e, c.act, c.worker, c.token, c.retryable, c.check, c.base).core.activities[i];
            i in e.core.activities && (e.core.activities[i] == b || ReportedBy(c, i, b))
  {
    hide EngineInv, Apply, Enabled, Current;
    if c.act in e.core.activities { Housed(e, c.act); }
    match MessageAnswer(e.core, c.act, c.worker, c.token, c.check) {
      case Accepted =>
        AcceptedEnables(e, c.act, c.worker, c.token, c.check, c.base, c.retryable);
        var m := FailMove(e, c.act, c.worker, c.token, c.retryable, c.check, c.base);
        SameRecords(e.core, m);
        AfterMove(e.core, m, i);
        TokenIsCurrent(e.core.activities[c.act], c.worker, c.token, c.check);
      case Refused(StaleLease) =>
        RejectEnabled(e, c.act, c.worker, c.token, c.check, StaleFailureEvent);
        OnlyReports(e.core, Reject(c.check, c.act, c.worker, c.token, StaleFailureEvent), i);
      case Refused(_) =>
    }
  }

  lemma TokenIsCurrent(a: Activity, worker: string, token: int, now: Time)
    requires Current(a, worker, token, now)
    ensures a.fencingToken == token
  {
  }

  lemma StepReports(e: EngineState, c: Call, lo: Time, hi: Time, i: Id)
    requires EngineInv(e) && Timely(e, c, lo, hi) && i in Step(e, c).core.activities
    requires FailedEarly(Step(e, c).core.activities[i]) || Retries(Step(e, c).core.activities[i])
    ensures i in e.core.activities
    ensures e.core.activities[i] == Step(e, c).core.activities[i] || ReportedBy(c, i, Step(e, c).core.activities[i])
  {
    hide EngineInv, Timely, Apply, Enabled, FailedEarly, Retries, ReportedBy, FailCall, Within;
    if c.FailingCall? {
      FailingCallReports(e, c, i);
    } else {
      hide Step;
      var ms := StepLeads(e, c, lo, hi);
      assert Leads(e.core, ms, Step(e, c).core);
      var ss :| IsRun(ss, ms) && ss[0] == e.core && ss[|ms|] == Step(e, c).core;
      OnlyReportsInside(ss, ms, |ms|, i);
    }
  }

  lemma OutcomesStayOk(w: World, x: Worker.Event, lo: Time, hi: Time)
    requires WorldOk(w) && OutcomesOk(w) && Happens(w, x, lo, hi)
    ensures OutcomesOk(Next(w, x, lo, hi))
  {
    hide EngineInv, NewGrants, Step, Timely, LimitsOk, CompletionsOk, FailedEarly, Retries;
    var t := Next(w, x, lo, hi);
    forall i | i in t.engine.core.activities
      ensures FailedEarly(t.engine.core.activities[i]) ==> EndedSo(t, i, NoHandler)
      ensures Retries(t.engine.core.activities[i]) ==> EndedSo(t, i, Errored)
    {
      OutcomeStaysOk(w, x, lo, hi, i);
    }
  }

  lemma OutcomeStaysOk(w: World, x: Worker.Event, lo: Time, hi: Time, i: Id)
    requires WorldOk(w) && OutcomesOk(w) && Happens(w, x, lo, hi) && i in Next(w, x, lo, hi).engine.core.activities
    ensures var t := Next(w, x, lo, hi);
      && (FailedEarly(t.engine.core.activities[i]) ==> EndedSo(t, i, NoHandler))
      && (Retries(t.engine.core.activities[i]) ==> EndedSo(t, i, Errored))
  {
    hide EngineInv, NewGrants, Step, Timely, LimitsOk, CompletionsOk;
    var t := Next(w, x, lo, hi);
    var b := t.engine.core.activities[i];
    if FailedEarly(b) || Retries(b) {
      if Asked(x) == [] {
        KeepsOutcomes(w, x, lo, hi, i);
      } else {
        var c := Asked(x)[0];
        assert c in Asked(x);
        StepReports(w.engine, c, lo, hi, i);
        if ReportedBy(c, i, b) {
          ReportArrives(w, x, c, lo, hi);
          assert x.grant in t.ended && t.ended[x.grant] == if c.retryable then Errored else NoHandler;
        } else {
          KeepsOutcomes(w, x, lo, hi, i);
        }
      }
    }
  }

  /** A failure report reaches the engine only as the message about a handler that is missing or has erred. */
  lemma ReportArrives(w: World, x: Worker.Event, c: Call, lo: Time, hi: Time)
    requires Happens(w, x, lo, hi) && Asked(x) == [c] && c.FailingCall?
    ensures x.Arrives? && x.call == c && x.grant in w.ended && x.grant.act == c.act && x.grant.token == c.token
    ensures w.ended[x.grant] == if c.retryable then Errored else NoHandler
  {
    assert Asked(x)[0] == c;
  }

  lemma KeepsOutcomes(w: World, x: Worker.Event, lo: Time, hi: Time, i: Id)
    requires WorldOk(w) && Happens(w, x, lo, hi) && i in w.engine.core.activities
    requires var t := Next(w, x, lo, hi).engine.core;
             i in t.activities && t.activities[i] == w.engine.core.activities[i]
    ensures forall outcome :: EndedSo(w, i, outcome) ==> EndedSo(Next(w, x, lo, hi), i, outcome)
  {
    hide EngineInv, EngineAfter, NewGrants, Asked, LimitsOk, CompletionsOk;
    var t := Next(w, x, lo, hi);
    forall outcome | EndedSo(w, i, outcome) ensures EndedSo(t, i, outcome) {
      var g :| g in w.ended && g.act == i && g.token == w.engine.core.activities[i].fencingToken && w.ended[g] == outcome;
      assert g in t.ended && t.ended[g] == outcome;
    }
  }

  lemma {:induction false} WorldRunOutcomes(ws: seq<World>, xs: seq<Worker.Event>, clock: seq<Time>, k: nat)
    requires IsWorldRun(ws, xs, clock) && k <= |xs|
    ensures OutcomesOk(ws[k])
  {
    hide WorldOk, EngineInv, Next, Happens, OutcomesOk, IsNew;
    if k == 0 {
      NothingEnded(ws[0]);
    } else {
      WorldRunOutcomes(ws, xs, clock, k - 1);
      WorldRunOk(ws, xs, clock, k - 1);
      assert EventAt(ws, xs, clock, k - 1);
      EngineOf(ws[k - 1]);
      OutcomesStayOk(ws[k - 1], xs[k - 1], clock[k - 1], clock[k]);
    }
  }

  lemma NothingEnded(w: World)
    requires IsNew(w.engine)
    ensures OutcomesOk(w)
  {
  }

  /** An activity fails before its attempts are used up only if a worker that claimed it had no handler for
      it; and it waits for another attempt only if its handler has erred, under the token it bears. */
  lemma FailsEarlyWithoutHandler(ws: seq<World>, xs: seq<Worker.Event>, clock: seq<Time>, k: nat, i: Id)
    requires IsWorldRun(ws, xs, clock) && k <= |xs| && i in ws[k].engine.core.activities
    ensures var a := ws[k].engine.core.activities[i];
      && (a.status == Failed && a.attempt < a.maxAttempts ==> EndedSo(ws[k], i, NoHandler))
      && (a.status == RetryPending && 0 < a.attempt ==> EndedSo(ws[k], i, Errored))
  {
    WorldRunOutcomes(ws, xs, clock, k);
  }
}
