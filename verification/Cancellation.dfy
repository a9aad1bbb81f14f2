/** What can still happen to a workflow of the engine after it was cancelled: exactly when the
    cancellation is final, exactly which of its activities can be handed out again, and how often. */
module Cancellation {
  import opened Courses
  import opened EngineRuns
  import opened EngineSteps
  import opened Invariants
  import opened Machine
  import opened Runs

  ghost predicate EndsFailed(x: Course, w: Id) {
    IsCourse(x) && w in End(x).core.workflows && End(x).core.workflows[w].status == WorkflowFailed
  }

  /** Some calls from time at on fail the workflow. */
  ghost predicate CanFail(e: EngineState, w: Id, at: Time) {
    exists x :: Begins(x, e, at) && EndsFailed(x, w)
  }

  /** Some calls from time at on hand out the activity. */
  ghost predicate CanBeClaimed(e: EngineState, i: Id, at: Time) {
    exists x :: Begins(x, e, at) && EndsWithGrant(x, i)
  }

  /** Some calls from time at on hand out the activity n times. */
  ghost predicate CanBeClaimedTimes(e: EngineState, i: Id, at: Time, n: nat) {
    exists x :: Begins(x, e, at) && Grants(x, i, |x.calls|) == n
  }

  ghost predicate HasRunning(s: State, w: Id) {
    exists i :: i in s.activities && s.activities[i].workflow == w && s.activities[i].status == Running
  }

  // ---------------------------------------------------------------- the cancellation itself

  ghost function CancelMove(e: EngineState, w: Id, now: Time): Move
    requires w in e.members
  {
    Cancel(now, w, PendingAmong(e.core, e.members[w]))
  }

  lemma CancelStep(e: EngineState, w: Id, now: Time)
    requires EngineInv(e) && CancelAnswer(e.core, w).Accepted?
    ensures Timely(e, CancellingCall(w, now), now, now) && EngineInv(Step(e, CancellingCall(w, now)))
    ensures w in e.members && Enabled(e.core, CancelMove(e, w, now))
    ensures Step(e, CancellingCall(w, now)).core == Apply(e.core, CancelMove(e, w, now))
  {
    hide Apply, Enabled, Inv, PendingAmong, Lists, Filed, IssuedActivity, IssuedWorkflow;
    CanCancel(e, w, now);
    assert Timely(e, CancellingCall(w, now), now, now);
    StepKeepsEngineInv(e, CancellingCall(w, now), now, now);
  }

  lemma StillRunning(s: State, m: Move, i: Id)
    requires m.Cancel? && Enabled(s, m) && Inv(s) && i in s.activities && s.activities[i].status == Running
    ensures i in Apply(s, m).activities && Apply(s, m).activities[i] == s.activities[i]
  {
    hide Inv;
    AfterMove(s, m, i);
  }

  // ---------------------------------------------------------------- when a cancellation is final

  /** What was not running when its workflow was cancelled keeps a record that has not failed. */
  lemma IdleNeverFails(s: State, m: Move, ms: seq<Move>, t: State, i: Id)
    requires m.Cancel? && Enabled(s, m) && Inv(s) && Leads(Apply(s, m), ms, t)
    requires i in t.activities && t.activities[i].workflow == m.workflow && t.activities[i].status == Failed
    ensures i in s.activities && s.activities[i].workflow == m.workflow && s.activities[i].status == Running
  {
    hide Inv;
    LeadsOne(s, m);
    LeadsThrough(s, [m], Apply(s, m), ms, t);
    var ss :| IsRun(ss, [m] + ms) && ss[0] == s && ss[|[m] + ms|] == t;
    var n := |[m] + ms|;
    assert StepAt(ss, [m] + ms, 0);
    ThereBefore(ss, [m] + ms, i, 0, n);
    if s.activities[i].status != Running {
      CancelFinishesPending(s, m, i);
      RunRecordStays(ss, [m] + ms, i, 1, n);
      NoneFailedYet(s, m, i);
    }
  }

  lemma NoneFailedYet(s: State, m: Move, i: Id)
    requires m.Cancel? && Enabled(s, m) && Inv(s) && i in s.activities && s.activities[i].workflow == m.workflow
    ensures i in Apply(s, m).activities && Apply(s, m).activities[i].status != Failed
  {
    assert Known(s, i);
    assert Agrees(s.activities[i].status, s.workflows[m.workflow].status);
  }

  lemma FailedHasActivity(s: State, w: Id)
    requires Inv(s) && w in s.workflows && s.workflows[w].status == WorkflowFailed
    ensures HasFailed(s, w)
  {
  }

  /** A cancellation is final exactly if no activity of the workflow was running: otherwise, and only
      then, some calls fail the workflow. */
  lemma CancelIsFinal(e: EngineState, w: Id, now: Time)
    requires EngineInv(e) && CancelAnswer(e.core, w).Accepted?
    ensures Timely(e, CancellingCall(w, now), now, now)
    ensures CanFail(Step(e, CancellingCall(w, now)), w, now) <==> HasRunning(e.core, w)
  {
    hide EngineInv, Inv, Leads, Enabled, Apply, Step, Timely, IsStretch, CancelAnswer, PendingAmong;
    CancelStep(e, w, now);
    InvOf(e);
    var m, r := CancelMove(e, w, now), Step(e, CancellingCall(w, now));
    if HasRunning(e.core, w) {
      var i :| i in e.core.activities && e.core.activities[i].workflow == w && e.core.activities[i].status == Running;
      StillRunning(e.core, m, i);
      var x := Standing(r, now);
      var y := RunningCanFail(x, i);
      assert Begins(y, r, now);
    }
    if CanFail(r, w, now) {
      var x :| Begins(x, r, now) && EndsFailed(x, w);
      FailedNeedsRunning(e, w, now, x);
    }
  }

  lemma FailedNeedsRunning(e: EngineState, w: Id, now: Time, x: Course)
    requires EngineInv(e) && CancelAnswer(e.core, w).Accepted? && w in e.members
    requires Enabled(e.core, CancelMove(e, w, now)) && IsCourse(x) && EndsFailed(x, w)
    requires x.states[0].core == Apply(e.core, CancelMove(e, w, now))
    ensures HasRunning(e.core, w)
  {
    hide EngineInv, Inv, Leads, Enabled, Apply, IsStretch, CancelAnswer, PendingAmong;
    EndInv(x);
    InvOf(e);
    InvOf(End(x));
    var ms := CourseLeads(x, |x.calls|);
    FailedHasActivity(End(x).core, w);
    var t := End(x).core;
    var i :| i in t.activities && t.activities[i].workflow == w && t.activities[i].status == Failed;
    IdleNeverFails(e.core, CancelMove(e, w, now), ms, t, i);
  }

  // ---------------------------------------------------------------- what can be handed out again

  /** A course that ends by handing out activity i is a run of the machine that ends by its claim. */
  lemma GrantLeads(x: Course, i: Id) returns (ms: seq<Move>, t: State)
    requires EndsWithGrant(x, i)
    ensures Leads(x.states[0].core, ms, t) && |ms| > 0 && IsClaim(ms[|ms| - 1], i)
  {
    hide EngineInv, Apply, Enabled, Leads, Step, Timely, Within;
    var k := |x.calls| - 1;
    var e, c := x.states[k], x.calls[k];
    var ns := CourseLeads(x, k);
    ClaimStep(e, c.worker, c.queue, c.now);
    var m := Claim(c.now, i, c.worker, c.queue, c.now + e.leaseTTL);
    LeadsThenOne(x.states[0].core, ns, e.core, m);
    ms, t := ns + [m], Apply(e.core, m);
  }

  /** After a cancellation an activity of the workflow can be handed out exactly if it was running with
      an attempt left. */
  lemma ClaimedAgainAfterCancel(e: EngineState, w: Id, now: Time, i: Id)
    requires EngineInv(e) && CancelAnswer(e.core, w).Accepted?
    requires i in e.core.activities && e.core.activities[i].workflow == w
    ensures Timely(e, CancellingCall(w, now), now, now)
    ensures CanBeClaimed(Step(e, CancellingCall(w, now)), i, now) <==>
              e.core.activities[i].status == Running && e.core.activities[i].attempt < e.core.activities[i].maxAttempts
  {
    hide EngineInv, Inv, Leads, Enabled, Apply, Step, Timely, IsStretch, CancelAnswer, PendingAmong, EndsWithGrant;
    CancelStep(e, w, now);
    InvOf(e);
    var a, m, r := e.core.activities[i], CancelMove(e, w, now), Step(e, CancellingCall(w, now));
    if a.status == Running && a.attempt < a.maxAttempts {
      StillRunning(e.core, m, i);
      var x := Standing(r, now);
      var y := ReadyAgain(x, i);
      var z := ClaimUntil(y, i);
      assert Begins(z, r, now);
    }
    if CanBeClaimed(r, i, now) {
      var x :| Begins(x, r, now) && EndsWithGrant(x, i);
      var ms, t := GrantLeads(x, i);
      ClaimNeedsLease(e.core, m, ms, t, i);
    }
  }

  lemma ClaimNeedsLease(s: State, m: Move, ms: seq<Move>, t: State, i: Id)
    requires m.Cancel? && Enabled(s, m) && Inv(s) && i in s.activities && s.activities[i].workflow == m.workflow
    requires Leads(Apply(s, m), ms, t) && |ms| > 0 && IsClaim(ms[|ms| - 1], i)
    ensures s.activities[i].status == Running && s.activities[i].attempt < s.activities[i].maxAttempts
  {
    hide Inv, Apply, Enabled, Evolves;
    LeadsOne(s, m);
    LeadsThrough(s, [m], Apply(s, m), ms, t);
    var all := [m] + ms;
    var ss :| IsRun(ss, all) && ss[0] == s && ss[|all|] == t;
    ThereAll(ss, all, i, |ms|);
    ClaimsAfterCancel(ss, all, i, 0, |ms|);
    assert IsClaim(all[|ms|], i);
    assert Claims(all, i, 0, |all|) >= 1;
  }

  lemma ThereAll(ss: seq<State>, ms: seq<Move>, i: Id, k: nat)
    requires IsRun(ss, ms) && k <= |ms| && i in ss[0].activities
    ensures i in ss[k].activities && ss[k].activities[i].workflow == ss[0].activities[i].workflow
  {
    RunEvolves(ss, ms, 0, k);
    assert Later(ss[0].activities[i], ss[k].activities[i]);
  }

  // ---------------------------------------------------------------- how often

  lemma {:induction false} NoClaims(ms: seq<Move>, i: Id, k: nat)
    requires k <= |ms| && ClaimsNothing(ms)
    ensures Claims(ms, i, 0, k) == 0
  {
    if 0 < k { NoClaims(ms, i, k - 1); }
  }

  /** Only a call that hands the activity out counts as an attempt. */
  lemma CallCounts(e: EngineState, c: Call, lo: Time, hi: Time, i: Id)
    requires EngineInv(e) && Timely(e, c, lo, hi) && i in e.core.activities
    ensures i in Step(e, c).core.activities
    ensures Step(e, c).core.activities[i].attempt == e.core.activities[i].attempt + (if Hands(e, c, i) then 1 else 0)
  {
    hide EngineInv, Inv, Timely, Apply, Enabled, Within;
    if c.ClaimingCall? {
      if Claimable(e.core, c.queue) != {} { ClaimStep(e, c.worker, c.queue, c.now); }
    } else {
      hide Step;
      InvOf(e);
      var ms := StepLeads(e, c, lo, hi);
      assert Leads(e.core, ms, Step(e, c).core);
      var ss :| IsRun(ss, ms) && ss[0] == e.core && ss[|ms|] == Step(e, c).core;
      AtMostSoManyClaims(ss, ms, i, 0, |ms|);
      NoClaims(ms, i, |ms|);
    }
  }

  lemma {:induction false} GrantsCountAttempts(x: Course, i: Id, k: nat)
    requires IsCourse(x) && k <= |x.calls| && i in x.states[0].core.activities
    ensures i in x.states[k].core.activities
    ensures x.states[k].core.activities[i].attempt == x.states[0].core.activities[i].attempt + Grants(x, i, k)
  {
    hide EngineInv, Step, Timely, Hands;
    if 0 < k {
      GrantsCountAttempts(x, i, k - 1);
      StretchInv(x.states, x.calls, x.clock, k - 1);
      assert CallAt(x.states, x.calls, x.clock, k - 1);
      CallCounts(x.states[k - 1], x.calls[k - 1], x.clock[k - 1], x.clock[k], i);
    }
  }

  /** From any running activity on, all attempts that are left can be handed out, one lease after the
      other. */
  lemma {:induction false} UsesUp(e: EngineState, i: Id, at: Time, n: nat) returns (x: Course)
    requires EngineInv(e) && i in e.core.activities && e.core.activities[i].status == Running
    requires e.core.activities[i].attempt + n <= e.core.activities[i].maxAttempts
    ensures Begins(x, e, at) && Grants(x, i, |x.calls|) == n
    ensures i in End(x).core.activities && End(x).core.activities[i].status == Running
    ensures End(x).core.activities[i].attempt == e.core.activities[i].attempt + n
    ensures End(x).core.activities[i].maxAttempts == e.core.activities[i].maxAttempts
  {
    hide EngineInv, IsStretch, EndsWithGrant;
    if n == 0 {
      x := Standing(e, at);
    } else {
      var y := UsesUp(e, i, at, n - 1);
      var z := ReadyAgain(y, i);
      x := ClaimUntil(z, i);
    }
  }

  /** A running activity can be handed out n more times exactly if it has n attempts left, whatever
      became of its workflow: the bound on the claims after a cancellation is attained. */
  lemma AttemptsCanBeUsedUp(e: EngineState, i: Id, at: Time, n: nat)
    requires EngineInv(e) && i in e.core.activities && e.core.activities[i].status == Running
    ensures CanBeClaimedTimes(e, i, at, n) <==> n <= e.core.activities[i].maxAttempts - e.core.activities[i].attempt
  {
    hide EngineInv, Inv, IsStretch;
    if n <= e.core.activities[i].maxAttempts - e.core.activities[i].attempt {
      var x := UsesUp(e, i, at, n);
    }
    if CanBeClaimedTimes(e, i, at, n) {
      var x :| Begins(x, e, at) && Grants(x, i, |x.calls|) == n;
      NeverTooMany(x, i);
    }
  }

  lemma NeverTooMany(x: Course, i: Id)
    requires IsCourse(x) && i in x.states[0].core.activities
    ensures Grants(x, i, |x.calls|) <= x.states[0].core.activities[i].maxAttempts - x.states[0].core.activities[i].attempt
  {
    hide EngineInv, Inv, IsStretch, Leads, Evolves;
    EndInv(x);
    StretchInv(x.states, x.calls, x.clock, 0);
    InvOf(x.states[0]);
    InvOf(End(x));
    GrantsCountAttempts(x, i, |x.calls|);
    var ms := CourseLeads(x, |x.calls|);
    LeadsKeepsInv(x.states[0].core, ms, End(x).core);
    assert Later(x.states[0].core.activities[i], End(x).core.activities[i]) by { EvolvesLater(x.states[0].core, End(x).core, i); }
    InvCounts(End(x).core, i);
  }

  lemma EvolvesLater(s: State, t: State, i: Id)
    requires Evolves(s, t) && i in s.activities
    ensures i in t.activities && Later(s.activities[i], t.activities[i])
  {
  }
}
