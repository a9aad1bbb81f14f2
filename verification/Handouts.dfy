/** When the engine still hands out work of a workflow, whatever the workflow's status is.  A claim does
    not look at the workflow, so this is decided by its activities alone. */
module Handouts {
  import opened Courses
  import opened Cancellation
  import opened EngineRuns
  import opened EngineSteps
  import opened Invariants
  import opened Machine
  import opened Runs
  import opened Scheduler
  import opened Topology

  /** Some calls from time at on hand out an activity of workflow w. */
  ghost predicate HandsOut(e: EngineState, w: Id, at: Time) {
    exists x, i :: Begins(x, e, at) && EndsWithGrant(x, i) && IsOf(End(x).core, i, w)
  }

  ghost predicate IsOf(s: State, i: Id, w: Id) {
    i in s.activities && s.activities[i].workflow == w
  }

  /** The activity is completed, or its holder can still complete it. */
  predicate CanBeDone(a: Activity, at: Time) {
    a.status == Completed || (a.status == Running && !Expired(a, at))
  }

  /** Activity i is ready, or can get ready: by a new attempt, or once all its direct upstreams, each of
      them done or in the hands of a worker, are done. */
  ghost predicate IsOffer(s: State, i: Id, at: Time) {
    && i in s.activities
    && match s.activities[i].status
       case Ready => true
       case Running => s.activities[i].attempt < s.activities[i].maxAttempts
       case RetryPending => forall j :: DependsOn(s, i, j) ==> CanBeDone(s.activities[j], at)
       case _ => false
  }

  ghost predicate Offers(s: State, w: Id, at: Time) {
    exists i :: IsOf(s, i, w) && IsOffer(s, i, at)
  }

  // ---------------------------------------------------------------- without an offer nothing is handed out

  /** What was no offer is none after the move. */
  lemma NoOfferStays(s: State, m: Move, w: Id, at: Time)
    requires Enabled(s, m) && Inv(s) && w in s.workflows && at <= m.at && !Offers(s, w, at)
    ensures !Offers(Apply(s, m), w, at)
  {
    hide Inv, Apply, Enabled, DependsOn;
    var t := Apply(s, m);
    if Offers(t, w, at) {
      var i :| IsOf(t, i, w) && IsOffer(t, i, at);
      MoveEvolves(s, m);
      OldOnes(s, t, i, w);
      if m.Launch? {
        LaunchKeepsOffer(s, m, i, at);
      } else {
        AfterMove(s, m, i);
        match t.activities[i].status {
          case Ready => ReadyWasOffer(s, m, i, at);
          case Running => RunningWasOffer(s, m, i, at);
          case RetryPending => WaitingWasOffer(s, m, i, w, at);
          case _ =>
        }
      }
    }
  }

  /** The activities of an old workflow are old. */
  lemma OldOnes(s: State, t: State, i: Id, w: Id)
    requires Evolves(s, t) && w in s.workflows && IsOf(t, i, w)
    ensures IsOf(s, i, w) && Later(s.activities[i], t.activities[i])
  {
  }

  lemma LaunchKeepsOffer(s: State, m: Move, i: Id, at: Time)
    requires m.Launch? && Enabled(s, m) && i in s.activities && IsOffer(Apply(s, m), i, at)
    ensures IsOffer(s, i, at)
  {
    hide Apply, Enabled;
    LaunchGrows(s, m);
    assert forall j :: DependsOn(s, i, j) ==> DependsOn(Apply(s, m), i, j);
  }

  lemma ReadyWasOffer(s: State, m: Move, i: Id, at: Time)
    requires Enabled(s, m) && !m.Launch? && i in s.activities && After(s.activities[i], m, i).status == Ready
    ensures IsOffer(s, i, at)
  {
    hide DependenciesDone;
    StatusesBefore(s, m);
    AttemptsLeft(s, m);
    if m.Release? && m.act == i { DoneIsOffer(s, i, at); }
  }

  lemma DoneIsOffer(s: State, i: Id, at: Time)
    requires i in s.activities && s.activities[i].status == RetryPending
    requires DependenciesDone(s.activities, s.activities[i])
    ensures IsOffer(s, i, at)
  {
    forall j | DependsOn(s, i, j) ensures CanBeDone(s.activities[j], at) {
      assert NameCompleted(s.activities, s.activities[i].workflow, s.activities[j].name);
    }
  }

  lemma RunningWasOffer(s: State, m: Move, i: Id, at: Time)
    requires Enabled(s, m) && !m.Launch? && i in s.activities && After(s.activities[i], m, i).status == Running
    requires After(s.activities[i], m, i).attempt < After(s.activities[i], m, i).maxAttempts
    ensures IsOffer(s, i, at)
  {
    hide Enabled;
    StatusesBefore(s, m);
  }

  lemma WaitingWasOffer(s: State, m: Move, i: Id, w: Id, at: Time)
    requires Enabled(s, m) && !m.Launch? && Inv(s) && at <= m.at && IsOf(s, i, w) && !Offers(s, w, at)
    requires After(s.activities[i], m, i).status == RetryPending
    requires i in Apply(s, m).activities && IsOffer(Apply(s, m), i, at)
    requires Apply(s, m).activities[i] == After(s.activities[i], m, i)
    ensures IsOffer(s, i, at)
  {
    hide Inv, Apply, Enabled, Offers, After;
    var t := Apply(s, m);
    WaitingBefore(s, m, i);
    if s.activities[i].status == RetryPending {
      forall j | DependsOn(s, i, j) ensures CanBeDone(s.activities[j], at) {
        AfterMove(s, m, j);
        SameDefinitions(s, m, i);
        SameDefinitions(s, m, j);
        assert DependsOn(t, i, j);
        DoableBefore(s, m, j, w, at);
      }
    }
  }

  lemma SameDefinitions(s: State, m: Move, i: Id)
    requires Enabled(s, m) && !m.Launch? && i in s.activities
    ensures i in Apply(s, m).activities && SameDefinition(s.activities[i], Apply(s, m).activities[i])
  {
    hide Apply, Enabled;
    AfterMove(s, m, i);
  }

  lemma WaitingBefore(s: State, m: Move, i: Id)
    requires Enabled(s, m) && !m.Launch? && i in s.activities && After(s.activities[i], m, i).status == RetryPending
    ensures s.activities[i].status == RetryPending
            || (s.activities[i].status == Running && s.activities[i].attempt < s.activities[i].maxAttempts)
  {
    hide Enabled;
    StatusesBefore(s, m);
    AttemptsLeft(s, m);
  }

  /** What can be done after the move could be done before, as nothing of the workflow was on offer. */
  lemma DoableBefore(s: State, m: Move, j: Id, w: Id, at: Time)
    requires Enabled(s, m) && !m.Launch? && at <= m.at && IsOf(s, j, w) && !Offers(s, w, at)
    requires j in Apply(s, m).activities && Apply(s, m).activities[j] == After(s.activities[j], m, j)
    requires CanBeDone(After(s.activities[j], m, j), at)
    ensures CanBeDone(s.activities[j], at)
  {
    hide Apply, DependenciesDone;
    assert !IsOffer(s, j, at);
    StatusesBefore(s, m);
  }

  lemma {:induction false} NoOfferLeads(ss: seq<State>, ms: seq<Move>, w: Id, at: Time, k: nat)
    requires IsRun(ss, ms) && Inv(ss[0]) && w in ss[0].workflows && !Offers(ss[0], w, at) && k <= |ms|
    requires forall l :: 0 <= l < |ms| ==> at <= ms[l].at
    ensures w in ss[k].workflows && !Offers(ss[k], w, at)
  {
    hide Inv, Apply, Enabled, Offers, Evolves;
    if 0 < k {
      NoOfferLeads(ss, ms, w, at, k - 1);
      RunKeepsInv(ss, ms, k - 1);
      assert StepAt(ss, ms, k - 1);
      NoOfferStays(ss[k - 1], ms[k - 1], w, at);
      RunEvolves(ss, ms, 0, k);
      WorkflowStays(ss[0], ss[k], w);
    }
  }

  lemma WorkflowStays(s: State, t: State, w: Id)
    requires Evolves(s, t) && w in s.workflows
    ensures w in t.workflows
  {
  }

  lemma GrantNeedsOffer(x: Course, w: Id, i: Id, at: Time)
    requires EndsWithGrant(x, i) && IsOf(End(x).core, i, w) && w in x.states[0].core.workflows && x.clock[0] == at
    ensures Offers(x.states[0].core, w, at)
  {
    hide EngineInv, Inv, Leads, Apply, Enabled, Offers, Step, Timely, IsStretch;
    var k := |x.calls| - 1;
    var e, c := x.states[k], x.calls[k];
    var s := x.states[0].core;
    var ms := CourseLeads(x, k);
    InvOf(x.states[0]);
    if !Offers(s, w, at) {
      assert !Offers(e.core, w, at) && w in e.core.workflows by {
        assert Leads(s, ms, e.core);
        NothingOffered(s, ms, e.core, w, at);
      }
      GrantedWasReady(x, w, i, at);
    }
  }

  lemma NothingOffered(s: State, ms: seq<Move>, t: State, w: Id, at: Time)
    requires Leads(s, ms, t) && Inv(s) && w in s.workflows && !Offers(s, w, at)
    requires forall l :: 0 <= l < |ms| ==> at <= ms[l].at
    ensures w in t.workflows && !Offers(t, w, at)
  {
    hide Inv, Offers;
    var ss :| IsRun(ss, ms) && ss[0] == s && ss[|ms|] == t;
    NoOfferLeads(ss, ms, w, at, |ms|);
  }

  /** What the last call hands out was ready before it. */
  lemma GrantedWasReady(x: Course, w: Id, i: Id, at: Time)
    requires EndsWithGrant(x, i) && IsOf(End(x).core, i, w)
    ensures Offers(x.states[|x.calls| - 1].core, w, at)
  {
    hide EngineInv, Apply, Enabled, Timely, StartCall, HeartbeatCall, CompleteCall, FailCall, CancelCall, PassCall;
    var k := |x.calls| - 1;
    var e, c := x.states[k], x.calls[k];
    StretchInv(x.states, x.calls, x.clock, k);
    ClaimStep(e, c.worker, c.queue, c.now);
    assert CallAt(x.states, x.calls, x.clock, k);
    assert IsOf(e.core, i, w) && IsOffer(e.core, i, at);
  }

  // ---------------------------------------------------------------- an offer leads to a claim

  ghost function OpenUpstreams(s: State, i: Id): set<Id> {
    set j | j in s.activities && DependsOn(s, i, j) && s.activities[j].status != Completed
  }

  lemma NoneOpenIsDone(s: State, i: Id)
    requires WellFormed(s) && i in s.activities && OpenUpstreams(s, i) == {}
    ensures DependenciesDone(s.activities, s.activities[i])
  {
    var a := s.activities[i];
    forall d | d in a.dependsOn ensures Names(s.activities, a.workflow, d) && NameCompleted(s.activities, a.workflow, d) {
      forall j | j in s.activities && s.activities[j].workflow == a.workflow && s.activities[j].name == d
        ensures s.activities[j].status == Completed
      {
        assert DependsOn(s, i, j);
        assert j !in OpenUpstreams(s, i);
      }
    }
  }

  ghost predicate Doable(s: State, i: Id, at: Time) {
    forall j :: DependsOn(s, i, j) ==> CanBeDone(s.activities[j], at)
  }

  /** A completion of one upstream leaves one open upstream less. */
  lemma OneLessOpen(s: State, t: State, i: Id, j: Id, at: Time)
    requires CompletedOne(s, t, j) && i in s.activities && i != j && Doable(s, i, at) && j in OpenUpstreams(s, i)
    requires t.activities[i] == s.activities[i]
    ensures Doable(t, i, at) && OpenUpstreams(t, i) < OpenUpstreams(s, i)
  {
    forall u | DependsOn(t, i, u) ensures DependsOn(s, i, u) && CanBeDone(t.activities[u], at) {
      if u != j { assert OnlyReleased(s.activities[u], t.activities[u]); }
      assert DependsOn(s, i, u);
      assert CanBeDone(s.activities[u], at);
    }
    forall u | u in OpenUpstreams(t, i) ensures u in OpenUpstreams(s, i) && u != j {
      assert DependsOn(t, i, u);
      if u != j { assert OnlyReleased(s.activities[u], t.activities[u]); }
    }
    assert j !in OpenUpstreams(t, i);
  }

  lemma {:induction false} SmallerSet(a: set<Id>, b: set<Id>)
    requires a < b
    ensures |a| < |b|
  {
    assert b == a + (b - a);
    assert a !! (b - a);
    assert b - a != {};
  }

  lemma HolderIsCurrent(s: State, i: Id, j: Id, at: Time)
    requires Doable(s, i, at) && j in OpenUpstreams(s, i)
    ensures j in s.activities
    ensures Current(s.activities[j], s.activities[j].leaseOwner, s.activities[j].fencingToken, at)
    ensures s.activities[j].status == Running
  {
    assert CanBeDone(s.activities[j], at);
  }

  /** The holders of the open upstreams complete them. */
  lemma {:induction false} CompleteUpstreams(x: Course, i: Id) returns (y: Course)
    requires IsCourse(x) && i in End(x).core.activities && End(x).core.activities[i].status == RetryPending
    requires Doable(End(x).core, i, Over(x))
    ensures IsCourse(y) && Continues(x, y) && i in End(y).core.activities
    ensures End(y).core.activities[i].workflow == End(x).core.activities[i].workflow
    ensures End(y).core.activities[i].status == Ready
            || (End(y).core.activities[i].status == RetryPending
                && DependenciesDone(End(y).core.activities, End(y).core.activities[i]))
    decreases |OpenUpstreams(End(x).core, i)|
  {
    hide EngineInv, IsStretch, Step, Timely, DependenciesDone, Doable, OpenUpstreams, Current;
    EndInv(x);
    var s := End(x).core;
    if OpenUpstreams(s, i) == {} {
      InvOf(End(x));
      assert WellFormed(s) by { InvIsWellFormed(s); }
      NoneOpenIsDone(s, i);
      y := x;
    } else {
      var j :| j in OpenUpstreams(s, i);
      HolderIsCurrent(s, i, j, Over(x));
      CompleteStep(End(x), j, Over(x));
      var z := AndThen(x, HolderCompletes(End(x), j, Over(x)), Over(x));
      assert OnlyReleased(s.activities[i], End(z).core.activities[i]);
      if End(z).core.activities[i].status == Ready {
        y := z;
      } else {
        OneLessOpen(s, End(z).core, i, j, Over(x));
        SmallerSet(OpenUpstreams(End(z).core, i), OpenUpstreams(s, i));
        y := CompleteUpstreams(z, i);
      }
    }
  }

  /** A waiting activity with completed dependencies is released by the first pass after its time. */
  lemma DueByPass(x: Course, i: Id) returns (y: Course)
    requires IsCourse(x) && i in End(x).core.activities && End(x).core.activities[i].status == RetryPending
    requires DependenciesDone(End(x).core.activities, End(x).core.activities[i])
    ensures IsCourse(y) && Continues(x, y) && i in End(y).core.activities
    ensures End(y).core.activities[i] == End(x).core.activities[i].(status := Ready)
  {
    hide EngineInv, IsStretch, DependenciesDone;
    var a := End(x).core.activities[i];
    y := PassAt(x, if a.nextAttemptAt < Over(x) then Over(x) else a.nextAttemptAt);
  }

  /** An offer can be taken. */
  lemma TakeOffer(x: Course, i: Id) returns (y: Course)
    requires IsCourse(x) && IsOffer(End(x).core, i, Over(x))
    ensures Continues(x, y) && EndsWithGrant(y, i) && IsOf(End(y).core, i, End(x).core.activities[i].workflow)
  {
    hide EngineInv, IsStretch, DependenciesDone, HandsAt;
    var z := x;
    match End(x).core.activities[i].status {
      case Ready =>
      case Running => z := ReadyAgain(x, i);
      case RetryPending =>
        z := CompleteUpstreams(x, i);
        if End(z).core.activities[i].status == RetryPending {
          var z' := DueByPass(z, i);
          z := z';
        }
    }
    y := ClaimUntil(z, i);
  }

  // ---------------------------------------------------------------- the exact condition

  /** Whatever the status of a workflow, some calls hand out work of it exactly if one of its activities
      is ready, or running with an attempt left, or waiting with all its direct upstreams completed or in
      the hands of a worker whose lease is on. */
  lemma HandsOutIfOffered(e: EngineState, w: Id, at: Time)
    requires EngineInv(e) && w in e.core.workflows
    ensures HandsOut(e, w, at) <==> Offers(e.core, w, at)
  {
    hide EngineInv, IsStretch, IsOffer, EndsWithGrant;
    if Offers(e.core, w, at) {
      var i :| IsOf(e.core, i, w) && IsOffer(e.core, i, at);
      var x := Standing(e, at);
      var y := TakeOffer(x, i);
      assert Begins(y, e, at) by { GrantIsCourse(y, i); }
      assert IsOf(End(y).core, i, w);
    }
    if HandsOut(e, w, at) {
      var x, i :| Begins(x, e, at) && EndsWithGrant(x, i) && IsOf(End(x).core, i, w);
      GrantNeedsOffer(x, w, i, at);
    }
  }

  lemma GrantIsCourse(x: Course, i: Id)
    requires EndsWithGrant(x, i)
    ensures IsCourse(x)
  {
  }

  // ---------------------------------------------------------------- after a failure

  /** What is left on offer once the activity failed is lost. */
  ghost predicate Remains(s: State, i: Id, failed: Id, at: Time) {
    && i in s.activities && i != failed
    && match s.activities[i].status
       case Ready => true
       case Running => s.activities[i].attempt < s.activities[i].maxAttempts
       case RetryPending => forall j :: DependsOn(s, i, j) ==> j != failed && CanBeDone(s.activities[j], at)
       case _ => false
  }

  lemma OffersAfterFailure(s: State, t: State, failed: Id, i: Id, at: Time)
    requires failed in s.activities
    requires t.activities == s.activities[failed := s.activities[failed].(status := Failed, leaseOwner := "")]
    ensures IsOffer(t, i, at) <==> Remains(s, i, failed, at)
  {
    if i in s.activities {
      forall j ensures DependsOn(t, i, j) <==> DependsOn(s, i, j) {
      }
      if IsOffer(t, i, at) && s.activities[i].status == RetryPending {
        forall j | DependsOn(s, i, j) ensures j != failed && CanBeDone(s.activities[j], at) {
          assert DependsOn(t, i, j);
        }
      }
    }
  }

  /** A call that fails an activity for good. */
  ghost predicate FailsForGood(e: EngineState, c: Call) {
    && c.FailingCall? && c.check <= c.base && MessageAnswer(e.core, c.act, c.worker, c.token, c.check).Accepted?
    && !(c.retryable && e.core.activities[c.act].attempt < e.core.activities[c.act].maxAttempts)
  }

  lemma FailureStep(e: EngineState, c: Call)
    requires EngineInv(e) && FailsForGood(e, c)
    ensures Known(e.core, c.act) && Timely(e, c, c.check, c.base) && EngineInv(Step(e, c))
    ensures var a, t := e.core.activities[c.act], Step(e, c).core;
      && t.activities == e.core.activities[c.act := a.(status := Failed, leaseOwner := "")]
      && a.workflow in t.workflows && t.workflows[a.workflow].status == WorkflowFailed
  {
    hide EngineInv, Apply, Enabled, Current;
    assert Timely(e, c, c.check, c.base);
    Housed(e, c.act);
    StepKeepsEngineInv(e, c, c.check, c.base);
    var m := Fail(c.check, c.act, c.worker, c.token);
    AcceptedEnables(e, c.act, c.worker, c.token, c.check, c.base, c.retryable);
    StatusEffect(e.core, m, e.core.activities[c.act].workflow);
    FailRecord(e.core, m);
  }

  lemma FailRecord(s: State, m: Move)
    requires m.Fail? && Enabled(s, m)
    ensures Apply(s, m).activities == s.activities[m.act := s.activities[m.act].(status := Failed, leaseOwner := "")]
  {
  }

  /** Right after a report that fails a workflow, work of it is still handed out exactly if another of
      its activities is ready, or running with an attempt left, or waits for none but completed activities
      and such as a worker still holds. */
  lemma HandsOutAfterFailure(e: EngineState, c: Call)
    requires EngineInv(e) && FailsForGood(e, c)
    ensures Known(e.core, c.act) && Timely(e, c, c.check, c.base) && EngineInv(Step(e, c))
    ensures var w, r := e.core.activities[c.act].workflow, Step(e, c);
      && w in r.core.workflows && r.core.workflows[w].status == WorkflowFailed
      && (HandsOut(r, w, c.base) <==> exists i :: IsOf(e.core, i, w) && Remains(e.core, i, c.act, c.base))
  {
    hide EngineInv, Step, Timely, Remains, IsOffer, HandsOut;
    FailureStep(e, c);
    var w, r := e.core.activities[c.act].workflow, Step(e, c);
    HandsOutIfOffered(r, w, c.base);
    if Offers(r.core, w, c.base) {
      var i :| IsOf(r.core, i, w) && IsOffer(r.core, i, c.base);
      OffersAfterFailure(e.core, r.core, c.act, i, c.base);
      assert IsOf(e.core, i, w) && Remains(e.core, i, c.act, c.base);
    }
    if exists i :: IsOf(e.core, i, w) && Remains(e.core, i, c.act, c.base) {
      var i :| IsOf(e.core, i, w) && Remains(e.core, i, c.act, c.base);
      OffersAfterFailure(e.core, r.core, c.act, i, c.base);
      assert IsOf(r.core, i, w) && IsOffer(r.core, i, c.base);
    }
  }

  /** A pass, whatever leases it ends and whichever workflows it fails by last expiries, neither takes
      work off offer nor puts work on offer. */
  lemma HandsOutAfterPass(e: EngineState, w: Id, now: Time)
    requires EngineInv(e) && w in e.core.workflows
    ensures Timely(e, PassingCall(now), now, now) && EngineInv(Step(e, PassingCall(now)))
    ensures HandsOut(Step(e, PassingCall(now)), w, now) <==> Offers(e.core, w, now)
  {
    hide EngineInv, Inv, Step, HandsOut, Leads, PassActivities, PassWorkflows, IsOffer, Within;
    PassStep(e, now);
    hide Timely;
    var r := Step(e, PassingCall(now));
    StepKeepsEngineInv(e, PassingCall(now), now, now);
    PassKeepsWorkflows(e.core, now);
    HandsOutIfOffered(r, w, now);
    if !Offers(e.core, w, now) {
      InvOf(e);
      var ms := StepLeads(e, PassingCall(now), now, now);
      LateEnough(ms, now, now);
      NothingOffered(e.core, ms, r.core, w, now);
    } else {
      var i :| IsOf(e.core, i, w) && IsOffer(e.core, i, now);
      StillOnOffer(e.core, r.core, i, now);
      PassKeepsDefinitions(e.core, r.core, i, now);
      assert IsOf(r.core, i, w) && IsOffer(r.core, i, now);
    }
  }

  lemma LateEnough(ms: seq<Move>, lo: Time, hi: Time)
    requires Within(ms, lo, hi)
    ensures forall l :: 0 <= l < |ms| ==> lo <= ms[l].at
  {
  }

  lemma PassKeepsWorkflows(s: State, now: Time)
    ensures PassWorkflows(s, now).Keys == s.workflows.Keys
  {
  }

  lemma PassKeepsDefinitions(s: State, t: State, i: Id, now: Time)
    requires t.activities == PassActivities(s, now) && i in s.activities
    ensures i in t.activities && SameDefinition(s.activities[i], t.activities[i])
  {
  }

  lemma StillOnOffer(s: State, t: State, i: Id, now: Time)
    requires t.activities == PassActivities(s, now) && IsOffer(s, i, now)
    ensures IsOffer(t, i, now)
  {
    hide DependenciesDone;
    forall j | DependsOn(t, i, j) ensures DependsOn(s, i, j) && (CanBeDone(s.activities[j], now) ==> CanBeDone(t.activities[j], now)) {
      PassKeepsDefinitions(s, t, i, now);
      PassKeepsDefinitions(s, t, j, now);
    }
  }
}
