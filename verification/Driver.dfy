/** One worker that claims from every queue and completes within its lease completes exactly the activities
    that are behind no dependency cycle, with one claim for each, and so finishes exactly the workflows
    without a cycle. */
module Driver {
  import opened Courses
  import opened Machine
  import opened Invariants
  import opened Ids
  import opened Topology
  import opened EngineSteps
  import opened EngineRuns
  import opened Progress

  /** What is still to be completed and behind no cycle. */
  ghost function Open(s: State): set<Id> {
    set i | i in s.activities && IsOpen(s, i)
  }

  predicate UntouchedRecord(a: Activity) {
    a.status == Completed || (Pending(a) && a.attempt == 0)
  }

  /** Every activity is completed or was never claimed, no workflow has failed or was cancelled, and
      whatever is behind a cycle waits. */
  ghost predicate Untouched(s: State) {
    && (forall i :: i in s.activities ==> UntouchedRecord(s.activities[i]))
    && (forall w :: w in s.workflows ==> s.workflows[w].status in {WorkflowRunning, WorkflowCompleted})
    && (forall i :: i in s.activities && Behind(s, i) ==> s.activities[i].status == RetryPending)
  }

  ghost predicate Drivable(e: EngineState, now: Time) {
    EngineInv(e) && Settled(e.core) && NotBefore(e.core, now) && Untouched(e.core)
  }

  /** When a round claims, when its completion is checked, the readings that the completion then takes for
      the waiting activities and the finish, and a time by which it is over. */
  datatype Turn = Turn(claimed: Time, checked: Time, ticks: seq<Time>, over: Time)

  /** The completion that the worker sends for activity i. */
  function CompletionIn(r: Turn, i: Id, worker: string, token: int): Call {
    CompletingCall(i, worker, token, r.checked, r.ticks)
  }

  /** The engine after a call whose readings lie between lo and hi. */
  ghost function Then(e: EngineState, c: Call, lo: Time, hi: Time): (r: EngineState)
    requires EngineInv(e)
    ensures EngineInv(r)
  {
    hide EngineInv, Step, Timely;
    if Timely(e, c, lo, hi) then
      StepKeepsEngineInv(e, c, lo, hi);
      Step(e, c)
    else e
  }

  ghost function AfterClaim(e: EngineState, worker: string, now: Time): (r: EngineState)
    requires EngineInv(e)
    ensures EngineInv(r)
  {
    hide EngineInv, Then;
    Then(e, ClaimingCall(worker, "", now), now, now)
  }

  ghost function AfterComplete(e: EngineState, i: Id, worker: string, token: int, turn: Turn): (r: EngineState)
    requires EngineInv(e)
    ensures EngineInv(r)
  {
    hide EngineInv, Then;
    Then(e, CompletionIn(turn, i, worker, token), turn.checked, turn.over)
  }

  /** The worker claims an activity and completes it. */
  ghost function Round(e: EngineState, worker: string, turn: Turn): (r: EngineState)
    requires EngineInv(e)
    ensures EngineInv(r)
  {
    hide EngineInv, AfterClaim, AfterComplete;
    match ClaimAnswerOf(e, "")
    case NothingReady => e
    case Granted(i, token) => AfterComplete(AfterClaim(e, worker, turn.claimed), i, worker, token, turn)
  }

  /** The completion arrives within the lease and takes as many readings as any workflow may need; its
      readings may advance as they like. */
  ghost predicate Punctual(e: EngineState, turn: Turn) {
    && turn.claimed <= turn.checked < turn.claimed + e.leaseTTL && Between(turn.checked, turn.ticks, turn.over)
    && forall w :: w in e.members ==> |e.members[w]| < |turn.ticks|
  }

  type Schedule = seq<Turn>

  function EndOf(now: Time, times: Schedule, k: nat): Time
    requires k <= |times|
  {
    if k == 0 then now else times[k - 1].over
  }

  /** The rounds follow each other from time now on, and each completes within its lease. */
  ghost predicate InTime(e: EngineState, now: Time, times: Schedule) {
    forall k :: 0 <= k < |times| ==> EndOf(now, times, k) <= times[k].claimed && Punctual(e, times[k])
  }

  ghost function Drive(e: EngineState, worker: string, times: Schedule, rounds: nat): (r: EngineState)
    requires EngineInv(e) && rounds <= |times|
    ensures EngineInv(r)
  {
    hide EngineInv, Round;
    if rounds == 0 then e else Round(Drive(e, worker, times, rounds - 1), worker, times[rounds - 1])
  }

  // ---------------------------------------------------------------- one round

  lemma SomethingIsReady(e: EngineState, now: Time)
    requires Drivable(e, now) && Open(e.core) != {}
    ensures Claimable(e.core, "") != {}
  {
    hide Behind, Settled, NotBefore;
    var s := e.core;
    var j :| j in Open(s);
    assert WellFormed(s) && Consistent(s);
    assert Known(s, j);
    assert Agrees(s.activities[j].status, s.workflows[s.activities[j].workflow].status);
    var i := OpenCanGoOn(s, j);
    assert UntouchedRecord(s.activities[i]);
    assert i in Claimable(s, "");
  }

  lemma ReadyIsOpen(s: State, i: Id)
    requires Untouched(s) && i in Claimable(s, "")
    ensures i in Open(s) && !Behind(s, i)
  {
  }

  ghost function ClaimOf(e: EngineState, worker: string, now: Time): Move
    requires Claimable(e.core, "") != {}
  {
    Claim(now, Least(Claimable(e.core, "")), worker, "", now + e.leaseTTL)
  }

  lemma AfterClaimIs(e: EngineState, worker: string, now: Time)
    requires EngineInv(e) && Claimable(e.core, "") != {}
    ensures Enabled(e.core, ClaimOf(e, worker, now))
    ensures AfterClaim(e, worker, now).core == Apply(e.core, ClaimOf(e, worker, now))
  {
    hide EngineInv, Apply, Current, Before, StartCall, HeartbeatCall, CompleteCall, FailCall, CancelCall, PassCall;
    Housed(e, Least(Claimable(e.core, "")));
  }

  lemma AfterCompleteIs(e: EngineState, i: Id, worker: string, token: int, turn: Turn)
    requires EngineInv(e) && MessageAnswer(e.core, i, worker, token, turn.checked).Accepted? && Punctual(e, turn)
    ensures Known(e.core, i) && |e.members[e.core.activities[i].workflow]| < |turn.ticks|
    ensures AfterComplete(e, i, worker, token, turn).core == Completion(e, i, worker, token, turn.checked, turn.ticks)
  {
    hide EngineInv, Completion, Enabled, Current, StartCall, HeartbeatCall, ClaimCall, FailCall, CancelCall, PassCall;
    Housed(e, i);
    assert Timely(e, CompletionIn(turn, i, worker, token), turn.checked, turn.over);
  }

  /** s and t differ at most in the record of activity i. */
  ghost predicate SameApartFrom(s: State, t: State, i: Id) {
    && t.workflows == s.workflows && t.activities.Keys == s.activities.Keys
    && forall j :: j in s.activities && j != i ==> t.activities[j] == s.activities[j]
  }

  /** The claim of a round, and the answer its completion will get. */
  lemma ClaimedAccepts(e: EngineState, worker: string, t: Time, u: Time)
    requires EngineInv(e) && Claimable(e.core, "") != {} && t <= u < t + e.leaseTTL
    ensures var i, s := Least(Claimable(e.core, "")), AfterClaim(e, worker, t).core;
      && ClaimAnswerOf(e, "") == Granted(i, e.core.activities[i].fencingToken + 1)
      && MessageAnswer(s, i, worker, e.core.activities[i].fencingToken + 1, u).Accepted?
      && SameApartFrom(e.core, s, i)
  {
    hide EngineInv, Apply, Enabled, AfterClaim, Before;
    Housed(e, Least(Claimable(e.core, "")));
    AfterClaimIs(e, worker, t);
    ClaimRecord(e.core, ClaimOf(e, worker, t));
  }

  /** One round completes exactly one open activity and leaves nothing half done. */
  lemma RoundCompletesOne(e: EngineState, worker: string, now: Time, turn: Turn)
    requires Drivable(e, now) && Open(e.core) != {} && now <= turn.claimed && Punctual(e, turn)
    ensures ClaimAnswerOf(e, "").Granted? && ClaimAnswerOf(e, "").activity in Open(e.core)
    ensures Drivable(Round(e, worker, turn), turn.over)
    ensures SameSetting(e, Round(e, worker, turn)) && SameCycles(e.core, Round(e, worker, turn).core)
    ensures Open(Round(e, worker, turn).core) == Open(e.core) - {ClaimAnswerOf(e, "").activity}
  {
    hide EngineInv, Settled, NotBefore, AfterClaim, AfterComplete, Untouched, CompletedOne, SameApartFrom,
      Current, Evolves, WellFormed, Before;
    SomethingIsReady(e, now);
    ClaimedAccepts(e, worker, turn.claimed, turn.checked);
    var i := Least(Claimable(e.core, ""));
    var token := e.core.activities[i].fencingToken + 1;
    var claimed := AfterClaim(e, worker, turn.claimed);
    RoundEvolves(e, worker, turn);
    RoundSettles(e, worker, now, turn);
    AfterCompleteRecords(claimed, i, worker, token, turn);
    ReadyIsOpen(e.core, i);
    InvOf(e);
    InvOf(Round(e, worker, turn));
    RoundUntouched(e.core, claimed.core, Round(e, worker, turn).core, i);
  }

  lemma RoundUntouched(s: State, claimed: State, t: State, i: Id)
    requires Inv(s) && Inv(t) && Untouched(s) && Evolves(s, t) && CompletedOne(claimed, t, i)
    requires SameApartFrom(s, claimed, i) && !Behind(s, i)
    ensures Untouched(t) && Open(t) == Open(s) - {i} && SameCycles(s, t)
  {
    hide Inv, Behind, Evolves, Untouched, UntouchedRecord, CompletedOne, SameApartFrom;
    InvIsWellFormed(s);
    RoundKeys(s, claimed, t, i);
    forall j ensures Behind(t, j) <==> Behind(s, j) {
      SameBehind(s, t, j);
    }
    forall j | j in t.activities
      ensures UntouchedRecord(t.activities[j])
      ensures t.activities[j].status == Completed <==> j == i || s.activities[j].status == Completed
    {
      RoundRecord(s, claimed, t, i, j);
    }
    forall j | j in t.activities && Behind(t, j) ensures t.activities[j].status == RetryPending {
      StillWaits(s, claimed, t, i, j);
    }
    RoundWorkflows(s, claimed, t, i);
    forall j ensures j in Open(t) <==> j in Open(s) - {i} {
    }
    assert Untouched(t) by { MakeUntouched(t); }
  }

  lemma MakeUntouched(s: State)
    requires forall i :: i in s.activities ==> UntouchedRecord(s.activities[i])
    requires forall w :: w in s.workflows ==> s.workflows[w].status in {WorkflowRunning, WorkflowCompleted}
    requires forall i :: i in s.activities && Behind(s, i) ==> s.activities[i].status == RetryPending
    ensures Untouched(s)
  {
    hide Behind, UntouchedRecord;
  }

  lemma RoundKeys(s: State, claimed: State, t: State, i: Id)
    requires CompletedOne(claimed, t, i) && SameApartFrom(s, claimed, i)
    ensures t.activities.Keys == s.activities.Keys && t.workflows.Keys == s.workflows.Keys
  {
  }

  lemma RoundRecord(s: State, claimed: State, t: State, i: Id, j: Id)
    requires Untouched(s) && CompletedOne(claimed, t, i) && SameApartFrom(s, claimed, i) && j in s.activities
    ensures j in t.activities && UntouchedRecord(t.activities[j])
    ensures t.activities[j].status == Completed <==> j == i || s.activities[j].status == Completed
  {
    hide Behind;
    assert UntouchedRecord(s.activities[j]);
    if j != i {
      assert claimed.activities[j] == s.activities[j];
      assert OnlyReleased(claimed.activities[j], t.activities[j]);
    }
  }

  /** What is behind a cycle is not released, as it waits for something behind a cycle. */
  lemma StillWaits(s: State, claimed: State, t: State, i: Id, j: Id)
    requires Inv(t) && Untouched(s) && CompletedOne(claimed, t, i) && SameApartFrom(s, claimed, i)
    requires (forall x :: Behind(t, x) <==> Behind(s, x)) && !Behind(s, i) && j in s.activities && Behind(t, j)
    ensures j in t.activities && t.activities[j].status == RetryPending
  {
    hide Inv, Behind;
    assert OnlyReleased(claimed.activities[j], t.activities[j]);
    if t.activities[j].status == Ready {
      var u := NextBehind(t, j);
      StaysOpen(s, claimed, t, i, u);
      UpstreamCompleted(t, j, u);
    }
  }

  lemma StaysOpen(s: State, claimed: State, t: State, i: Id, u: Id)
    requires Untouched(s) && CompletedOne(claimed, t, i) && SameApartFrom(s, claimed, i)
    requires u in s.activities && Behind(s, u) && !Behind(s, i)
    ensures u in t.activities && t.activities[u].status != Completed
  {
    hide Behind;
    assert OnlyReleased(claimed.activities[u], t.activities[u]);
  }

  lemma RoundWorkflows(s: State, claimed: State, t: State, i: Id)
    requires Untouched(s) && CompletedOne(claimed, t, i) && SameApartFrom(s, claimed, i)
    ensures forall w :: w in t.workflows ==> t.workflows[w].status in {WorkflowRunning, WorkflowCompleted}
  {
    hide Behind, OnlyReleased, UntouchedRecord;
    forall w | w in t.workflows ensures t.workflows[w].status in {WorkflowRunning, WorkflowCompleted} {
      assert s.workflows[w].status in {WorkflowRunning, WorkflowCompleted};
    }
  }

  lemma AfterCompleteRecords(e: EngineState, i: Id, worker: string, token: int, turn: Turn)
    requires EngineInv(e) && MessageAnswer(e.core, i, worker, token, turn.checked).Accepted? && Punctual(e, turn)
    ensures CompletedOne(e.core, AfterComplete(e, i, worker, token, turn).core, i)
  {
    hide EngineInv, Completion, CompletedOne, AfterComplete, Current;
    AfterCompleteIs(e, i, worker, token, turn);
    CompletionRecords(e, i, worker, token, turn.checked, turn.ticks);
  }

  lemma TurnIsTimely(e: EngineState, i: Id, worker: string, token: int, turn: Turn)
    requires Punctual(e, turn)
    ensures Timely(e, ClaimingCall(worker, "", turn.claimed), turn.claimed, turn.claimed)
    ensures Timely(e, CompletionIn(turn, i, worker, token), turn.checked, turn.over) && turn.checked <= turn.over
  {
  }

  lemma ThenSettles(e: EngineState, c: Call, lo: Time, hi: Time)
    requires EngineInv(e) && Timely(e, c, lo, hi) && lo <= hi && Settled(e.core) && NotBefore(e.core, lo)
    ensures Settled(Then(e, c, lo, hi).core) && NotBefore(Then(e, c, lo, hi).core, hi)
  {
    hide EngineInv, Settled, NotBefore, Step, Timely;
    StepSettles(e, c, lo, hi);
  }

  lemma NotBeforeLater(s: State, now: Time, later: Time)
    requires NotBefore(s, now) && now <= later
    ensures NotBefore(s, later)
  {
  }

  /** The same activities are behind cycles. */
  ghost predicate SameCycles(s: State, t: State) {
    t.activities.Keys == s.activities.Keys && forall i :: Behind(t, i) <==> Behind(s, i)
  }

  /** What the calls of workers leave alone. */
  ghost predicate SameSetting(e: EngineState, r: EngineState) {
    r.leaseTTL == e.leaseTTL && r.members == e.members
  }

  lemma ThenEvolves(e: EngineState, c: Call, lo: Time, hi: Time)
    requires EngineInv(e) && Timely(e, c, lo, hi) && !c.StartingCall?
    ensures Evolves(e.core, Then(e, c, lo, hi).core) && SameSetting(e, Then(e, c, lo, hi))
  {
    assert Inv(e.core);
    hide EngineInv, Inv, Evolves, Leads, Step, Timely;
    var ms := StepLeads(e, c, lo, hi);
    LeadsKeepsInv(e.core, ms, Step(e, c).core);
    OnlyCore(e, c);
  }

  lemma SettingPunctual(e: EngineState, r: EngineState, turn: Turn)
    requires SameSetting(e, r) && Punctual(e, turn)
    ensures Punctual(r, turn)
  {
  }

  lemma RoundSettles(e: EngineState, worker: string, now: Time, turn: Turn)
    requires EngineInv(e) && Settled(e.core) && NotBefore(e.core, now) && now <= turn.claimed && Punctual(e, turn)
    requires ClaimAnswerOf(e, "").Granted?
    ensures Settled(Round(e, worker, turn).core) && NotBefore(Round(e, worker, turn).core, turn.over)
  {
    hide EngineInv, Settled, NotBefore, Then, Timely, ClaimAnswerOf, CompletionIn, Punctual, SameSetting, Evolves;
    var i, token := ClaimAnswerOf(e, "").activity, ClaimAnswerOf(e, "").token;
    var c, claimed := ClaimingCall(worker, "", turn.claimed), AfterClaim(e, worker, turn.claimed);
    TurnIsTimely(e, i, worker, token, turn);
    NotBeforeLater(e.core, now, turn.claimed);
    ThenSettles(e, c, turn.claimed, turn.claimed);
    ThenEvolves(e, c, turn.claimed, turn.claimed);
    SettingPunctual(e, claimed, turn);
    TurnIsTimely(claimed, i, worker, token, turn);
    TurnInOrder(e, turn);
    NotBeforeLater(claimed.core, turn.claimed, turn.checked);
    ThenSettles(claimed, CompletionIn(turn, i, worker, token), turn.checked, turn.over);
  }

  lemma TurnInOrder(e: EngineState, turn: Turn)
    requires Punctual(e, turn)
    ensures turn.claimed <= turn.checked <= turn.over
  {
  }

  lemma RoundEvolves(e: EngineState, worker: string, turn: Turn)
    requires EngineInv(e) && ClaimAnswerOf(e, "").Granted? && Punctual(e, turn)
    ensures WellFormed(e.core) && Evolves(e.core, Round(e, worker, turn).core)
    ensures SameSetting(e, Round(e, worker, turn)) && Punctual(AfterClaim(e, worker, turn.claimed), turn)
  {
    assert Inv(e.core);
    hide EngineInv, Evolves, Then, Timely, ClaimAnswerOf, Punctual, Counted, Gated, Consistent, UniqueKeys, WellFormed;
    var i, token := ClaimAnswerOf(e, "").activity, ClaimAnswerOf(e, "").token;
    var claimed := AfterClaim(e, worker, turn.claimed);
    TurnIsTimely(e, i, worker, token, turn);
    ThenEvolves(e, ClaimingCall(worker, "", turn.claimed), turn.claimed, turn.claimed);
    SettingPunctual(e, claimed, turn);
    TurnIsTimely(claimed, i, worker, token, turn);
    ThenEvolves(claimed, CompletionIn(turn, i, worker, token), turn.checked, turn.over);
    EvolvesThrough(e.core, claimed.core, Round(e, worker, turn).core);
  }

  // ---------------------------------------------------------------- all rounds

  ghost predicate HasCycle(s: State, w: Id) {
    exists i :: i in s.activities && s.activities[i].workflow == w && Behind(s, i)
  }

  /** Exactly the activities behind no cycle are completed, and exactly the workflows without a cycle. */
  ghost predicate AllButCycles(s: State) {
    && (forall i :: i in s.activities ==> (s.activities[i].status == Completed <==> !Behind(s, i)))
    && (forall w :: w in s.workflows ==>
          s.workflows[w].status == if HasCycle(s, w) then WorkflowRunning else WorkflowCompleted)
  }

  /** With n activities open and behind no cycle the driver is granted exactly n claims, and after n rounds
      all is completed that no cycle holds up. */
  lemma {:induction false} DriveCompletesAll(e: EngineState, worker: string, now: Time, times: Schedule, k: nat)
    requires EngineInv(e) && Drivable(e, now) && InTime(e, now, times)
    requires k <= |Open(e.core)| <= |times|
    ensures Drivable(Drive(e, worker, times, k), EndOf(now, times, k))
    ensures SameSetting(e, Drive(e, worker, times, k)) && SameCycles(e.core, Drive(e, worker, times, k).core)
    ensures |Open(Drive(e, worker, times, k).core)| == |Open(e.core)| - k
    ensures ClaimAnswerOf(Drive(e, worker, times, k), "").Granted? <==> k < |Open(e.core)|
    ensures k == |Open(e.core)| ==> AllButCycles(Drive(e, worker, times, k).core)
  {
    hide Drivable, EngineInv, Round, ClaimAnswerOf, Punctual, Behind, IsOpen;
    var r := Drive(e, worker, times, k);
    assert EngineInv(e);
    if k > 0 {
      DriveCompletesAll(e, worker, now, times, k - 1);
      SettingPunctual(e, Drive(e, worker, times, k - 1), times[k - 1]);
      RoundCompletesOne(Drive(e, worker, times, k - 1), worker, EndOf(now, times, k - 1), times[k - 1]);
    }
    if Open(r.core) != {} {
      SettingPunctual(e, r, times[k]);
      RoundCompletesOne(r, worker, EndOf(now, times, k), times[k]);
    } else {
      AllDone(r, EndOf(now, times, k));
    }
  }

  lemma AllDone(e: EngineState, now: Time)
    requires Drivable(e, now) && Open(e.core) == {}
    ensures ClaimAnswerOf(e, "") == NothingReady && AllButCycles(e.core)
  {
    hide Behind, EngineInv, DependenciesDone;
    var s := e.core;
    forall i ensures i !in Claimable(s, "") {
      if i in Claimable(s, "") { ReadyIsOpen(s, i); }
    }
    forall i | i in s.activities ensures s.activities[i].status == Completed <==> !Behind(s, i) {
      assert i !in Open(s);
    }
    forall w | w in s.workflows
      ensures s.workflows[w].status == if HasCycle(s, w) then WorkflowRunning else WorkflowCompleted
    {
      assert !Unfinished(s, w);
      if HasCycle(s, w) { OpenWorkflowRuns(e, w); }
    }
  }

  lemma OpenWorkflowRuns(e: EngineState, w: Id)
    requires EngineInv(e) && Untouched(e.core) && w in e.core.workflows && HasCycle(e.core, w)
    ensures e.core.workflows[w].status == WorkflowRunning
  {
    hide Behind;
    var s := e.core;
    var i :| i in s.activities && s.activities[i].workflow == w && Behind(s, i);
    assert Known(s, i);
    assert Agrees(s.activities[i].status, s.workflows[w].status);
  }

  // ---------------------------------------------------------------- from the start

  /** Nothing was ever claimed, and all workflows are running. */
  ghost predicate OnlyStarted(s: State) {
    && (forall i :: i in s.activities ==> Pending(s.activities[i]) && s.activities[i].attempt == 0)
    && (forall w :: w in s.workflows ==> s.workflows[w].status == WorkflowRunning)
  }

  lemma StartKeepsOnlyStarted(e: EngineState, def: WorkflowDefinition, key: string, now: Time, ticks: seq<Time>)
    requires EngineInv(e) && OnlyStarted(e.core) && |def.activities| <= |ticks|
    ensures OnlyStarted(StartCall(e, def, key, now, ticks).core)
  {
    hide EngineInv, Inv, Apply, Enabled, StartAnswerOf, ReleaseAll;
    if StartAnswerOf(e, def, key).Started? {
      InvOf(e);
      CanStart(e, def, key, now);
      var m := LaunchMove(e, def, key, now);
      LaunchGrows(e.core, m);
      ReleaseAllRecords(Apply(e.core, m), NewMembers(e, def), ticks);
      var s, t := Apply(e.core, m), ReleaseAll(Apply(e.core, m), NewMembers(e, def), ticks);
      forall i | i in t.activities ensures Pending(t.activities[i]) && t.activities[i].attempt == 0 {
        assert OnlyReleased(s.activities[i], t.activities[i]);
      }
    }
  }

  lemma {:induction false} StartsOnlyStart(es: seq<EngineState>, cs: seq<Call>, clock: seq<Time>, k: nat)
    requires IsEngineRun(es, cs, clock) && k <= |cs| && forall j :: 0 <= j < k ==> cs[j].StartingCall?
    ensures OnlyStarted(es[k].core)
  {
    hide EngineInv, StartCall;
    if 0 < k {
      StartsOnlyStart(es, cs, clock, k - 1);
      assert CallAt(es, cs, clock, k - 1);
      EngineRunInv(es, cs, clock, k - 1);
      var c := cs[k - 1];
      StartKeepsOnlyStarted(es[k - 1], c.def, c.key, c.now, c.ticks);
    }
  }

  lemma StartedIsUntouched(e: EngineState)
    requires EngineInv(e) && OnlyStarted(e.core)
    ensures Untouched(e.core) && Open(e.core) == set i | i in e.core.activities && !Behind(e.core, i)
  {
    hide Behind, EngineInv;
    var s := e.core;
    InvOf(e);
    forall i | i in s.activities && Behind(s, i) ensures s.activities[i].status == RetryPending {
      var u := NextBehind(s, i);
      if s.activities[i].status == Ready { UpstreamCompleted(s, i, u); }
    }
  }

  /** After any workflows were started, n of whose activities are on or behind no dependency cycle, the
      driver is granted exactly n claims; then exactly those n activities are completed, and exactly the
      workflows without a cycle. */
  lemma StartedWorkflowsFinish(es: seq<EngineState>, cs: seq<Call>, clock: seq<Time>, worker: string,
                               times: Schedule, k: nat)
    requires IsEngineRun(es, cs, clock) && Increasing(clock) && forall j :: 0 <= j < |cs| ==> cs[j].StartingCall?
    requires var n := |set i | i in es[|cs|].core.activities && !Behind(es[|cs|].core, i)|; k <= n <= |times|
    requires InTime(es[|cs|], clock[|cs|], times)
    ensures EngineInv(es[|cs|])
    ensures var e, n := es[|cs|], |set i | i in es[|cs|].core.activities && !Behind(es[|cs|].core, i)|;
      && (ClaimAnswerOf(Drive(e, worker, times, k), "").Granted? <==> k < n)
      && SameCycles(e.core, Drive(e, worker, times, k).core)
      && (k == n ==> AllButCycles(Drive(e, worker, times, k).core))
  {
    hide EngineInv, Drive, Behind, ClaimAnswerOf, Settled, NotBefore, InTime, AllButCycles, SameCycles, Untouched;
    var e := es[|cs|];
    StartsOnlyStart(es, cs, clock, |cs|);
    EveryStateIsSettled(es, cs, clock, |cs|);
    EngineRunInv(es, cs, clock, |cs|);
    StartedIsUntouched(e);
    DriveCompletesAll(e, worker, clock[|cs|], times, k);
  }

  // ---------------------------------------------------------------- cycles are accepted

  /** An activity that depends on itself. */
  function SelfDependent(name: string): WorkflowDefinition {
    WorkflowDefinition("d", "n", [ActivityDefinition(name, "", [name], 1, 0)])
  }

  /** Every engine accepts a definition with a cycle, and files an activity that is behind one. */
  lemma CyclesAreAccepted(e: EngineState, name: string, now: Time)
    requires EngineInv(e) && name != ""
    ensures StartAnswerOf(e, SelfDependent(name), "").Started?
    ensures var c := StartingCall(SelfDependent(name), "", now, [now]);
            Timely(e, c, now, now) && Behind(Step(e, c).core, ActivityId(e.nextActivity + 1))
  {
    hide EngineInv, Apply, Enabled, ReleaseAll, ActivityId, WorkflowId, Leads;
    var def, c := SelfDependent(name), StartingCall(SelfDependent(name), "", now, [now]);
    assert HasName(def, name) by { assert def.activities[0].name == name; }
    assert Timely(e, c, now, now);
    InvOf(e);
    CanStart(e, def, "", now);
    var m, i := LaunchMove(e, def, "", now), ActivityId(e.nextActivity + 1);
    LaunchGrows(e.core, m);
    assert m.rows[0].id == i;
    var s := Apply(e.core, m);
    ReleaseAllRecords(s, NewMembers(e, def), [now]);
    var t := ReleaseAll(s, NewMembers(e, def), [now]);
    assert OnlyReleased(s.activities[i], t.activities[i]);
    assert DependsOn(t, i, i);
    assert IsPath(t, [i, i]);
    assert LeadsToCycle(t, i, [i], [i, i]);
  }
}
