/** Theorems about whole runs of the lease machine: who holds a lease, for how long, how often, and
    what can still happen to an activity. */
module Runs {
  import opened Machine
  import opened Invariants

  predicate IsClaim(m: Move, i: Id) {
    m.Claim? && m.act == i
  }

  predicate IsHeartbeat(m: Move, i: Id) {
    m.Heartbeat? && m.act == i
  }

  /** The moves that end a lease of activity i. */
  predicate IsOutcome(m: Move, i: Id) {
    (m.Complete? || m.Retry? || m.Fail? || m.Reap? || m.ReapFail?) && m.act == i
  }

  /** The moves that a worker's own message makes on activity i. */
  predicate IsAccepted(m: Move, i: Id) {
    (m.Heartbeat? || m.Complete? || m.Retry? || m.Fail?) && m.act == i
  }

  /** What one move does to the lease of one activity. */
  lemma LeaseEffect(s: State, m: Move, i: Id)
    requires Enabled(s, m) && i in s.activities
    ensures i in Apply(s, m).activities
    ensures var a, b := s.activities[i], Apply(s, m).activities[i];
      if IsClaim(m, i) then
        && a.status == Ready && b.status == Running && b.attempt == a.attempt + 1
        && b.fencingToken == a.fencingToken + 1 && b.leaseOwner == m.worker && b.leaseExpiresAt == m.expires
      else if IsOutcome(m, i) then
        && a.status == Running && b.status != Running && b.attempt == a.attempt
        && b.fencingToken == a.fencingToken
      else
        && (b.status == Running <==> a.status == Running) && b.attempt == a.attempt
        && b.fencingToken == a.fencingToken && b.leaseOwner == a.leaseOwner
        && b.leaseExpiresAt == (if IsHeartbeat(m, i) then m.expires else a.leaseExpiresAt)
  {
    if m.Launch? { AddRowsExtends(s.activities, m.rows); }
  }

  /** An activity that a move creates is new, unclaimed and carries token 0. */
  lemma Created(s: State, m: Move, i: Id)
    requires Enabled(s, m) && i !in s.activities && i in Apply(s, m).activities
    ensures m.Launch? && Fresh(Apply(s, m).activities[i], m.workflow, m.at)
  {
    if m.Launch? {
      AddRowsExtends(s.activities, m.rows);
      assert HasRow(m.rows, i);
    } else {
      SameRecords(s, m);
    }
  }

  // ---------------------------------------------------------------- fencing

  /** A lease of activity i that worker got under the token by move j still runs before move k. */
  ghost predicate HoldsSince(ss: seq<State>, ms: seq<Move>, i: Id, worker: string, token: int, j: nat, k: nat)
    requires |ss| == |ms| + 1
  {
    && j < k <= |ms| && IsClaim(ms[j], i) && ms[j].worker == worker
    && i in ss[j + 1].activities && ss[j + 1].activities[i].fencingToken == token
    && forall l :: j < l < k ==> !IsClaim(ms[l], i) && !IsOutcome(ms[l], i)
  }

  /** Every running activity is held under a lease that one claim of the run granted. */
  lemma {:induction false} RunningIsHeld(ss: seq<State>, ms: seq<Move>, i: Id, k: nat) returns (j: nat)
    requires IsRun(ss, ms) && ss[0] == EMPTY && k <= |ms|
    requires i in ss[k].activities && ss[k].activities[i].status == Running
    ensures HoldsSince(ss, ms, i, ss[k].activities[i].leaseOwner, ss[k].activities[i].fencingToken, j, k)
  {
    var s, m := ss[k - 1], ms[k - 1];
    assert StepAt(ss, ms, k - 1);
    if i in s.activities {
      LeaseEffect(s, m, i);
    } else {
      Created(s, m, i);
    }
    if IsClaim(m, i) {
      j := k - 1;
    } else {
      j := RunningIsHeld(ss, ms, i, k - 1);
    }
  }

  /** Fencing: a heartbeat, completion or failure is accepted only from the worker that the latest
      claim of the activity served, under the token of that claim, and before the lease ended. */
  lemma AcceptedOnlyFromHolder(ss: seq<State>, ms: seq<Move>, i: Id, k: nat) returns (j: nat)
    requires IsRun(ss, ms) && ss[0] == EMPTY && k < |ms| && IsAccepted(ms[k], i)
    ensures HoldsSince(ss, ms, i, ms[k].worker, ms[k].token, j, k)
  {
    assert StepAt(ss, ms, k);
    j := RunningIsHeld(ss, ms, i, k);
  }

  lemma {:induction false} TokensGrow(ss: seq<State>, ms: seq<Move>, i: Id, j: nat, k: nat)
    requires IsRun(ss, ms) && j <= k <= |ms| && i in ss[j].activities
    ensures i in ss[k].activities
    ensures ss[j].activities[i].fencingToken <= ss[k].activities[i].fencingToken
  {
    hide Apply, Enabled;
    RunEvolves(ss, ms, j, k);
    assert Later(ss[j].activities[i], ss[k].activities[i]);
  }

  /** No token of an activity is granted twice: later claims carry larger tokens. */
  lemma GrantsDiffer(ss: seq<State>, ms: seq<Move>, i: Id, j: nat, k: nat)
    requires IsRun(ss, ms) && j < k < |ms| && IsClaim(ms[j], i) && IsClaim(ms[k], i)
    ensures i in ss[j + 1].activities && i in ss[k + 1].activities
    ensures ss[j + 1].activities[i].fencingToken < ss[k + 1].activities[i].fencingToken
  {
    assert StepAt(ss, ms, j) && StepAt(ss, ms, k);
    LeaseEffect(ss[j], ms[j], i);
    TokensGrow(ss, ms, i, j + 1, k);
    LeaseEffect(ss[k], ms[k], i);
  }

  /** An activity that is idle under some token runs again only under a larger one. */
  lemma {:induction false} RunsAgainUnderNewToken(ss: seq<State>, ms: seq<Move>, i: Id, j: nat, k: nat)
    requires IsRun(ss, ms) && j <= k <= |ms|
    requires i in ss[j].activities && ss[j].activities[i].status != Running
    ensures i in ss[k].activities
    ensures ss[k].activities[i].status == Running ==>
              ss[j].activities[i].fencingToken < ss[k].activities[i].fencingToken
    decreases k - j
  {
    hide Apply, Enabled;
    if j < k {
      RunsAgainUnderNewToken(ss, ms, i, j, k - 1);
      assert StepAt(ss, ms, k - 1);
      LeaseEffect(ss[k - 1], ms[k - 1], i);
      TokensGrow(ss, ms, i, j, k - 1);
    }
  }

  /** A lease has at most one outcome: two outcomes of an activity belong to different tokens. */
  lemma OneOutcomePerToken(ss: seq<State>, ms: seq<Move>, i: Id, j: nat, k: nat)
    requires IsRun(ss, ms) && j < k < |ms| && IsOutcome(ms[j], i) && IsOutcome(ms[k], i)
    ensures i in ss[j].activities && i in ss[k].activities
    ensures ss[j].activities[i].fencingToken < ss[k].activities[i].fencingToken
  {
    assert StepAt(ss, ms, j) && StepAt(ss, ms, k);
    LeaseEffect(ss[j], ms[j], i);
    RunsAgainUnderNewToken(ss, ms, i, j + 1, k);
    LeaseEffect(ss[k], ms[k], i);
  }

  // ---------------------------------------------------------------- lease windows

  /** The lease granted or extended by move j until the given expiry is still on, or the clock has
      passed that expiry. */
  ghost predicate WindowOpen(s: State, i: Id, expiry: Time, now: Time) {
    && i in s.activities
    && ((s.activities[i].status == Running && s.activities[i].leaseExpiresAt == expiry)
        || (expiry != NO_DEADLINE && expiry <= now)
        || s.activities[i].status in {Completed, Failed})
  }

  lemma {:induction false} WindowHolds(ss: seq<State>, ms: seq<Move>, i: Id, j: nat, k: nat)
    requires IsRun(ss, ms) && Ordered(ms) && j < k < |ms|
    requires IsClaim(ms[j], i) || IsHeartbeat(ms[j], i)
    requires forall l :: j < l < k ==>
      !IsClaim(ms[l], i) && !IsHeartbeat(ms[l], i) && !(ms[l].Retry? && ms[l].act == i)
    ensures WindowOpen(ss[k], i, ms[j].expires, ms[k].at)
    decreases k - j
  {
    hide Apply, Enabled;
    assert StepAt(ss, ms, k - 1);
    assert ms[k - 1].at <= ms[k].at;
    if j + 1 < k {
      WindowHolds(ss, ms, i, j, k - 1);
      WindowStep(ss[k - 1], ms[k - 1], i, ms[j].expires);
    } else {
      StatusesBefore(ss[j], ms[j]);
      LeaseEffect(ss[j], ms[j], i);
    }
  }

  lemma WindowStep(s: State, m: Move, i: Id, expiry: Time)
    requires Enabled(s, m) && WindowOpen(s, i, expiry, m.at)
    requires !IsClaim(m, i) && !IsHeartbeat(m, i) && !(m.Retry? && m.act == i)
    ensures WindowOpen(Apply(s, m), i, expiry, m.at)
  {
    LeaseEffect(s, m, i);
    if s.activities[i].status in {Completed, Failed} {
      RecordStays(s, m, i);
    } else if IsOutcome(m, i) && s.activities[i].leaseExpiresAt == expiry {
      assert Apply(s, m).activities[i].status in {Completed, Failed} || Expired(s.activities[i], m.at);
    }
  }

  /** A finished activity stays as it is. */
  lemma RecordStays(s: State, m: Move, i: Id)
    requires Enabled(s, m) && i in s.activities && s.activities[i].status in {Completed, Failed, Cancelled}
    ensures i in Apply(s, m).activities && Apply(s, m).activities[i] == s.activities[i]
  {
    if m.Launch? { AddRowsExtends(s.activities, m.rows); }
  }

  /** Lease windows are disjoint: when an activity is claimed again, every expiry promised to the
      previous holder by its claim or by a heartbeat has passed, unless that holder gave the
      activity back by its own failure report. */
  lemma LeaseWindowsDisjoint(ss: seq<State>, ms: seq<Move>, i: Id, j: nat, k: nat)
    requires IsRun(ss, ms) && Ordered(ms) && j < k < |ms|
    requires IsClaim(ms[j], i) || IsHeartbeat(ms[j], i)
    requires IsClaim(ms[k], i)
    requires forall l :: j < l < k ==> !IsClaim(ms[l], i) && !IsHeartbeat(ms[l], i)
    ensures (exists l :: j < l < k && ms[l].Retry? && ms[l].act == i)
            || (ms[j].expires != NO_DEADLINE && ms[j].expires <= ms[k].at)
  {
    if !(exists l :: j < l < k && ms[l].Retry? && ms[l].act == i) {
      WindowHolds(ss, ms, i, j, k);
      assert StepAt(ss, ms, k);
    }
  }

  /** The activity waits for the time given, or is past waiting for good, or that time has come. */
  ghost predicate WaitsUntil(s: State, i: Id, time: Time, now: Time) {
    i in s.activities
    && (time <= now || s.activities[i].status in {Completed, Failed, Cancelled}
        || (s.activities[i].status == RetryPending && s.activities[i].nextAttemptAt == time))
  }

  lemma WaitStep(s: State, m: Move, i: Id, time: Time, earlier: Time)
    requires Enabled(s, m) && earlier <= m.at && WaitsUntil(s, i, time, earlier)
    ensures WaitsUntil(Apply(s, m), i, time, m.at)
  {
    if m.Launch? {
      LaunchKeepsRecord(s, m, i);
    } else {
      AfterMove(s, m, i);
    }
  }

  lemma {:induction false} WaitHolds(ss: seq<State>, ms: seq<Move>, i: Id, j: nat, k: nat)
    requires IsRun(ss, ms) && Ordered(ms) && j < k <= |ms| && ms[j].Retry? && ms[j].act == i
    ensures WaitsUntil(ss[k], i, ms[j].nextAt, ms[k - 1].at)
  {
    hide Apply, Enabled, WaitsUntil;
    assert StepAt(ss, ms, k - 1);
    if k == j + 1 {
      RetryWaits(ss[j], ms[j]);
    } else {
      WaitHolds(ss, ms, i, j, k - 1);
      WaitStep(ss[k - 1], ms[k - 1], i, ms[j].nextAt, ms[k - 2].at);
    }
  }

  lemma RetryWaits(s: State, m: Move)
    requires Enabled(s, m) && m.Retry?
    ensures WaitsUntil(Apply(s, m), m.act, m.nextAt, m.at)
  {
  }

  /** After a failure report that is retried, the activity is not claimed before its retry time, whatever
      happens in between. */
  lemma BackoffIsServed(ss: seq<State>, ms: seq<Move>, i: Id, j: nat, k: nat)
    requires IsRun(ss, ms) && Ordered(ms) && j < k < |ms| && ms[j].Retry? && ms[j].act == i && IsClaim(ms[k], i)
    ensures ms[j].nextAt <= ms[k].at
  {
    hide Apply;
    WaitHolds(ss, ms, i, j, k);
    assert StepAt(ss, ms, k);
  }

  lemma {:induction false} RunRecordStays(ss: seq<State>, ms: seq<Move>, i: Id, j: nat, k: nat)
    requires IsRun(ss, ms) && j <= k <= |ms|
    requires i in ss[j].activities && ss[j].activities[i].status in {Completed, Failed, Cancelled}
    ensures i in ss[k].activities && ss[k].activities[i] == ss[j].activities[i]
    decreases k - j
  {
    hide Apply, Enabled;
    if j < k {
      RunRecordStays(ss, ms, i, j, k - 1);
      assert StepAt(ss, ms, k - 1);
      RecordStays(ss[k - 1], ms[k - 1], i);
    }
  }

  /** After a successful completion an activity is never granted, extended or ended again. */
  lemma CompletionIsFinal(ss: seq<State>, ms: seq<Move>, i: Id, j: nat, k: nat)
    requires IsRun(ss, ms) && j < k < |ms| && ms[j].Complete? && ms[j].act == i
    ensures !IsClaim(ms[k], i) && !IsHeartbeat(ms[k], i) && !IsOutcome(ms[k], i)
  {
    hide Apply, Enabled;
    assert StepAt(ss, ms, j) && StepAt(ss, ms, k);
    StatusesBefore(ss[j], ms[j]);
    StatusesBefore(ss[k], ms[k]);
    AfterMove(ss[j], ms[j], i);
    RunRecordStays(ss, ms, i, j + 1, k);
  }

  /** Move l is the completion of activity i, reported by the worker and under the token of move j, which
      claimed it; and the record bears that token. */
  ghost predicate ReportedBy(ss: seq<State>, ms: seq<Move>, i: Id, k: nat, j: nat, l: nat)
    requires |ss| == |ms| + 1 && k <= |ms| && i in ss[k].activities
  {
    && l < k && ms[l].Complete? && ms[l].act == i && ms[l].token == ss[k].activities[i].fencingToken
    && HoldsSince(ss, ms, i, ms[l].worker, ms[l].token, j, l)
  }

  /** A completed activity was completed by the report of the worker that its token was granted to. */
  lemma {:induction false} CompletedWasReported(ss: seq<State>, ms: seq<Move>, i: Id, k: nat) returns (j: nat, l: nat)
    requires IsRun(ss, ms) && ss[0] == EMPTY && k <= |ms|
    requires i in ss[k].activities && ss[k].activities[i].status == Completed
    ensures ReportedBy(ss, ms, i, k, j, l)
  {
    hide Apply, Enabled, HoldsSince;
    var s, m := ss[k - 1], ms[k - 1];
    assert StepAt(ss, ms, k - 1);
    CompletedBefore(s, m, i);
    if m.Complete? && m.act == i {
      l := k - 1;
      j := AcceptedOnlyFromHolder(ss, ms, i, l);
    } else {
      j, l := CompletedWasReported(ss, ms, i, k - 1);
    }
  }

  lemma CompletedBefore(s: State, m: Move, i: Id)
    requires Enabled(s, m) && i in Apply(s, m).activities && Apply(s, m).activities[i].status == Completed
    ensures if m.Complete? && m.act == i then m.token == Apply(s, m).activities[i].fencingToken
            else i in s.activities && s.activities[i] == Apply(s, m).activities[i]
  {
    hide DependenciesDone;
    if i !in s.activities {
      Created(s, m, i);
    } else if m.Launch? {
      LaunchKeepsRecord(s, m, i);
    } else {
      AfterMove(s, m, i);
    }
  }

  // ---------------------------------------------------------------- termination measure

  /** The attempts an activity has left, weighted by how far its current one has come. */
  function Weight(a: Activity): int {
    var left := a.maxAttempts - a.attempt;
    match a.status
    case Running => 3 * left + 3
    case RetryPending => 3 * left + 2
    case Ready => 3 * left + 1
    case _ => 0
  }

  /** Every change of status strictly lowers the weight, and nothing else changes it. */
  lemma WeightDrops(s: State, m: Move, i: Id)
    requires Enabled(s, m) && Counted(s) && i in s.activities
    ensures i in Apply(s, m).activities
    ensures var a, b := s.activities[i], Apply(s, m).activities[i];
            0 <= Weight(b) && (if a.status == b.status then Weight(b) == Weight(a) else Weight(b) < Weight(a))
  {
    hide Enabled, Apply;
    if m.Launch? {
      LaunchKeepsRecord(s, m, i);
      assert Counters(s.activities[i]);
    } else {
      AfterMove(s, m, i);
      StatusesBefore(s, m);
      AttemptsLeft(s, m);
      assert Counters(s.activities[i]);
      WeightAfter(s.activities[i], m, i);
    }
  }

  lemma LaunchKeepsRecord(s: State, m: Move, i: Id)
    requires Enabled(s, m) && m.Launch? && i in s.activities
    ensures i in Apply(s, m).activities && Apply(s, m).activities[i] == s.activities[i]
  {
    AddRowsExtends(s.activities, m.rows);
  }

  lemma AttemptsLeft(s: State, m: Move)
    requires Enabled(s, m)
    ensures m.Retry? || m.Reap? ==> s.activities[m.act].attempt < s.activities[m.act].maxAttempts
  {
    hide DependenciesDone;
  }

  lemma WeightAfter(a: Activity, m: Move, i: Id)
    requires Counters(a) && !m.Launch?
    requires !m.Finish? && !m.Cancel? && m.act == i ==>
      && (m.Claim? ==> a.status == Ready) && (m.Release? ==> a.status == RetryPending)
      && (!m.Claim? && !m.Release? ==> a.status == Running)
      && (m.Retry? || m.Reap? ==> a.attempt < a.maxAttempts)
    ensures var b := After(a, m, i);
            0 <= Weight(b) && (if a.status == b.status then Weight(b) == Weight(a) else Weight(b) < Weight(a))
  {
  }

  /** How often the status of activity i changes between the states j and k of a run. */
  ghost function StatusChanges(ss: seq<State>, i: Id, j: nat, k: nat): nat
    requires j <= k < |ss|
    requires forall l :: j <= l <= k ==> i in ss[l].activities
    decreases k - j
  {
    if j == k then 0
    else StatusChanges(ss, i, j, k - 1)
         + (if ss[k - 1].activities[i].status == ss[k].activities[i].status then 0 else 1)
  }

  /** How often activity i is claimed by the moves from j up to k. */
  function Claims(ms: seq<Move>, i: Id, j: nat, k: nat): nat
    requires j <= k <= |ms|
    decreases k - j
  {
    if j == k then 0 else Claims(ms, i, j, k - 1) + (if IsClaim(ms[k - 1], i) then 1 else 0)
  }

  lemma StaysThere(ss: seq<State>, ms: seq<Move>, i: Id, j: nat)
    requires IsRun(ss, ms) && j <= |ms| && i in ss[j].activities
    ensures forall l :: j <= l <= |ms| ==> i in ss[l].activities
  {
    forall l | j <= l <= |ms| ensures i in ss[l].activities {
      RunEvolves(ss, ms, j, l);
    }
  }

  lemma {:induction false} ChangesBounded(ss: seq<State>, ms: seq<Move>, i: Id, j: nat, k: nat)
    requires IsRun(ss, ms) && Inv(ss[0]) && j <= k <= |ms|
    requires forall l :: j <= l <= k ==> i in ss[l].activities
    ensures StatusChanges(ss, i, j, k) + Weight(ss[k].activities[i]) <= Weight(ss[j].activities[i])
    decreases k - j
  {
    hide Apply, Enabled, WellFormed, Gated, Consistent, UniqueKeys, Counted, Weight, Evolves;
    if j < k {
      ChangesBounded(ss, ms, i, j, k - 1);
      assert StepAt(ss, ms, k - 1);
      RunKeepsInv(ss, ms, k - 1);
      WeightDrops(ss[k - 1], ms[k - 1], i);
    }
  }

  /** From any point of any run on, an activity changes its status at most 3 * maxAttempts + 2
      times. */
  lemma AtMostSoManyChanges(ss: seq<State>, ms: seq<Move>, i: Id, j: nat, k: nat)
    requires IsRun(ss, ms) && Inv(ss[0]) && j <= k <= |ms| && i in ss[j].activities
    ensures forall l :: j <= l <= |ms| ==> i in ss[l].activities
    ensures StatusChanges(ss, i, j, k) <= 3 * ss[j].activities[i].maxAttempts + 2
  {
    hide Inv, StatusChanges;
    StaysThere(ss, ms, i, j);
    ChangesBounded(ss, ms, i, j, k);
    RunKeepsInv(ss, ms, j);
    RunKeepsInv(ss, ms, k);
    InvCounts(ss[j], i);
    InvCounts(ss[k], i);
  }

  lemma InvCounts(s: State, i: Id)
    requires Inv(s) && i in s.activities
    ensures Counters(s.activities[i])
  {
  }

  lemma {:induction false} ClaimsCountAttempts(ss: seq<State>, ms: seq<Move>, i: Id, j: nat, k: nat)
    requires IsRun(ss, ms) && j <= k <= |ms|
    requires forall l :: j <= l <= k ==> i in ss[l].activities
    ensures ss[k].activities[i].attempt == ss[j].activities[i].attempt + Claims(ms, i, j, k)
    decreases k - j
  {
    hide Apply, Enabled;
    if j < k {
      ClaimsCountAttempts(ss, ms, i, j, k - 1);
      assert StepAt(ss, ms, k - 1);
      LeaseEffect(ss[k - 1], ms[k - 1], i);
    }
  }

  /** From any point of any run on, an activity is claimed at most maxAttempts - attempt times, and
      attempt and fencing token both count the claims. */
  lemma AtMostSoManyClaims(ss: seq<State>, ms: seq<Move>, i: Id, j: nat, k: nat)
    requires IsRun(ss, ms) && Inv(ss[0]) && j <= k <= |ms| && i in ss[j].activities
    ensures i in ss[k].activities
    ensures Claims(ms, i, j, k) <= ss[j].activities[i].maxAttempts - ss[j].activities[i].attempt
    ensures ss[k].activities[i].attempt == ss[j].activities[i].attempt + Claims(ms, i, j, k)
    ensures ss[k].activities[i].fencingToken == ss[k].activities[i].attempt
  {
    StaysThere(ss, ms, i, j);
    ClaimsCountAttempts(ss, ms, i, j, k);
    RunKeepsInv(ss, ms, k);
    assert Counters(ss[k].activities[i]);
    RunEvolves(ss, ms, j, k);
    assert Later(ss[j].activities[i], ss[k].activities[i]);
  }

  // ---------------------------------------------------------------- workflow status

  /** The only exit from Running is to the three other statuses, the only exit from Cancelled is to
      Failed, and Completed and Failed have none. */
  predicate MayBecome(a: WorkflowStatus, b: WorkflowStatus) {
    a == b || a == WorkflowRunning || (a == WorkflowCancelled && b == WorkflowFailed)
  }

  lemma StatusMoves(s: State, m: Move, w: Id)
    requires Enabled(s, m) && Consistent(s) && w in s.workflows
    ensures MayBecome(s.workflows[w].status, StatusAfter(s, m, w))
  {
    if (m.Fail? || m.ReapFail?) && s.activities[m.act].workflow == w {
      assert Known(s, m.act);
      assert Agrees(s.activities[m.act].status, s.workflows[w].status);
    }
  }

  lemma {:induction false} StatusIsMonotone(ss: seq<State>, ms: seq<Move>, w: Id, j: nat, k: nat)
    requires IsRun(ss, ms) && Inv(ss[0]) && j <= k <= |ms| && w in ss[j].workflows
    ensures w in ss[k].workflows && MayBecome(ss[j].workflows[w].status, ss[k].workflows[w].status)
    decreases k - j
  {
    hide Apply, Enabled, WellFormed, Gated, Consistent, UniqueKeys, Counted;
    if j < k {
      StatusIsMonotone(ss, ms, w, j, k - 1);
      assert StepAt(ss, ms, k - 1);
      RunKeepsInv(ss, ms, k - 1);
      StatusMoves(ss[k - 1], ms[k - 1], w);
      StatusEffect(ss[k - 1], ms[k - 1], w);
    }
  }

  // ---------------------------------------------------------------- after a cancellation

  /** A cancellation leaves every activity of its workflow running or finished. */
  lemma CancelFinishesPending(s: State, m: Move, i: Id)
    requires m.Cancel? && Enabled(s, m) && i in s.activities && s.activities[i].workflow == m.workflow
    requires s.activities[i].status != Running
    ensures i in Apply(s, m).activities
    ensures Apply(s, m).activities[i].status in {Completed, Failed, Cancelled}
  {
  }

  /** After workflow w is cancelled, only activities that were running at that moment can be claimed
      again, each at most maxAttempts - attempt more times. */
  lemma ClaimsAfterCancel(ss: seq<State>, ms: seq<Move>, i: Id, j: nat, k: nat)
    requires IsRun(ss, ms) && Inv(ss[0]) && j < k < |ms| && ms[j].Cancel? && IsClaim(ms[k], i)
    requires i in ss[k].activities && ss[k].activities[i].workflow == ms[j].workflow
    ensures i in ss[j].activities && ss[j].activities[i].status == Running
    ensures Claims(ms, i, j, |ms|) <= ss[j].activities[i].maxAttempts - ss[j].activities[i].attempt
  {
    hide Inv, Apply, Evolves, Claims;
    assert ms[j].workflow in ss[j].workflows by { assert StepAt(ss, ms, j); }
    assert ss[k].activities[i].status == Ready by { assert StepAt(ss, ms, k); }
    ThereBefore(ss, ms, i, j, k);
    if ss[j].activities[i].status != Running {
      assert i in ss[j + 1].activities && ss[j + 1].activities[i].status in {Completed, Failed, Cancelled} by {
        assert StepAt(ss, ms, j);
        CancelFinishesPending(ss[j], ms[j], i);
      }
      RunRecordStays(ss, ms, i, j + 1, k);
    }
    AtMostSoManyClaims(ss, ms, i, j, |ms|);
  }

  /** The activities of a workflow are created with it. */
  lemma ThereBefore(ss: seq<State>, ms: seq<Move>, i: Id, j: nat, k: nat)
    requires IsRun(ss, ms) && j <= k <= |ms|
    requires i in ss[k].activities && ss[k].activities[i].workflow in ss[j].workflows
    ensures i in ss[j].activities && SameDefinition(ss[j].activities[i], ss[k].activities[i])
  {
    RunEvolves(ss, ms, j, k);
    assert i in ss[j].activities ==> Later(ss[j].activities[i], ss[k].activities[i]);
  }
}
