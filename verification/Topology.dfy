/** Activities run in dependency order, and activities behind a dependency cycle never run. */
module Topology {
  import opened Machine
  import opened Invariants
  import opened Logs

  /** j is a direct upstream of i: a sibling whose name i depends on. */
  ghost predicate DependsOn(s: State, i: Id, j: Id) {
    Siblings(s, i, j) && s.activities[j].name in s.activities[i].dependsOn
  }

  /** Entry p of history h, if it claims an activity, comes after the completion of every direct
      upstream; if it completes an activity, it comes after a claim of that activity. */
  ghost predicate InOrderAt(s: State, w: Id, h: seq<Entry>, p: nat)
    requires p < |h|
  {
    var i := h[p].activity;
    && (h[p].kind == ClaimedEvent ==>
          i in s.activities && s.activities[i].workflow == w
          && forall j :: DependsOn(s, i, j) ==> Entry(j, CompletedEvent) in h[..p])
    && (h[p].kind == CompletedEvent ==> Entry(i, ClaimedEvent) in h[..p])
  }

  ghost predicate InOrder(s: State) {
    forall w, p :: w in s.workflows && 0 <= p < |History(s, w)| ==> InOrderAt(s, w, History(s, w), p)
  }

  /** What is said stays said in the same order. */
  lemma InOrderStays(s: State, m: Move, w: Id, p: nat)
    requires Enabled(s, m) && WellFormed(s) && w in s.workflows
    requires p < |History(s, w)| && InOrderAt(s, w, History(s, w), p)
    ensures p < |History(Apply(s, m), w)| && InOrderAt(Apply(s, m), w, History(Apply(s, m), w), p)
  {
    var t, h := Apply(s, m), History(s, w);
    MoveHistory(s, m, w);
    MoveEvolves(s, m);
    assert History(t, w)[..p] == h[..p];
    if h[p].kind == ClaimedEvent {
      var i := h[p].activity;
      forall j | DependsOn(t, i, j) ensures Entry(j, CompletedEvent) in h[..p] {
        SameUpstream(s, t, i, j);
      }
      assert Later(s.activities[i], t.activities[i]);
    }
  }

  lemma SameUpstream(s: State, t: State, i: Id, j: Id)
    requires Evolves(s, t) && Known(s, i) && DependsOn(t, i, j)
    ensures DependsOn(s, i, j)
  {
    assert Later(s.activities[i], t.activities[i]);
    assert j in s.activities;
    assert Later(s.activities[j], t.activities[j]);
  }

  /** Only a claim and a completion write entries that have a place in the order. */
  lemma OtherKinds(m: Move, p: nat)
    requires !m.Claim? && !m.Complete? && p < |Entries(m)|
    requires m.Reject? ==> IsStale(m.kind)
    ensures Entries(m)[p].kind != ClaimedEvent && Entries(m)[p].kind != CompletedEvent
  {
    if !m.Launch? && !m.Cancel? { FewEntries(m); }
  }

  lemma RejectsStale(s: State, m: Move)
    requires Enabled(s, m)
    ensures m.Reject? ==> IsStale(m.kind)
  {
  }

  lemma Claimed(s: State, m: Move)
    requires Enabled(s, m) && m.Claim?
    ensures m.act in Apply(s, m).activities && Apply(s, m).activities[m.act].workflow == Home(s, m)
  {
  }

  lemma MovesInOrder(s: State, m: Move, p: nat)
    requires Enabled(s, m) && Inv(s) && Accounted(s)
    requires |History(s, Home(s, m))| <= p < |History(Apply(s, m), Home(s, m))|
    ensures InOrderAt(Apply(s, m), Home(s, m), History(Apply(s, m), Home(s, m)), p)
  {
    hide Apply, Enabled, Inv, Accounted, History;
    var t, w, xs := Apply(s, m), Home(s, m), Entries(m);
    var h := History(s, w);
    MoveHistory(s, m, w);
    assert (h + xs)[p] == xs[p - |h|];
    if m.Claim? {
      assert (h + xs)[..p] == h;
      Claimed(s, m);
      ClaimInOrder(s, m, h);
    } else if m.Complete? {
      assert (h + xs)[..p] == h;
      CompleteInOrder(s, m, h);
    } else {
      RejectsStale(s, m);
      OtherKinds(m, p - |h|);
    }
  }

  lemma CompleteInOrder(s: State, m: Move, h: seq<Entry>)
    requires m.Complete? && Enabled(s, m) && Inv(s) && Accounted(s) && h == History(s, Home(s, m))
    ensures Entry(m.act, ClaimedEvent) in h
  {
    assert Counters(s.activities[m.act]);
    assert Balanced(s.activities[m.act], h, m.act);
    CountedOccurs(h, m.act, ClaimedEvent);
  }

  lemma ClaimInOrder(s: State, m: Move, h: seq<Entry>)
    requires m.Claim? && Enabled(s, m) && Inv(s) && Accounted(s) && h == History(s, Home(s, m))
    ensures forall j :: DependsOn(Apply(s, m), m.act, j) ==> Entry(j, CompletedEvent) in h
  {
    var t := Apply(s, m);
    MoveEvolves(s, m);
    forall j | DependsOn(t, m.act, j) ensures Entry(j, CompletedEvent) in h {
      SameUpstream(s, t, m.act, j);
      var a := s.activities[m.act];
      assert LetThrough(a);
      assert NameCompleted(s.activities, a.workflow, s.activities[j].name);
      assert Balanced(s.activities[j], h, j);
      CountedOccurs(h, j, CompletedEvent);
    }
  }

  lemma KeepsInOrder(s: State, m: Move)
    requires Enabled(s, m) && Inv(s) && Accounted(s) && InOrder(s)
    ensures InOrder(Apply(s, m))
  {
    var t := Apply(s, m);
    forall w, p | w in t.workflows && 0 <= p < |History(t, w)| ensures InOrderAt(t, w, History(t, w), p) {
      if p < |History(s, w)| {
        HistoryNeedsWorkflow(s, w);
        InOrderStays(s, m, w, p);
      } else {
        MoveHistory(s, m, w);
        MovesInOrder(s, m, p);
      }
    }
  }

  lemma HistoryNeedsWorkflow(s: State, w: Id)
    requires WellFormed(s) && History(s, w) != []
    ensures w in s.workflows
  {
  }

  /** In every state of every run the claims and completions stand in dependency order. */
  lemma {:induction false} RunsInOrder(ss: seq<State>, ms: seq<Move>, k: nat)
    requires IsRun(ss, ms) && ss[0] == EMPTY && k <= |ms|
    ensures InOrder(ss[k])
  {
    hide Apply, Enabled, Inv, Partitioned, Accounted, Replayable, InOrderAt;
    if 0 < k {
      RunsInOrder(ss, ms, k - 1);
      LogsTellAll(ss, ms, k - 1);
      assert StepAt(ss, ms, k - 1);
      KeepsInOrder(ss[k - 1], ms[k - 1]);
    }
  }

  // ---------------------------------------------------------------- transitive upstreams

  /** path leads from its first activity upstream, dependency by dependency. */
  ghost predicate IsPath(s: State, path: seq<Id>) {
    |path| > 1 && forall k :: 0 <= k < |path| - 1 ==> DependsOn(s, path[k], path[k + 1])
  }

  /** A claim of an activity comes after the completion of every activity upstream of it, however
      far up. */
  lemma {:induction false} UpstreamFirst(s: State, path: seq<Id>, p: nat)
    requires InOrder(s) && WellFormed(s) && IsPath(s, path)
    requires path[0] in s.activities
    requires var h := History(s, s.activities[path[0]].workflow); p < |h| && h[p] == Entry(path[0], ClaimedEvent)
    ensures var h := History(s, s.activities[path[0]].workflow);
            Entry(path[|path| - 1], CompletedEvent) in h[..p]
  {
    var w := s.activities[path[0]].workflow;
    var h := History(s, w);
    assert InOrderAt(s, w, h, p);
    assert DependsOn(s, path[0], path[1]);
    if |path| > 2 {
      var q :| 0 <= q < p && h[q] == Entry(path[1], CompletedEvent);
      assert InOrderAt(s, w, h, q);
      var r :| 0 <= r < q && h[r] == Entry(path[1], ClaimedEvent);
      var rest := path[1..];
      forall k | 0 <= k < |rest| - 1 ensures DependsOn(s, rest[k], rest[k + 1]) {
        assert DependsOn(s, path[k + 1], path[k + 2]);
      }
      UpstreamFirst(s, rest, r);
      var u :| 0 <= u < r && h[..r][u] == Entry(path[|path| - 1], CompletedEvent);
      assert h[..p][u] == h[u];
    }
  }

  /** An activity on a dependency cycle is never claimed. */
  lemma {:induction false} CycleNeverClaimed(s: State, path: seq<Id>, p: nat)
    requires InOrder(s) && WellFormed(s) && IsPath(s, path) && path[0] == path[|path| - 1]
    requires path[0] in s.activities
    requires p < |History(s, s.activities[path[0]].workflow)|
    ensures History(s, s.activities[path[0]].workflow)[p] != Entry(path[0], ClaimedEvent)
    decreases p
  {
    var w := s.activities[path[0]].workflow;
    var h := History(s, w);
    if h[p] == Entry(path[0], ClaimedEvent) {
      UpstreamFirst(s, path, p);
      var q :| 0 <= q < p && h[..p][q] == Entry(path[0], CompletedEvent);
      var r := CompletedAfterClaim(s, w, path[0], q);
      CycleNeverClaimed(s, path, r);
    }
  }

  /** A completed activity was claimed before. */
  lemma CompletedAfterClaim(s: State, w: Id, i: Id, q: nat) returns (r: nat)
    requires InOrder(s) && w in s.workflows
    requires q < |History(s, w)| && History(s, w)[q] == Entry(i, CompletedEvent)
    ensures r < q && History(s, w)[r] == Entry(i, ClaimedEvent)
  {
    var h := History(s, w);
    assert InOrderAt(s, w, h, q);
    r :| 0 <= r < q && h[..q][r] == Entry(i, ClaimedEvent);
  }

  /** An activity downstream of a dependency cycle is never claimed. */
  lemma DownstreamNeverClaimed(s: State, down: seq<Id>, cycle: seq<Id>, p: nat)
    requires InOrder(s) && WellFormed(s) && IsPath(s, down) && IsPath(s, cycle)
    requires down[|down| - 1] == cycle[0] == cycle[|cycle| - 1] && down[0] in s.activities
    requires p < |History(s, s.activities[down[0]].workflow)|
    ensures History(s, s.activities[down[0]].workflow)[p] != Entry(down[0], ClaimedEvent)
  {
    var w := s.activities[down[0]].workflow;
    var h := History(s, w);
    if h[p] == Entry(down[0], ClaimedEvent) {
      UpstreamFirst(s, down, p);
      var q :| 0 <= q < p && h[..p][q] == Entry(cycle[0], CompletedEvent);
      var r := CompletedAfterClaim(s, w, cycle[0], q);
      PathStaysInside(s, down);
      CycleNeverClaimed(s, cycle, r);
    }
  }

  /** Activities on a dependency cycle, or downstream of one, are never claimed: they stay at
      attempt 0, in every state of every run. */
  lemma BehindCycleNeverAttempted(ss: seq<State>, ms: seq<Move>, k: nat, down: seq<Id>, cycle: seq<Id>)
    requires IsRun(ss, ms) && ss[0] == EMPTY && k <= |ms|
    requires IsPath(ss[k], cycle) && cycle[0] == cycle[|cycle| - 1]
    requires |down| > 0 && down[|down| - 1] == cycle[0] && (|down| > 1 ==> IsPath(ss[k], down))
    ensures down[0] in ss[k].activities && ss[k].activities[down[0]].attempt == 0
  {
    var s := ss[k];
    assert down[0] in s.activities by {
      if |down| > 1 { assert DependsOn(s, down[0], down[1]); } else { assert DependsOn(s, cycle[0], cycle[1]); }
    }
    LogsTellAll(ss, ms, k);
    RunsInOrder(ss, ms, k);
    if s.activities[down[0]].attempt > 0 {
      var p := AttemptedWasClaimed(s, down[0]);
      if |down| > 1 {
        DownstreamNeverClaimed(s, down, cycle, p);
      } else {
        CycleNeverClaimed(s, cycle, p);
      }
    }
  }

  lemma AttemptedWasClaimed(s: State, i: Id) returns (p: nat)
    requires Accounted(s) && i in s.activities && s.activities[i].attempt > 0
    ensures p < |History(s, s.activities[i].workflow)|
    ensures History(s, s.activities[i].workflow)[p] == Entry(i, ClaimedEvent)
  {
    var h := History(s, s.activities[i].workflow);
    assert Balanced(s.activities[i], h, i);
    CountedOccurs(h, i, ClaimedEvent);
    p :| 0 <= p < |h| && h[p] == Entry(i, ClaimedEvent);
  }

  lemma {:induction false} PathStaysInside(s: State, path: seq<Id>)
    requires IsPath(s, path)
    ensures Siblings(s, path[0], path[|path| - 1])
  {
    assert DependsOn(s, path[0], path[1]);
    if |path| > 2 {
      var rest := path[1..];
      forall k | 0 <= k < |rest| - 1 ensures DependsOn(s, rest[k], rest[k + 1]) {
        assert DependsOn(s, path[k + 1], path[k + 2]);
      }
      PathStaysInside(s, rest);
    }
  }

  // ---------------------------------------------------------------- on or behind a cycle

  /** down leads from activity i to the cycle, or i is on it. */
  ghost predicate LeadsToCycle(s: State, i: Id, down: seq<Id>, cycle: seq<Id>) {
    && IsPath(s, cycle) && cycle[0] == cycle[|cycle| - 1]
    && |down| > 0 && down[0] == i && down[|down| - 1] == cycle[0] && (|down| > 1 ==> IsPath(s, down))
  }

  /** Activity i is on a dependency cycle or downstream of one. */
  ghost predicate Behind(s: State, i: Id) {
    exists down, cycle :: LeadsToCycle(s, i, down, cycle)
  }

  lemma TailIsPath(s: State, path: seq<Id>)
    requires IsPath(s, path) && |path| > 2
    ensures IsPath(s, path[1..])
  {
    forall k | 0 <= k < |path[1..]| - 1 ensures DependsOn(s, path[1..][k], path[1..][k + 1]) {
      assert DependsOn(s, path[k + 1], path[k + 2]);
    }
  }

  /** Whatever is behind a cycle waits for something that is behind a cycle. */
  lemma NextBehind(s: State, i: Id) returns (u: Id)
    requires Behind(s, i)
    ensures DependsOn(s, i, u) && Behind(s, u)
  {
    hide DependsOn;
    var down, cycle :| LeadsToCycle(s, i, down, cycle);
    var rest := if |down| > 1 then down[1..] else cycle[1..];
    if |down| > 1 {
      assert DependsOn(s, down[0], down[1]);
      if |down| > 2 { TailIsPath(s, down); }
    } else {
      assert DependsOn(s, cycle[0], cycle[1]);
      if |cycle| > 2 { TailIsPath(s, cycle); }
    }
    u := rest[0];
    assert LeadsToCycle(s, u, rest, cycle);
  }

  lemma BehindNext(s: State, i: Id, u: Id)
    requires DependsOn(s, i, u) && Behind(s, u)
    ensures Behind(s, i)
  {
    hide DependsOn;
    var down, cycle :| LeadsToCycle(s, u, down, cycle);
    var longer := [i] + down;
    forall k | 0 <= k < |longer| - 1 ensures DependsOn(s, longer[k], longer[k + 1]) {
      if k > 0 { assert DependsOn(s, down[k - 1], down[k]); }
    }
    assert LeadsToCycle(s, i, longer, cycle);
  }

  /** Dependencies never change. */
  lemma SameBehind(s: State, t: State, i: Id)
    requires WellFormed(s) && Evolves(s, t) && t.activities.Keys == s.activities.Keys
    ensures Behind(t, i) <==> Behind(s, i)
  {
    hide WellFormed, Evolves, DependsOn;
    forall x, y ensures DependsOn(t, x, y) <==> DependsOn(s, x, y) {
      SameDependency(s, t, x, y);
    }
    forall path ensures IsPath(t, path) <==> IsPath(s, path) {
      SamePath(s, t, path);
    }
    if Behind(s, i) {
      var down, cycle :| LeadsToCycle(s, i, down, cycle);
      assert LeadsToCycle(t, i, down, cycle);
    }
    if Behind(t, i) {
      var down, cycle :| LeadsToCycle(t, i, down, cycle);
      assert LeadsToCycle(s, i, down, cycle);
    }
  }

  lemma SamePath(s: State, t: State, path: seq<Id>)
    requires forall x, y :: DependsOn(t, x, y) <==> DependsOn(s, x, y)
    ensures IsPath(t, path) <==> IsPath(s, path)
  {
    hide DependsOn;
    if IsPath(s, path) {
      forall k | 0 <= k < |path| - 1 ensures DependsOn(t, path[k], path[k + 1]) {
        assert DependsOn(s, path[k], path[k + 1]);
      }
    }
    if IsPath(t, path) {
      forall k | 0 <= k < |path| - 1 ensures DependsOn(s, path[k], path[k + 1]) {
        assert DependsOn(t, path[k], path[k + 1]);
      }
    }
  }

  lemma SameDependency(s: State, t: State, x: Id, y: Id)
    requires WellFormed(s) && Evolves(s, t) && t.activities.Keys == s.activities.Keys
    ensures DependsOn(t, x, y) <==> DependsOn(s, x, y)
  {
    if x in s.activities && y in s.activities {
      assert Later(s.activities[x], t.activities[x]) && Later(s.activities[y], t.activities[y]);
    }
  }

  /** Activities behind a cycle stay unattempted, in every state of every run, and never get ready. */
  lemma BehindNeverRuns(ss: seq<State>, ms: seq<Move>, k: nat, i: Id)
    requires IsRun(ss, ms) && ss[0] == EMPTY && k <= |ms| && Behind(ss[k], i)
    ensures i in ss[k].activities && ss[k].activities[i].attempt == 0
    ensures ss[k].activities[i].status == RetryPending || ss[k].activities[i].status == Cancelled
  {
    hide Inv, Partitioned, Accounted, Replayable;
    var down, cycle :| LeadsToCycle(ss[k], i, down, cycle);
    BehindCycleNeverAttempted(ss, ms, k, down, cycle);
    var u := NextBehind(ss[k], i);
    var down', cycle' :| LeadsToCycle(ss[k], u, down', cycle');
    BehindCycleNeverAttempted(ss, ms, k, down', cycle');
    LogsTellAll(ss, ms, k);
    UnattemptedUpstream(ss[k], i, u);
  }

  lemma UnattemptedUpstream(s: State, i: Id, u: Id)
    requires Inv(s) && DependsOn(s, i, u) && s.activities[i].attempt == 0 && s.activities[u].attempt == 0
    ensures s.activities[i].status == RetryPending || s.activities[i].status == Cancelled
  {
    assert Counters(s.activities[i]) && Counters(s.activities[u]);
    if s.activities[i].status == Ready { UpstreamCompleted(s, i, u); }
  }

  /** The direct upstreams of what was let through are completed. */
  lemma UpstreamCompleted(s: State, i: Id, u: Id)
    requires Inv(s) && DependsOn(s, i, u) && LetThrough(s.activities[i])
    ensures s.activities[u].status == Completed
  {
    assert NameCompleted(s.activities, s.activities[i].workflow, s.activities[u].name);
  }

  /** A completed workflow has no dependency cycle. */
  lemma CompletedIsAcyclic(ss: seq<State>, ms: seq<Move>, k: nat, cycle: seq<Id>)
    requires IsRun(ss, ms) && ss[0] == EMPTY && k <= |ms|
    requires |cycle| > 1 && cycle[0] == cycle[|cycle| - 1] && Known(ss[k], cycle[0])
    requires ss[k].workflows[ss[k].activities[cycle[0]].workflow].status == WorkflowCompleted
    ensures !IsPath(ss[k], cycle)
  {
    assert 0 < ss[k].activities[cycle[0]].attempt by {
      LogsTellAll(ss, ms, k);
      var a := ss[k].activities[cycle[0]];
      assert Agrees(a.status, ss[k].workflows[a.workflow].status);
      assert Counters(a);
    }
    if IsPath(ss[k], cycle) {
      BehindCycleNeverAttempted(ss, ms, k, [cycle[0]], cycle);
    }
  }
}
