/** Start against the database, statement by statement, with any number of sessions running at once.

    A session runs the transaction of one call.  What it has inserted is visible to others only after
    its commit; the unique index on idempotency_keys makes an insert wait for an uncommitted insert of
    the same key, and reports a conflict with a committed one.  A session may fail at any statement, and
    the process may vanish between the commit and the answer. */
module PostgresStart {

  type Session = nat

  type WorkflowId = nat

  datatype Request = Request(namespace: string, key: string)

  datatype Answer = Created(id: WorkflowId) | Found(id: WorkflowId) | DidNotCommit | Errored

  datatype Phase =
    | Waiting                          // the call has not begun its transaction
    | Opened                           // ensureNamespace is done
    | Looked                           // the key was looked up and not found
    | Drawn(id: WorkflowId)            // workflow_executions row inserted, uncommitted
    | Owning(id: WorkflowId)           // idempotency_keys row inserted too, uncommitted
    | Conflicted                       // ON CONFLICT DO NOTHING inserted no row
    | Rereading                        // rolled back; the second transaction is to come
    | Committed(id: WorkflowId)        // committed, not yet answered
    | Answered(answer: Answer)
    | Vanished(id: WorkflowId)         // committed, and the process died before it could answer

  /** locking says whether ensureNamespace's DO UPDATE holds the namespace row until the transaction
      ends.  It does, but most results below do not depend on it. */
  datatype System = System(
    locking: bool,
    requests: map<Session, Request>,
    phases: map<Session, Phase>,
    keys: map<Request, WorkflowId>,
    workflows: map<WorkflowId, Session>,
    drawn: set<WorkflowId>)

  datatype Action =
    | Open(who: Session)
    | Lookup(who: Session)
    | Draw(who: Session, id: WorkflowId)
    | InsertKey(who: Session)
    | Commit(who: Session)
    | Reply(who: Session)
    | Vanish(who: Session)
    | Fail(who: Session)
    | Rollback(who: Session)
    | Reread(who: Session)

  /** The session is inside its first transaction. */
  predicate Inside(p: Phase) {
    p.Opened? || p.Looked? || p.Drawn? || p.Owning? || p.Conflicted?
  }

  /** The session has an uncommitted row for the key. */
  predicate Holds(s: System, a: Session, r: Request) {
    a in s.phases && a in s.requests && s.phases[a].Owning? && s.requests[a] == r && r.key != ""
  }

  ghost predicate Blocked(s: System, a: Session, r: Request) {
    exists b :: b != a && Holds(s, b, r)
  }

  /** Another session holds the row of the namespace. */
  ghost predicate Shut(s: System, a: Session) {
    s.locking && exists b :: b != a && InsideSame(s, a, b)
  }

  predicate InsideSame(s: System, a: Session, b: Session) {
    a in s.requests && b in s.requests && b in s.phases && Inside(s.phases[b])
    && s.requests[b].namespace == s.requests[a].namespace
  }

  predicate IsFresh(s: System) {
    && s.phases.Keys == s.requests.Keys && s.keys == map[] && s.workflows == map[] && s.drawn == {}
    && forall a :: a in s.phases ==> s.phases[a].Waiting?
  }

  ghost predicate Enabled(s: System, x: Action) {
    var a := x.who;
    && a in s.phases && a in s.requests
    && match x
       case Open(_) => s.phases[a].Waiting? && !Shut(s, a)
       case Lookup(_) => s.phases[a].Opened?
       case Draw(_, w) => s.phases[a].Looked? && w !in s.drawn
       case InsertKey(_) => s.phases[a].Drawn? && !Blocked(s, a, s.requests[a])
       case Commit(_) => s.phases[a].Owning?
       case Reply(_) => s.phases[a].Committed?
       case Vanish(_) => s.phases[a].Committed?
       case Fail(_) => Inside(s.phases[a]) || s.phases[a].Rereading?
       case Rollback(_) => s.phases[a].Conflicted?
       case Reread(_) => s.phases[a].Rereading?
  }

  ghost function Apply(s: System, x: Action): System
    requires Enabled(s, x)
  {
    var a, r, p := x.who, s.requests[x.who], s.phases[x.who];
    match x
    case Open(_) => s.(phases := s.phases[a := Opened])
    case Lookup(_) =>
      if r.key != "" && r in s.keys then s.(phases := s.phases[a := Answered(Found(s.keys[r]))])
      else s.(phases := s.phases[a := Looked])
    case Draw(_, w) => s.(phases := s.phases[a := Drawn(w)], drawn := s.drawn + {w})
    case InsertKey(_) =>
      if r.key != "" && r in s.keys then s.(phases := s.phases[a := Conflicted])
      else s.(phases := s.phases[a := Owning(p.id)])
    case Commit(_) =>
      s.(phases := s.phases[a := Committed(p.id)], workflows := s.workflows[p.id := a],
         keys := if r.key != "" then s.keys[r := p.id] else s.keys)
    case Reply(_) => s.(phases := s.phases[a := Answered(Created(p.id))])
    case Vanish(_) => s.(phases := s.phases[a := Vanished(p.id)])
    case Fail(_) => s.(phases := s.phases[a := Answered(Errored)])
    case Rollback(_) => s.(phases := s.phases[a := Rereading])
    case Reread(_) =>
      s.(phases := s.phases[a := Answered(if r in s.keys then Found(s.keys[r]) else DidNotCommit)])
  }

  ghost predicate IsRun(ss: seq<System>, xs: seq<Action>) {
    |ss| == |xs| + 1 && IsFresh(ss[0]) && forall k :: 0 <= k < |xs| ==> StepAt(ss, xs, k)
  }

  ghost predicate StepAt(ss: seq<System>, xs: seq<Action>, k: nat)
    requires |ss| == |xs| + 1 && k < |xs|
  {
    Enabled(ss[k], xs[k]) && ss[k + 1] == Apply(ss[k], xs[k])
  }

  // ---------------------------------------------------------------- the invariant

  /** The id a session has drawn, committed or not. */
  predicate Has(p: Phase, w: WorkflowId) {
    ((p.Drawn? || p.Owning? || p.Committed? || p.Vanished?) && p.id == w) || p == Answered(Created(w))
  }

  /** The session's transaction has committed its workflow w. */
  predicate Made(p: Phase, w: WorkflowId) {
    ((p.Committed? || p.Vanished?) && p.id == w) || p == Answered(Created(w))
  }

  ghost predicate SessionOk(s: System, a: Session)
    requires a in s.phases && a in s.requests
  {
    var p, r := s.phases[a], s.requests[a];
    && (forall w :: Has(p, w) ==> w in s.drawn)
    && (forall w :: Made(p, w) ==> w in s.workflows && s.workflows[w] == a && (r.key != "" ==> r in s.keys && s.keys[r] == w))
    && (p.Drawn? || p.Owning? ==> p.id !in s.workflows)
    && (p.Owning? && r.key != "" ==> r !in s.keys)
    && (p.Conflicted? || p.Rereading? ==> r.key != "" && r in s.keys)
    && (p.Answered? && p.answer.Found? ==> r.key != "" && r in s.keys && s.keys[r] == p.answer.id)
    && p != Answered(DidNotCommit)
  }

  ghost predicate Ok(s: System) {
    && s.phases.Keys == s.requests.Keys
    && (forall a :: a in s.phases ==> SessionOk(s, a))
    && (forall a, b, w :: a in s.phases && b in s.phases && Has(s.phases[a], w) && Has(s.phases[b], w) ==> a == b)
    && (forall a, b, r :: Holds(s, a, r) && Holds(s, b, r) ==> a == b)
    && (forall w :: w in s.workflows ==> w in s.drawn && s.workflows[w] in s.phases && Made(s.phases[s.workflows[w]], w))
    && (forall r :: r in s.keys ==>
          r.key != "" && s.keys[r] in s.workflows && s.requests[s.workflows[s.keys[r]]] == r)
  }

  lemma FreshIsOk(s: System)
    requires IsFresh(s)
    ensures Ok(s)
  {
  }

  /** What other sessions see of a step: nothing but more committed rows. */
  ghost predicate Grows(s: System, t: System) {
    && t.requests == s.requests && t.locking == s.locking && t.phases.Keys == s.phases.Keys && s.drawn <= t.drawn
    && (forall r :: r in s.keys ==> r in t.keys && t.keys[r] == s.keys[r])
    && (forall w :: w in s.workflows ==> w in t.workflows && t.workflows[w] == s.workflows[w])
  }

  lemma StepGrows(s: System, x: Action)
    requires Ok(s) && Enabled(s, x)
    ensures Grows(s, Apply(s, x)) && forall b :: b in s.phases && b != x.who ==> Apply(s, x).phases[b] == s.phases[b]
  {
    hide Ok;
    OkFacts(s, x.who);
    assert x.Commit? ==> Has(s.phases[x.who], s.phases[x.who].id);
  }

  lemma OthersStayOk(s: System, x: Action, b: Session)
    requires Ok(s) && Enabled(s, x) && b in s.phases && b != x.who
    ensures b in Apply(s, x).phases && b in Apply(s, x).requests && SessionOk(Apply(s, x), b)
  {
    StepGrows(s, x);
    assert SessionOk(s, b) && SessionOk(s, x.who);
    var t, a := Apply(s, x), x.who;
    if x.Commit? && s.phases[b].Owning? && s.requests[b].key != "" {
      if s.requests[a] == s.requests[b] {
        assert Holds(s, a, s.requests[a]) && Holds(s, b, s.requests[a]);
      }
    }
    if x.Commit? && (s.phases[b].Drawn? || s.phases[b].Owning?) {
      assert Has(s.phases[b], s.phases[b].id) && Has(s.phases[a], s.phases[a].id);
    }
  }

  lemma ActorStaysOk(s: System, x: Action)
    requires Ok(s) && Enabled(s, x)
    ensures x.who in Apply(s, x).phases && x.who in Apply(s, x).requests && SessionOk(Apply(s, x), x.who)
  {
    hide Ok, Apply, SessionOk, Shut, Blocked;
    OkFacts(s, x.who);
    if x.Commit? { CommitterStaysOk(s, x); } else { UncommittedStaysOk(s, x); }
  }

  lemma UncommittedStaysOk(s: System, x: Action)
    requires x.who in s.phases && x.who in s.requests && Enabled(s, x) && !x.Commit?
    requires SessionOk(s, x.who) && s.workflows.Keys <= s.drawn
    ensures x.who in Apply(s, x).phases && x.who in Apply(s, x).requests && SessionOk(Apply(s, x), x.who)
  {
    hide Blocked, Shut;
    var p := s.phases[x.who];
    if p.Committed? { assert Made(p, p.id); }
  }

  lemma CommitterStaysOk(s: System, x: Action)
    requires x.who in s.phases && x.who in s.requests && Enabled(s, x) && x.Commit? && SessionOk(s, x.who)
    ensures x.who in Apply(s, x).phases && x.who in Apply(s, x).requests && SessionOk(Apply(s, x), x.who)
  {
    assert Has(s.phases[x.who], s.phases[x.who].id);
  }

  lemma OkFacts(s: System, a: Session)
    requires Ok(s) && a in s.phases
    ensures a in s.requests && SessionOk(s, a) && s.workflows.Keys <= s.drawn
  {
  }

  lemma IdIsOwn(s: System, a: Session, b: Session, w: WorkflowId)
    requires Ok(s) && a in s.phases && b in s.phases && Has(s.phases[a], w) && Has(s.phases[b], w)
    ensures a == b
  {
  }

  lemma WorkflowIsMade(s: System, w: WorkflowId)
    requires Ok(s) && w in s.workflows
    ensures w in s.drawn && s.workflows[w] in s.phases && Made(s.phases[s.workflows[w]], w)
  {
  }

  lemma KeyIsOwn(s: System, r: Request)
    requires Ok(s) && r in s.keys
    ensures r.key != "" && s.keys[r] in s.workflows && s.workflows[s.keys[r]] in s.requests
    ensures s.requests[s.workflows[s.keys[r]]] == r
  {
  }

  lemma IdsStayApart(s: System, x: Action, a: Session, b: Session, w: WorkflowId)
    requires Ok(s) && Enabled(s, x) && a in s.phases && b in s.phases
    requires var t := Apply(s, x); a in t.phases && b in t.phases && Has(t.phases[a], w) && Has(t.phases[b], w)
    ensures a == b
  {
    hide Ok;
    OkFacts(s, a);
    OkFacts(s, b);
    var t := Apply(s, x);
    if !x.Draw? || (Has(s.phases[a], w) && Has(s.phases[b], w)) { IdIsOwn(s, a, b, w); }
  }

  lemma HoldersStayApart(s: System, x: Action, a: Session, b: Session, r: Request)
    requires Ok(s) && Enabled(s, x) && Holds(Apply(s, x), a, r) && Holds(Apply(s, x), b, r)
    ensures a == b
  {
    assert x.InsertKey? && x.who == a && a != b ==> Holds(s, b, r);
    assert x.InsertKey? && x.who == b && a != b ==> Holds(s, a, r);
    assert !(x.InsertKey? && x.who in {a, b}) ==> Holds(s, a, r) && Holds(s, b, r);
  }

  lemma StepKeepsOk(s: System, x: Action)
    requires Ok(s) && Enabled(s, x)
    ensures Ok(Apply(s, x))
  {
    var t := Apply(s, x);
    StepGrows(s, x);
    forall a | a in t.phases ensures SessionOk(t, a) {
      if a == x.who { ActorStaysOk(s, x); } else { OthersStayOk(s, x, a); }
    }
    forall a, b, w | a in t.phases && b in t.phases && Has(t.phases[a], w) && Has(t.phases[b], w) ensures a == b {
      IdsStayApart(s, x, a, b, w);
    }
    forall a, b, r | Holds(t, a, r) && Holds(t, b, r) ensures a == b {
      HoldersStayApart(s, x, a, b, r);
    }
    CommittedStays(s, x);
  }

  lemma CommittedStays(s: System, x: Action)
    requires Ok(s) && Enabled(s, x)
    ensures var t := Apply(s, x);
      && (forall w :: w in t.workflows ==> w in t.drawn && t.workflows[w] in t.phases && Made(t.phases[t.workflows[w]], w))
      && (forall r :: r in t.keys ==>
            r.key != "" && t.keys[r] in t.workflows && t.workflows[t.keys[r]] in t.requests
            && t.requests[t.workflows[t.keys[r]]] == r)
  {
    hide Ok, Apply, Enabled;
    var t := Apply(s, x);
    forall w | w in t.workflows ensures w in t.drawn && t.workflows[w] in t.phases && Made(t.phases[t.workflows[w]], w) {
      WorkflowStays(s, x, w);
    }
    forall r | r in t.keys
      ensures r.key != "" && t.keys[r] in t.workflows && t.workflows[t.keys[r]] in t.requests
              && t.requests[t.workflows[t.keys[r]]] == r
    {
      KeyStays(s, x, r);
    }
  }

  lemma WorkflowStays(s: System, x: Action, w: WorkflowId)
    requires Ok(s) && Enabled(s, x) && w in Apply(s, x).workflows
    ensures var t := Apply(s, x); w in t.drawn && t.workflows[w] in t.phases && Made(t.phases[t.workflows[w]], w)
  {
    hide Ok;
    OkFacts(s, x.who);
    var p := s.phases[x.who];
    if p.Owning? { assert Has(p, p.id); }
    if w in s.workflows { WorkflowIsMade(s, w); }
  }

  lemma KeyStays(s: System, x: Action, r: Request)
    requires Ok(s) && Enabled(s, x) && r in Apply(s, x).keys
    ensures var t := Apply(s, x);
      && r.key != "" && t.keys[r] in t.workflows && t.workflows[t.keys[r]] in t.requests
      && t.requests[t.workflows[t.keys[r]]] == r
  {
    hide Ok;
    OkFacts(s, x.who);
    if r in s.keys { KeyIsOwn(s, r); }
  }

  lemma {:induction false} RunIsOk(ss: seq<System>, xs: seq<Action>, k: nat)
    requires IsRun(ss, xs) && k <= |xs|
    ensures Ok(ss[k])
  {
    hide Ok, Apply, Enabled, IsFresh;
    if k == 0 {
      FreshIsOk(ss[0]);
    } else {
      RunIsOk(ss, xs, k - 1);
      assert StepAt(ss, xs, k - 1);
      StepKeepsOk(ss[k - 1], xs[k - 1]);
    }
  }

  // ---------------------------------------------------------------- the theorems

  /** In every interleaving at most one workflow is committed for a pair of namespace and key. */
  lemma OneWorkflowPerKey(ss: seq<System>, xs: seq<Action>, k: nat, v: WorkflowId, w: WorkflowId)
    requires IsRun(ss, xs) && k <= |xs| && v in ss[k].workflows && w in ss[k].workflows
    ensures var s := ss[k];
      && s.workflows[v] in s.requests && s.workflows[w] in s.requests
      && (s.requests[s.workflows[v]] == s.requests[s.workflows[w]] && s.requests[s.workflows[v]].key != "" ==> v == w)
  {
    RunIsOk(ss, xs, k);
    var s := ss[k];
    assert SessionOk(s, s.workflows[v]) && SessionOk(s, s.workflows[w]);
  }

  /** All answers for a pair of namespace and key name the one committed workflow, and at most one of
      them says that it was created by its own call. */
  lemma AnswersAgree(ss: seq<System>, xs: seq<Action>, k: nat, a: Session, b: Session)
    requires IsRun(ss, xs) && k <= |xs| && a in ss[k].phases && b in ss[k].phases
    requires a in ss[k].requests && b in ss[k].requests && ss[k].requests[a] == ss[k].requests[b]
    requires ss[k].requests[a].key != "" && ss[k].phases[a].Answered? && ss[k].phases[b].Answered?
    ensures ss[k].phases[a].answer != DidNotCommit
    ensures var p, q, r := ss[k].phases[a].answer, ss[k].phases[b].answer, ss[k].requests[a];
      && (!p.Errored? ==> r in ss[k].keys && p.id == ss[k].keys[r] && p.id in ss[k].workflows)
      && (!p.Errored? && !q.Errored? && q != DidNotCommit ==> p.id == q.id)
      && (p.Created? && q.Created? ==> a == b)
  {
    RunIsOk(ss, xs, k);
    var s := ss[k];
    assert SessionOk(s, a) && SessionOk(s, b);
    if s.phases[a].answer.Created? {
      assert Made(s.phases[a], s.phases[a].answer.id) && Has(s.phases[a], s.phases[a].answer.id);
    }
    if s.phases[b].answer.Created? {
      assert Made(s.phases[b], s.phases[b].answer.id) && Has(s.phases[b], s.phases[b].answer.id);
    }
  }

  /** The branch "did not commit" is never taken, because keys are never deleted. */
  lemma NeverDidNotCommit(ss: seq<System>, xs: seq<Action>, k: nat, a: Session)
    requires IsRun(ss, xs) && k <= |xs| && a in ss[k].phases
    ensures ss[k].phases[a] != Answered(DidNotCommit)
  {
    RunIsOk(ss, xs, k);
    assert SessionOk(ss[k], a);
  }

  /** A start that ended in an error, or found the workflow of another, leaves no rows.  A start whose
      process vanished after the commit leaves exactly its workflow. */
  lemma RowsOnlyFromCommits(ss: seq<System>, xs: seq<Action>, k: nat, w: WorkflowId)
    requires IsRun(ss, xs) && k <= |xs| && w in ss[k].workflows
    ensures var s := ss[k]; s.workflows[w] in s.phases && Made(s.phases[s.workflows[w]], w)
  {
    RunIsOk(ss, xs, k);
  }

  /** Where a call takes effect: when it commits, its key is not taken, so the one-transaction Start
      would have created the workflow at that moment; and what it finds is there when it finds it. */
  lemma CommitsAreAtomicStarts(ss: seq<System>, xs: seq<Action>, k: nat)
    requires IsRun(ss, xs) && k < |xs| && xs[k].who in ss[k].requests && xs[k].who in ss[k].phases
    ensures var s, t, a := ss[k], ss[k + 1], xs[k].who;
      && (xs[k].Commit? && s.requests[a].key != "" ==>
            s.requests[a] !in s.keys && s.phases[a].Owning? && t.keys == s.keys[s.requests[a] := s.phases[a].id])
      && (a in t.phases && t.phases[a].Answered? && t.phases[a].answer.Found? ==>
            s.requests[a] in s.keys && t.phases[a].answer.id == s.keys[s.requests[a]] && t.workflows == s.workflows)
  {
    assert StepAt(ss, xs, k);
    RunIsOk(ss, xs, k);
    assert SessionOk(ss[k], xs[k].who);
  }

  // ---------------------------------------------------------------- with the lock on the namespace

  /** Between its lookup and its insert nobody can have committed the key. */
  ghost predicate Alone(s: System) {
    && (forall a, b :: a in s.phases && b in s.phases && a != b && Inside(s.phases[a]) && InsideSame(s, a, b) ==> !s.locking)
    && (s.locking ==> forall a :: NotYetInserted(s, a) ==> s.requests[a] !in s.keys)
    && (s.locking ==> forall a :: a in s.phases ==> !s.phases[a].Conflicted? && !s.phases[a].Rereading?)
  }

  predicate NotYetInserted(s: System, a: Session) {
    a in s.phases && a in s.requests && (s.phases[a].Looked? || s.phases[a].Drawn?) && s.requests[a].key != ""
  }

  lemma StepKeepsAlone(s: System, x: Action)
    requires Ok(s) && Alone(s) && Enabled(s, x)
    ensures Alone(Apply(s, x))
  {
    hide Ok, Apply, Enabled, Shut, SessionOk;
    var t := Apply(s, x);
    StepGrows(s, x);
    if s.locking {
      forall a, b | a in t.phases && b in t.phases && a != b && Inside(t.phases[a]) && InsideSame(t, a, b) ensures false {
        StaysAlone(s, x, a, b);
      }
      forall a | NotYetInserted(t, a) ensures t.requests[a] !in t.keys {
        StaysUnused(s, x, a);
      }
      forall a | a in t.phases ensures !t.phases[a].Conflicted? && !t.phases[a].Rereading? {
        NoConflict(s, x, a);
      }
    }
  }

  lemma StaysAlone(s: System, x: Action, a: Session, b: Session)
    requires Alone(s) && Enabled(s, x) && s.locking && a in s.phases && b in s.phases && a != b
    ensures var t := Apply(s, x); a in t.phases && !(Inside(t.phases[a]) && InsideSame(t, a, b))
  {
    var t := Apply(s, x);
    if Inside(t.phases[a]) && InsideSame(t, a, b) {
      if x.Open? && a == x.who {
        assert InsideSame(s, a, b);
      } else if x.Open? && b == x.who {
        assert InsideSame(s, b, a);
      } else {
        assert Inside(s.phases[a]) && InsideSame(s, a, b);
      }
    }
  }

  lemma StaysUnused(s: System, x: Action, a: Session)
    requires Alone(s) && Enabled(s, x) && s.locking && NotYetInserted(Apply(s, x), a)
    ensures Apply(s, x).requests[a] !in Apply(s, x).keys
  {
    var c := x.who;
    assert x.Lookup? || a != c || NotYetInserted(s, a);
    if x.Commit? && a != c {
      assert Inside(s.phases[c]) && Inside(s.phases[a]);
      if s.requests[a].namespace == s.requests[c].namespace { assert InsideSame(s, c, a); }
    }
  }

  lemma NoConflict(s: System, x: Action, a: Session)
    requires Alone(s) && Enabled(s, x) && s.locking && a in s.phases
    ensures a in Apply(s, x).phases && !Apply(s, x).phases[a].Conflicted? && !Apply(s, x).phases[a].Rereading?
  {
    assert x.InsertKey? && s.requests[x.who].key != "" ==> NotYetInserted(s, x.who);
  }

  lemma {:induction false} RunIsAlone(ss: seq<System>, xs: seq<Action>, k: nat)
    requires IsRun(ss, xs) && k <= |xs|
    ensures Alone(ss[k]) && ss[k].locking == ss[0].locking
  {
    hide Ok, Alone, Apply, Enabled, IsFresh;
    if k == 0 {
      FreshIsAlone(ss[0]);
    } else {
      RunIsAlone(ss, xs, k - 1);
      RunIsOk(ss, xs, k - 1);
      assert StepAt(ss, xs, k - 1);
      StepKeepsAlone(ss[k - 1], xs[k - 1]);
      StepGrows(ss[k - 1], xs[k - 1]);
    }
  }

  lemma FreshIsAlone(s: System)
    requires IsFresh(s)
    ensures Alone(s)
  {
  }

  /** As ensureNamespace locks the namespace row, the conflict branch is never taken at all. */
  lemma LockedStartsNeverConflict(ss: seq<System>, xs: seq<Action>, k: nat, a: Session)
    requires IsRun(ss, xs) && k <= |xs| && ss[0].locking && a in ss[k].phases
    ensures !ss[k].phases[a].Conflicted? && !ss[k].phases[a].Rereading?
  {
    RunIsAlone(ss, xs, k);
  }

  // ---------------------------------------------------------------- nobody waits for ever

  predicate Finished(p: Phase) {
    p.Answered? || p.Vanished?
  }

  lemma {:induction false} NewId(drawn: set<WorkflowId>) returns (w: WorkflowId)
    ensures forall v :: v in drawn ==> v < w
  {
    w := 0;
    if drawn != {} {
      var v :| v in drawn;
      var u := NewId(drawn - {v});
      w := if v < u then u else v + 1;
      forall x | x in drawn ensures x < w {
        assert x != v ==> x in drawn - {v};
      }
    }
  }

  lemma HolderCanCommit(s: System, b: Session, r: Request)
    requires Holds(s, b, r)
    ensures Enabled(s, Commit(b))
  {
  }

  /** A session inside its transaction can go on, or waits for one that can commit. */
  lemma InsiderCanGoOn(s: System, a: Session) returns (x: Action)
    requires a in s.phases && a in s.requests && Inside(s.phases[a])
    ensures Enabled(s, x) && !x.Fail?
  {
    match s.phases[a] {
      case Opened => x := Lookup(a);
      case Looked =>
        var w := NewId(s.drawn);
        x := Draw(a, w);
      case Drawn(_) =>
        if Blocked(s, a, s.requests[a]) {
          var b :| b != a && Holds(s, b, s.requests[a]);
          HolderCanCommit(s, b, s.requests[a]);
          x := Commit(b);
        } else {
          x := InsertKey(a);
        }
      case Owning(_) => x := Commit(a);
      case Conflicted => x := Rollback(a);
    }
  }

  /** There is no deadlock: while a call is unfinished, some session can take a step that is not a
      failure. */
  lemma NoDeadlock(ss: seq<System>, xs: seq<Action>, k: nat, a: Session) returns (x: Action)
    requires IsRun(ss, xs) && k <= |xs| && a in ss[k].phases && !Finished(ss[k].phases[a])
    ensures Enabled(ss[k], x) && !x.Fail?
  {
    RunIsOk(ss, xs, k);
    var s := ss[k];
    if Inside(s.phases[a]) {
      x := InsiderCanGoOn(s, a);
    } else if s.phases[a].Waiting? && Shut(s, a) {
      var b :| b != a && InsideSame(s, a, b);
      x := InsiderCanGoOn(s, b);
    } else {
      x := if s.phases[a].Waiting? then Open(a) else if s.phases[a].Rereading? then Reread(a) else Reply(a);
    }
  }
}
