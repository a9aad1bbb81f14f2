/** The closed system of the database, the workers and unreliable messages.  Each transaction is a stretch of
    a run of the lease machine; the claims in it hand out grants, the messages in it were sent by workers. */
module StoreWorld {
  import opened Invariants
  import opened Machine
  import opened Runs
  import opened Transactions
  import opened Worker

  datatype Store = Store(core: State, granted: set<Grant>, inFlight: set<Grant>, ended: map<Grant, Outcome>)

  datatype Happening = Transact(moves: seq<Move>) | Finishes(grant: Grant, outcome: Outcome) | Loses(grant: Grant)

  /** Every move of a message is one that the worker of some grant had reason to send: a heartbeat while its
      handler runs, afterwards a completion or a failure, by how the handler ended.  A message may arrive
      any number of times from then on. */
  ghost predicate Justified(w: Store, m: Move) {
    match m
    case Heartbeat(_, i, worker, token, _) => token >= 0 && Grant(worker, i, token) in w.granted
    case Complete(_, i, worker, token) => token >= 0 && Ended(w, Grant(worker, i, token), {Succeeded})
    case Retry(_, i, worker, token, _) => token >= 0 && Ended(w, Grant(worker, i, token), {NoHandler, Errored})
    case Fail(_, i, worker, token) => token >= 0 && Ended(w, Grant(worker, i, token), {NoHandler, Errored})
    case _ => true
  }

  ghost predicate Ended(w: Store, g: Grant, outcomes: set<Outcome>) {
    g in w.ended && w.ended[g] in outcomes
  }

  /** What the transaction hands out. */
  ghost function GrantsOf(s: State, ms: seq<Move>): set<Grant> {
    if |ms| == 1 && ms[0].Claim? && ms[0].act in s.activities then
      {Grant(ms[0].worker, ms[0].act, s.activities[ms[0].act].fencingToken + 1)}
    else {}
  }

  ghost predicate Passes(w: Store, x: Happening, w': Store) {
    match x
    case Transact(ms) =>
      && Transaction(w.core, ms, w'.core) && (forall k :: 0 <= k < |ms| ==> Justified(w, ms[k]))
      && (forall k :: 0 <= k < |ms| && ms[k].Claim? ==> |ms| == 1)
      && w' == Store(w'.core, w.granted + GrantsOf(w.core, ms), w.inFlight + GrantsOf(w.core, ms), w.ended)
    case Finishes(g, outcome) =>
      g in w.inFlight && w' == w.(inFlight := w.inFlight - {g}, ended := w.ended[g := outcome])
    case Loses(g) => g in w.inFlight && w' == w.(inFlight := w.inFlight - {g})
  }

  ghost predicate IsStoreRun(ws: seq<Store>, xs: seq<Happening>) {
    && |ws| == |xs| + 1 && ws[0] == Store(EMPTY, {}, {}, map[])
    && forall k :: 0 <= k < |xs| ==> Passes(ws[k], xs[k], ws[k + 1])
  }

  // ---------------------------------------------------------------- what everything that happens keeps

  /** A handler succeeded under the grant whose token the record bears. */
  ghost predicate Handled(w: Store, i: Id)
    requires i in w.core.activities
  {
    exists g :: g in w.ended && g.act == i && g.token == w.core.activities[i].fencingToken && w.ended[g] == Succeeded
  }

  ghost predicate GrantsOk(w: Store) {
    && (forall g :: g in w.granted ==>
          g.act in w.core.activities && g.token <= w.core.activities[g.act].fencingToken)
    && (forall g, h :: g in w.granted && h in w.granted && g.act == h.act && g.token == h.token ==> g == h)
    && w.inFlight <= w.granted && w.ended.Keys <= w.granted && w.inFlight !! w.ended.Keys
  }

  ghost predicate StoreOk(w: Store) {
    && GrantsOk(w)
    && (forall i :: i in w.core.activities && w.core.activities[i].status == Completed ==> Handled(w, i))
  }

  /** What is completed after a run was completed before, or by a completion under the token it bears. */
  lemma {:induction false} CompletedInside(ss: seq<State>, ms: seq<Move>, i: Id, k: nat)
    requires IsRun(ss, ms) && k <= |ms| && i in ss[k].activities && ss[k].activities[i].status == Completed
    ensures (i in ss[0].activities && ss[0].activities[i] == ss[k].activities[i])
            || CompletedBy(ms, i, ss[k].activities[i].fencingToken)
  {
    hide Apply, Enabled;
    if 0 < k {
      var s, m := ss[k - 1], ms[k - 1];
      assert StepAt(ss, ms, k - 1);
      CompletedBefore(s, m, i);
      if !(m.Complete? && m.act == i) { CompletedInside(ss, ms, i, k - 1); }
    }
  }

  ghost predicate CompletedBy(ms: seq<Move>, i: Id, token: int) {
    exists l :: 0 <= l < |ms| && ms[l].Complete? && ms[l].act == i && ms[l].token == token
  }

  lemma TokensOnlyGrow(s: State, ms: seq<Move>, t: State, i: Id)
    requires Leads(s, ms, t) && i in s.activities
    ensures i in t.activities && s.activities[i].fencingToken <= t.activities[i].fencingToken
  {
    var ss :| IsRun(ss, ms) && ss[0] == s && ss[|ms|] == t;
    TokensGrow(ss, ms, i, 0, |ms|);
  }

  /** A transaction that claims hands out a token that the activity never had. */
  lemma ClaimedAnew(s: State, ms: seq<Move>, t: State, g: Grant)
    requires Leads(s, ms, t) && g in GrantsOf(s, ms)
    ensures g.act in s.activities && s.activities[g.act].fencingToken < g.token
    ensures g.act in t.activities && t.activities[g.act].fencingToken == g.token
  {
    hide Apply, Enabled;
    var ss :| IsRun(ss, ms) && ss[0] == s && ss[|ms|] == t;
    assert StepAt(ss, ms, 0);
    LeaseEffect(s, ms[0], g.act);
  }

  lemma GrantsStayOk(w: Store, ms: seq<Move>, w': Store)
    requires GrantsOk(w) && Passes(w, Transact(ms), w')
    ensures GrantsOk(w')
  {
    hide Leads, FinishesOwn;
    forall g | g in w'.granted
      ensures g.act in w'.core.activities && g.token <= w'.core.activities[g.act].fencingToken
      ensures g in w.granted || (g.act in w.core.activities && w.core.activities[g.act].fencingToken < g.token)
    {
      if g in w.granted {
        TokensOnlyGrow(w.core, ms, w'.core, g.act);
      } else {
        ClaimedAnew(w.core, ms, w'.core, g);
      }
    }
  }

  lemma CompletionsStayOk(w: Store, ms: seq<Move>, w': Store, i: Id)
    requires StoreOk(w) && Passes(w, Transact(ms), w')
    requires i in w'.core.activities && w'.core.activities[i].status == Completed
    ensures Handled(w', i)
  {
    hide GrantsOk, FinishesOwn;
    var ss :| IsRun(ss, ms) && ss[0] == w.core && ss[|ms|] == w'.core;
    CompletedInside(ss, ms, i, |ms|);
    var token := w'.core.activities[i].fencingToken;
    if CompletedBy(ms, i, token) {
      var l :| 0 <= l < |ms| && ms[l].Complete? && ms[l].act == i && ms[l].token == token;
      assert Justified(w, ms[l]);
      assert Grant(ms[l].worker, i, token) in w'.ended;
    } else {
      assert Handled(w, i);
    }
  }

  lemma PassesOk(w: Store, x: Happening, w': Store)
    requires StoreOk(w) && Passes(w, x, w')
    ensures StoreOk(w')
  {
    if x.Transact? {
      GrantsStayOk(w, x.moves, w');
      forall i | i in w'.core.activities && w'.core.activities[i].status == Completed ensures Handled(w', i) {
        CompletionsStayOk(w, x.moves, w', i);
      }
    } else {
      forall i | i in w'.core.activities && w'.core.activities[i].status == Completed ensures Handled(w', i) {
        StillHandled(w, x, w', i);
      }
    }
  }

  /** A grant whose handler has ended is not in flight, so its outcome stays. */
  lemma StillHandled(w: Store, x: Happening, w': Store, i: Id)
    requires StoreOk(w) && Passes(w, x, w') && !x.Transact? && i in w.core.activities && Handled(w, i)
    ensures i in w'.core.activities && Handled(w', i)
  {
    var g :| g in w.ended && g.act == i && g.token == w.core.activities[i].fencingToken && w.ended[g] == Succeeded;
    assert g in w'.ended;
  }

  lemma {:induction false} StoreRunOk(ws: seq<Store>, xs: seq<Happening>, k: nat)
    requires IsStoreRun(ws, xs) && k <= |xs|
    ensures StoreOk(ws[k])
  {
    hide StoreOk, Passes;
    if k == 0 {
      NewStoreOk();
    } else {
      StoreRunOk(ws, xs, k - 1);
      PassesOk(ws[k - 1], xs[k - 1], ws[k]);
    }
  }

  lemma NewStoreOk()
    ensures StoreOk(Store(EMPTY, {}, {}, map[]))
  {
  }

  // ---------------------------------------------------------------- the theorems

  /** In the database too: whatever crashes, is lost, delayed or repeated, an activity is completed only if
      a handler returned without error under the grant whose token the row bears. */
  lemma CompletedMeansHandled(ws: seq<Store>, xs: seq<Happening>, k: nat, i: Id)
    requires IsStoreRun(ws, xs) && k <= |xs|
    requires i in ws[k].core.activities && ws[k].core.activities[i].status == Completed
    ensures Handled(ws[k], i)
  {
    StoreRunOk(ws, xs, k);
  }

  lemma OneHolderPerToken(ws: seq<Store>, xs: seq<Happening>, k: nat, g: Grant, h: Grant)
    requires IsStoreRun(ws, xs) && k <= |xs| && g in ws[k].granted && h in ws[k].granted
    requires g.act == h.act && g.token == h.token
    ensures g == h
  {
    StoreRunOk(ws, xs, k);
  }
}
