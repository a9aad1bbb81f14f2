/** Starts that the two back ends answer differently, each from states that both have reached. */
module Disagreements {
  import opened Clocks
  import opened Courses
  import opened EngineRuns
  import opened EngineSteps
  import opened Ids
  import opened Invariants
  import opened LostFinish
  import opened Machine
  import opened Postgres
  import opened Statements
  import opened Surprises
  import opened Tables
  import opened Transactions

  const KEY: string := "m\0k"

  function Stored(namespace: string): WorkflowDefinition {
    WorkflowDefinition("d", namespace, [ActivityDefinition("a", "default", [], 1, SECOND)])
  }

  /** A dependency listed twice. */
  function Twice(): WorkflowDefinition {
    WorkflowDefinition("d", "n", [ActivityDefinition("a", "", [], 1, 0), ActivityDefinition("b", "", ["a", "a"], 1, 0)])
  }

  /** A dependency on a name that is missing. */
  function Missing(): WorkflowDefinition {
    WorkflowDefinition("d", "n", [ActivityDefinition("a", "", ["b"], 1, 0)])
  }

  /** A dependency listed twice is accepted by the engine and breaks a primary key of the database. */
  lemma TwiceDiffers(e: EngineState, w: Id)
    requires IsNew(e)
    ensures EngineInv(e) && Refines(NO_ROWS, e.core)
    ensures StartAnswerOf(e, Twice(), "").Started? && StartReplyOf(NO_ROWS, Twice(), "", w) == KeyViolation
  {
    hide EngineInv, Refines;
    NewIsFine(e);
    NoRowsRefineEmpty();
    var def := Twice();
    assert def.activities[0].name == "a";
    assert HasName(def, "a");
    assert HasRepeat(def.activities[1].dependsOn) by {
      assert def.activities[1].dependsOn[0] == def.activities[1].dependsOn[1];
    }
  }

  /** Both back ends have started the same workflow under the same key. */
  ghost predicate BothHave(e: EngineState, d: Rows, namespace: string, key: string, w: Id) {
    && key != "" && Join(namespace, key) in e.index && e.index[Join(namespace, key)] == w
    && d.keys == map[Key(namespace, key) := w]
  }

  /** Then repeating the start with a definition that is not valid is a duplicate for the engine, and invalid
      for the database. */
  lemma InvalidDiffers(e: EngineState, d: Rows, w: Id, v: Id)
    requires BothHave(e, d, "n", KEY, w)
    ensures StartAnswerOf(e, Missing(), KEY) == Duplicate(w) && StartReplyOf(d, Missing(), KEY, v) == Invalid
  {
    hide Join;
    assert "b" in Missing().activities[0].dependsOn && !HasName(Missing(), "b");
    assert !ValidDependencies(Missing());
  }

  /** And a start in another namespace, whose joined key is the same, is a duplicate for the engine, and
      begins a workflow of its own in the database. */
  lemma ClashDiffers(e: EngineState, d: Rows, w: Id, v: Id)
    requires BothHave(e, d, "n", KEY, w)
    ensures var def, key := Stored("n\0m"), "k";
            StartAnswerOf(e, def, key) == Duplicate(w) && StartReplyOf(d, def, key, v) == Begun(v)
  {
    assert Join("n\0m", "k") == Join("n", KEY);
    assert |"n\0m"| == 3 && |"n"| == 1;
  }

  lemma SameLaunch(e: EngineState, now: Time)
    requires IsNew(e) && e.maxAttempts == 3
    ensures LaunchMove(e, Stored("n"), KEY, now)
            == BeginMove(Stored("n"), KEY, WorkflowId(1), [ActivityId(1)], now, 3)
  {
    hide ActivityId, WorkflowId;
    var m, b := LaunchMove(e, Stored("n"), KEY, now), BeginMove(Stored("n"), KEY, WorkflowId(1), [ActivityId(1)], now, 3);
    assert m.rows[0] == b.rows[0];
    assert m.rows == b.rows;
  }

  lemma StartedAlike(e: EngineState, w: Id)
    requires IsNew(e)
    ensures StartAnswerOf(e, Stored("n"), KEY).Started? && StartReplyOf(NO_ROWS, Stored("n"), KEY, w) == Begun(w)
  {
    hide Join;
  }

  /** Both back ends come to such states by the same start at the same time. */
  method SameStart(clock: Clock, ghost e: EngineState) returns (p: Postgres, ghost x: Course)
    requires clock.steady && clock.last > 0 && IsNew(e) && e.maxAttempts == 3
    modifies clock
    ensures fresh(p) && p.Valid() && IsRunOf(x, e) && EngineInv(End(x)) && Refines(p.Stored(), End(x).core)
    ensures BothHave(End(x), p.Stored(), "n", KEY, WorkflowId(1))
  {
    hide Refines, Inv, Enabled, Apply, Leads, BeginMove, StartReplyOf, Committed, EngineInv, IsStretch, WorkflowId, ActivityId,
      Join, LaunchMove, IsRunOf;
    p := new Postgres(0, 0, clock);
    ghost var s := p.core;
    NothingYet(s);
    StartedAlike(e, WorkflowId(1));
    var reply := p.Start(Stored("n"), KEY, WorkflowId(1), [ActivityId(1)]);
    ghost var m := BeginMove(Stored("n"), KEY, WorkflowId(1), [ActivityId(1)], clock.last, 3);
    OnlyMove(s, [], p.core, p.moves, m);
    SameLaunch(e, clock.last);
    x := Begin(e, Stored("n"), KEY, clock.last);
    EndInv(x);
    NewRun(x, e);
    OneKey(p.Stored(), p.core, m, clock.last);
  }

  /** The rows file the one workflow that was started. */
  lemma OneKey(d: Rows, s: State, m: Move, now: Time)
    requires m == BeginMove(Stored("n"), KEY, WorkflowId(1), [ActivityId(1)], now, 3)
    requires Enabled(EMPTY, m) && s == Apply(EMPTY, m) && Refines(d, s)
    ensures d.keys == map[Key("n", KEY) := WorkflowId(1)]
  {
    hide Apply, Enabled, WorkflowId, ActivityId, Tables.SameActivities, SameEvents;
    LaunchGrows(EMPTY, m);
    var w := WorkflowId(1);
    assert s.workflows == map[w := Workflow("n", "d", KEY, WorkflowRunning)];
    assert KeyOf(s.workflows[w]) == Key("n", KEY);
    forall k | k in d.keys ensures k == Key("n", KEY) && d.keys[k] == w {
    }
  }
}
