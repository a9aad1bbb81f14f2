/** The moves of the lease machine as the writes that a back end makes for them: first the records,
    then the events. */
module Writes {
  import opened Invariants
  import opened Machine

  /** The records after a move about one activity, before anything is logged. */
  ghost function Rewritten(s: State, m: Move): State
    requires !m.Launch? && !m.Finish? && !m.Cancel? && Known(s, m.act)
  {
    var a := s.activities[m.act];
    var w := a.workflow;
    State(if m.Fail? || m.ReapFail? then s.workflows[w := s.workflows[w].(status := WorkflowFailed)] else s.workflows,
          s.activities[m.act := After(a, m, m.act)], s.events, s.nextEvent)
  }

  ghost function Written(s: State, m: Move): State
    requires !m.Launch? && !m.Finish? && !m.Cancel? && Known(s, m.act)
  {
    Emit(Rewritten(s, m), s.activities[m.act].workflow, Entries(m))
  }

  lemma MoveCore(s: State, m: Move)
    requires Enabled(s, m) && !m.Launch? && !m.Finish? && !m.Cancel?
    ensures Known(s, m.act) && Apply(s, m) == Written(s, m)
  {
    hide Emit;
    if m.Reject? {
      assert s.activities[m.act := s.activities[m.act]] == s.activities;
    }
  }

  lemma LaunchedCore(s: State, m: Move)
    requires m.Launch? && Enabled(s, m)
    ensures Apply(s, m)
            == Emit(s.(workflows := s.workflows[m.workflow := m.info], activities := AddRows(s.activities, m.rows)),
                    m.workflow, [Entry("", StartedEvent)] + ScheduledEntries(m.rows))
  {
  }

  lemma FinishedCore(s: State, at: Time, w: Id)
    requires Enabled(s, Finish(at, w))
    ensures Apply(s, Finish(at, w))
            == Emit(s.(workflows := s.workflows[w := s.workflows[w].(status := WorkflowCompleted)]), w,
                    [Entry("", FinishedEvent)])
  {
  }

  lemma CancelCore(s: State, m: Move)
    requires m.Cancel? && Enabled(s, m)
    ensures Apply(s, m)
            == Emit(s.(workflows := s.workflows[m.workflow := s.workflows[m.workflow].(status := WorkflowCancelled)],
                       activities := CancelPending(s.activities, m.workflow)),
                    m.workflow, CancelledEntries(m.order) + [Entry("", WorkflowCancelledEvent)])
  {
    hide Emit;
  }

  /** The rows put in and announced, after what s has logged. */
  ghost function WithRows(s: State, rows: seq<Row>, w: Id): State {
    Emit(s.(activities := AddRows(s.activities, rows)), w, ScheduledEntries(rows))
  }

  lemma NothingEmitted(s: State, w: Id)
    requires w in s.events
    ensures WithRows(s, [], w) == s
  {
    assert ScheduledEntries([]) == [] && Number(s.nextEvent, []) == [];
    assert s.events[w] + [] == s.events[w];
    assert s.events[w := s.events[w]] == s.events;
  }

  lemma OneMoreRow(s: State, rows: seq<Row>, k: nat, w: Id)
    requires k < |rows|
    ensures var t := WithRows(s, rows[..k], w);
            WithRows(s, rows[..k + 1], w)
            == Emit(t.(activities := t.activities[rows[k].id := rows[k].activity]), w, [Entry(rows[k].id, ScheduledEvent)])
  {
    hide Emit, AddRows, ScheduledEntries;
    var xs, y := ScheduledEntries(rows[..k]), Entry(rows[k].id, ScheduledEvent);
    OneMoreScheduled(s.activities, rows, k);
    var more := AddRows(s.activities, rows[..k + 1]);
    EmitLater(s.(activities := AddRows(s.activities, rows[..k])), w, xs, more);
    EmitTwice(s.(activities := more), w, xs, [y]);
  }

  lemma OneMoreScheduled(activities: map<Id, Activity>, rows: seq<Row>, k: nat)
    requires k < |rows|
    ensures ScheduledEntries(rows[..k + 1]) == ScheduledEntries(rows[..k]) + [Entry(rows[k].id, ScheduledEvent)]
    ensures AddRows(activities, rows[..k + 1]) == AddRows(activities, rows[..k])[rows[k].id := rows[k].activity]
  {
    assert rows[..k + 1][..k] == rows[..k];
  }

  /** Logging and changing records do not get in each other's way. */
  lemma EmitLater(s: State, w: Id, xs: seq<Entry>, activities: map<Id, Activity>)
    ensures Emit(s, w, xs).activities == s.activities
    ensures Emit(s, w, xs).(activities := activities) == Emit(s.(activities := activities), w, xs)
  {
  }

  lemma StartedThenScheduled(s: State, w: Id, rows: seq<Row>)
    ensures WithRows(Emit(s, w, [Entry("", StartedEvent)]), rows, w)
            == Emit(s.(activities := AddRows(s.activities, rows)), w, [Entry("", StartedEvent)] + ScheduledEntries(rows))
  {
    EmitTwice(s.(activities := AddRows(s.activities, rows)), w, [Entry("", StartedEvent)], ScheduledEntries(rows));
  }
}
