/** The engine together with its workers.  A worker claims, runs the handler and sends one message about
    the outcome; it may crash or pause at any point, and its message may be lost, delayed, reordered or
    delivered several times. */
module Worker {
  import opened Clocks
  import opened EngineRuns
  import opened EngineSteps
  import opened Ids
  import opened Invariants
  import opened Machine
  import Engine

  /** What a claim hands to a worker. */
  datatype Grant = Grant(worker: string, act: Id, token: nat)

  /** How the handler of a claimed activity ends. */
  datatype Outcome = NoHandler | Succeeded | Errored

  /** The call that a worker makes about an outcome. */
  predicate Reports(c: Call, g: Grant, outcome: Outcome) {
    match outcome
    case Succeeded => c.CompletingCall? && c.act == g.act && c.worker == g.worker && c.token == g.token
    case NoHandler => c.FailingCall? && c.act == g.act && c.worker == g.worker && c.token == g.token && !c.retryable
    case Errored => c.FailingCall? && c.act == g.act && c.worker == g.worker && c.token == g.token && c.retryable
  }

  // ---------------------------------------------------------------- the closed system

  /** ended tells how the handler of a grant ended, if it did; the message about it can arrive from then
      on, any number of times. */
  datatype World = World(
    engine: EngineState,
    limits: map<string, nat>,
    granted: set<Grant>,
    inFlight: set<Grant>,
    ended: map<Grant, Outcome>)

  datatype Event =
    | Polls(worker: string, queue: string, now: Time)
    | Ends(grant: Grant, outcome: Outcome)
    | Crashes(grant: Grant)
    | Arrives(grant: Grant, call: Call)
    | Other(call: Call)

  function InFlightOf(w: World, worker: string): set<Grant> {
    set g | g in w.inFlight && g.worker == worker
  }

  /** What the engine is asked, if the event asks it anything. */
  function Asked(x: Event): seq<Call> {
    match x
    case Polls(worker, queue, now) => [ClaimingCall(worker, queue, now)]
    case Arrives(_, c) => [c]
    case Other(c) => [c]
    case Ends(_, _) => []
    case Crashes(_) => []
  }

  ghost predicate Happens(w: World, x: Event, lo: Time, hi: Time) {
    && (forall c :: c in Asked(x) ==> Timely(w.engine, c, lo, hi))
    && match x
       case Polls(worker, _, _) => worker in w.limits && |InFlightOf(w, worker)| < w.limits[worker]
       case Ends(g, _) => g in w.inFlight
       case Crashes(g) => g in w.inFlight
       case Arrives(g, c) => g in w.ended && Reports(c, g, w.ended[g])
       case Other(c) => c.StartingCall? || c.CancellingCall? || c.PassingCall?
  }

  ghost function EngineAfter(w: World, x: Event, lo: Time, hi: Time): EngineState
    requires EngineInv(w.engine) && Happens(w, x, lo, hi)
  {
    if Asked(x) == [] then w.engine
    else
      assert Asked(x)[0] in Asked(x);
      Step(w.engine, Asked(x)[0])
  }

  ghost function NewGrants(w: World, x: Event): set<Grant> {
    if !x.Polls? then {}
    else
      match ClaimAnswerOf(w.engine, x.queue)
      case NothingReady => {}
      case Granted(i, token) => {Grant(x.worker, i, token)}
  }

  ghost function Next(w: World, x: Event, lo: Time, hi: Time): World
    requires EngineInv(w.engine) && Happens(w, x, lo, hi)
  {
    w.(engine := EngineAfter(w, x, lo, hi),
       granted := w.granted + NewGrants(w, x),
       inFlight := if x.Ends? || x.Crashes? then w.inFlight - {x.grant} else w.inFlight + NewGrants(w, x),
       ended := if x.Ends? then w.ended[x.grant := x.outcome] else w.ended)
  }

  ghost predicate IsWorldRun(ws: seq<World>, xs: seq<Event>, clock: seq<Time>) {
    && |ws| == |xs| + 1 == |clock| && IsNew(ws[0].engine)
    && ws[0].granted == {} && ws[0].inFlight == {} && ws[0].ended == map[]
    && forall k :: 0 <= k < |xs| ==> EventAt(ws, xs, clock, k)
  }

  ghost predicate EventAt(ws: seq<World>, xs: seq<Event>, clock: seq<Time>, k: nat)
    requires |ws| == |xs| + 1 == |clock| && k < |xs|
  {
    Happens(ws[k], xs[k], clock[k], clock[k + 1])
    && (EngineInv(ws[k].engine) ==> ws[k + 1] == Next(ws[k], xs[k], clock[k], clock[k + 1]))
  }

  // ---------------------------------------------------------------- one worker process

  const DEFAULT_POLL: Time := 250_000_000

  /** What can go wrong between a worker and its backend: the call does not arrive, or its answer does
      not. */
  datatype Fault = Delivered | CallLost | AnswerLost

  /** How a turn of the loop ends; Broken makes Run return the error. */
  datatype Turned = Rests(time: Time) | Spawned(grant: Grant) | Broken

  /** The events xs, one after the other, make w' of w. */
  ghost predicate Passes(w: World, xs: seq<Event>, w': World, lo: Time, hi: Time)
    decreases |xs|
  {
    if xs == [] then w' == w
    else EngineInv(w.engine) && Happens(w, xs[0], lo, hi) && Passes(Next(w, xs[0], lo, hi), xs[1..], w', lo, hi)
  }

  class Runtime {
    const backend: Engine.Engine
    const workerID: string
    const taskQueue: string
    const handlers: set<string>
    var concurrency: int
    var pollInterval: Time
    /** The grants whose handlers are running, with the names of their activities. */
    var inFlight: map<Grant, string>

    constructor (backend: Engine.Engine, workerID: string, taskQueue: string, handlers: set<string>,
                 concurrency: int, pollInterval: Time)
      ensures this.backend == backend && this.workerID == workerID && this.taskQueue == taskQueue
      ensures this.handlers == handlers && this.concurrency == concurrency && this.pollInterval == pollInterval
      ensures inFlight == map[]
    {
      this.backend, this.workerID, this.taskQueue, this.handlers := backend, workerID, taskQueue, handlers;
      this.concurrency, this.pollInterval, this.inFlight := concurrency, pollInterval, map[];
    }

    /** The semaphore has one slot per handler in flight. */
    ghost predicate Ready()
      reads this
    {
      concurrency > 0 && pollInterval > 0 && |inFlight.Keys| <= concurrency
    }

    /** This worker and its backend, as part of the closed system w. */
    ghost predicate PartOf(w: World)
      reads this, backend
    {
      && WorldOk(w) && w.engine == backend.Snapshot()
      && workerID in w.limits && w.limits[workerID] == concurrency && InFlightOf(w, workerID) == inFlight.Keys
      && forall g :: g in inFlight ==> g.act in backend.activities && inFlight[g] == backend.activities[g.act].name
    }

    /** The defaults that Run sets before it enters its loop. */
    method Prepare()
      requires inFlight == map[]
      modifies this`concurrency, this`pollInterval
      ensures Ready()
      ensures concurrency == if old(concurrency) <= 0 then 1 else old(concurrency)
      ensures pollInterval == if old(pollInterval) <= 0 then 250_000_000 else old(pollInterval)
    {
      if concurrency <= 0 {
        concurrency := 1;
      }
      if pollInterval <= 0 {
        pollInterval := DEFAULT_POLL;
      }
    }

    /** One turn of the loop, taken when a slot of the semaphore is free: claim, and start the handler if
        something was granted.  In the closed system this is a poll; a grant whose answer is lost is one
        whose worker has crashed. */
    method Turn(fault: Fault, ghost w: World) returns (turned: Turned, ghost xs: seq<Event>, ghost w': World)
      requires Ready() && |inFlight.Keys| < concurrency && backend.Valid() && PartOf(w)
      modifies this`inFlight, backend, backend.clock
      ensures Ready() && backend.Valid() && PartOf(w')
      ensures Passes(w, xs, w', backend.clock.From(old(backend.clock.last)), backend.clock.To())
      ensures fault.CallLost? ==> xs == [] && turned.Broken?
      ensures !fault.CallLost? ==> |xs| >= 1 && xs[0].Polls? && xs[0].worker == workerID && xs[0].queue == taskQueue
      ensures var answer := ClaimAnswerOf(w.engine, taskQueue);
        && (fault.Delivered? && answer.NothingReady? ==> |xs| == 1 && turned == Rests(pollInterval))
        && (fault.Delivered? && answer.Granted? ==>
              |xs| == 1 && turned == Spawned(Grant(workerID, answer.activity, answer.token)))
        && (fault.AnswerLost? && answer.Granted? ==>
              turned.Broken? && |xs| == 2 && xs[1] == Crashes(Grant(workerID, answer.activity, answer.token)))
        && (fault.AnswerLost? && answer.NothingReady? ==> turned.Broken? && |xs| == 1)
      ensures if turned.Spawned? then
                && turned.grant !in old(inFlight) && turned.grant.act in backend.activities
                && inFlight == old(inFlight)[turned.grant := backend.activities[turned.grant.act].name]
              else inFlight == old(inFlight)
    {
      hide WorldOk, EngineInv, Step, Timely, ClaimAnswerOf, Passes, InFlightOf;
      ghost var lo := backend.clock.From(backend.clock.last);
      if fault.CallLost? {
        assert Passes(w, [], w, lo, backend.clock.To()) by { NothingPasses(w, lo, backend.clock.To()); }
        return Broken, [], w;
      }
      var answer, receipt;
      answer, receipt, xs, w' := Ask(fault.AnswerLost?, w);
      if fault.AnswerLost? {
        return Broken, xs, w';
      }
      if answer.NothingReady? {
        return Rests(pollInterval), xs, w';
      }
      var g := Grant(workerID, receipt.activity, receipt.token);
      Spawn(g, receipt.name, w');
      turned := Spawned(g);
    }

    /** The handler of the named activity runs for g, in a slot that is free. */
    method Spawn(g: Grant, name: string, ghost w: World)
      requires Ready() && |inFlight.Keys| < concurrency && g !in inFlight
      requires g.act in backend.activities && name == backend.activities[g.act].name
      requires WorldOk(w) && w.engine == backend.Snapshot() && workerID in w.limits && w.limits[workerID] == concurrency
      requires InFlightOf(w, workerID) == inFlight.Keys + {g}
      requires forall h :: h in inFlight ==> h.act in backend.activities && inFlight[h] == backend.activities[h.act].name
      modifies this`inFlight
      ensures Ready() && PartOf(w) && inFlight == old(inFlight)[g := name]
    {
      hide WorldOk, InFlightOf;
      assert inFlight[g := name].Keys == inFlight.Keys + {g};
      inFlight := inFlight[g := name];
    }

    /** The call of a turn, as a poll of the closed system; lost says that its answer does not arrive. */
    method Ask(ghost lost: bool, ghost w: World)
      returns (answer: ClaimAnswer, receipt: Receipt, ghost xs: seq<Event>, ghost w': World)
      requires |inFlight.Keys| < concurrency && backend.Valid() && PartOf(w)
      modifies backend, backend.clock
      ensures backend.Valid() && WorldOk(w') && w'.engine == backend.Snapshot() && w'.limits == w.limits
      ensures Passes(w, xs, w', backend.clock.From(old(backend.clock.last)), backend.clock.To())
      ensures answer == ClaimAnswerOf(w.engine, taskQueue)
      ensures |xs| >= 1 && xs[0].Polls? && xs[0].worker == workerID && xs[0].queue == taskQueue
      ensures answer.Granted? ==>
        && answer.activity in backend.activities && receipt.activity == answer.activity
        && receipt.token == answer.token && receipt.name == backend.activities[answer.activity].name
        && Grant(workerID, answer.activity, answer.token) !in inFlight
      ensures if answer.Granted? && lost then |xs| == 2 && xs[1] == Crashes(Grant(workerID, answer.activity, answer.token))
              else |xs| == 1
      ensures InFlightOf(w', workerID) == inFlight.Keys
                + (if answer.Granted? && !lost then {Grant(workerID, answer.activity, answer.token)} else {})
      ensures forall i :: i in old(backend.activities) ==>
        i in backend.activities && backend.activities[i].name == old(backend.activities)[i].name
    {
      hide WorldOk, EngineInv, Step, Timely, ClaimAnswerOf, Passes, InFlightOf;
      ghost var lo := backend.clock.From(backend.clock.last);
      ghost var c;
      answer, receipt, c := backend.Claim(workerID, taskQueue);
      NamesKept(w.engine, c, lo, backend.clock.To());
      xs, w' := PollPasses(w, workerID, taskQueue, c.now, lo, backend.clock.To(), lost);
    }

    /** The message about g. */
    method Send(g: Grant, failed: bool) returns (ghost c: Call)
      requires g in inFlight && backend.Valid()
      modifies backend, backend.clock
      ensures backend.Valid()
      ensures backend.Made(old(backend.Snapshot()), c, backend.clock.From(old(backend.clock.last)), backend.clock.To())
      ensures IsMessage(c) && c.act == g.act && c.worker == workerID && c.token == g.token
      ensures if inFlight[g] !in handlers then c.FailingCall? && !c.retryable
              else if failed then c.FailingCall? && c.retryable
              else c.CompletingCall?
    {
      hide EngineInv, Step, Timely, ClaimAnswerOf, MessageAnswer;
      var answer;
      if inFlight[g] !in handlers {
        answer, c := backend.Fail(g.act, workerID, g.token, false);
      } else if failed {
        answer, c := backend.Fail(g.act, workerID, g.token, true);
      } else {
        answer, c := backend.Complete(g.act, workerID, g.token);
      }
    }

    /** The end of the handler and the message about it, as events of the closed system. */
    method Tell(g: Grant, failed: bool, ghost outcome: Outcome, ghost w: World) returns (ghost xs: seq<Event>, ghost w': World)
      requires g in inFlight && g in InFlightOf(w, workerID) && backend.Valid() && WorldOk(w) && w.engine == backend.Snapshot()
      requires outcome == if inFlight[g] !in handlers then NoHandler else if failed then Errored else Succeeded
      modifies backend, backend.clock
      ensures backend.Valid() && WorldOk(w') && w'.engine == backend.Snapshot() && w'.limits == w.limits
      ensures Passes(w, xs, w', backend.clock.From(old(backend.clock.last)), backend.clock.To())
      ensures InFlightOf(w', workerID) == InFlightOf(w, workerID) - {g}
      ensures |xs| == 2 && xs[0] == Ends(g, outcome) && xs[1].Arrives? && xs[1].grant == g
      ensures |xs| == 2 && xs[1].Arrives? && var c := xs[1].call;
        && IsMessage(c) && c.act == g.act && c.worker == workerID && c.token == g.token
        && (if outcome.Succeeded? then c.CompletingCall? else c.FailingCall? && c.retryable == outcome.Errored?)
      ensures forall i :: i in old(backend.activities) ==>
        i in backend.activities && backend.activities[i].name == old(backend.activities)[i].name
    {
      hide WorldOk, EngineInv, Step, Timely, Passes, InFlightOf;
      ghost var lo := backend.clock.From(backend.clock.last);
      InFlightIsOf(w, workerID, g);
      ghost var c := Send(g, failed);
      NamesKept(w.engine, c, lo, backend.clock.To());
      xs, w' := ReportPasses(w, workerID, g, outcome, c, lo, backend.clock.To());
    }

    /** The handler of g has ended, with or without an error, or there is none for its activity.  One
        message is sent about it, which may get lost. */
    method Execute(g: Grant, failed: bool, fault: Fault, ghost w: World)
      returns (ghost outcome: Outcome, ghost xs: seq<Event>, ghost w': World)
      requires Ready() && g in inFlight && backend.Valid() && PartOf(w)
      modifies this`inFlight, backend, backend.clock
      ensures Ready() && backend.Valid() && PartOf(w') && inFlight == old(inFlight) - {g}
      ensures g.act in old(backend.activities) && old(inFlight)[g] == old(backend.activities)[g.act].name
      ensures outcome == if old(backend.activities)[g.act].name !in handlers then NoHandler
                         else if failed then Errored else Succeeded
      ensures Passes(w, xs, w', backend.clock.From(old(backend.clock.last)), backend.clock.To())
      ensures fault.CallLost? ==> xs == [Ends(g, outcome)]
      ensures !fault.CallLost? ==>
        && |xs| == 2 && xs[0] == Ends(g, outcome) && xs[1].Arrives? && xs[1].grant == g
        && var c := xs[1].call;
           && IsMessage(c) && c.act == g.act && c.worker == workerID && c.token == g.token
           && (if outcome.Succeeded? then c.CompletingCall? else c.FailingCall? && c.retryable == outcome.Errored?)
    {
      hide WorldOk, EngineInv, Step, Timely, Passes, InFlightOf;
      ghost var lo := backend.clock.From(backend.clock.last);
      outcome := if inFlight[g] !in handlers then NoHandler else if failed then Errored else Succeeded;
      InFlightIsOf(w, workerID, g);
      if fault.CallLost? {
        xs, w' := EndPasses(w, workerID, g, outcome, lo, backend.clock.To());
        Fewer(inFlight.Keys, g);
        inFlight := inFlight - {g};
        return;
      }
      xs, w' := Tell(g, failed, outcome, w);
      Fewer(inFlight.Keys, g);
      inFlight := inFlight - {g};
    }
  }

  /** An activity never changes its name. */
  lemma NamesKept(e: EngineState, c: Call, lo: Time, hi: Time)
    requires EngineInv(e) && Timely(e, c, lo, hi)
    ensures forall i :: i in e.core.activities ==>
      i in Step(e, c).core.activities && Step(e, c).core.activities[i].name == e.core.activities[i].name
  {
    hide EngineInv, Inv, Evolves, Step, Timely, Leads, Within;
    InvOf(e);
    var ms := StepLeads(e, c, lo, hi);
    LeadsKeepsInv(e.core, ms, Step(e, c).core);
    EvolvesKeepsNames(e.core, Step(e, c).core);
  }

  lemma EvolvesKeepsNames(s: State, t: State)
    requires Evolves(s, t)
    ensures forall i :: i in s.activities ==> i in t.activities && t.activities[i].name == s.activities[i].name
  {
  }

  lemma NothingPasses(w: World, lo: Time, hi: Time)
    ensures Passes(w, [], w, lo, hi)
  {
  }

  lemma OneMorePasses(w: World, x: Event, xs: seq<Event>, w': World, lo: Time, hi: Time)
    requires EngineInv(w.engine) && Happens(w, x, lo, hi) && Passes(Next(w, x, lo, hi), xs, w', lo, hi)
    ensures Passes(w, [x] + xs, w', lo, hi)
  {
    hide EngineInv, Happens, Next;
    assert ([x] + xs)[1..] == xs;
  }

  lemma Fewer(xs: set<Grant>, g: Grant)
    ensures |xs - {g}| <= |xs|
  {
    if g in xs {} else { assert xs - {g} == xs; }
  }

  lemma InFlightIsOf(w: World, worker: string, g: Grant)
    ensures g in InFlightOf(w, worker) ==> g in w.inFlight && g.worker == worker
  {
  }

  lemma EngineOf(w: World)
    requires WorldOk(w)
    ensures EngineInv(w.engine)
  {
  }

  /** One event keeps what holds of the closed system. */
  lemma NextOk(w: World, x: Event, lo: Time, hi: Time)
    requires WorldOk(w) && Happens(w, x, lo, hi)
    ensures EngineInv(w.engine) && WorldOk(Next(w, x, lo, hi))
  {
    GrantsStayOk(w, x, lo, hi);
    CompletionsStayOk(w, x, lo, hi);
    LimitsStayOk(w, x, lo, hi);
    NextEngine(w, x, lo, hi);
  }

  /** A claim with a free slot is a poll of the closed system; if its answer is lost, a crash follows. */
  lemma PollPasses(w: World, worker: string, queue: string, now: Time, lo: Time, hi: Time, lost: bool)
    returns (xs: seq<Event>, w': World)
    requires WorldOk(w) && worker in w.limits && |InFlightOf(w, worker)| < w.limits[worker]
    requires Timely(w.engine, ClaimingCall(worker, queue, now), lo, hi)
    ensures EngineInv(w.engine) && WorldOk(w') && Passes(w, xs, w', lo, hi)
    ensures w'.engine == Step(w.engine, ClaimingCall(worker, queue, now)) && w'.limits == w.limits
    ensures |xs| >= 1 && xs[0] == Polls(worker, queue, now)
    ensures var answer := ClaimAnswerOf(w.engine, queue);
      && (answer.Granted? ==> Grant(worker, answer.activity, answer.token) !in InFlightOf(w, worker))
      && InFlightOf(w', worker) == InFlightOf(w, worker)
           + (if answer.Granted? && !lost then {Grant(worker, answer.activity, answer.token)} else {})
      && (if answer.Granted? && lost then |xs| == 2 && xs[1] == Crashes(Grant(worker, answer.activity, answer.token))
          else |xs| == 1)
  {
    hide WorldOk, EngineInv, Step, Timely, ClaimAnswerOf, Happens, Next, InFlightOf, NewGrants, Passes;
    var answer, x := ClaimAnswerOf(w.engine, queue), Polls(worker, queue, now);
    EngineOf(w);
    PollHappens(w, x, lo, hi, answer);
    NextOk(w, x, lo, hi);
    var u := Next(w, x, lo, hi);
    if answer.Granted? {
      var g := Grant(worker, answer.activity, answer.token);
      GrantNotHeld(w, x, lo, hi, g);
      if lost {
        CrashHappens(w, x, u, lo, hi, g);
        NextOk(u, Crashes(g), lo, hi);
        w' := Next(u, Crashes(g), lo, hi);
        NothingPasses(w', lo, hi);
        OneMorePasses(u, Crashes(g), [], w', lo, hi);
        OneMorePasses(w, x, [Crashes(g)] + [], w', lo, hi);
        xs := [x] + ([Crashes(g)] + []);
        return;
      }
    }
    w' := u;
    NothingPasses(w', lo, hi);
    OneMorePasses(w, x, [], w', lo, hi);
    xs := [x] + [];
  }

  /** What is granted was never granted before. */
  lemma GrantNotHeld(w: World, x: Event, lo: Time, hi: Time, g: Grant)
    requires WorldOk(w) && Happens(w, x, lo, hi) && x.Polls?
    requires ClaimAnswerOf(w.engine, x.queue).Granted?
    requires g == Grant(x.worker, ClaimAnswerOf(w.engine, x.queue).activity, ClaimAnswerOf(w.engine, x.queue).token)
    ensures g !in w.granted && g !in InFlightOf(w, x.worker)
  {
    hide EngineInv, ClaimAnswerOf, Happens;
    assert g in NewGrants(w, x);
    GrantIsNew(w, x, lo, hi, g);
  }

  lemma EndPasses(w: World, worker: string, g: Grant, outcome: Outcome, lo: Time, hi: Time)
    returns (xs: seq<Event>, w': World)
    requires WorldOk(w) && g in InFlightOf(w, worker)
    ensures xs == [Ends(g, outcome)] && WorldOk(w') && Passes(w, xs, w', lo, hi)
    ensures w'.engine == w.engine && w'.limits == w.limits && g in w'.ended && w'.ended[g] == outcome
    ensures InFlightOf(w', worker) == InFlightOf(w, worker) - {g}
  {
    hide WorldOk, EngineInv, Happens, Next, InFlightOf, Passes;
    EngineOf(w);
    EndHappens(w, worker, g, outcome, lo, hi);
    NextOk(w, Ends(g, outcome), lo, hi);
    w' := Next(w, Ends(g, outcome), lo, hi);
    NothingPasses(w', lo, hi);
    OneMorePasses(w, Ends(g, outcome), [], w', lo, hi);
    xs := [Ends(g, outcome)] + [];
  }

  /** The handler ends, and the message about it arrives. */
  lemma ReportPasses(w: World, worker: string, g: Grant, outcome: Outcome, c: Call, lo: Time, hi: Time)
    returns (xs: seq<Event>, w': World)
    requires WorldOk(w) && g in InFlightOf(w, worker)
    requires Reports(c, g, outcome) && Timely(w.engine, c, lo, hi)
    ensures xs == [Ends(g, outcome), Arrives(g, c)] && WorldOk(w') && Passes(w, xs, w', lo, hi)
    ensures EngineInv(w.engine) && w'.engine == Step(w.engine, c) && w'.limits == w.limits
    ensures InFlightOf(w', worker) == InFlightOf(w, worker) - {g}
  {
    hide WorldOk, EngineInv, Happens, Next, InFlightOf, Passes, Step, Timely;
    EngineOf(w);
    EndHappens(w, worker, g, outcome, lo, hi);
    NextOk(w, Ends(g, outcome), lo, hi);
    var u := Next(w, Ends(g, outcome), lo, hi);
    ArrivalHappens(w, u, g, outcome, c, lo, hi, worker);
    NextOk(u, Arrives(g, c), lo, hi);
    w' := Next(u, Arrives(g, c), lo, hi);
    NothingPasses(w', lo, hi);
    OneMorePasses(u, Arrives(g, c), [], w', lo, hi);
    OneMorePasses(w, Ends(g, outcome), [Arrives(g, c)] + [], w', lo, hi);
    xs := [Ends(g, outcome)] + ([Arrives(g, c)] + []);
  }

  /** A poll with a free slot can happen, and adds what was granted. */
  lemma PollHappens(w: World, x: Event, lo: Time, hi: Time, answer: ClaimAnswer)
    requires EngineInv(w.engine) && x.Polls? && x.worker in w.limits && |InFlightOf(w, x.worker)| < w.limits[x.worker]
    requires Timely(w.engine, ClaimingCall(x.worker, x.queue, x.now), lo, hi)
    requires answer == ClaimAnswerOf(w.engine, x.queue)
    ensures Happens(w, x, lo, hi)
    ensures var t := Next(w, x, lo, hi);
      && t.engine == Step(w.engine, ClaimingCall(x.worker, x.queue, x.now)) && t.limits == w.limits
      && InFlightOf(t, x.worker) == InFlightOf(w, x.worker)
           + (if answer.Granted? then {Grant(x.worker, answer.activity, answer.token)} else {})
      && (answer.Granted? ==> Grant(x.worker, answer.activity, answer.token) in t.inFlight)
      && t.inFlight == w.inFlight + NewGrants(w, x)
  {
    hide EngineInv, Step, ClaimAnswerOf;
    assert Asked(x)[0] in Asked(x);
  }

  /** A grant whose answer is lost is gone for its worker. */
  lemma CrashHappens(w: World, x: Event, u: World, lo: Time, hi: Time, g: Grant)
    requires EngineInv(w.engine) && EngineInv(u.engine) && Happens(w, x, lo, hi) && u == Next(w, x, lo, hi)
    requires x.Polls? && g in u.inFlight && g.worker == x.worker && g !in InFlightOf(w, x.worker)
    requires InFlightOf(u, x.worker) == InFlightOf(w, x.worker) + {g}
    ensures Happens(u, Crashes(g), lo, hi)
    ensures var t := Next(u, Crashes(g), lo, hi);
            t.engine == u.engine && t.limits == u.limits && InFlightOf(t, x.worker) == InFlightOf(w, x.worker)
  {
    hide EngineInv, EngineAfter, NewGrants;
    NothingAsked(u, Crashes(g), lo, hi);
    OnlyPollsGrant(u, Crashes(g));
  }

  lemma NothingAsked(w: World, x: Event, lo: Time, hi: Time)
    requires EngineInv(w.engine) && Happens(w, x, lo, hi) && (x.Ends? || x.Crashes?)
    ensures EngineAfter(w, x, lo, hi) == w.engine
  {
  }

  /** The end of a handler frees its slot. */
  lemma EndHappens(w: World, worker: string, g: Grant, outcome: Outcome, lo: Time, hi: Time)
    requires EngineInv(w.engine) && g in InFlightOf(w, worker)
    ensures g.worker == worker && Happens(w, Ends(g, outcome), lo, hi)
    ensures Next(w, Ends(g, outcome), lo, hi)
            == w.(inFlight := w.inFlight - {g}, ended := w.ended[g := outcome])
    ensures InFlightOf(Next(w, Ends(g, outcome), lo, hi), worker) == InFlightOf(w, worker) - {g}
  {
    hide EngineInv, EngineAfter, NewGrants;
    NothingAsked(w, Ends(g, outcome), lo, hi);
    OnlyPollsGrant(w, Ends(g, outcome));
  }

  /** The message about the outcome reaches the engine. */
  lemma ArrivalHappens(w: World, u: World, g: Grant, outcome: Outcome, c: Call, lo: Time, hi: Time, worker: string)
    requires EngineInv(w.engine)
    requires u == w.(inFlight := w.inFlight - {g}, ended := w.ended[g := outcome])
    requires Reports(c, g, outcome) && Timely(w.engine, c, lo, hi)
    ensures Happens(u, Arrives(g, c), lo, hi)
    ensures var t := Next(u, Arrives(g, c), lo, hi);
            t.engine == Step(w.engine, c) && t.limits == w.limits && InFlightOf(t, worker) == InFlightOf(u, worker)
  {
    hide EngineInv, Step, Timely, NewGrants;
    assert Asked(Arrives(g, c))[0] == c;
    OnlyPollsGrant(u, Arrives(g, c));
  }

  // ---------------------------------------------------------------- what completes an activity

  lemma {:induction false} QuietRunCompletesNothing(ss: seq<State>, ms: seq<Move>, k: nat, i: Id)
    requires IsRun(ss, ms) && Quiet(ms) && k <= |ms| && WellFormed(ss[0])
    requires i in ss[k].activities && ss[k].activities[i].status == Completed
    ensures i in ss[0].activities && ss[0].activities[i].status == Completed
  {
    hide Apply, Enabled, WellFormed;
    if 0 < k {
      assert StepAt(ss, ms, k - 1);
      SameRecords(ss[k - 1], ms[k - 1]);
      AfterMove(ss[k - 1], ms[k - 1], i);
      QuietRunCompletesNothing(ss, ms, k - 1, i);
    }
  }

  lemma QuietCompletesNothing(s: State, ms: seq<Move>, t: State, i: Id)
    requires Leads(s, ms, t) && Quiet(ms) && WellFormed(s)
    requires i in t.activities && t.activities[i].status == Completed
    ensures i in s.activities && s.activities[i].status == Completed
  {
    var ss :| IsRun(ss, ms) && ss[0] == s && ss[|ms|] == t;
    QuietRunCompletesNothing(ss, ms, |ms|, i);
  }

  /** What follows a completion completes nothing else. */
  lemma WrapUpIsQuiet(s: State, w: Id, ids: seq<Id>, ticks: seq<Time>) returns (ms: seq<Move>)
    requires |ids| < |ticks|
    ensures Leads(s, ms, FinishIfDone(ReleaseAll(s, ids, ticks), w, ticks[|ids|])) && Quiet(ms)
  {
    hide Leads, ReleaseAll, FinishIfDone;
    var rs := ReleaseAllLeads(s, ids, ticks);
    var t := ReleaseAll(s, ids, ticks);
    var fs := FinishLeads(t, w, ticks[|ids|]);
    LeadsThrough(s, rs, t, fs, FinishIfDone(t, w, ticks[|ids|]));
    ms := rs + fs;
  }

  /** The record of an activity that was completed by then stays as it is. */
  lemma CompletedStays(s: State, ms: seq<Move>, t: State, i: Id)
    requires Leads(s, ms, t) && Inv(s) && i in s.activities && s.activities[i].status == Completed
    ensures i in t.activities && t.activities[i] == s.activities[i]
  {
    hide Inv, Leads;
    LeadsKeepsInv(s, ms, t);
    assert Later(s.activities[i], t.activities[i]);
  }

  lemma StepOfStart(e: EngineState, c: Call, lo: Time, hi: Time)
    requires EngineInv(e) && Timely(e, c, lo, hi) && c.StartingCall?
    ensures !StartAnswerOf(e, c.def, c.key).Started? ==> Step(e, c) == e
    ensures StartAnswerOf(e, c.def, c.key).Started? ==>
      var s := Launched(e, c.def, c.key, c.now).core;
      && |NewMembers(e, c.def)| <= |c.ticks|
      && Step(e, c).core == ReleaseAll(s, NewMembers(e, c.def), c.ticks)
  {
    hide Inv, Shaped, Apply, Enabled, ReleaseAll, StartAnswerOf;
  }

  lemma StartCompletesNothing(e: EngineState, c: Call, lo: Time, hi: Time, i: Id)
    requires EngineInv(e) && Timely(e, c, lo, hi) && c.StartingCall?
    requires i in Step(e, c).core.activities && Step(e, c).core.activities[i].status == Completed
    ensures i in e.core.activities && e.core.activities[i].status == Completed
    ensures Step(e, c).core.activities[i] == e.core.activities[i]
  {
    hide Step, Timely, Inv, Shaped, Evolves, Apply, Enabled, Leads, StartAnswerOf, ReleaseAll, WellFormed;
    StepOfStart(e, c, lo, hi);
    if StartAnswerOf(e, c.def, c.key).Started? {
      InvOf(e);
      InvIsWellFormed(e.core);
      CanStart(e, c.def, c.key, c.now);
      var m := LaunchMove(e, c.def, c.key, c.now);
      KeepsInv(e.core, m);
      var s := Apply(e.core, m);
      InvIsWellFormed(s);
      var rs := ReleaseAllLeads(s, NewMembers(e, c.def), c.ticks);
      QuietCompletesNothing(s, rs, Step(e, c).core, i);
      CompletedStays(s, rs, Step(e, c).core, i);
      LaunchGrows(e.core, m);
    }
  }

  lemma StepOfCompletion(e: EngineState, c: Call, lo: Time, hi: Time)
    requires EngineInv(e) && Timely(e, c, lo, hi) && c.CompletingCall? && Completes(e, c)
    ensures Known(e.core, c.act) && e.core.activities[c.act].workflow in e.members
    ensures Enabled(e.core, Complete(c.check, c.act, c.worker, c.token))
    ensures var w := e.core.activities[c.act].workflow;
      && |e.members[w]| < |c.ticks|
      && Step(e, c).core == FinishIfDone(ReleaseAll(Apply(e.core, Complete(c.check, c.act, c.worker, c.token)),
                                                    e.members[w], c.ticks), w, c.ticks[|e.members[w]|])
  {
    hide Inv, Shaped, Apply, Enabled, ReleaseAll, FinishIfDone;
    Housed(e, c.act);
    AcceptedEnables(e, c.act, c.worker, c.token, c.check, c.check, true);
  }

  lemma CompletionCompletes(e: EngineState, c: Call, lo: Time, hi: Time, i: Id)
    requires EngineInv(e) && Timely(e, c, lo, hi) && Completes(e, c)
    requires i in Step(e, c).core.activities && Step(e, c).core.activities[i].status == Completed
    ensures i in e.core.activities
    ensures e.core.activities[i].status == Completed
            || (c.act == i && e.core.activities[i].fencingToken == c.token && e.core.activities[i].leaseOwner == c.worker)
    ensures Step(e, c).core.activities[i].fencingToken == e.core.activities[i].fencingToken
  {
    hide Step, Timely, Inv, Shaped, Evolves, Apply, Enabled, Leads, ReleaseAll, FinishIfDone, WellFormed;
    StepOfCompletion(e, c, lo, hi);
    InvOf(e);
    InvIsWellFormed(e.core);
    var w, m := e.core.activities[c.act].workflow, Complete(c.check, c.act, c.worker, c.token);
    var s := Apply(e.core, m);
    KeepsInv(e.core, m);
    InvIsWellFormed(s);
    var rest := WrapUpIsQuiet(s, w, e.members[w], c.ticks);
    QuietCompletesNothing(s, rest, Step(e, c).core, i);
    CompletedStays(s, rest, Step(e, c).core, i);
    SameRecords(e.core, m);
    AfterMove(e.core, m, i);
  }

  /** An activity is completed by an accepted completion that names its holder and its token, or it was
      completed before. */
  lemma CompletedBy(e: EngineState, c: Call, lo: Time, hi: Time, i: Id)
    requires EngineInv(e) && Timely(e, c, lo, hi)
    requires i in Step(e, c).core.activities && Step(e, c).core.activities[i].status == Completed
    ensures i in e.core.activities
    ensures e.core.activities[i].status == Completed
            || (Completes(e, c) && c.act == i && e.core.activities[i].fencingToken == c.token
                && e.core.activities[i].leaseOwner == c.worker)
    ensures Step(e, c).core.activities[i].fencingToken == e.core.activities[i].fencingToken
  {
    hide Step, Timely, Inv, Shaped, Evolves, Apply, Enabled, Leads, WellFormed, Completion, Quiet, Within;
    InvOf(e);
    InvIsWellFormed(e.core);
    if c.StartingCall? {
      StartCompletesNothing(e, c, lo, hi, i);
    } else if Completes(e, c) {
      CompletionCompletes(e, c, lo, hi, i);
    } else {
      var ms := StepLeads(e, c, lo, hi);
      QuietCompletesNothing(e.core, ms, Step(e, c).core, i);
      CompletedStays(e.core, ms, Step(e, c).core, i);
    }
  }

  // ---------------------------------------------------------------- what every event keeps

  /** Some handler succeeded under the grant that the record of i still names. */
  ghost predicate Handled(w: World, i: Id)
    requires i in w.engine.core.activities
  {
    exists g :: g in w.ended && g.act == i && g.token == w.engine.core.activities[i].fencingToken && w.ended[g] == Succeeded
  }

  ghost predicate GrantsOk(w: World) {
    && (forall g :: g in w.granted ==>
          g.act in w.engine.core.activities && g.token <= w.engine.core.activities[g.act].fencingToken)
    && (forall g, h :: g in w.granted && h in w.granted && g.act == h.act && g.token == h.token ==> g == h)
    && w.inFlight <= w.granted && w.ended.Keys <= w.granted && w.inFlight !! w.ended.Keys
  }

  ghost predicate CompletionsOk(w: World) {
    forall i :: i in w.engine.core.activities && w.engine.core.activities[i].status == Completed ==> Handled(w, i)
  }

  ghost predicate LimitsOk(w: World) {
    forall p :: p in w.limits ==> |InFlightOf(w, p)| <= w.limits[p]
  }

  ghost predicate WorldOk(w: World) {
    EngineInv(w.engine) && GrantsOk(w) && CompletionsOk(w) && LimitsOk(w)
  }

  /** The engine only goes forward. */
  lemma EngineGoesOn(w: World, x: Event, lo: Time, hi: Time)
    requires EngineInv(w.engine) && Happens(w, x, lo, hi)
    ensures EngineInv(EngineAfter(w, x, lo, hi)) && Evolves(w.engine.core, EngineAfter(w, x, lo, hi).core)
  {
    hide EngineInv, Evolves, Step, Timely, Leads;
    if Asked(x) == [] {
      EvolvesFromItself(w.engine.core);
    } else {
      var c := Asked(x)[0];
      assert c in Asked(x);
      StepKeepsEngineInv(w.engine, c, lo, hi);
      var ms := StepLeads(w.engine, c, lo, hi);
      InvOf(w.engine);
      InvIsWellFormed(w.engine.core);
      LeadsKeepsInv(w.engine.core, ms, Step(w.engine, c).core);
    }
  }

  lemma EvolvesFromItself(s: State)
    ensures Evolves(s, s)
  {
  }

  /** A granted claim bears a token that is new for its activity and is the current one from then on. */
  lemma GrantIsNew(w: World, x: Event, lo: Time, hi: Time, g: Grant)
    requires EngineInv(w.engine) && Happens(w, x, lo, hi) && g in NewGrants(w, x)
    ensures g.act in w.engine.core.activities && g.token == w.engine.core.activities[g.act].fencingToken + 1
    ensures var t := EngineAfter(w, x, lo, hi).core;
            g.act in t.activities && t.activities[g.act].fencingToken == g.token && g.worker == x.worker
  {
    hide Inv, Shaped, Apply, Enabled, StartCall, HeartbeatCall, CompleteCall, FailCall, CancelCall, PassCall;
    var c := Asked(x)[0];
    assert c in Asked(x);
    var i := Least(Claimable(w.engine.core, x.queue));
    assert i in Claimable(w.engine.core, x.queue);
    Housed(w.engine, i);
    ClaimsToken(w.engine.core, Claim(x.now, i, x.worker, x.queue, x.now + w.engine.leaseTTL));
  }

  lemma ClaimsToken(s: State, m: Move)
    requires m.Claim? && m.act in Claimable(s, m.queue) && Known(s, m.act)
    ensures Enabled(s, m) && m.act in Apply(s, m).activities
    ensures Apply(s, m).activities[m.act].fencingToken == s.activities[m.act].fencingToken + 1
  {
  }

  lemma GrantsStayOk(w: World, x: Event, lo: Time, hi: Time)
    requires WorldOk(w) && Happens(w, x, lo, hi)
    ensures GrantsOk(Next(w, x, lo, hi))
  {
    hide EngineInv, EngineAfter, NewGrants, Asked, CompletionsOk, LimitsOk;
    var t := Next(w, x, lo, hi);
    EngineGoesOn(w, x, lo, hi);
    forall g | g in t.granted
      ensures g.act in t.engine.core.activities && g.token <= t.engine.core.activities[g.act].fencingToken
    {
      if g in w.granted {
        assert Later(w.engine.core.activities[g.act], t.engine.core.activities[g.act]);
      } else {
        GrantIsNew(w, x, lo, hi, g);
      }
    }
    forall g | g in NewGrants(w, x) ensures g !in w.granted && forall h :: h in NewGrants(w, x) ==> h == g {
      GrantIsNew(w, x, lo, hi, g);
      OneGrant(w, x);
    }
    forall g, h | g in t.granted && h in t.granted && g.act == h.act && g.token == h.token ensures g == h {
      if g !in w.granted { GrantIsNew(w, x, lo, hi, g); }
      if h !in w.granted { GrantIsNew(w, x, lo, hi, h); }
    }
    OnlyPollsGrant(w, x);
  }

  lemma OneGrant(w: World, x: Event)
    ensures forall g, h :: g in NewGrants(w, x) && h in NewGrants(w, x) ==> g == h
    ensures |NewGrants(w, x)| <= 1
  {
  }

  lemma OnlyPollsGrant(w: World, x: Event)
    ensures !x.Polls? ==> NewGrants(w, x) == {}
    ensures x.Polls? ==> forall g :: g in NewGrants(w, x) ==> g.worker == x.worker
  {
  }

  lemma CompletionsStayOk(w: World, x: Event, lo: Time, hi: Time)
    requires WorldOk(w) && Happens(w, x, lo, hi)
    ensures CompletionsOk(Next(w, x, lo, hi))
  {
    hide EngineInv, NewGrants, Step, Timely, LimitsOk, MessageAnswer;
    var t := Next(w, x, lo, hi);
    forall i | i in t.engine.core.activities && t.engine.core.activities[i].status == Completed ensures Handled(t, i) {
      if Asked(x) == [] {
        StillHandled(w, x, lo, hi, i);
      } else {
        var c := Asked(x)[0];
        assert c in Asked(x);
        CompletedBy(w.engine, c, lo, hi, i);
        if w.engine.core.activities[i].status == Completed {
          StillHandled(w, x, lo, hi, i);
        } else {
          CompletionArrives(w, x, c, lo, hi);
          assert x.grant in t.ended && t.ended[x.grant] == Succeeded;
        }
      }
    }
  }

  /** A completion reaches the engine only as the message about a handler that succeeded. */
  lemma CompletionArrives(w: World, x: Event, c: Call, lo: Time, hi: Time)
    requires Happens(w, x, lo, hi) && Asked(x) == [c] && c.CompletingCall?
    ensures x.Arrives? && x.call == c && x.grant in w.ended && w.ended[x.grant] == Succeeded && Reports(c, x.grant, Succeeded)
  {
    assert Asked(x)[0] == c;
  }

  lemma StillHandled(w: World, x: Event, lo: Time, hi: Time, i: Id)
    requires EngineInv(w.engine) && GrantsOk(w) && Happens(w, x, lo, hi) && i in w.engine.core.activities && Handled(w, i)
    requires var t := Next(w, x, lo, hi).engine.core;
             i in t.activities && t.activities[i].fencingToken == w.engine.core.activities[i].fencingToken
    ensures Handled(Next(w, x, lo, hi), i)
  {
    hide EngineInv, EngineAfter, NewGrants, Asked;
    var t := Next(w, x, lo, hi);
    var g :| g in w.ended && g.act == i && g.token == w.engine.core.activities[i].fencingToken && w.ended[g] == Succeeded;
    assert g in t.ended && t.ended[g] == Succeeded;
  }

  lemma LimitsStayOk(w: World, x: Event, lo: Time, hi: Time)
    requires WorldOk(w) && Happens(w, x, lo, hi)
    ensures LimitsOk(Next(w, x, lo, hi))
  {
    hide EngineInv, EngineAfter, NewGrants, Asked, GrantsOk, CompletionsOk;
    var t := Next(w, x, lo, hi);
    OneGrant(w, x);
    OnlyPollsGrant(w, x);
    forall p | p in t.limits ensures |InFlightOf(t, p)| <= t.limits[p] {
      var a, b := InFlightOf(w, p), InFlightOf(t, p);
      if x.Polls? && x.worker == p {
        assert b == a + NewGrants(w, x);
      } else {
        assert b <= a;
        Subset(b, a);
      }
    }
  }

  lemma Subset(a: set<Grant>, b: set<Grant>)
    requires a <= b
    ensures |a| <= |b|
  {
    assert b == a + (b - a);
  }

  lemma {:induction false} WorldRunOk(ws: seq<World>, xs: seq<Event>, clock: seq<Time>, k: nat)
    requires IsWorldRun(ws, xs, clock) && k <= |xs|
    ensures WorldOk(ws[k])
  {
    hide EngineInv, Next, Happens, GrantsOk, CompletionsOk, LimitsOk, IsNew;
    if k == 0 {
      NewWorldOk(ws[0]);
    } else {
      WorldRunOk(ws, xs, clock, k - 1);
      assert EventAt(ws, xs, clock, k - 1);
      var w, x, lo, hi := ws[k - 1], xs[k - 1], clock[k - 1], clock[k];
      GrantsStayOk(w, x, lo, hi);
      CompletionsStayOk(w, x, lo, hi);
      LimitsStayOk(w, x, lo, hi);
      NextEngine(w, x, lo, hi);
    }
  }

  lemma NextEngine(w: World, x: Event, lo: Time, hi: Time)
    requires EngineInv(w.engine) && Happens(w, x, lo, hi)
    ensures EngineInv(Next(w, x, lo, hi).engine)
  {
    EngineGoesOn(w, x, lo, hi);
  }

  lemma NewWorldOk(w: World)
    requires IsNew(w.engine) && w.granted == {} && w.inFlight == {} && w.ended == map[]
    ensures WorldOk(w)
  {
    NewIsFine(w.engine);
    forall p | p in w.limits ensures |InFlightOf(w, p)| <= w.limits[p] {
      assert InFlightOf(w, p) == {};
    }
  }

  // ---------------------------------------------------------------- the theorems

  /** Whatever crashes, pauses, is lost, delayed or repeated: an activity is completed only if a handler
      returned without error under the very grant whose token the record bears. */
  lemma CompletedMeansHandled(ws: seq<World>, xs: seq<Event>, clock: seq<Time>, k: nat, i: Id)
    requires IsWorldRun(ws, xs, clock) && k <= |xs|
    requires i in ws[k].engine.core.activities && ws[k].engine.core.activities[i].status == Completed
    ensures Handled(ws[k], i)
  {
    WorldRunOk(ws, xs, clock, k);
  }

  /** Each pair of activity and token is granted to one worker only. */
  lemma OneHolderPerToken(ws: seq<World>, xs: seq<Event>, clock: seq<Time>, k: nat, g: Grant, h: Grant)
    requires IsWorldRun(ws, xs, clock) && k <= |xs| && g in ws[k].granted && h in ws[k].granted
    requires g.act == h.act && g.token == h.token
    ensures g == h
  {
    WorldRunOk(ws, xs, clock, k);
  }

  /** No worker runs more handlers at once than it has slots. */
  lemma WithinConcurrency(ws: seq<World>, xs: seq<Event>, clock: seq<Time>, k: nat, p: string)
    requires IsWorldRun(ws, xs, clock) && k <= |xs| && p in ws[k].limits
    ensures |InFlightOf(ws[k], p)| <= ws[k].limits[p]
  {
    WorldRunOk(ws, xs, clock, k);
  }
}
