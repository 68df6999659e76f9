/** Concurrent callers of the browser service: each reads the session and checks its guards in one
    step and runs its storage transaction in another, with anything in between
    (server/browser/service.py over server/browser/storage.py). Every run is shown to be a sequence
    of whole operations. */
module SessionProtocol {
  import opened Wrappers
  import opened BrowserSession

  /** A call that passed its guards on `current`, read at `at`, and has not committed. */
  datatype Pending = Pending(op: Op, current: Session, at: Time)

  datatype World = World(now: Time, store: Store, pending: map<nat, Pending>)

  datatype Step =
    | Tick(delta: nat)
    | Create(session: Session)
    | Load(c: nat, op: Op, revision: nat)
    | Commit(c: nat)
    | Abandon(c: nat)                       // the caller crashes
    | Finish(id: string, status: ActionStatus, error: Option<string>)

  predicate Enabled(w: World, step: Step) {
    match step
    case Create(session) => session.Valid()
    case Load(c, op, revision) => c !in w.pending && Prepared(w.store.session, op, revision, w.now).Ok?
    case Commit(c) => c in w.pending
    case Abandon(c) => c in w.pending
    case _ => true
  }

  /** What the storage transaction of a step, if it has one, answers. */
  function Outcome(w: World, step: Step): Result<Store, Error>
    requires Enabled(w, step)
  {
    match step
    case Create(session) => Created(w.store, session)
    case Commit(c) => Committed(w.store, w.pending[c].op, w.pending[c].current, w.pending[c].at)
    case Finish(id, status, error) => FinishedAction(w.store, id, status, error, w.now)
    case _ => Ok(w.store)
  }

  function Apply(w: World, step: Step): World
    requires Enabled(w, step)
  {
    var r := Outcome(w, step);
    var store := if r.Ok? then r.value else w.store;
    match step
    case Tick(delta) => w.(now := w.now + delta)
    case Load(c, op, revision) =>
      w.(pending := w.pending[c := Pending(op, w.store.session.value, w.now)])
    case Commit(c) => w.(store := store, pending := w.pending - {c})
    case Abandon(c) => w.(pending := w.pending - {c})
    case _ => w.(store := store)
  }

  predicate Legal(w: World, steps: seq<Step>)
    decreases |steps|
  {
    steps == [] || (Enabled(w, steps[0]) && Legal(Apply(w, steps[0]), steps[1..]))
  }

  function Run(w: World, steps: seq<Step>): World
    requires Legal(w, steps)
    decreases |steps|
  {
    if steps == [] then w else Run(Apply(w, steps[0]), steps[1..])
  }

  predicate Initial(w: World) {
    w.store == Store(None, map[], map[], [], 0, 0) && w.pending == map[]
  }

  // ------------------------------------------------------------ whole operations

  /** Something that happened to the documents in one go. */
  datatype Event =
    | Operation(op: Op, revision: nat, at: Time)
    | Creation(session: Session)
    | Completion(id: string, status: ActionStatus, error: Option<string>, at: Time)

  function Happened(st: Store, event: Event): Result<Store, Error> {
    match event
    case Operation(op, revision, at) => Performed(st, op, revision, at)
    case Creation(session) => if session.Valid() then Created(st, session) else Err(Conflict)
    case Completion(id, status, error, at) => FinishedAction(st, id, status, error, at)
  }

  predicate Replays(st: Store, events: seq<Event>)
    decreases |events|
  {
    events == [] || (Happened(st, events[0]).Ok? && Replays(Happened(st, events[0]).value, events[1..]))
  }

  function Replay(st: Store, events: seq<Event>): Store
    requires Replays(st, events)
    decreases |events|
  {
    if events == [] then st else Replay(Happened(st, events[0]).value, events[1..])
  }

  function Operations(events: seq<Event>): nat {
    if events == [] then 0 else (if events[0].Operation? then 1 else 0) + Operations(events[1..])
  }

  /** The events of a run, in the order of their transactions. */
  function History(w: World, steps: seq<Step>): seq<Event>
    requires Legal(w, steps)
    decreases |steps|
  {
    if steps == [] then []
    else
      var event := match steps[0]
        case Create(session) => [Creation(session)]
        case Commit(c) => [Operation(w.pending[c].op, w.pending[c].current.revision, w.pending[c].at)]
        case Finish(id, status, error) => [Completion(id, status, error, w.now)]
        case _ => [];
      (if Outcome(w, steps[0]).Ok? then event else []) + History(Apply(w, steps[0]), steps[1..])
  }

  // ------------------------------------------------------------------ invariant

  /** The revision identifies the content: a call whose revision is still the stored one holds the
      stored session itself. */
  ghost predicate PendingOk(st: Store, p: Pending) {
    && st.session.Some?
    && p.current.revision <= st.session.value.revision
    && (p.current.revision == st.session.value.revision ==> st.session.value == p.current)
    && Prepared(Some(p.current), p.op, p.current.revision, p.at).Ok?
  }

  ghost predicate Sound(w: World) {
    Inv(w.store) && forall c :: c in w.pending ==> PendingOk(w.store, w.pending[c])
  }

  /** A commit that the store accepts is the whole operation, performed on the stored session at
      the time the caller read it. */
  lemma CommitIsAtomic(st: Store, p: Pending)
    requires PendingOk(st, p)
    ensures var r := Committed(st, p.op, p.current, p.at);
      r.Ok? ==> r == Performed(st, p.op, p.current.revision, p.at)
  {}

  lemma PendingFrame(st: Store, st': Store, p: Pending)
    requires PendingOk(st, p) && st'.session.Some?
    requires st'.session == st.session || st'.session.value.revision > st.session.value.revision
    ensures PendingOk(st', p)
  {}

  lemma CommitOk(w: World, c: nat)
    requires Sound(w) && c in w.pending
    ensures Sound(Apply(w, Commit(c)))
  {
    var p := w.pending[c];
    var w' := Apply(w, Commit(c));
    assert PendingOk(w.store, p);
    CommitIsAtomic(w.store, p);
    if Outcome(w, Commit(c)).Ok? {
      OperationInv(w.store, p.op, p.current.revision, p.at);
      RevisionAdvances(w.store, p.op, p.current.revision, p.at);
    }
    forall d | d in w'.pending ensures PendingOk(w'.store, w'.pending[d]) {
      assert PendingOk(w.store, w.pending[d]);
      PendingFrame(w.store, w'.store, w.pending[d]);
    }
  }

  lemma StepOk(w: World, step: Step)
    requires Sound(w) && Enabled(w, step)
    ensures Sound(Apply(w, step))
  {
    var w' := Apply(w, step);
    match step {
      case Commit(c) => CommitOk(w, c);
      case Create(session) =>
        if Outcome(w, step).Ok? { CreateInv(w.store, session); }
        forall d | d in w'.pending ensures PendingOk(w'.store, w'.pending[d]) {
          assert PendingOk(w.store, w.pending[d]);
        }
      case Finish(id, status, error) =>
        if Outcome(w, step).Ok? { FinishInv(w.store, id, status, error, w.now); }
        forall d | d in w'.pending ensures PendingOk(w'.store, w'.pending[d]) {
          assert PendingOk(w.store, w.pending[d]);
        }
      case _ =>
        forall d | d in w'.pending ensures PendingOk(w'.store, w'.pending[d]) {
          assert d in w.pending ==> PendingOk(w.store, w.pending[d]);
        }
    }
  }

  lemma {:induction false} RunOk(w: World, steps: seq<Step>)
    requires Sound(w) && Legal(w, steps)
    ensures Sound(Run(w, steps))
    decreases |steps|
  {
    if steps != [] {
      StepOk(w, steps[0]);
      RunOk(Apply(w, steps[0]), steps[1..]);
    }
  }

  // ------------------------------------------------------------------- theorems

  /** Linearisation: whatever the interleaving, the documents end up as if the operations had been
      performed whole, one after the other, in the order of their commits. */
  lemma {:induction false} RunsAreSequential(w: World, steps: seq<Step>)
    requires Sound(w) && Legal(w, steps)
    ensures Replays(w.store, History(w, steps))
    ensures Replay(w.store, History(w, steps)) == Run(w, steps).store
    decreases |steps|
  {
    if steps != [] {
      var step, w' := steps[0], Apply(w, steps[0]);
      StepOk(w, step);
      RunsAreSequential(w', steps[1..]);
      if step.Commit? {
        assert PendingOk(w.store, w.pending[step.c]);
        CommitIsAtomic(w.store, w.pending[step.c]);
      }
      var rest := History(w', steps[1..]);
      if History(w, steps) == rest {
      } else {
        assert History(w, steps)[1..] == rest;
      }
    }
  }

  /** In every reachable store the barriers, the ledger and the step count are in line. */
  lemma ReachableStores(w: World, steps: seq<Step>)
    requires Initial(w) && Legal(w, steps)
    ensures Inv(Run(w, steps).store)
  {
    RunOk(w, steps);
  }

  /** Once the session exists, its revision counts exactly the operations committed since. */
  lemma {:induction false} RevisionCountsOperations(st: Store, events: seq<Event>)
    requires st.session.Some? && Replays(st, events)
    ensures var e := Replay(st, events);
      e.session.Some? && e.session.value.revision == st.session.value.revision + Operations(events)
    decreases |events|
  {
    if events != [] {
      if events[0].Operation? {
        RevisionAdvances(st, events[0].op, events[0].revision, events[0].at);
      }
      RevisionCountsOperations(Happened(st, events[0]).value, events[1..]);
    }
  }

  /** An entry of the ledger, once completed, is there unchanged at the end of every run. */
  lemma {:induction false} CompletedEntriesStay(st: Store, events: seq<Event>, id: string)
    requires Replays(st, events) && id in st.actions && st.actions[id].status != Authorized
    ensures id in Replay(st, events).actions && Replay(st, events).actions[id] == st.actions[id]
    decreases |events|
  {
    if events != [] {
      match events[0] {
        case Operation(op, revision, at) =>
          LedgerWriteOnce(st, op, revision, at, id, id, Succeeded, None);
        case Completion(other, status, error, at) =>
          LedgerWriteOnce(st, Freeze, 0, at, id, other, status, error);
        case Creation(session) =>
      }
      CompletedEntriesStay(Happened(st, events[0]).value, events[1..], id);
    }
  }

  // ---------------------------------------------------------- along a history

  /** The record a step that takes the session out of CAPTURING must have stored, or the barriers it
      must have armed. */
  predicate LeavesProperly(st: Store, st': Store) {
    (st.session.Some? && st.session.value.status == Capturing) ==>
      && st'.session.Some?
      && (|| st'.session.value.status == Capturing
          || (exists id :: id in st'.captures && id !in st.captures && st'.captures == st.captures[id := st'.captures[id]])
          || (st'.session.value.status in {Paused, Terminated}
              && st'.session.value.modelPaused && st'.session.value.recordingPaused))
  }

  lemma EventLeaves(st: Store, event: Event)
    requires Inv(st) && Happened(st, event).Ok?
    ensures LeavesProperly(st, Happened(st, event).value)
  {
    if event.Operation? && st.session.Some? && st.session.value.status == Capturing {
      LeavingCapture(st, event.op, event.revision, event.at);
      if event.op.CompleteCapture? {
        var id := event.op.capture.id;
        assert id in Happened(st, event).value.captures && id !in st.captures;
      }
    }
  }

  lemma EventInv(st: Store, event: Event)
    requires Inv(st) && Happened(st, event).Ok?
    ensures Inv(Happened(st, event).value)
  {
    match event {
      case Operation(op, revision, at) => OperationInv(st, op, revision, at);
      case Creation(session) => CreateInv(st, session);
      case Completion(id, status, error, at) => FinishInv(st, id, status, error, at);
    }
  }

  ghost predicate AllProper(st: Store, events: seq<Event>)
    requires Replays(st, events)
    decreases |events|
  {
    events == [] ||
    (LeavesProperly(st, Happened(st, events[0]).value) && AllProper(Happened(st, events[0]).value, events[1..]))
  }

  /** All along a history CAPTURING is left only by storing a new capture record, or for PAUSED or
      TERMINATED with both barriers armed. */
  lemma {:induction false} HistoryLeavesProperly(st: Store, events: seq<Event>)
    requires Inv(st) && Replays(st, events)
    ensures AllProper(st, events)
    decreases |events|
  {
    if events != [] {
      EventLeaves(st, events[0]);
      EventInv(st, events[0]);
      HistoryLeavesProperly(Happened(st, events[0]).value, events[1..]);
    }
  }

  /** A step changes the documents as one event does, or not at all. */
  lemma StepIsEvent(w: World, step: Step)
    requires Sound(w) && Enabled(w, step)
    ensures Apply(w, step).store == w.store ||
            exists event :: Happened(w.store, event) == Ok(Apply(w, step).store)
  {
    match step {
      case Commit(c) =>
        var p := w.pending[c];
        assert PendingOk(w.store, p);
        CommitIsAtomic(w.store, p);
        if Outcome(w, step).Ok? {
          assert Happened(w.store, Operation(p.op, p.current.revision, p.at)) == Ok(Apply(w, step).store);
        }
      case Create(session) =>
        if Outcome(w, step).Ok? { assert Happened(w.store, Creation(session)) == Ok(Apply(w, step).store); }
      case Finish(id, status, error) =>
        if Outcome(w, step).Ok? {
          assert Happened(w.store, Completion(id, status, error, w.now)) == Ok(Apply(w, step).store);
        }
      case _ =>
    }
  }

  /** In every run of concurrent callers, the next step takes the session out of CAPTURING only by
      storing a new capture record, or leaves it PAUSED or TERMINATED with both barriers armed. */
  lemma LeavingCaptureAlways(w: World, steps: seq<Step>, step: Step)
    requires Initial(w) && Legal(w, steps) && Enabled(Run(w, steps), step)
    ensures LeavesProperly(Run(w, steps).store, Apply(Run(w, steps), step).store)
  {
    RunOk(w, steps);
    var e := Run(w, steps);
    StepIsEvent(e, step);
    if Apply(e, step).store != e.store {
      var event :| Happened(e.store, event) == Ok(Apply(e, step).store);
      EventLeaves(e.store, event);
    }
  }

  /** What stays true of a store whatever happens to it. */
  predicate Forward(a: Store, b: Store) {
    && (forall id :: id in a.captures ==> id in b.captures && b.captures[id] == a.captures[id])
    && (forall id :: id in a.actions ==>
          id in b.actions && (a.actions[id].status != Authorized ==> b.actions[id] == a.actions[id]))
    && (a.session.Some? ==>
          && b.session.Some? && a.session.value.revision <= b.session.value.revision
          && (a.session.value.revision == b.session.value.revision ==> b.session == a.session))
  }

  lemma ForwardTransitive(a: Store, b: Store, c: Store)
    requires Forward(a, b) && Forward(b, c)
    ensures Forward(a, c)
  {
  }

  lemma EventForward(st: Store, event: Event)
    requires Happened(st, event).Ok?
    ensures Forward(st, Happened(st, event).value)
  {
    if event.Operation? { RevisionAdvances(st, event.op, event.revision, event.at); }
  }

  lemma {:induction false} ReplayForward(st: Store, events: seq<Event>)
    requires Replays(st, events)
    ensures Forward(st, Replay(st, events))
    decreases |events|
  {
    if events != [] {
      var st' := Happened(st, events[0]).value;
      EventForward(st, events[0]);
      ReplayForward(st', events[1..]);
      ForwardTransitive(st, st', Replay(st', events[1..]));
    }
  }

  lemma {:induction false} ReplaySnoc(st: Store, events: seq<Event>, event: Event)
    requires Replays(st, events) && Happened(Replay(st, events), event).Ok?
    ensures Replays(st, events + [event])
    ensures Replay(st, events + [event]) == Happened(Replay(st, events), event).value
    decreases |events|
  {
    if events == [] {
      assert (events + [event])[1..] == [];
    } else {
      assert (events + [event])[1..] == events[1..] + [event];
      ReplaySnoc(Happened(st, events[0]).value, events[1..], event);
    }
  }

  /** No two accepted writes of the session share a revision, no action is authorised twice and no
      capture is stored twice, over any history. */
  lemma {:induction false} NothingTwice(st: Store, events: seq<Event>, j: nat)
    requires Inv(st) && Replays(st, events) && j < |events| && events[j].Operation?
    ensures st.session.Some? ==> st.session.value.revision <= events[j].revision
    ensures events[j].op.Authorize? ==> events[j].op.action.id !in st.actions
    ensures events[j].op.CompleteCapture? ==> events[j].op.capture.id !in st.captures
    ensures forall i :: 0 <= i < j && events[i].Operation? ==>
      && events[i].revision < events[j].revision
      && (events[i].op.Authorize? && events[j].op.Authorize? ==> events[i].op.action.id != events[j].op.action.id)
      && (events[i].op.CompleteCapture? && events[j].op.CompleteCapture? ==>
            events[i].op.capture.id != events[j].op.capture.id)
    decreases |events|
  {
    if j > 0 {
      var st', rest := Happened(st, events[0]).value, events[1..];
      EventInv(st, events[0]);
      EventForward(st, events[0]);
      NothingTwice(st', rest, j - 1);
      if events[0].Operation? { FirstOnce(st, events[0]); }
      forall i | 0 <= i < j && events[i].Operation?
        ensures events[i].revision < events[j].revision
        ensures events[i].op.Authorize? && events[j].op.Authorize? ==> events[i].op.action.id != events[j].op.action.id
        ensures events[i].op.CompleteCapture? && events[j].op.CompleteCapture? ==>
          events[i].op.capture.id != events[j].op.capture.id
      {
        if i > 0 { assert rest[i - 1] == events[i] && rest[j - 1] == events[j]; }
      }
    }
  }

  lemma FirstOnce(st: Store, event: Event)
    requires Happened(st, event).Ok? && event.Operation?
    ensures var st' := Happened(st, event).value;
      && st'.session.Some? && event.revision < st'.session.value.revision
      && (event.op.Authorize? ==> event.op.action.id in st'.actions)
      && (event.op.CompleteCapture? ==> event.op.capture.id in st'.captures)
  {
    RevisionAdvances(st, event.op, event.revision, event.at);
  }

  // ------------------------------------------------------- the budget overrun, reached

  lemma {:induction false} Extend(w: World, steps: seq<Step>, step: Step) returns (longer: seq<Step>, e: World)
    requires Legal(w, steps) && Enabled(Run(w, steps), step)
    ensures longer == steps + [step] && Legal(w, longer)
    ensures e == Run(w, longer) == Apply(Run(w, steps), step)
    decreases |steps|
  {
    longer := steps + [step];
    if steps == [] {
      assert longer[1..] == [];
    } else {
      assert longer[1..] == steps[1..] + [step];
      var _, _ := Extend(Apply(w, steps[0]), steps[1..], step);
    }
    e := Run(w, longer);
  }

  /** One caller, undisturbed, performs an operation. */
  lemma Operate(w: World, steps: seq<Step>, op: Op, revision: nat) returns (longer: seq<Step>, e: World)
    requires Legal(w, steps) && Run(w, steps).pending == map[]
    requires Performed(Run(w, steps).store, op, revision, Run(w, steps).now).Ok?
    ensures Legal(w, longer) && e == Run(w, longer) && e.pending == map[] && e.now == Run(w, steps).now
    ensures Ok(e.store) == Performed(Run(w, steps).store, op, revision, Run(w, steps).now)
  {
    longer, e := Extend(w, steps, Load(0, op, revision));
    longer, e := Extend(w, longer, Commit(0));
  }

  function Budgeted(status: Status, count: nat, worker: Option<string>, revision: nat): Session {
    Session("s", status, "", Policy({Click}, 1), 1, count, status != Running, status != Running, None, worker, 10, 0,
            None, revision)
  }

  function ClickOn(id: string): Op { Authorize(Action(id, "s", Click, None, false, 1)) }

  /** A session with a budget of one is created, attached and started. */
  lemma BudgetOfOne() returns (w: World, steps: seq<Step>)
    ensures Initial(w) && Legal(w, steps)
    ensures var e := Run(w, steps);
      && e.now == 0 && e.pending == map[] && e.store.actions == map[]
      && e.store.session == Some(Budgeted(Running, 0, Some("vm"), 2))
  {
    var e: World;
    w, steps := World(0, Store(None, map[], map[], [], 0, 0), map[]), [];
    steps, e := Extend(w, steps, Create(Budgeted(Provisioning, 0, None, 0)));
    steps, e := Operate(w, steps, Attach("vm"), 0);
    steps, e := Operate(w, steps, Start, 1);
  }

  /** Two ordinary actions on it are authorised, one after the other, and the session no longer
      validates. */
  lemma OverrunReached() returns (w: World, steps: seq<Step>)
    ensures Initial(w) && Legal(w, steps)
    ensures var e := Run(w, steps);
      && e.store.session == Some(Budgeted(Running, 2, Some("vm"), 4)) && !e.store.session.value.Valid()
      && e.store.actions.Keys == {"a", "b"}
  {
    var e: World;
    w, steps := BudgetOfOne();
    steps, e := Operate(w, steps, ClickOn("a"), 2);
    assert e.store.session == Some(Budgeted(Running, 1, Some("vm"), 3)) && e.store.actions.Keys == {"a"};
    steps, e := Operate(w, steps, ClickOn("b"), 3);
  }
}
