/** Any number of broker workers executing one request identifier (server/broker/service.py).
    A document transaction, a remote call and a clock reading are one step each; workers may stall
    or crash between any two, and a transaction or remote call may take effect although its
    answer is lost. */
module BrokerProtocol {
  import opened Wrappers
  import opened BrokerAttempt

  /** A call: acknowledged, applied with the answer lost, or not applied. */
  datatype Reply = Acked | Lost | Dropped

  /** What happens after the finishing transaction. */
  datatype After = Return | Audit | Raise

  datatype Phase =
    | Start                                               // before it reads the attempt
    | Read(previous: Stored)                              // before it reads the clock
    | Preparing(entered: Time)                            // before _prepare
    | Beginning(entered: Time, baseline: set<nat>)        // before begin
    | Settling(result: ToolResult)                        // before it finishes a found checkpoint
    | Reclaiming(entered: Time, stale: Attempt)        // before reclaim
    | Reconciling(lease: Time, baseline: set<nat>)        // before connector.reconcile
    | Sweeping(lease: Time, baseline: set<nat>, found: Option<string>)  // before the secret sink's part
    | Executing(lease: Time)                              // before connector.execute
    | Storing(lease: Time, value: string, again: bool)    // before _store_provider_secret
    | Compensating(lease: Time, again: bool, ambiguous: bool, code: string)
    | Recording(lease: Time, value: string, version: Option<nat>, again: bool)  // before evidence
    | Checkpointing(lease: Time, result: ToolResult, again: bool)
    | Finishing(lease: Time, result: ToolResult, after: After)
    | Auditing(result: ToolResult)
    | Returned(result: ToolResult)
    | Raised

  datatype Worker = Worker(binding: Binding, phase: Phase)

  /** `effects` counts the remote effects of the request that are in place; `versions` are the
      secret's versions with their enabled flag; `duration` is the attempt lease. */
  datatype World = World(
    now: Time,
    duration: Time,
    attempt: Stored,
    effects: nat,
    versions: map<nat, bool>,
    workers: map<nat, Worker>)

  datatype ReconcileAnswer = Found(value: string) | Clean | Stuck

  datatype ExecuteAnswer =
    | Answered(value: string)
    | Ambiguous(applied: bool)
    | Refused(code: string, applied: bool)
    | Broke(applied: bool)

  datatype StoreAnswer =
    | Kept(version: nat)                       // stored under a new version
    | Unsure(applied: bool, version: nat)      // the write raised, applied or not
    | Unsunk(code: string)                     // the sink could not be used
    | NoSecret(code: string)                   // missing or unexpected secret

  datatype Step =
    | Tick(delta: nat)
    | Spawn(c: nat, binding: Binding)
    | Crash(c: nat)
    | Load(c: nat)
    | Enter(c: nat)
    | Prepare(c: nat)
    | Begin(c: nat, reply: Reply)
    | Settle(c: nat, reply: Reply)
    | Reclaim(c: nat, reply: Reply)
    | Reconcile(c: nat, answer: ReconcileAnswer, left: nat)
    | Sweep(c: nat, reply: Reply)
    | Execute(c: nat, outcome: ExecuteAnswer)
    | Store(c: nat, kept: StoreAnswer)
    | Compensate(c: nat, reply: Reply, known: bool)   // if it raises: an error connectors declare, or not
    | Record(c: nat, evidence: Option<seq<string>>, raises: bool)
    | Checkpoint(c: nat, reply: Reply)
    | Finish(c: nat, reply: Reply)
    | AppendAudit(c: nat, ok: bool)

  predicate In(w: World, c: nat) { c in w.workers }

  predicate Enabled(w: World, step: Step) {
    match step
    case Tick(_) => true
    case Spawn(c, _) => c !in w.workers
    case Crash(c) => In(w, c) && !w.workers[c].phase.Returned?
    case Load(c) => In(w, c) && w.workers[c].phase.Start?
    case Enter(c) => In(w, c) && w.workers[c].phase.Read?
    case Prepare(c) => In(w, c) && w.workers[c].phase.Preparing?
    case Begin(c, _) => In(w, c) && w.workers[c].phase.Beginning?
    case Settle(c, _) => In(w, c) && w.workers[c].phase.Settling?
    case Reclaim(c, _) => In(w, c) && w.workers[c].phase.Reclaiming?
    case Reconcile(c, _, _) => In(w, c) && w.workers[c].phase.Reconciling?
    case Sweep(c, _) => In(w, c) && w.workers[c].phase.Sweeping?
    case Execute(c, _) => In(w, c) && w.workers[c].phase.Executing?
    case Store(c, kept) => In(w, c) && w.workers[c].phase.Storing?
        && (kept.Kept? || kept.Unsure? ==> kept.version !in w.versions)
    case Compensate(c, _, _) => In(w, c) && w.workers[c].phase.Compensating?
    case Record(c, _, _) => In(w, c) && w.workers[c].phase.Recording?
    case Checkpoint(c, _) => In(w, c) && w.workers[c].phase.Checkpointing?
    case Finish(c, _) => In(w, c) && w.workers[c].phase.Finishing?
    case AppendAudit(c, _) => In(w, c) && w.workers[c].phase.Auditing?
  }

  function Move(w: World, c: nat, phase: Phase): World
    requires In(w, c)
  {
    w.(workers := w.workers[c := w.workers[c].(phase := phase)])
  }

  function Failure(code: string): ToolResult {
    ToolResult(false, "", None, Some(code), [])
  }

  const INTERNAL := "broker-internal-error"
  const CLEANUP := "secret-transfer-cleanup"

  /** Where an exception raised inside the guarded block goes; on the reconciling path nothing
      guards it. */
  function Caught(lease: Time, again: bool, code: string, raises: bool): Phase {
    if again then Raised
    else Finishing(lease, Failure(code), if raises then Raise else Audit)
  }

  function AfterEnter(w: World, previous: Stored): Phase {
    if previous.None? then Preparing(w.now)
    else
      var p := previous.value;
      if p.Terminal() then (if p.result.Some? then Returned(p.result.value) else Raised)
      else if p.checkpoint.Some? then Settling(p.checkpoint.value)
      else if p.leaseExpiresAt > w.now then Raised
      else Reclaiming(w.now, p)
  }

  /** The enabled versions the attempt's baseline does not list. */
  function Extra(versions: map<nat, bool>, baseline: set<nat>): set<nat> {
    set v | v in versions && versions[v] && v !in baseline
  }

  function AfterReconcile(lease: Time, found: Option<string>): Phase {
    if found.Some? then Storing(lease, found.value, true) else Executing(lease)
  }

  /** The sink's part of a reconciliation: disable the one candidate, refuse to choose. */
  function Swept(versions: map<nat, bool>, baseline: set<nat>, reply: Reply): map<nat, bool> {
    var extra := Extra(versions, baseline);
    if |extra| == 1 && !reply.Dropped?
    then map v | v in versions :: if v in extra then false else versions[v]
    else versions
  }

  /** A created credential's secret may end up stored under a new version. */
  function Stocked(versions: map<nat, bool>, binding: Binding, kept: StoreAnswer): map<nat, bool> {
    if binding.creates && (kept.Kept? || (kept.Unsure? && kept.applied))
    then versions[kept.version := true] else versions
  }

  function AfterStore(binding: Binding, at: Phase, kept: StoreAnswer): Phase
    requires at.Storing?
  {
    if kept.NoSecret? then Caught(at.lease, at.again, kept.code, false)
    else if !binding.creates then Recording(at.lease, at.value, None, at.again)
    else if kept.Kept? then Recording(at.lease, at.value, Some(kept.version), at.again)
    else if kept.Unsure? then Compensating(at.lease, at.again, true, "")
    else Compensating(at.lease, at.again, false, kept.code)
  }

  function Apply(w: World, step: Step): World
    requires Enabled(w, step)
  {
    match step
    case Tick(delta) => w.(now := w.now + delta)
    case Spawn(c, binding) => w.(workers := w.workers[c := Worker(binding, Start)])
    case Crash(c) => Move(w, c, Raised)
    case Load(c) =>
      var r := BrokerAttempt.Read(w.attempt, w.workers[c].binding);
      Move(w, c, if r.Ok? then Read(r.value) else Raised)
    case Enter(c) => Move(w, c, AfterEnter(w, w.workers[c].phase.previous))
    case Prepare(c) =>
      Move(w, c, Beginning(w.workers[c].phase.entered,
                           if w.workers[c].binding.creates then w.versions.Keys else {}))
    case Begin(c, reply) =>
      var k := w.workers[c];
      var lease := k.phase.entered + w.duration;
      var r := Begun(w.attempt, k.binding, k.phase.baseline, k.phase.entered, lease);
      var w' := if reply.Dropped? then w else w.(attempt := Written(w.attempt, r));
      Move(w', c, if r.Ok? && reply.Acked? then Executing(lease) else Raised)
    case Settle(c, reply) =>
      var k := w.workers[c];
      var r := Finished(w.attempt, k.binding, k.phase.result, w.now);
      var w' := if reply.Dropped? then w else w.(attempt := Written(w.attempt, r));
      Move(w', c, if r.Ok? && reply.Acked? then Returned(k.phase.result) else Raised)
    case Reclaim(c, reply) =>
      var k := w.workers[c];
      var lease := k.phase.entered + w.duration;
      var r := Reclaimed(w.attempt, k.binding, k.phase.stale.leaseExpiresAt, k.phase.entered, lease);
      var w' := if reply.Dropped? then w else w.(attempt := Written(w.attempt, r));
      Move(w', c, if r.Ok? && reply.Acked? then Reconciling(lease, k.phase.stale.baseline) else Raised)
    case Reconcile(c, answer, left) =>
      var k := w.workers[c];
      var found := if answer.Found? then Some(answer.value) else None;
      Move(w.(effects := left), c,
           if answer.Stuck? then Raised
           else if k.binding.creates then Sweeping(k.phase.lease, k.phase.baseline, found)
           else AfterReconcile(k.phase.lease, found))
    case Sweep(c, reply) =>
      var at := w.workers[c].phase;
      var extra := Extra(w.versions, at.baseline);
      Move(w.(versions := Swept(w.versions, at.baseline, reply)), c,
           if |extra| > 1 || (|extra| == 1 && !reply.Acked?) then Raised
           else AfterReconcile(at.lease, at.found))
    case Execute(c, outcome) =>
      var lease := w.workers[c].phase.lease;
      match outcome {
        case Answered(value) =>
          Move(w.(effects := w.effects + 1), c, Storing(lease, value, false))
        case Ambiguous(applied) =>
          Move(w.(effects := w.effects + if applied then 1 else 0), c, Raised)
        case Refused(code, applied) =>
          Move(w.(effects := w.effects + if applied then 1 else 0), c, Caught(lease, false, code, false))
        case Broke(applied) =>
          Move(w.(effects := w.effects + if applied then 1 else 0), c, Caught(lease, false, INTERNAL, true))
      }
    case Store(c, kept) =>
      var k := w.workers[c];
      Move(w.(versions := Stocked(w.versions, k.binding, kept)), c, AfterStore(k.binding, k.phase, kept))
    case Compensate(c, reply, known) =>
      var at := w.workers[c].phase;
      Move(w.(effects := if reply.Dropped? || w.effects == 0 then w.effects else w.effects - 1), c,
           if at.ambiguous then Raised
           else if reply.Acked? then Caught(at.lease, at.again, at.code, false)
           else if known then Caught(at.lease, at.again, CLEANUP, false)
           else Caught(at.lease, at.again, INTERNAL, true))
    case Record(c, evidence, raises) =>
      var at := w.workers[c].phase;
      Move(w, c,
           if evidence.None? then Caught(at.lease, at.again, INTERNAL, raises)
           else Checkpointing(at.lease, ToolResult(true, at.value, at.version, None, evidence.value), at.again))
    case Checkpoint(c, reply) =>
      var k := w.workers[c];
      var at := k.phase;
      var r := Checkpointed(w.attempt, k.binding, at.result);
      var w' := if reply.Dropped? then w else w.(attempt := Written(w.attempt, r));
      Move(w', c,
           if r.Ok? && reply.Acked? then Finishing(at.lease, at.result, if at.again then Return else Audit)
           else Caught(at.lease, at.again, INTERNAL, true))
    case Finish(c, reply) =>
      var k := w.workers[c];
      var at := k.phase;
      var r := Finished(w.attempt, k.binding, at.result, w.now);
      var w' := if reply.Dropped? then w else w.(attempt := Written(w.attempt, r));
      Move(w', c,
           if r.Err? || !reply.Acked? || at.after.Raise? then Raised
           else if at.after.Return? then Returned(at.result)
           else Auditing(at.result))
    case AppendAudit(c, ok) =>
      Move(w, c, if ok then Returned(w.workers[c].phase.result) else Raised)
  }

  predicate Initial(w: World) {
    w.attempt.None? && w.effects == 0 && w.workers == map[] && w.duration > 0
  }

  predicate Legal(w: World, steps: seq<Step>)
    decreases |steps|
  {
    steps == [] || (Enabled(w, steps[0]) && Legal(Apply(w, steps[0]), steps[1..]))
  }

  function Run(w: World, steps: seq<Step>): World
    requires Legal(w, steps)
    decreases |steps|
  {
    if steps == [] then w else Run(Apply(w, steps[0]), steps[1..])
  }

  // --------------------------------------------------------------- agreement

  /** A terminal attempt is never written again. */
  ghost predicate Final(before: Stored, after: Stored) {
    before.Some? && before.value.Terminal() ==> after == before
  }

  ghost predicate Decided(stored: Stored, result: ToolResult) {
    stored.Some? && stored.value.Terminal() && stored.value.result == Some(result)
  }

  ghost predicate AgreeOk(stored: Stored, phase: Phase) {
    match phase
    case Read(p) => p.Some? && p.value.Terminal() ==> stored == p
    case Auditing(r) => Decided(stored, r)
    case Returned(r) => Decided(stored, r)
    case _ => true
  }

  ghost predicate AgreeInv(w: World) {
    && (w.attempt.Some? ==> w.attempt.value.Valid() && w.attempt.value.Truthful())
    && forall c :: c in w.workers ==> AgreeOk(w.attempt, w.workers[c].phase)
  }

  lemma StepFinal(w: World, step: Step)
    requires Enabled(w, step) && AgreeInv(w)
    ensures var w' := Apply(w, step);
      && Final(w.attempt, w'.attempt)
      && (w'.attempt.Some? ==> w'.attempt.value.Valid() && w'.attempt.value.Truthful())
  {}

  lemma StepAgree(w: World, step: Step)
    requires AgreeInv(w) && Enabled(w, step)
    ensures AgreeInv(Apply(w, step)) && Final(w.attempt, Apply(w, step).attempt)
  {
    StepFinal(w, step);
    var w' := Apply(w, step);
    if !step.Tick? {
      forall d | d in w'.workers ensures AgreeOk(w'.attempt, w'.workers[d].phase) {
        if d != step.c || step.Spawn? {
          assert d in w.workers ==> AgreeOk(w.attempt, w.workers[d].phase);
        } else {
          OwnAgree(w, step);
        }
      }
    }
  }

  lemma OwnAgree(w: World, step: Step)
    requires AgreeInv(w) && Enabled(w, step) && !step.Tick? && !step.Spawn?
    ensures AgreeOk(Apply(w, step).attempt, Apply(w, step).workers[step.c].phase)
  {
    assert AgreeOk(w.attempt, w.workers[step.c].phase);
  }

  lemma {:induction false} RunAgree(w: World, steps: seq<Step>)
    requires AgreeInv(w) && Legal(w, steps)
    ensures AgreeInv(Run(w, steps)) && Final(w.attempt, Run(w, steps).attempt)
    decreases |steps|
  {
    if steps != [] {
      StepAgree(w, steps[0]);
      RunAgree(Apply(w, steps[0]), steps[1..]);
    }
  }

  /** Agreement, lease overruns included: whatever workers return normally, at whatever points of
      one run, they return the same result, and it is the stored terminal one. */
  lemma Agreement(w: World, steps: seq<Step>, more: seq<Step>, c: nat, d: nat)
    requires Initial(w) && Legal(w, steps) && Legal(Run(w, steps), more)
    requires In(Run(w, steps), c) && Run(w, steps).workers[c].phase.Returned?
    requires In(Run(Run(w, steps), more), d) && Run(Run(w, steps), more).workers[d].phase.Returned?
    ensures var m, e := Run(w, steps), Run(Run(w, steps), more);
      && m.workers[c].phase.result == e.workers[d].phase.result
      && e.attempt == m.attempt && e.attempt.Some?
      && e.attempt.value.result == Some(e.workers[d].phase.result)
      && e.attempt.value.status == if e.workers[d].phase.result.succeeded then Succeeded else Failed
  {
    RunAgree(w, steps);
    var m := Run(w, steps);
    RunAgree(m, more);
    var e := Run(m, more);
    assert AgreeOk(m.attempt, m.workers[c].phase) && AgreeOk(e.attempt, e.workers[d].phase);
  }

  // ------------------------------------------------------------ lease epochs

  /** The end of the lease under which a worker acts, while it may still touch the outside. */
  function Lease(phase: Phase): Option<Time> {
    match phase
    case Reconciling(lease, _) => Some(lease)
    case Sweeping(lease, _, _) => Some(lease)
    case Executing(lease) => Some(lease)
    case Storing(lease, _, _) => Some(lease)
    case Compensating(lease, _, _, _) => Some(lease)
    case Recording(lease, _, _, _) => Some(lease)
    case Checkpointing(lease, _, _) => Some(lease)
    case Finishing(lease, _, _) => Some(lease)
    case _ => None
  }

  ghost predicate LeaseOk(w: World, k: Worker) {
    && (Lease(k.phase).Some? ==>
          && w.attempt.Some? && w.attempt.value.binding == k.binding
          && (Lease(k.phase).value == w.attempt.value.leaseExpiresAt
              || (Lease(k.phase).value <= w.now && Lease(k.phase).value < w.attempt.value.leaseExpiresAt)))
    && (k.phase.Preparing? || k.phase.Beginning? || k.phase.Reclaiming? ==> k.phase.entered <= w.now)
    && (k.phase.Reclaiming? ==> k.phase.stale.leaseExpiresAt <= k.phase.entered)
  }

  ghost predicate LeaseInv(w: World) {
    && w.duration > 0
    && (forall c :: c in w.workers ==> LeaseOk(w, w.workers[c]))
    && (forall c, d :: c in w.workers && d in w.workers && c != d && Lease(w.workers[c].phase).Some? ==>
          Lease(w.workers[c].phase) != Lease(w.workers[d].phase))
  }

  /** The lease end of the stored attempt only ever moves forward, and it moves exactly when a
      reclaim takes effect, past the moment the old lease ran out. */
  ghost predicate Later(w: World, w': World) {
    w.attempt.Some? ==>
      && w'.attempt.Some? && w'.attempt.value.binding == w.attempt.value.binding
      && w'.attempt.value.baseline == w.attempt.value.baseline
      && (w'.attempt.value.leaseExpiresAt == w.attempt.value.leaseExpiresAt
          || (w.attempt.value.leaseExpiresAt < w'.attempt.value.leaseExpiresAt
              && w.attempt.value.leaseExpiresAt <= w.now))
  }

  lemma StepLater(w: World, step: Step)
    requires LeaseInv(w) && Enabled(w, step)
    ensures Later(w, Apply(w, step))
    ensures w.attempt.Some? && Apply(w, step).attempt.value.leaseExpiresAt != w.attempt.value.leaseExpiresAt ==>
        step.Reclaim?
  {
    if !step.Tick? && !step.Spawn? {
      assert LeaseOk(w, w.workers[step.c]);
    }
  }

  /** Over any run the lease end of the attempt never moves back, and what it is an attempt at, and the
      secret versions it started from, stay the same. */
  lemma {:induction false} EpochsOnlyGrow(w: World, steps: seq<Step>)
    requires LeaseInv(w) && Legal(w, steps) && w.attempt.Some?
    ensures var e := Run(w, steps);
      && e.attempt.Some? && w.attempt.value.leaseExpiresAt <= e.attempt.value.leaseExpiresAt
      && e.attempt.value.binding == w.attempt.value.binding && e.attempt.value.baseline == w.attempt.value.baseline
    decreases |steps|
  {
    if steps != [] {
      StepLater(w, steps[0]);
      StepLease(w, steps[0]);
      EpochsOnlyGrow(Apply(w, steps[0]), steps[1..]);
    }
  }

  /** One worker moved, by a transaction or by a call; time stood still. */
  ghost predicate Moved(w: World, w': World, c: nat) {
    && w'.now == w.now && w'.duration == w.duration
    && c in w.workers && c in w'.workers
    && w'.workers == w.workers[c := w.workers[c].(phase := w'.workers[c].phase)]
  }

  predicate Transacts(step: Step) {
    step.Begin? || step.Settle? || step.Reclaim? || step.Checkpoint? || step.Finish?
  }

  lemma StepMoves(w: World, step: Step)
    requires Enabled(w, step) && !step.Tick? && !step.Spawn?
    ensures Moved(w, Apply(w, step), step.c)
    ensures !Transacts(step) ==> Apply(w, step).attempt == w.attempt
    ensures Transacts(step) ==> Apply(w, step).effects == w.effects && Apply(w, step).versions == w.versions
  {}

  /** A worker keeps its lease, drops it, or takes a new one past every lease there was. */
  ghost predicate Takes(w: World, w': World, c: nat)
    requires c in w.workers && c in w'.workers
  {
    var lease := Lease(w'.workers[c].phase);
    || lease.None?
    || lease == Lease(w.workers[c].phase)
    || w.attempt.None?
    || lease.value > w.attempt.value.leaseExpiresAt
  }

  predicate Enters(step: Step) { step.Crash? || step.Load? || step.Enter? || step.Prepare? || step.AppendAudit? }

  lemma EnterLease(w: World, step: Step)
    requires LeaseInv(w) && Enabled(w, step) && Enters(step)
    ensures LeaseOk(w, Apply(w, step).workers[step.c]) && Takes(w, Apply(w, step), step.c)
  {
    assert LeaseOk(w, w.workers[step.c]);
  }

  lemma CallLease(w: World, step: Step)
    requires LeaseInv(w) && Enabled(w, step)
    requires !step.Tick? && !step.Spawn? && !Transacts(step) && !Enters(step)
    ensures LeaseOk(w, Apply(w, step).workers[step.c]) && Takes(w, Apply(w, step), step.c)
  {
    assert LeaseOk(w, w.workers[step.c]);
  }

  lemma TakeLease(w: World, step: Step)
    requires LeaseInv(w) && Enabled(w, step) && (step.Begin? || step.Reclaim?)
    ensures LeaseOk(Apply(w, step), Apply(w, step).workers[step.c]) && Takes(w, Apply(w, step), step.c)
  {
    assert LeaseOk(w, w.workers[step.c]);
  }

  lemma TransactionLease(w: World, step: Step)
    requires LeaseInv(w) && Enabled(w, step) && (step.Settle? || step.Checkpoint? || step.Finish?)
    ensures LeaseOk(Apply(w, step), Apply(w, step).workers[step.c]) && Takes(w, Apply(w, step), step.c)
  {
    assert LeaseOk(w, w.workers[step.c]);
  }

  lemma FrameLease(w: World, w': World, c: nat)
    requires LeaseInv(w) && Moved(w, w', c) && Later(w, w')
    requires LeaseOk(w', w'.workers[c]) && Takes(w, w', c)
    ensures LeaseInv(w')
  {
    forall d | d in w'.workers && d != c
      ensures LeaseOk(w', w'.workers[d])
      ensures Lease(w'.workers[d].phase).Some? ==> Lease(w'.workers[d].phase) != Lease(w'.workers[c].phase)
    {
      assert LeaseOk(w, w.workers[d]) && LeaseOk(w, w.workers[c]);
    }
  }

  lemma StepLease(w: World, step: Step)
    requires LeaseInv(w) && Enabled(w, step)
    ensures LeaseInv(Apply(w, step))
  {
    var w' := Apply(w, step);
    if step.Tick? || step.Spawn? {
      forall d | d in w'.workers ensures LeaseOk(w', w'.workers[d]) {
        assert d in w.workers ==> LeaseOk(w, w.workers[d]);
      }
    } else {
      StepLater(w, step);
      StepMoves(w, step);
      if step.Begin? || step.Reclaim? {
        TakeLease(w, step);
      } else if Transacts(step) {
        TransactionLease(w, step);
      } else if Enters(step) {
        EnterLease(w, step);
      } else {
        CallLease(w, step);
      }
      FrameLease(w, w', step.c);
    }
  }

  lemma {:induction false} RunLease(w: World, steps: seq<Step>)
    requires LeaseInv(w) && Legal(w, steps)
    ensures LeaseInv(Run(w, steps))
    decreases |steps|
  {
    if steps != [] {
      StepLease(w, steps[0]);
      RunLease(Apply(w, steps[0]), steps[1..]);
    }
  }

  /** In every interleaving each lease epoch has one owner: no two workers act under the same lease,
      run out or not. */
  lemma OneOwnerPerEpoch(w: World, steps: seq<Step>, c: nat, d: nat)
    requires Initial(w) && Legal(w, steps)
    requires var e := Run(w, steps);
      In(e, c) && In(e, d) && Lease(e.workers[c].phase).Some? && Lease(e.workers[c].phase) == Lease(e.workers[d].phase)
    ensures c == d
  {
    RunLease(w, steps);
  }

  /** At any instant at most one worker acts under a lease that has not run out: the one the stored
      attempt names. */
  lemma OneUnexpiredLease(w: World, steps: seq<Step>, c: nat, d: nat)
    requires Initial(w) && Legal(w, steps)
    requires var e := Run(w, steps);
      && In(e, c) && Lease(e.workers[c].phase).Some? && e.now < Lease(e.workers[c].phase).value
      && In(e, d) && Lease(e.workers[d].phase).Some?
    ensures var e := Run(w, steps);
      && e.attempt.Some? && e.attempt.value.leaseExpiresAt == Lease(e.workers[c].phase).value
      && (e.now < Lease(e.workers[d].phase).value ==> c == d)
      && (Lease(e.workers[c].phase) == Lease(e.workers[d].phase) ==> c == d)
  {
    RunLease(w, steps);
    var e := Run(w, steps);
    assert LeaseOk(e, e.workers[c]) && LeaseOk(e, e.workers[d]);
  }
}
