/** Effect counting for the broker protocol: what the outside world looks like in runs whose workers
    stop when their lease ends and whose connectors reconcile exactly. */
module BrokerEffects {
  import opened Wrappers
  import opened BrokerAttempt
  import opened BrokerProtocol

  /** Crash-stop: a worker takes no step once its lease has run out. */
  predicate Timely(w: World, step: Step)
    requires Enabled(w, step)
  {
    step.Tick? || step.Spawn? || step.Crash? || Lease(w.workers[step.c].phase).None?
    || w.now < Lease(w.workers[step.c].phase).value
  }

  /** `reconcile` is exact: it answers a response just when the effect is in place, and when it
      answers none it leaves none; a call that raises may have removed the effect or not. */
  predicate Exact(w: World, step: Step) {
    step.Reconcile? ==>
      match step.answer
      case Found(_) => step.left == w.effects > 0
      case Clean => step.left == 0
      case Stuck => step.left == w.effects || step.left == 0
  }

  predicate Orderly(w: World, steps: seq<Step>)
    requires Legal(w, steps)
    decreases |steps|
  {
    steps == [] ||
    (Timely(w, steps[0]) && Exact(w, steps[0]) && Orderly(Apply(w, steps[0]), steps[1..]))
  }

  /** The enabled secret versions this request may have added. */
  function Added(w: World): set<nat> {
    if w.attempt.Some? && w.attempt.value.binding.creates
    then Extra(w.versions, w.attempt.value.baseline) else {}
  }

  /** One effect is in place, with exactly the secret version a result names. */
  predicate Backs(w: World, version: Option<nat>)
    requires w.attempt.Some?
  {
    && w.effects == 1
    && Added(w) == (if version.Some? then {version.value} else {})
    && (w.attempt.value.binding.creates ==> version.Some?)
  }

  // -------------------------------------------------------------- invariant

  ghost predicate LiveOk(w: World, phase: Phase)
    requires w.attempt.Some?
  {
    && (!phase.Finishing? ==> !w.attempt.value.Terminal() && w.attempt.value.checkpoint.None?)
    && match phase
       case Reconciling(_, baseline) => baseline == w.attempt.value.baseline
       case Sweeping(_, baseline, found) =>
         baseline == w.attempt.value.baseline && w.effects == if found.Some? then 1 else 0
       case Executing(_) => w.effects == 0 && Added(w) == {}
       case Storing(_, _, _) => w.effects == 1 && Added(w) == {}
       case Recording(_, _, version, _) => Backs(w, version)
       case Checkpointing(_, r, _) => r.succeeded && Backs(w, r.version)
       case Finishing(_, r, _) => r.succeeded ==> Backs(w, r.version)
       case _ => true
  }

  predicate Live(w: World, phase: Phase) {
    Lease(phase).Some? && w.now < Lease(phase).value
  }

  ghost predicate Waits(w: World, k: Worker) {
    match k.phase
    case Read(p) => p.Some? ==>
      && w.attempt.Some? && p.value.baseline == w.attempt.value.baseline
      && (p.value.checkpoint.Some? && !w.attempt.value.Terminal() ==>
            w.attempt.value.checkpoint == p.value.checkpoint)
    case Reclaiming(_, stale) => w.attempt.Some? && stale.baseline == w.attempt.value.baseline
    case Sweeping(_, _, _) => k.binding.creates
    case Settling(r) =>
      w.attempt.Some? && (!w.attempt.value.Terminal() ==> w.attempt.value.checkpoint == Some(r))
    case Beginning(_, baseline) =>
      w.attempt.None? ==> baseline == if k.binding.creates then w.versions.Keys else {}
    case _ => true
  }

  ghost predicate WorkerOk(w: World, k: Worker) {
    Waits(w, k) && (w.attempt.Some? && Live(w, k.phase) ==> LiveOk(w, k.phase))
  }

  ghost predicate RemoteOk(w: World) {
    && (w.attempt.None? ==> w.effects == 0)
    && (w.attempt.Some? ==>
          && w.effects <= 1 && |Added(w)| <= 1
          && w.attempt.value.baseline <= w.versions.Keys
          && (w.attempt.value.checkpoint.Some? ==>
                w.attempt.value.checkpoint.value.succeeded
                && Backs(w, w.attempt.value.checkpoint.value.version))
          && (w.attempt.value.status == Succeeded && w.attempt.value.result.Some? ==>
                Backs(w, w.attempt.value.result.value.version)))
  }

  ghost predicate Inv(w: World) {
    AgreeInv(w) && LeaseInv(w) && RemoteOk(w)
    && forall c :: c in w.workers ==> WorkerOk(w, w.workers[c])
  }

  ghost predicate OwnOk(w: World, c: nat) {
    c in w.workers && RemoteOk(w) && WorkerOk(w, w.workers[c])
  }

  /** A worker under an unexpired lease is the only one. */
  lemma LiveIsAlone(w: World, c: nat, d: nat)
    requires LeaseInv(w) && In(w, c) && In(w, d) && c != d && Live(w, w.workers[c].phase)
    ensures !Live(w, w.workers[d].phase)
  {
    assert LeaseOk(w, w.workers[c]) && LeaseOk(w, w.workers[d]);
  }

  // ------------------------------------------------- steps, one kind a lemma

  /** Reading the attempt or the baseline, appending to the audit log, crashing. */
  lemma LocalStep(w: World, step: Step)
    requires Inv(w) && Enabled(w, step)
    requires step.Load? || step.Prepare? || step.AppendAudit? || step.Crash?
    ensures OwnOk(Apply(w, step), step.c)
  {
    assert WorkerOk(w, w.workers[step.c]);
  }

  lemma EnterStep(w: World, step: Step)
    requires Inv(w) && Enabled(w, step) && step.Enter?
    ensures OwnOk(Apply(w, step), step.c)
  {
    assert WorkerOk(w, w.workers[step.c]);
  }

  lemma DisableOne(versions: map<nat, bool>, baseline: set<nat>, reply: Reply)
    requires |Extra(versions, baseline)| <= 1
    ensures var swept := Swept(versions, baseline, reply);
      && swept.Keys == versions.Keys
      && Extra(swept, baseline) <= Extra(versions, baseline)
      && (!reply.Dropped? || Extra(versions, baseline) == {} ==> Extra(swept, baseline) == {})
  {
    var extra := Extra(versions, baseline);
    if |extra| == 0 {
      assert extra == {};
    }
  }

  lemma AddOne(versions: map<nat, bool>, baseline: set<nat>, v: nat)
    requires baseline <= versions.Keys && v !in versions
    ensures Extra(versions[v := true], baseline) == Extra(versions, baseline) + {v}
  {}

  lemma SubsetSize(a: set<nat>, b: set<nat>)
    requires a <= b
    ensures |a| <= |b|
  {
    assert b == a + (b - a);
  }

  /** Remote calls by a worker whose lease is running. */
  lemma ReconcileStep(w: World, step: Step)
    requires Inv(w) && Enabled(w, step) && Timely(w, step) && Exact(w, step) && step.Reconcile?
    ensures OwnOk(Apply(w, step), step.c)
  {
    var k := w.workers[step.c];
    assert WorkerOk(w, k) && LeaseOk(w, k);
    assert Added(Apply(w, step)) == Added(w);
  }

  lemma ExecuteStep(w: World, step: Step)
    requires Inv(w) && Enabled(w, step) && Timely(w, step) && Exact(w, step) && step.Execute?
    ensures OwnOk(Apply(w, step), step.c)
  {
    var k := w.workers[step.c];
    assert WorkerOk(w, k) && LeaseOk(w, k);
    assert Added(Apply(w, step)) == Added(w);
  }

  lemma CallStep(w: World, step: Step)
    requires Inv(w) && Enabled(w, step) && Timely(w, step) && Exact(w, step) && (step.Compensate? || step.Record?)
    ensures OwnOk(Apply(w, step), step.c)
  {
    var k := w.workers[step.c];
    assert WorkerOk(w, k) && LeaseOk(w, k);
    assert Added(Apply(w, step)) == Added(w);
  }

  /** The sink's part of a reconciliation never meets two candidates, and leaves none enabled
      when it lets the worker go on. */
  lemma SweepStep(w: World, step: Step)
    requires Inv(w) && Enabled(w, step) && Timely(w, step) && step.Sweep?
    ensures OwnOk(Apply(w, step), step.c)
  {
    var k := w.workers[step.c];
    assert WorkerOk(w, k) && LeaseOk(w, k);
    assert Added(w) == Extra(w.versions, k.phase.baseline);
    DisableOne(w.versions, k.phase.baseline, step.reply);
    SubsetSize(Added(Apply(w, step)), Added(w));
  }

  lemma StoreStep(w: World, step: Step)
    requires Inv(w) && Enabled(w, step) && Timely(w, step) && step.Store?
    ensures OwnOk(Apply(w, step), step.c)
  {
    var k := w.workers[step.c];
    assert WorkerOk(w, k) && LeaseOk(w, k);
    if k.binding.creates && (step.kept.Kept? || step.kept.Unsure?) {
      AddOne(w.versions, w.attempt.value.baseline, step.kept.version);
    }
  }

  /** Beginning an attempt: nothing has happened yet, and every version is in the baseline. */
  lemma BeginStep(w: World, step: Step)
    requires Inv(w) && Enabled(w, step) && step.Begin?
    ensures OwnOk(Apply(w, step), step.c)
  {
    var k := w.workers[step.c];
    assert WorkerOk(w, k) && LeaseOk(w, k);
    assert w.attempt.None? && k.binding.creates ==> Extra(w.versions, k.phase.baseline) == {};
  }

  lemma ReclaimStep(w: World, step: Step)
    requires Inv(w) && Enabled(w, step) && step.Reclaim?
    ensures OwnOk(Apply(w, step), step.c)
  {
    var k := w.workers[step.c];
    assert WorkerOk(w, k) && LeaseOk(w, k);
    assert w.attempt.Some? ==> Added(Apply(w, step)) == Added(w);
  }

  lemma CheckpointStep(w: World, step: Step)
    requires Inv(w) && Enabled(w, step) && Timely(w, step) && step.Checkpoint?
    ensures OwnOk(Apply(w, step), step.c)
  {
    var k := w.workers[step.c];
    assert WorkerOk(w, k) && LeaseOk(w, k);
    assert Added(Apply(w, step)) == Added(w);
  }

  /** Finishing over somebody else's checkpoint needs no lease: the checkpoint is backed. */
  lemma SettleStep(w: World, step: Step)
    requires Inv(w) && Enabled(w, step) && step.Settle?
    ensures OwnOk(Apply(w, step), step.c)
  {
    assert WorkerOk(w, w.workers[step.c]);
    assert w.attempt.Some? && Added(Apply(w, step)) == Added(w);
  }

  lemma FinishStep(w: World, step: Step)
    requires Inv(w) && Enabled(w, step) && Timely(w, step) && step.Finish?
    ensures OwnOk(Apply(w, step), step.c)
  {
    var k := w.workers[step.c];
    assert WorkerOk(w, k) && LeaseOk(w, k);
    assert Added(Apply(w, step)) == Added(w);
  }

  lemma OwnStep(w: World, step: Step)
    requires Inv(w) && Enabled(w, step) && Timely(w, step) && Exact(w, step)
    requires !step.Tick? && !step.Spawn?
    ensures OwnOk(Apply(w, step), step.c)
  {
    match step {
      case Sweep(_, _) => SweepStep(w, step);
      case Store(_, _) => StoreStep(w, step);
      case Begin(_, _) => BeginStep(w, step);
      case Reclaim(_, _) => ReclaimStep(w, step);
      case Checkpoint(_, _) => CheckpointStep(w, step);
      case Finish(_, _) => FinishStep(w, step);
      case Settle(_, _) => SettleStep(w, step);
      case Reconcile(_, _, _) => ReconcileStep(w, step);
      case Execute(_, _) => ExecuteStep(w, step);
      case Compensate(_, _, _) => CallStep(w, step);
      case Record(_, _, _) => CallStep(w, step);
      case Enter(_) => EnterStep(w, step);
      case _ => LocalStep(w, step);
    }
  }

  // -------------------------------------------------------- everybody else

  /** What a step does to the attempt as the other workers see it. */
  ghost predicate Steady(w: World, w': World) {
    && (w.attempt.Some? ==>
          && w'.attempt.Some? && w'.attempt.value.baseline == w.attempt.value.baseline
          && (w.attempt.value.Terminal() ==> w'.attempt.value.Terminal())
          && (w.attempt.value.checkpoint.Some? && !w'.attempt.value.Terminal() ==>
                w'.attempt.value.checkpoint == w.attempt.value.checkpoint))
    && (w.attempt.None? && w'.attempt.None? ==> w'.versions == w.versions)
  }

  lemma StepSteady(w: World, step: Step)
    requires LeaseInv(w) && Enabled(w, step)
    ensures Steady(w, Apply(w, step))
  {
    if !step.Tick? && !step.Spawn? {
      assert LeaseOk(w, w.workers[step.c]);
    }
  }

  /** How a step may bear on a worker whose lease is running and who did not take it: not at all,
      or by finishing an attempt over its checkpoint. */
  ghost predicate Aside(w: World, w': World) {
    w'.effects == w.effects && w'.versions == w.versions &&
    (w'.attempt == w.attempt ||
     (w.attempt.Some? && w'.attempt.Some? && w.attempt.value.checkpoint.Some?
      && w'.attempt.value.binding == w.attempt.value.binding
      && w'.attempt.value.baseline == w.attempt.value.baseline))
  }

  lemma StepAside(w: World, step: Step)
    requires Inv(w) && Enabled(w, step) && !step.Tick? && !step.Spawn?
    requires Lease(w.workers[step.c].phase).None? && !step.Begin? && !step.Reclaim?
    ensures Aside(w, Apply(w, step))
  {
    assert WorkerOk(w, w.workers[step.c]);
  }

  lemma FrameWorker(w: World, w': World, c: nat, d: nat)
    requires Inv(w) && LeaseInv(w') && Moved(w, w', c) && Later(w, w') && Steady(w, w')
    requires In(w, d) && d != c
    requires Live(w, w.workers[c].phase) || Aside(w, w') || w.attempt.None?
          || (w'.attempt.Some? && w.attempt.value.leaseExpiresAt < w'.attempt.value.leaseExpiresAt)
    ensures WorkerOk(w', w'.workers[d])
  {
    var k := w.workers[d];
    assert WorkerOk(w, k) && LeaseOk(w, k) && LeaseOk(w', w'.workers[d]);
    if Live(w, w.workers[c].phase) {
      LiveIsAlone(w, c, d);
    }
  }

  lemma StepInv(w: World, step: Step)
    requires Inv(w) && Enabled(w, step) && Timely(w, step) && Exact(w, step)
    ensures Inv(Apply(w, step))
  {
    var w' := Apply(w, step);
    StepAgree(w, step);
    StepLease(w, step);
    if step.Tick? || step.Spawn? {
      forall d | d in w'.workers ensures WorkerOk(w', w'.workers[d]) {
        assert d in w.workers ==> WorkerOk(w, w.workers[d]);
      }
    } else {
      OwnStep(w, step);
      OthersStep(w, step);
    }
  }

  lemma OthersStep(w: World, step: Step)
    requires Inv(w) && Enabled(w, step) && Timely(w, step) && !step.Tick? && !step.Spawn?
    requires LeaseInv(Apply(w, step))
    ensures var w' := Apply(w, step);
      forall d :: d in w'.workers && d != step.c ==> WorkerOk(w', w'.workers[d])
  {
    var w' := Apply(w, step);
    StepMoves(w, step);
    StepLater(w, step);
    StepSteady(w, step);
    var c := step.c;
    if Lease(w.workers[c].phase).None? && !step.Begin? && !step.Reclaim? {
      StepAside(w, step);
    }
    forall d | d in w'.workers && d != c ensures WorkerOk(w', w'.workers[d]) {
      FrameWorker(w, w', c, d);
    }
  }

  lemma {:induction false} RunInv(w: World, steps: seq<Step>)
    requires Inv(w) && Legal(w, steps) && Orderly(w, steps)
    ensures Inv(Run(w, steps))
    decreases |steps|
  {
    if steps != [] {
      StepInv(w, steps[0]);
      RunInv(Apply(w, steps[0]), steps[1..]);
    }
  }

  // -------------------------------------------------------------- theorems

  lemma InitialOk(w: World)
    requires Initial(w)
    ensures Inv(w)
  {}

  /** Over any number of crashes, lost answers and reclaims, a request has at most one net remote
      effect, and exactly one if its attempt is SUCCEEDED. */
  lemma AtMostOneEffect(w: World, steps: seq<Step>)
    requires Initial(w) && Legal(w, steps) && Orderly(w, steps)
    ensures var e := Run(w, steps);
      && e.effects <= 1
      && (e.attempt.Some? && e.attempt.value.status == Succeeded ==> e.effects == 1)
  {
    InitialOk(w);
    RunInv(w, steps);
  }

  /** For a credential creation: at no time are two secret versions outside the baseline enabled,
      so a sweep never meets several candidates; and SUCCEEDED means exactly one is, the one the
      stored result names. */
  lemma AtMostOneSecret(w: World, steps: seq<Step>)
    requires Initial(w) && Legal(w, steps) && Orderly(w, steps)
    requires var e := Run(w, steps); e.attempt.Some? && e.attempt.value.binding.creates
    ensures var e := Run(w, steps);
      var extra := Extra(e.versions, e.attempt.value.baseline);
      && |extra| <= 1
      && (e.attempt.value.status == Succeeded ==>
            && e.attempt.value.result.Some? && e.attempt.value.result.value.version.Some?
            && extra == {e.attempt.value.result.value.version.value})
      && forall c :: c in e.workers && e.workers[c].phase.Sweeping? && Live(e, e.workers[c].phase) ==>
           |Extra(e.versions, e.workers[c].phase.baseline)| <= 1
  {
    InitialOk(w);
    RunInv(w, steps);
    var e := Run(w, steps);
    assert forall c :: c in e.workers ==> WorkerOk(e, e.workers[c]);
  }

  // --------------------------------------------------------- what FAILED does not say

  lemma {:induction false} Extend(w: World, steps: seq<Step>, step: Step) returns (longer: seq<Step>, e: World)
    requires Legal(w, steps) && Orderly(w, steps)
    requires Enabled(Run(w, steps), step) && Timely(Run(w, steps), step) && Exact(Run(w, steps), step)
    ensures longer == steps + [step] && Legal(w, longer) && Orderly(w, longer)
    ensures e == Run(w, longer) == Apply(Run(w, steps), step)
    decreases |steps|
  {
    longer := steps + [step];
    if steps == [] {
      assert longer[1..] == [];
    } else {
      assert longer[1..] == steps[1..] + [step];
      var rest, end := Extend(Apply(w, steps[0]), steps[1..], step);
    }
    e := Run(w, longer);
  }

  const REQUEST := Binding("digest", false)

  /** A worker begins the attempt of a request that stores no secret. */
  lemma Begins() returns (w: World, steps: seq<Step>, e: World)
    ensures Initial(w) && Legal(w, steps) && Orderly(w, steps) && e == Run(w, steps)
    ensures e.attempt == Some(Attempt(REQUEST, Running, None, None, {}, 0, 10, None))
    ensures e.effects == 0 && e.now == 0 && e.workers == map[0 := Worker(REQUEST, Executing(10))]
    ensures e.versions == map[]
  {
    w := World(0, 10, None, 0, map[], map[]);
    steps := [];
    steps, e := Extend(w, steps, Spawn(0, REQUEST));
    steps, e := Extend(w, steps, Load(0));
    steps, e := Extend(w, steps, Enter(0));
    steps, e := Extend(w, steps, Prepare(0));
    steps, e := Extend(w, steps, Step.Begin(0, Acked));
  }

  /** The remote call takes effect and answers. */
  lemma Executes() returns (w: World, steps: seq<Step>, e: World)
    ensures Initial(w) && Legal(w, steps) && Orderly(w, steps) && e == Run(w, steps)
    ensures e.attempt == Some(Attempt(REQUEST, Running, None, None, {}, 0, 10, None))
    ensures e.effects == 1 && e.now == 0 && e.workers == map[0 := Worker(REQUEST, Recording(10, "done", None, false))]
  {
    w, steps, e := Begins();
    steps, e := Extend(w, steps, Step.Execute(0, Answered("done")));
    steps, e := Extend(w, steps, Step.Store(0, Kept(0)));
  }

  /** Even in orderly runs an attempt that ends FAILED may have had its effect: the evidence is
      written after the remote call, and when that fails the attempt is finished as a failure. */
  lemma FailedWithEffect() returns (w: World, steps: seq<Step>)
    ensures Initial(w) && Legal(w, steps) && Orderly(w, steps)
    ensures var e := Run(w, steps);
      e.attempt.Some? && e.attempt.value.status == Failed && e.effects == 1
  {
    var e: World;
    w, steps, e := Executes();
    steps, e := Extend(w, steps, Step.Record(0, None, true));
    steps, e := Extend(w, steps, Step.Finish(0, Acked));
  }
}
