/** Any number of coordinators executing and re-executing one rollout from the same run snapshot,
    each of its shifts going through its own broker attempt, all interleaved. */
module RolloutProtocol {
  import opened Wrappers
  import opened Rollout
  import B = BrokerProtocol
  import E = BrokerEffects
  import BrokerAttempt

  /** The run snapshot: what every execution of the stage reads. */
  datatype Plan = Plan(runId: string, fence: nat, items: seq<Item>, digest: Item -> string)

  datatype Phase =
    | Ready(next: nat)                  // before item `next`
    | Waiting(next: nat, worker: nat)   // its shift is with the broker
    | Promoted
    | Stopped

  datatype World = World(brokers: map<RequestId, B.World>, coordinators: map<nat, Phase>)

  datatype Step =
    | Start(k: nat)
    | Stop(k: nat)
    | Call(k: nat, worker: nat)
    | Answer(k: nat)
    | Verify(k: nat, passed: bool)
    | Promote(k: nat)
    | Inside(id: RequestId, inner: B.Step)

  predicate IsShift(p: Plan, n: nat) { n < |p.items| && p.items[n].Shift? }

  function Id(p: Plan, n: nat): RequestId
    requires IsShift(p, n)
  {
    IdOf(p.runId, p.fence, p.items[n])
  }

  function Binding(p: Plan, n: nat): BrokerAttempt.Binding
    requires IsShift(p, n)
  {
    BrokerAttempt.Binding(p.digest(p.items[n]), false)
  }

  predicate At(w: World, k: nat) { k in w.coordinators }

  /** The broker steps are those of crash-stop workers over connectors that reconcile exactly. */
  predicate Enabled(p: Plan, w: World, step: Step) {
    match step
    case Start(k) => k !in w.coordinators
    case Stop(k) => At(w, k) && !w.coordinators[k].Promoted?
    case Call(k, worker) =>
      && At(w, k) && w.coordinators[k].Ready? && IsShift(p, w.coordinators[k].next)
      && Id(p, w.coordinators[k].next) in w.brokers
      && worker !in w.brokers[Id(p, w.coordinators[k].next)].workers
    case Answer(k) =>
      && At(w, k) && w.coordinators[k].Waiting? && IsShift(p, w.coordinators[k].next)
      && Id(p, w.coordinators[k].next) in w.brokers
      && (var b := w.brokers[Id(p, w.coordinators[k].next)];
          && B.In(b, w.coordinators[k].worker)
          && (b.workers[w.coordinators[k].worker].phase.Returned?
              || b.workers[w.coordinators[k].worker].phase.Raised?))
    case Verify(k, _) =>
      && At(w, k) && w.coordinators[k].Ready?
      && w.coordinators[k].next < |p.items| && p.items[w.coordinators[k].next].Report?
    case Promote(k) => At(w, k) && w.coordinators[k] == Ready(|p.items|)
    case Inside(id, inner) =>
      && id in w.brokers && !inner.Spawn? && B.Enabled(w.brokers[id], inner)
      && E.Timely(w.brokers[id], inner) && E.Exact(w.brokers[id], inner)
  }

  function Move(w: World, k: nat, phase: Phase): World {
    w.(coordinators := w.coordinators[k := phase])
  }

  function Apply(p: Plan, w: World, step: Step): World
    requires Enabled(p, w, step)
  {
    match step
    case Start(k) => Move(w, k, Ready(0))
    case Stop(k) => Move(w, k, Stopped)
    case Call(k, worker) =>
      var n := w.coordinators[k].next;
      Move(w.(brokers := w.brokers[Id(p, n) :=
                B.Apply(w.brokers[Id(p, n)], B.Spawn(worker, Binding(p, n)))]),
           k, Waiting(n, worker))
    case Answer(k) =>
      var at := w.coordinators[k];
      var phase := w.brokers[Id(p, at.next)].workers[at.worker].phase;
      Move(w, k, if phase.Returned? && phase.result.succeeded then Ready(at.next + 1) else Stopped)
    case Verify(k, passed) =>
      Move(w, k, if passed then Ready(w.coordinators[k].next + 1) else Stopped)
    case Promote(k) => Move(w, k, Promoted)
    case Inside(id, inner) => w.(brokers := w.brokers[id := B.Apply(w.brokers[id], inner)])
  }

  ghost predicate Initial(p: Plan, w: World) {
    && w.coordinators == map[]
    && (forall n: nat :: IsShift(p, n) ==> Id(p, n) in w.brokers)
    && (forall id :: id in w.brokers ==> B.Initial(w.brokers[id]))
  }

  predicate Legal(p: Plan, w: World, steps: seq<Step>)
    decreases |steps|
  {
    steps == [] || (Enabled(p, w, steps[0]) && Legal(p, Apply(p, w, steps[0]), steps[1..]))
  }

  function Run(p: Plan, w: World, steps: seq<Step>): World
    requires Legal(p, w, steps)
    decreases |steps|
  {
    if steps == [] then w else Run(p, Apply(p, w, steps[0]), steps[1..])
  }

  // --------------------------------------------------------------- invariant

  predicate Succeeded(b: B.World) {
    b.attempt.Some? && b.attempt.value.status == BrokerAttempt.Succeeded
  }

  predicate Untouched(b: B.World) { b.attempt.None? && b.workers == map[] }

  ghost predicate DoneBefore(p: Plan, w: World, n: nat) {
    forall j: nat :: j < n && IsShift(p, j) ==> Id(p, j) in w.brokers && Succeeded(w.brokers[Id(p, j)])
  }

  /** The request belongs to a shift whose predecessors have all succeeded. */
  ghost predicate Due(p: Plan, w: World, id: RequestId) {
    exists n: nat :: IsShift(p, n) && Id(p, n) == id && DoneBefore(p, w, n)
  }

  ghost predicate CoordinatorOk(p: Plan, w: World, phase: Phase) {
    match phase
    case Ready(n) => n <= |p.items| && DoneBefore(p, w, n)
    case Waiting(n, _) => n <= |p.items| && DoneBefore(p, w, n)
    case Promoted => DoneBefore(p, w, |p.items|)
    case Stopped => true
  }

  ghost predicate Inv(p: Plan, w: World) {
    && (forall n: nat :: IsShift(p, n) ==> Id(p, n) in w.brokers)
    && (forall id :: id in w.brokers ==> E.Inv(w.brokers[id]))
    && (forall id :: id in w.brokers ==> Untouched(w.brokers[id]) || Due(p, w, id))
    && (forall k :: k in w.coordinators ==> CoordinatorOk(p, w, w.coordinators[k]))
  }

  /** Success is for good. */
  ghost predicate Keeps(w: World, w': World) {
    w'.brokers.Keys == w.brokers.Keys
    && forall id :: id in w.brokers && Succeeded(w.brokers[id]) ==> Succeeded(w'.brokers[id])
  }

  lemma KeepsDone(p: Plan, w: World, w': World)
    requires Keeps(w, w')
    ensures forall n: nat :: DoneBefore(p, w, n) ==> DoneBefore(p, w', n)
    ensures forall id :: Due(p, w, id) ==> Due(p, w', id)
  {
    forall id | Due(p, w, id) ensures Due(p, w', id) {
      var n: nat :| IsShift(p, n) && Id(p, n) == id && DoneBefore(p, w, n);
      assert DoneBefore(p, w', n);
    }
  }

  /** One broker took a step that keeps its own invariant. */
  lemma BrokerStep(p: Plan, w: World, w': World, id: RequestId)
    requires Inv(p, w) && id in w.brokers && id in w'.brokers
    requires w' == w.(brokers := w.brokers[id := w'.brokers[id]])
    requires E.Inv(w'.brokers[id]) && (Succeeded(w.brokers[id]) ==> Succeeded(w'.brokers[id]))
    requires Due(p, w, id) || Untouched(w'.brokers[id])
    ensures Inv(p, w')
  {
    KeepsDone(p, w, w');
    forall k | k in w.coordinators ensures CoordinatorOk(p, w', w.coordinators[k]) {
      assert CoordinatorOk(p, w, w.coordinators[k]);
    }
  }

  lemma InsideStep(p: Plan, w: World, id: RequestId, inner: B.Step)
    requires Inv(p, w) && Enabled(p, w, Inside(id, inner))
    ensures Inv(p, Apply(p, w, Inside(id, inner)))
  {
    E.StepInv(w.brokers[id], inner);
    B.StepAgree(w.brokers[id], inner);
    assert Untouched(w.brokers[id]) ==> Untouched(B.Apply(w.brokers[id], inner));
    BrokerStep(p, w, Apply(p, w, Inside(id, inner)), id);
  }

  lemma MoveStep(p: Plan, w: World, k: nat, phase: Phase)
    requires Inv(p, w) && CoordinatorOk(p, w, phase)
    ensures Inv(p, Move(w, k, phase))
  {
    var w' := Move(w, k, phase);
    KeepsDone(p, w, w');
    forall c | c in w'.coordinators ensures CoordinatorOk(p, w', w'.coordinators[c]) {
      assert CoordinatorOk(p, w, if c == k then phase else w.coordinators[c]);
    }
  }

  lemma CallStep(p: Plan, w: World, k: nat, worker: nat)
    requires Inv(p, w) && Enabled(p, w, Call(k, worker))
    ensures Inv(p, Apply(p, w, Call(k, worker)))
  {
    var n := w.coordinators[k].next;
    var id, spawn := Id(p, n), B.Spawn(worker, Binding(p, n));
    assert CoordinatorOk(p, w, w.coordinators[k]);
    E.StepInv(w.brokers[id], spawn);
    var w1 := w.(brokers := w.brokers[id := B.Apply(w.brokers[id], spawn)]);
    BrokerStep(p, w, w1, id);
    assert Keeps(w, w1);
    KeepsDone(p, w, w1);
    MoveStep(p, w1, k, Waiting(n, worker));
  }

  /** A coordinator goes on from a shift only with a returned success, which by agreement is the
      stored one. */
  lemma AnswerBacked(p: Plan, w: World, k: nat)
    requires Inv(p, w) && Enabled(p, w, Answer(k))
    ensures var at := w.coordinators[k];
      var b := w.brokers[Id(p, at.next)];
      b.workers[at.worker].phase.Returned? && b.workers[at.worker].phase.result.succeeded ==> Succeeded(b)
  {
    var at := w.coordinators[k];
    var b := w.brokers[Id(p, at.next)];
    assert E.Inv(b) && B.AgreeOk(b.attempt, b.workers[at.worker].phase);
  }

  lemma DoneNext(p: Plan, w: World, n: nat)
    requires DoneBefore(p, w, n) && (IsShift(p, n) ==> Id(p, n) in w.brokers && Succeeded(w.brokers[Id(p, n)]))
    ensures DoneBefore(p, w, n + 1)
  {
  }

  lemma AnswerStep(p: Plan, w: World, k: nat)
    requires Inv(p, w) && Enabled(p, w, Answer(k))
    ensures Inv(p, Apply(p, w, Answer(k)))
  {
    var at := w.coordinators[k];
    AnswerBacked(p, w, k);
    assert CoordinatorOk(p, w, at);
    var phase := w.brokers[Id(p, at.next)].workers[at.worker].phase;
    if phase.Returned? && phase.result.succeeded {
      DoneNext(p, w, at.next);
      MoveStep(p, w, k, Ready(at.next + 1));
    } else {
      MoveStep(p, w, k, Stopped);
    }
  }

  lemma VerifyStep(p: Plan, w: World, k: nat, passed: bool)
    requires Inv(p, w) && Enabled(p, w, Verify(k, passed))
    ensures Inv(p, Apply(p, w, Verify(k, passed)))
  {
    var n := w.coordinators[k].next;
    assert CoordinatorOk(p, w, w.coordinators[k]);
    DoneNext(p, w, n);
    MoveStep(p, w, k, if passed then Ready(n + 1) else Stopped);
  }

  lemma CoordinatorStep(p: Plan, w: World, step: Step)
    requires Inv(p, w) && Enabled(p, w, step) && (step.Start? || step.Stop? || step.Promote?)
    ensures Inv(p, Apply(p, w, step))
  {
    match step {
      case Start(k) =>
        assert DoneBefore(p, w, 0);
        MoveStep(p, w, k, Ready(0));
      case Stop(k) => MoveStep(p, w, k, Stopped);
      case Promote(k) =>
        assert CoordinatorOk(p, w, w.coordinators[k]);
        MoveStep(p, w, k, Promoted);
    }
  }

  lemma {:induction false} RunInv(p: Plan, w: World, steps: seq<Step>)
    requires Inv(p, w) && Legal(p, w, steps)
    ensures Inv(p, Run(p, w, steps))
    decreases |steps|
  {
    if steps != [] {
      match steps[0] {
        case Inside(id, inner) => InsideStep(p, w, id, inner);
        case Call(k, worker) => CallStep(p, w, k, worker);
        case Answer(k) => AnswerStep(p, w, k);
        case Verify(k, passed) => VerifyStep(p, w, k, passed);
        case _ => CoordinatorStep(p, w, steps[0]);
      }
      RunInv(p, Apply(p, w, steps[0]), steps[1..]);
    }
  }

  lemma InitialOk(p: Plan, w: World)
    requires Initial(p, w)
    ensures Inv(p, w)
  {
    forall id | id in w.brokers ensures E.Inv(w.brokers[id]) {
      E.InitialOk(w.brokers[id]);
    }
  }

  /** However many coordinators execute the stage, crash and execute it again, and whatever the
      broker workers do: no shift takes effect twice; a shift takes effect only when every earlier
      shift of the schedule is in effect exactly once and recorded SUCCEEDED; and a promoted
      rollout has every shift in effect exactly once. */
  lemma ShiftsInOrderOnce(
    percents: seq<nat>, deployments: seq<Deployment>, p: Plan, w: World, steps: seq<Step>)
    requires Increasing(percents) && DistinctBindings(deployments)
    requires p.items == Schedule(percents, deployments)
    requires Initial(p, w) && Legal(p, w, steps)
    ensures var e := Run(p, w, steps);
      && (forall n: nat :: IsShift(p, n) ==> Id(p, n) in e.brokers && e.brokers[Id(p, n)].effects <= 1)
      && (forall n: nat, j: nat :: IsShift(p, n) && IsShift(p, j) && j < n && e.brokers[Id(p, n)].effects > 0 ==>
            e.brokers[Id(p, j)].effects == 1 && Succeeded(e.brokers[Id(p, j)]))
      && (forall k: nat, n: nat :: k in e.coordinators && e.coordinators[k].Promoted? && IsShift(p, n) ==>
            e.brokers[Id(p, n)].effects == 1 && Succeeded(e.brokers[Id(p, n)]))
  {
    InitialOk(p, w);
    RunInv(p, w, steps);
    var e := Run(p, w, steps);
    forall n: nat | IsShift(p, n)
      ensures Id(p, n) in e.brokers && e.brokers[Id(p, n)].effects <= 1
      ensures Succeeded(e.brokers[Id(p, n)]) ==> e.brokers[Id(p, n)].effects == 1
    {
      assert E.Inv(e.brokers[Id(p, n)]);
    }
    forall n: nat, j: nat | IsShift(p, n) && IsShift(p, j) && j < n && e.brokers[Id(p, n)].effects > 0
      ensures Succeeded(e.brokers[Id(p, j)])
    {
      EarlierSucceeded(percents, deployments, p, e, n, j);
    }
    forall k: nat, n: nat | k in e.coordinators && e.coordinators[k].Promoted? && IsShift(p, n)
      ensures Succeeded(e.brokers[Id(p, n)])
    {
      assert CoordinatorOk(p, e, e.coordinators[k]);
    }
  }

  /** A request that has left a mark is due, and no other shift shares its identifier. */
  lemma EarlierSucceeded(percents: seq<nat>, deployments: seq<Deployment>, p: Plan, e: World, n: nat, j: nat)
    requires Increasing(percents) && DistinctBindings(deployments)
    requires p.items == Schedule(percents, deployments) && Inv(p, e)
    requires IsShift(p, n) && IsShift(p, j) && j < n && e.brokers[Id(p, n)].effects > 0
    ensures Succeeded(e.brokers[Id(p, j)])
  {
    assert E.Inv(e.brokers[Id(p, n)]);
    var m: nat :| IsShift(p, m) && Id(p, m) == Id(p, n) && DoneBefore(p, e, m);
    if m < n {
      ScheduleIdsDistinct(percents, deployments, p.runId, p.fence, m, n);
    } else if n < m {
      ScheduleIdsDistinct(percents, deployments, p.runId, p.fence, n, m);
    }
  }
}
