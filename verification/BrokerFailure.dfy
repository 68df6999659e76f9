/** What FAILED says about the outside: when an attempt that ends FAILED has its remote effect. */
module BrokerFailure {
  import opened Wrappers
  import opened BrokerAttempt
  import opened BrokerProtocol
  import opened BrokerEffects

  /** How a worker's mutation came to fail. */
  datatype Ending =
    | CallRaised(applied: bool)        // connector.execute raised, with its effect in place or not
    | SecretMissing                    // it answered, but not with the secret that was expected
    | Compensated(reply: Reply)        // the secret had no sink, and the credential was revoked or not
    | EvidenceRaised                   // it answered, and the evidence could not be written
    | CheckpointRaised                 // and the checkpoint was refused or its answer lost

  /** Does the effect outlive the failure? Only a call that raised before its effect, or a revocation
      that took place, leaves none. */
  predicate Leaves(ending: Ending) {
    match ending
    case CallRaised(applied) => applied
    case Compensated(reply) => reply.Dropped?
    case _ => true
  }

  function EndingOf(step: Step): Option<Ending> {
    match step
    case Execute(_, Refused(_, applied)) => Some(CallRaised(applied))
    case Execute(_, Broke(applied)) => Some(CallRaised(applied))
    case Store(_, NoSecret(_)) => Some(SecretMissing)
    case Compensate(_, reply, _) => Some(Compensated(reply))
    case Record(_, _, _) => Some(EvidenceRaised)
    case Checkpoint(_, _) => Some(CheckpointRaised)
    case _ => None
  }

  /** What happened so far: how each worker that is about to finish a failure came to it, and how the
      one came to it whose failure was stored. */
  datatype History = History(endings: map<nat, Ending>, verdict: Option<Ending>)

  predicate Fails(phase: Phase) { phase.Finishing? && !phase.result.succeeded }

  predicate IsFailed(stored: Stored) { stored.Some? && stored.value.status == Failed }

  function Noted(w: World, step: Step, h: History): History
    requires Enabled(w, step)
  {
    var w' := Apply(w, step);
    if step.Finish? && !IsFailed(w.attempt) && IsFailed(w'.attempt) then
      h.(verdict := if step.c in h.endings then Some(h.endings[step.c]) else None)
    else if EndingOf(step).Some? && Fails(w'.workers[step.c].phase) then
      h.(endings := h.endings[step.c := EndingOf(step).value])
    else h
  }

  function Told(w: World, steps: seq<Step>, h: History): History
    requires Legal(w, steps)
    decreases |steps|
  {
    if steps == [] then h else Told(Apply(w, steps[0]), steps[1..], Noted(w, steps[0], h))
  }

  const NOTHING_YET := History(map[], None)

  // -------------------------------------------------------------------- invariant

  function Count(ending: Ending): nat { if Leaves(ending) then 1 else 0 }

  ghost predicate PhaseOk(w: World, h: History, c: nat, phase: Phase) {
    && (phase.Compensating? ==> w.effects == 1)
    && (Fails(phase) ==> c in h.endings && w.effects == Count(h.endings[c]))
  }

  ghost predicate WorkersOk(w: World, h: History) {
    forall c :: c in w.workers && Live(w, w.workers[c].phase) ==> PhaseOk(w, h, c, w.workers[c].phase)
  }

  ghost predicate VerdictOk(w: World, h: History) {
    IsFailed(w.attempt) ==> h.verdict.Some? && w.effects == Count(h.verdict.value)
  }

  predicate Calls(step: Step) { step.Reconcile? || step.Execute? || step.Compensate? }

  /** Only a live worker changes what is outside, and only before the attempt is terminal. */
  lemma OutsideChanges(w: World, step: Step)
    requires Inv(w) && Enabled(w, step) && Timely(w, step)
    ensures Apply(w, step).effects != w.effects ==>
      Calls(step) && Live(w, w.workers[step.c].phase) && w.attempt.Some? && !w.attempt.value.Terminal()
  {
    if Calls(step) {
      assert LeaseOk(w, w.workers[step.c]) && WorkerOk(w, w.workers[step.c]);
    }
  }

  /** So what a live worker sees outside is changed by nobody else. */
  lemma ChangesOwn(w: World, step: Step, d: nat)
    requires Inv(w) && Enabled(w, step) && Timely(w, step) && !step.Tick?
    requires d in w.workers && Live(w, w.workers[d].phase)
    ensures Apply(w, step).effects == w.effects || step.c == d
  {
    OutsideChanges(w, step);
    if step.c in w.workers {
      assert LeaseOk(w, w.workers[step.c]) && LeaseOk(w, w.workers[d]);
    }
  }

  lemma PhaseFrame(w: World, w': World, h: History, h': History, d: nat, phase: Phase)
    requires Live(w, phase) ==> PhaseOk(w, h, d, phase)
    requires Live(w', phase) && w.now <= w'.now && w'.effects == w.effects
    requires d in h.endings ==> d in h'.endings && h'.endings[d] == h.endings[d]
    ensures PhaseOk(w', h', d, phase)
  {
  }

  lemma Elsewhere(w: World, step: Step, h: History, d: nat)
    requires Enabled(w, step) && d in w.workers && (step.Tick? || d != step.c)
    ensures d in Apply(w, step).workers && Apply(w, step).workers[d] == w.workers[d] && w.now <= Apply(w, step).now
    ensures d in h.endings ==> d in Noted(w, step, h).endings && Noted(w, step, h).endings[d] == h.endings[d]
  {
  }

  lemma PhaseKept(w: World, step: Step, h: History, d: nat)
    requires Inv(w) && Enabled(w, step) && Timely(w, step) && WorkersOk(w, h)
    requires d in w.workers && (step.Tick? || d != step.c) && Live(Apply(w, step), w.workers[d].phase)
    ensures PhaseOk(Apply(w, step), Noted(w, step, h), d, w.workers[d].phase)
  {
    Elsewhere(w, step, h, d);
    if !step.Tick? { ChangesOwn(w, step, d); }
    PhaseFrame(w, Apply(w, step), h, Noted(w, step, h), d, w.workers[d].phase);
  }

  lemma CallMoves(w: World, step: Step, h: History)
    requires Inv(w) && Enabled(w, step) && Timely(w, step) && WorkersOk(w, h) && Calls(step)
    ensures PhaseOk(Apply(w, step), Noted(w, step, h), step.c, Apply(w, step).workers[step.c].phase)
  {
    assert LeaseOk(w, w.workers[step.c]) && WorkerOk(w, w.workers[step.c]);
    assert PhaseOk(w, h, step.c, w.workers[step.c].phase);
  }

  lemma WorkMoves(w: World, step: Step, h: History)
    requires Inv(w) && Enabled(w, step) && Timely(w, step) && WorkersOk(w, h)
    requires step.Store? || step.Record? || step.Checkpoint?
    ensures PhaseOk(Apply(w, step), Noted(w, step, h), step.c, Apply(w, step).workers[step.c].phase)
  {
    assert LeaseOk(w, w.workers[step.c]) && WorkerOk(w, w.workers[step.c]);
    assert PhaseOk(w, h, step.c, w.workers[step.c].phase);
  }

  predicate Works(step: Step) { Calls(step) || step.Store? || step.Record? || step.Checkpoint? }

  /** No other step leads into a compensation or a failure. */
  lemma OthersMove(w: World, step: Step)
    requires Enabled(w, step) && !step.Tick? && !Works(step)
    ensures !Apply(w, step).workers[step.c].phase.Compensating? && !Fails(Apply(w, step).workers[step.c].phase)
  {
  }

  lemma WorkersStep(w: World, step: Step, h: History)
    requires Inv(w) && Enabled(w, step) && Timely(w, step) && WorkersOk(w, h)
    ensures WorkersOk(Apply(w, step), Noted(w, step, h))
  {
    var w', h' := Apply(w, step), Noted(w, step, h);
    forall d | d in w'.workers && Live(w', w'.workers[d].phase)
      ensures PhaseOk(w', h', d, w'.workers[d].phase)
    {
      if step.Tick? || d != step.c {
        Elsewhere(w, step, h, d);
        PhaseKept(w, step, h, d);
      } else if Calls(step) {
        CallMoves(w, step, h);
      } else if Works(step) {
        WorkMoves(w, step, h);
      } else {
        OthersMove(w, step);
      }
    }
  }

  lemma VerdictStep(w: World, step: Step, h: History)
    requires Inv(w) && Enabled(w, step) && Timely(w, step) && WorkersOk(w, h) && VerdictOk(w, h)
    ensures VerdictOk(Apply(w, step), Noted(w, step, h))
  {
    OutsideChanges(w, step);
    StepFinal(w, step);
    if !IsFailed(w.attempt) && IsFailed(Apply(w, step).attempt) { FailsByFinish(w, step, h); }
  }

  /** An attempt becomes FAILED only when a live worker finishes its own failure. */
  lemma FailsByFinish(w: World, step: Step, h: History)
    requires Inv(w) && Enabled(w, step) && Timely(w, step) && WorkersOk(w, h)
    requires !IsFailed(w.attempt) && IsFailed(Apply(w, step).attempt)
    ensures step.Finish? && step.c in h.endings && w.effects == Count(h.endings[step.c])
    ensures Apply(w, step).effects == w.effects
  {
    var k := w.workers[step.c];
    assert WorkerOk(w, k) && LeaseOk(w, k);
    if step.Finish? {
      assert Live(w, k.phase) && Fails(k.phase);
      assert PhaseOk(w, h, step.c, k.phase);
    }
  }

  lemma {:induction false} RunTold(w: World, steps: seq<Step>, h: History)
    requires Inv(w) && Legal(w, steps) && Orderly(w, steps) && WorkersOk(w, h) && VerdictOk(w, h)
    ensures VerdictOk(Run(w, steps), Told(w, steps, h))
    decreases |steps|
  {
    if steps != [] {
      BrokerEffects.StepInv(w, steps[0]);
      WorkersStep(w, steps[0], h);
      VerdictStep(w, steps[0], h);
      RunTold(Apply(w, steps[0]), steps[1..], Noted(w, steps[0], h));
    }
  }

  // --------------------------------------------------------------------- theorem

  /** In every orderly run that ends with the attempt FAILED, somebody's failure was stored, and the
      effect is in place exactly if that failure leaves it: not when the remote call raised before its
      effect, nor when the created credential's revocation took place, and in every other case. */
  lemma FailedEffectExactly(w: World, steps: seq<Step>)
    requires Initial(w) && Legal(w, steps) && Orderly(w, steps)
    ensures var e, h := Run(w, steps), Told(w, steps, NOTHING_YET);
      IsFailed(e.attempt) ==>
        && h.verdict.Some? && e.effects <= 1
        && (e.effects == 0 <==> h.verdict.value == CallRaised(false) ||
                                (h.verdict.value.Compensated? && !h.verdict.value.reply.Dropped?))
  {
    BrokerEffects.InitialOk(w);
    RunTold(w, steps, NOTHING_YET);
  }
}
