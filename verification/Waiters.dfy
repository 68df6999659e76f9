/** The list of paused runs waiting for a connection, changed by two services at once: the
    coordinator records runs (server/coordinator/service.py, `_remember_waiting_run`) and the setup
    service resumes and removes them (server/browser/setup.py, `_resume_waiting`). */
module Waiters {
  import opened Wrappers

  datatype Waiter = Waiter(runIds: seq<string>, revision: nat)

  datatype Phase =
    // _remember_waiting_run, with the attempts it has left
    | Remembering(run: string, left: nat)                 // before it reads
    | Creating(run: string, left: nat)                    // the read found no document
    | Appending(run: string, left: nat, seen: Waiter)     // the read did not list the run
    | Remembered(run: string, wrote: bool)
    // _resume_waiting
    | Resuming                                            // before it reads
    | Loaded(seen: Waiter)                                // before it resumes the runs
    | Removing(seen: Waiter, resumed: set<string>)        // before it writes what remains
    | Resumed(resumed: set<string>)
    | Raised

  /** History variables: `inserted` and `removed` count the identifiers writes have added and taken
      out; `succeeded` and `removedBy` record which caller resumed, and removed, which run. */
  datatype World = World(
    waiter: Option<Waiter>,
    callers: map<nat, Phase>,
    inserted: multiset<string>,
    removed: multiset<string>,
    succeeded: set<(nat, string)>,
    removedBy: set<(nat, string)>)

  datatype Step =
    | Remember(c: nat, run: string)
    | Resume(c: nat)
    | Crash(c: nat)
    | Read(c: nat)
    | Create(c: nat)
    | Append(c: nat)
    | Work(c: nat, resumed: set<string>)   // the runs whose resume command succeeded
    | Remove(c: nat)

  predicate Distinct(ids: seq<string>) { forall i, j :: 0 <= i < j < |ids| ==> ids[i] != ids[j] }

  function Remaining(ids: seq<string>, resumed: set<string>): seq<string> {
    if ids == [] then []
    else (if ids[0] in resumed then [] else [ids[0]]) + Remaining(ids[1..], resumed)
  }

  function Taken(ids: seq<string>, resumed: set<string>): seq<string> {
    if ids == [] then []
    else (if ids[0] in resumed then [ids[0]] else []) + Taken(ids[1..], resumed)
  }

  predicate In(w: World, c: nat) { c in w.callers }

  predicate Enabled(w: World, step: Step) {
    match step
    case Remember(c, _) => c !in w.callers
    case Resume(c) => c !in w.callers
    case Crash(c) => In(w, c) && !w.callers[c].Remembered? && !w.callers[c].Resumed?
    case Read(c) => In(w, c) && (w.callers[c].Remembering? || w.callers[c].Resuming?)
    case Create(c) => In(w, c) && w.callers[c].Creating?
    case Append(c) => In(w, c) && w.callers[c].Appending?
    case Work(c, resumed) => In(w, c) && w.callers[c].Loaded?
        && (forall id :: id in resumed ==> id in w.callers[c].seen.runIds)
    case Remove(c) => In(w, c) && w.callers[c].Removing?
  }

  function Retry(run: string, left: nat): Phase {
    if left <= 1 then Raised else Remembering(run, left - 1)
  }

  function Move(w: World, c: nat, phase: Phase): World {
    w.(callers := w.callers[c := phase])
  }

  predicate Current(w: World, seen: Waiter) {
    w.waiter.Some? && w.waiter.value.revision == seen.revision
  }

  function Apply(w: World, step: Step): World
    requires Enabled(w, step)
  {
    match step
    case Remember(c, run) => Move(w, c, Remembering(run, 3))
    case Resume(c) => Move(w, c, Resuming)
    case Crash(c) => Move(w, c, Raised)
    case Read(c) =>
      Move(w, c,
        if w.callers[c].Resuming? then
          (if w.waiter.None? then Resumed({}) else Loaded(w.waiter.value))
        else
          var run, left := w.callers[c].run, w.callers[c].left;
          if w.waiter.None? then Creating(run, left)
          else if run in w.waiter.value.runIds then Remembered(run, false)
          else Appending(run, left, w.waiter.value))
    case Create(c) =>
      var run := w.callers[c].run;
      if w.waiter.Some? then Move(w, c, Retry(run, w.callers[c].left))
      else Move(w.(waiter := Some(Waiter([run], 0)), inserted := w.inserted + multiset{run}),
                c, Remembered(run, true))
    case Append(c) =>
      var run, seen := w.callers[c].run, w.callers[c].seen;
      if !Current(w, seen) then Move(w, c, Retry(run, w.callers[c].left))
      else
        var now := w.waiter.value;
        Move(w.(waiter := Some(Waiter(now.runIds + [run], now.revision + 1)),
                inserted := w.inserted + multiset{run}),
             c, Remembered(run, true))
    case Work(c, resumed) =>
      Move(w.(succeeded := w.succeeded + set id | id in resumed :: (c, id)),
           c, Removing(w.callers[c].seen, resumed))
    case Remove(c) =>
      var seen, resumed := w.callers[c].seen, w.callers[c].resumed;
      if Remaining(seen.runIds, resumed) == seen.runIds then Move(w, c, Resumed(resumed))
      else if !Current(w, seen) then Move(w, c, Raised)
      else Move(w.(waiter := Some(Waiter(Remaining(seen.runIds, resumed), seen.revision + 1)),
                   removed := w.removed + multiset(Taken(seen.runIds, resumed)),
                   removedBy := w.removedBy + set id | id in resumed :: (c, id)),
                c, Resumed(resumed))
  }

  predicate Legal(w: World, steps: seq<Step>)
    decreases |steps|
  {
    steps == [] || (Enabled(w, steps[0]) && Legal(Apply(w, steps[0]), steps[1..]))
  }

  function Run(w: World, steps: seq<Step>): World
    requires Legal(w, steps)
    decreases |steps|
  {
    if steps == [] then w else Run(Apply(w, steps[0]), steps[1..])
  }

  predicate Initial(w: World) {
    w == World(None, map[], multiset{}, multiset{}, {}, {})
  }

  function Ids(w: World): seq<string> { if w.waiter.Some? then w.waiter.value.runIds else [] }

  // ------------------------------------------------------------------ invariant

  predicate CallerOk(w: World, c: nat, phase: Phase) {
    match phase
    case Appending(run, _, seen) =>
      && w.waiter.Some? && seen.revision <= w.waiter.value.revision && run !in seen.runIds
      && (Current(w, seen) ==> w.waiter.value == seen)
    case Loaded(seen) =>
      && w.waiter.Some? && seen.revision <= w.waiter.value.revision
      && (Current(w, seen) ==> w.waiter.value == seen)
    case Removing(seen, resumed) =>
      && w.waiter.Some? && seen.revision <= w.waiter.value.revision
      && (Current(w, seen) ==> w.waiter.value == seen)
      && (forall id :: id in resumed ==> id in seen.runIds && (c, id) in w.succeeded)
    case _ => true
  }

  predicate CallersOk(w: World) { forall c :: c in w.callers ==> CallerOk(w, c, w.callers[c]) }

  predicate ListOk(w: World) {
    && Distinct(Ids(w))
    && w.inserted == w.removed + multiset(Ids(w))
    && w.removedBy <= w.succeeded
  }

  predicate Inv(w: World) {
    && ListOk(w)
    && CallersOk(w)
  }

  lemma {:induction false} RemainingMembers(ids: seq<string>, resumed: set<string>)
    ensures forall id :: id in Remaining(ids, resumed) <==> id in ids && id !in resumed
    decreases |ids|
  {
    if ids != [] {
      RemainingMembers(ids[1..], resumed);
      assert ids == [ids[0]] + ids[1..];
    }
  }

  lemma {:induction false} RemainingDistinct(ids: seq<string>, resumed: set<string>)
    requires Distinct(ids)
    ensures Distinct(Remaining(ids, resumed))
    decreases |ids|
  {
    if ids != [] {
      var tail := ids[1..];
      RemainingDistinct(tail, resumed);
      RemainingMembers(tail, resumed);
      assert forall j :: 0 <= j < |tail| ==> tail[j] == ids[j + 1];
      assert ids[0] !in tail;
    }
  }

  /** What is taken off the list and what remains on it make up the list. */
  lemma {:induction false} RemainingCounts(ids: seq<string>, resumed: set<string>)
    ensures multiset(ids) == multiset(Taken(ids, resumed)) + multiset(Remaining(ids, resumed))
    decreases |ids|
  {
    if ids != [] {
      RemainingCounts(ids[1..], resumed);
      assert ids == [ids[0]] + ids[1..];
    }
  }

  /** A document write carries the next revision. */
  predicate Advances(w: World, w': World) {
    || w'.waiter == w.waiter
    || (w'.waiter.Some? && w.waiter.None?)
    || (w'.waiter.Some? && w.waiter.Some? && w'.waiter.value.revision == w.waiter.value.revision + 1)
  }

  predicate OwnOk(w: World, c: nat) { c in w.callers ==> CallerOk(w, c, w.callers[c]) }

  lemma StepAdvances(w: World, step: Step)
    requires Enabled(w, step) && OwnOk(w, step.c)
    ensures Advances(w, Apply(w, step)) && w.succeeded <= Apply(w, step).succeeded
  {
  }

  lemma CallerStays(w: World, w': World, d: nat, phase: Phase)
    requires CallerOk(w, d, phase) && Advances(w, w') && w.succeeded <= w'.succeeded
    ensures CallerOk(w', d, phase)
  {
  }

  lemma CallerMoves(w: World, step: Step)
    requires Enabled(w, step) && OwnOk(w, step.c)
    ensures OwnOk(Apply(w, step), step.c)
  {
    if step.Work? {
      var w' := Apply(w, step);
      assert forall id :: id in step.resumed ==> (step.c, id) in w'.succeeded;
    }
  }

  lemma CallersStep(w: World, step: Step)
    requires Inv(w) && Enabled(w, step)
    ensures CallersOk(Apply(w, step))
  {
    StepAdvances(w, step);
    CallerMoves(w, step);
    var w' := Apply(w, step);
    forall d | d in w'.callers ensures CallerOk(w', d, w'.callers[d]) {
      if d != step.c {
        assert w'.callers[d] == w.callers[d] && d in w.callers;
        CallerStays(w, w', d, w.callers[d]);
      }
    }
  }

  /** The two ways a step may change the list: one new identifier at its end, or the identifiers a
      caller has resumed taken out of the copy it read. */
  predicate Inserted(w: World, w': World, run: string) {
    && w'.removed == w.removed && w'.removedBy == w.removedBy && w.succeeded <= w'.succeeded
    && run !in Ids(w) && Ids(w') == Ids(w) + [run] && w'.inserted == w.inserted + multiset{run}
  }

  predicate Removed(w: World, w': World, c: nat, k: Phase)
    requires k.Removing?
  {
    && w'.inserted == w.inserted && w'.succeeded == w.succeeded
    && w.waiter == Some(k.seen) && Ids(w') == Remaining(Ids(w), k.resumed)
    && w'.removed == w.removed + multiset(Taken(Ids(w), k.resumed))
    && w'.removedBy == w.removedBy + set id | id in k.resumed :: (c, id)
  }

  predicate ListKept(w: World, w': World) {
    && Ids(w') == Ids(w) && w'.inserted == w.inserted && w'.removed == w.removed
    && w'.removedBy == w.removedBy && w.succeeded <= w'.succeeded
  }

  lemma Inserts(w: World, step: Step)
    requires Enabled(w, step) && OwnOk(w, step.c) && !step.Remove?
    ensures ListKept(w, Apply(w, step)) || exists run :: Inserted(w, Apply(w, step), run)
  {
    var w' := Apply(w, step);
    if (step.Create? && w.waiter.None?) || (step.Append? && Current(w, w.callers[step.c].seen)) {
      var run := w.callers[step.c].run;
      assert run !in Ids(w) && Ids(w') == Ids(w) + [run];
      assert Inserted(w, w', run);
    }
  }

  lemma Removes(w: World, step: Step)
    requires Enabled(w, step) && OwnOk(w, step.c) && step.Remove?
    ensures ListKept(w, Apply(w, step)) || Removed(w, Apply(w, step), step.c, w.callers[step.c])
  {
  }

  lemma ListInserted(w: World, w': World, run: string)
    requires ListOk(w) && Inserted(w, w', run)
    ensures ListOk(w')
  {
  }

  lemma ListRemoved(w: World, w': World, c: nat, k: Phase)
    requires ListOk(w) && k.Removing? && CallerOk(w, c, k) && Removed(w, w', c, k)
    ensures ListOk(w')
  {
    RemainingDistinct(Ids(w), k.resumed);
    RemainingCounts(Ids(w), k.resumed);
  }

  lemma StepInv(w: World, step: Step)
    requires Inv(w) && Enabled(w, step)
    ensures Inv(Apply(w, step))
  {
    CallersStep(w, step);
    var w' := Apply(w, step);
    assert OwnOk(w, step.c);
    if step.Remove? {
      Removes(w, step);
      if !ListKept(w, w') { ListRemoved(w, w', step.c, w.callers[step.c]); }
    } else {
      Inserts(w, step);
      if !ListKept(w, w') {
        var run :| Inserted(w, w', run);
        ListInserted(w, w', run);
      }
    }
  }

  lemma {:induction false} RunInv(w: World, steps: seq<Step>)
    requires Inv(w) && Legal(w, steps)
    ensures Inv(Run(w, steps))
    decreases |steps|
  {
    if steps != [] {
      StepInv(w, steps[0]);
      RunInv(Apply(w, steps[0]), steps[1..]);
    }
  }

  // -------------------------------------------------------------------- theorems

  /** Conservation: in every interleaving the listed identifiers are free of duplicates and are
      exactly those that writes have inserted and no write has removed, and whatever a caller
      removed it had resumed. */
  lemma NothingIsLost(w: World, steps: seq<Step>)
    requires Initial(w) && Legal(w, steps)
    ensures var e := Run(w, steps);
      && Distinct(Ids(e))
      && e.inserted == e.removed + multiset(Ids(e))
      && e.removedBy <= e.succeeded
  {
    RunInv(w, steps);
  }

  /** An identifier leaves the list only by the write of a caller that resumed it successfully
      after reading the very list it is taken from. */
  lemma RemovalFollowsResume(w: World, step: Step, id: string)
    requires Inv(w) && Enabled(w, step)
    requires id in Ids(w) && id !in Ids(Apply(w, step))
    ensures step.Remove? && (step.c, id) in w.succeeded
    ensures w.waiter == Some(w.callers[step.c].seen) && id in w.callers[step.c].resumed
  {
    assert OwnOk(w, step.c);
    OnlyGrows(w, step, id);
    if step.Remove? {
      Removes(w, step);
      RemainingMembers(Ids(w), w.callers[step.c].resumed);
      assert CallerOk(w, step.c, w.callers[step.c]);
    }
  }

  lemma OnlyGrows(w: World, step: Step, id: string)
    requires Enabled(w, step) && OwnOk(w, step.c)
    ensures !step.Remove? && id in Ids(w) ==> id in Ids(Apply(w, step))
  {
    if !step.Remove? { Inserts(w, step); }
  }

  /** What a resumer's write does to a listed run. */
  lemma RemoveTakes(w: World, c: nat, run: string)
    requires Inv(w) && Enabled(w, Remove(c)) && run in Ids(w)
    ensures run !in Ids(Apply(w, Remove(c))) <==>
      w.waiter == Some(w.callers[c].seen) && run in w.callers[c].resumed
  {
    assert OwnOk(w, c);
    var k := w.callers[c];
    RemainingMembers(Ids(w), k.resumed);
    RemainingMembers(k.seen.runIds, k.resumed);
    if w.waiter == Some(k.seen) && run in k.resumed {
      assert run !in Remaining(k.seen.runIds, k.resumed);
    } else {
      Removes(w, Remove(c));
    }
  }

  predicate Completes(w: World, last: Step) {
    && Enabled(w, last) && (last.Read? || last.Create? || last.Append?)
    && Apply(w, last).callers[last.c].Remembered?
  }

  /** What a completed call to remember a run has done to the documents. */
  predicate Listed(w: World, w1: World, done: Phase)
    requires done.Remembered?
  {
    && done.run in Ids(w1) && (done.wrote <==> done.run !in Ids(w))
    && (if done.wrote then w1.waiter != w.waiter else w1.waiter == w.waiter)
  }

  lemma ReadLists(w: World, c: nat)
    requires Completes(w, Read(c))
    ensures Listed(w, Apply(w, Read(c)), Apply(w, Read(c)).callers[c])
  {
  }

  lemma CreateLists(w: World, c: nat)
    requires Completes(w, Create(c))
    ensures Listed(w, Apply(w, Create(c)), Apply(w, Create(c)).callers[c])
  {
  }

  lemma AppendLists(w: World, c: nat)
    requires Completes(w, Append(c)) && OwnOk(w, c)
    ensures Listed(w, Apply(w, Append(c)), Apply(w, Append(c)).callers[c])
  {
    var run, seen := w.callers[c].run, w.callers[c].seen;
    assert Apply(w, Append(c)).waiter.value.runIds == seen.runIds + [run];
  }

  /** A call that remembers a run returns with the run listed; it wrote the document exactly if the
      run was not listed before. */
  lemma RememberedIsListed(w: World, last: Step)
    requires Inv(w) && Completes(w, last)
    ensures Listed(w, Apply(w, last), Apply(w, last).callers[last.c])
    ensures forall d :: d in w.callers && d != last.c ==>
      d in Apply(w, last).callers && Apply(w, last).callers[d] == w.callers[d]
  {
    assert OwnOk(w, last.c);
    match last {
      case Read(c) => ReadLists(w, c);
      case Create(c) => CreateLists(w, c);
      case Append(c) => AppendLists(w, c);
    }
  }

  /** The document only moves forward: a revision that is still there is the document that had it. */
  lemma {:induction false} RunAdvances(w: World, steps: seq<Step>)
    requires Inv(w) && Legal(w, steps) && w.waiter.Some?
    ensures var e := Run(w, steps);
      && Inv(e) && e.waiter.Some? && w.waiter.value.revision <= e.waiter.value.revision
      && (e.waiter.value.revision == w.waiter.value.revision ==> e.waiter == w.waiter)
    decreases |steps|
  {
    if steps != [] {
      assert OwnOk(w, steps[0].c);
      StepAdvances(w, steps[0]);
      StepInv(w, steps[0]);
      RunAdvances(Apply(w, steps[0]), steps[1..]);
    }
  }

  lemma {:induction false} OthersKeep(w: World, steps: seq<Step>, c: nat)
    requires Legal(w, steps) && In(w, c) && forall k :: 0 <= k < |steps| ==> steps[k].c != c
    ensures In(Run(w, steps), c) && Run(w, steps).callers[c] == w.callers[c]
    decreases |steps|
  {
    if steps != [] {
      assert steps[0].c != c;
      OthersKeep(Apply(w, steps[0]), steps[1..], c);
    }
  }

  /** A resumer about to write has done its resuming during the run, or had done it before. */
  lemma {:induction false} RemovingSince(w: World, steps: seq<Step>, c: nat)
    requires Legal(w, steps) && In(Run(w, steps), c) && Run(w, steps).callers[c].Removing?
    ensures ResumedIn(steps, c, Run(w, steps).callers[c].resumed) ||
            (In(w, c) && w.callers[c] == Run(w, steps).callers[c])
    decreases |steps|
  {
    if steps != [] {
      var rest := steps[1..];
      RemovingSince(Apply(w, steps[0]), rest, c);
      var resumed := Run(w, steps).callers[c].resumed;
      if k :| 0 <= k < |rest| && rest[k] == Work(c, resumed) {
        assert steps[k + 1] == Work(c, resumed);
      } else if steps[0].c == c {
        assert steps[0] == Work(c, resumed);
      }
    }
  }

  predicate ResumedIn(steps: seq<Step>, c: nat, resumed: set<string>) {
    exists k :: 0 <= k < |steps| && steps[k] == Work(c, resumed)
  }

  /** The wakeup of a remembered run is lost to resumer `c`, which had done its resuming before the
      call completed: the call wrote nothing, because it found the run listed; `c` had read that
      same list and resumed the run; and nobody has written the list since. */
  predicate Loses(w: World, last: Step, e: World, c: nat)
    requires Enabled(w, last) && last.c in Apply(w, last).callers && Apply(w, last).callers[last.c].Remembered?
  {
    var done := Apply(w, last).callers[last.c];
    && In(w, c) && w.callers[c].Removing? && In(e, c) && e.callers[c] == w.callers[c]
    && !done.wrote && w.waiter == Some(w.callers[c].seen) && e.waiter == w.waiter
    && done.run in w.callers[c].resumed
  }

  /** A call to remember a run completes; other callers then take any steps; and a resumer `c` that had
      done its resuming before writes. Its write takes the run off the list exactly if it loses it. */
  lemma RememberedSurvives(w: World, last: Step, steps: seq<Step>, c: nat)
    requires Inv(w) && Completes(w, last) && In(w, c) && c != last.c && w.callers[c].Removing?
    requires Legal(Apply(w, last), steps) && forall k :: 0 <= k < |steps| ==> steps[k].c != c
    ensures var e := Run(Apply(w, last), steps);
      var run := Apply(w, last).callers[last.c].run;
      Enabled(e, Remove(c)) &&
      (run in Ids(e) && run !in Ids(Apply(e, Remove(c))) <==> Loses(w, last, e, c))
  {
    var w1 := Apply(w, last);
    var e := Run(w1, steps);
    var run := w1.callers[last.c].run;
    RememberedIsListed(w, last);
    StepInv(w, last);
    OthersKeep(w1, steps, c);
    RunAdvances(w1, steps);
    if run in Ids(e) {
      RemoveTakes(e, c, run);
      if run !in Ids(Apply(e, Remove(c))) { TakenLoses(w, last, steps, c); }
    }
  }

  /** The list a resumer read before is still there only if nobody has written since. */
  lemma TakenLoses(w: World, last: Step, steps: seq<Step>, c: nat)
    requires Inv(w) && Completes(w, last) && In(w, c) && c != last.c && w.callers[c].Removing?
    requires Legal(Apply(w, last), steps)
    requires var e := Run(Apply(w, last), steps);
      In(e, c) && e.callers[c] == w.callers[c] && e.waiter == Some(w.callers[c].seen)
    requires Apply(w, last).callers[last.c].run in w.callers[c].resumed
    ensures Loses(w, last, Run(Apply(w, last), steps), c)
  {
    var w1 := Apply(w, last);
    assert CallerOk(w, c, w.callers[c]) && OwnOk(w, last.c);
    RememberedIsListed(w, last);
    StepAdvances(w, last);
    StepInv(w, last);
    RunAdvances(w1, steps);
  }

  /** So, whatever happens after the call has completed: a write takes the run off the list only if its
      resumer has resumed the run since, or if it loses it. */
  lemma RemovedOrLost(w: World, last: Step, steps: seq<Step>, c: nat)
    requires Inv(w) && Completes(w, last) && Legal(Apply(w, last), steps)
    requires var e := Run(Apply(w, last), steps);
      var run := Apply(w, last).callers[last.c].run;
      Enabled(e, Remove(c)) && run in Ids(e) && run !in Ids(Apply(e, Remove(c)))
    ensures var e := Run(Apply(w, last), steps);
      var run := Apply(w, last).callers[last.c].run;
      run in e.callers[c].resumed && (ResumedIn(steps, c, e.callers[c].resumed) || Loses(w, last, e, c))
  {
    var w1 := Apply(w, last);
    var e := Run(w1, steps);
    RememberedIsListed(w, last);
    StepInv(w, last);
    RunAdvances(w1, steps);
    RemoveTakes(e, c, w1.callers[last.c].run);
    RemovingSince(w1, steps, c);
    if !ResumedIn(steps, c, e.callers[c].resumed) {
      KeptBy(w, last, c);
      TakenLoses(w, last, steps, c);
    }
  }

  lemma KeptBy(w: World, last: Step, c: nat)
    requires Completes(w, last) && In(Apply(w, last), c) && Apply(w, last).callers[c].Removing?
    ensures c != last.c && In(w, c) && w.callers[c] == Apply(w, last).callers[c]
  {
  }

  lemma {:induction false} Extend(w: World, steps: seq<Step>, step: Step) returns (longer: seq<Step>, e: World)
    requires Legal(w, steps) && Enabled(Run(w, steps), step)
    ensures longer == steps + [step] && Legal(w, longer)
    ensures e == Run(w, longer) == Apply(Run(w, steps), step)
    decreases |steps|
  {
    longer := steps + [step];
    if steps == [] {
      assert longer[1..] == [];
    } else {
      assert longer[1..] == steps[1..] + [step];
      var rest, end := Extend(Apply(w, steps[0]), steps[1..], step);
    }
    e := Run(w, longer);
  }

  /** Run "r" is remembered, and a setup that completes loads the list. */
  lemma PausedThenLoaded() returns (w: World, steps: seq<Step>)
    ensures Initial(w) && Legal(w, steps)
    ensures var e := Run(w, steps);
      && e.waiter == Some(Waiter(["r"], 0))
      && e.callers == map[0 := Remembered("r", true), 1 := Loaded(Waiter(["r"], 0))]
  {
    w := World(None, map[], multiset{}, multiset{}, {}, {});
    var e: World;
    steps := [];
    steps, e := Extend(w, steps, Remember(0, "r"));
    steps, e := Extend(w, steps, Read(0));
    steps, e := Extend(w, steps, Create(0));
    steps, e := Extend(w, steps, Resume(1));
    steps, e := Extend(w, steps, Read(1));
  }

  /** It resumes the run, which pauses again, finds itself still listed and writes nothing. */
  lemma PausedAgain() returns (w: World, steps: seq<Step>)
    ensures Initial(w) && Legal(w, steps)
    ensures var e := Run(w, steps);
      && e.waiter == Some(Waiter(["r"], 0)) && e.callers.Keys == {0, 1, 2}
      && e.callers[0] == Remembered("r", true) && e.callers[1] == Removing(Waiter(["r"], 0), {"r"})
      && e.callers[2] == Remembered("r", false)
  {
    var e: World;
    w, steps := PausedThenLoaded();
    steps, e := Extend(w, steps, Work(1, {"r"}));
    steps, e := Extend(w, steps, Remember(2, "r"));
    assert "r" in e.waiter.value.runIds;
    steps, e := Extend(w, steps, Read(2));
  }

  /** It does happen: a run that pauses again right after being resumed finds itself still listed,
      writes nothing, and is then taken off the list, with nobody left to resume it. */
  lemma LostWakeup() returns (w: World, steps: seq<Step>)
    ensures Initial(w) && Legal(w, steps)
    ensures var e := Run(w, steps);
      && e.callers.Keys == {0, 1, 2} && e.callers[2] == Remembered("r", false)
      && e.callers[0].Remembered? && e.callers[1].Resumed?
      && e.waiter.Some? && "r" !in Ids(e)
  {
    var e: World;
    w, steps := PausedAgain();
    assert Remaining(["r"], {"r"}) == [];
    steps, e := Extend(w, steps, Remove(1));
  }

  // ------------------------------------------------------------- resuming the runs

  /** What the workflow answers for one run: unreadable, in some state, and whether its resume
      command is accepted. */
  datatype Answer = Unreadable | Found(paused: bool, accepted: bool)

  predicate Resumable(answer: Answer) { answer.Found? && answer.paused && answer.accepted }

  /** `WorkflowRunResumer.resume`: exactly the runs that could be read, were paused and accepted the
      command, in the order given; one run's failure does not stop the others. */
  method ResumeAll(runIds: seq<string>, answers: map<string, Answer>) returns (resumed: seq<string>)
    requires forall id :: id in runIds ==> id in answers
    ensures forall id :: id in resumed <==> id in runIds && Resumable(answers[id])
    ensures Distinct(runIds) ==> Distinct(resumed)
    ensures resumed == Remaining(runIds, set id | id in runIds && !Resumable(answers[id]))
  {
    resumed := [];
    ghost var failed := set id | id in runIds && !Resumable(answers[id]);
    for i := 0 to |runIds|
      invariant resumed == Remaining(runIds[..i], failed)
      invariant forall id :: id in resumed <==> id in runIds[..i] && Resumable(answers[id])
      invariant Distinct(runIds) ==> Distinct(resumed)
    {
      var id := runIds[i];
      RemainingSnoc(runIds[..i], id, failed);
      assert runIds[..i + 1] == runIds[..i] + [id];
      if answers[id].Unreadable? { continue; }
      if !answers[id].paused { continue; }
      if !answers[id].accepted { continue; }
      resumed := resumed + [id];
    }
    assert runIds[..|runIds|] == runIds;
  }

  lemma {:induction false} RemainingSnoc(ids: seq<string>, id: string, resumed: set<string>)
    ensures Remaining(ids + [id], resumed) == Remaining(ids, resumed) + if id in resumed then [] else [id]
    decreases |ids|
  {
    if ids != [] {
      assert (ids + [id])[1..] == ids[1..] + [id];
      RemainingSnoc(ids[1..], id, resumed);
    }
  }
}
