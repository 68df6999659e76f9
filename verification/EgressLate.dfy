/** Cloud operations that outlive their caller's wait (server/browser/egress.py): the caller has seen
    its call fail, and the operation takes effect at some later time. */
module EgressLate {
  import opened Wrappers
  import opened EgressState
  import P = EgressProtocol

  datatype Late = LateCreate(k: nat, address: string, issued: string) | LateDelete(k: nat)

  datatype World = World(base: P.World, late: multiset<Late>)

  datatype Step =
    | Base(step: P.Step)
    | Detach(c: nat, issued: string)      // the caller's wait runs out; the operation goes on
    | Land(late: Late)                    // and takes effect

  predicate Enabled(w: World, step: Step) {
    match step
    case Base(s) => P.Enabled(w.base, s)
    case Detach(c, issued) =>
      P.Enabled(w.base, P.Ensure(c, P.Refused, issued)) || P.Enabled(w.base, P.Erase(c, P.Refused))
    case Land(late) => late in w.late
  }

  function Landed(cloud: P.Cloud, late: Late): P.Cloud {
    match late
    case LateCreate(k, address, issued) => P.Create(cloud, k, address, issued)
    case LateDelete(k) => P.Remove(cloud, k)
  }

  function Apply(w: World, step: Step): World
    requires Enabled(w, step)
  {
    match step
    case Base(s) => w.(base := P.Apply(w.base, s))
    case Detach(c, issued) =>
      var at := w.base.callers[c].phase;
      if at.Ensuring? then
        World(P.Apply(w.base, P.Ensure(c, P.Refused, issued)),
              w.late + multiset{LateCreate(at.done, at.address, issued)})
      else
        World(P.Apply(w.base, P.Erase(c, P.Refused)), w.late + multiset{LateDelete(at.done)})
    case Land(late) =>
      World(w.base.(cloud := Landed(w.base.cloud, late)), w.late - multiset{late})
  }

  predicate Legal(w: World, steps: seq<Step>)
    decreases |steps|
  {
    steps == [] || (Enabled(w, steps[0]) && Legal(Apply(w, steps[0]), steps[1..]))
  }

  function Execute(w: World, steps: seq<Step>): World
    requires Legal(w, steps)
    decreases |steps|
  {
    if steps == [] then w else Execute(Apply(w, steps[0]), steps[1..])
  }

  predicate Initial(w: World) { P.Initial(w.base) && w.late == multiset{} }

  /** Nobody relies on the resource a late deletion removes: it is not there, or the document is not
      READY and no provisioner that holds it has been past the resource. */
  ghost predicate Safe(w: P.World, late: Late) {
    || late.LateCreate? || late.k > 3
    || !P.Exists(w.cloud, 3 - late.k)
    || (&& !P.DocIs(w.doc, Ready)
        && forall c :: c in w.callers && w.callers[c].phase.Ensuring? && P.DocHolds(w.doc, w.callers[c].phase.token) ==>
             w.callers[c].phase.done <= 3 - late.k)
  }

  lemma CreateLands(w: P.World, late: Late)
    requires P.Inv(w) && late.LateCreate?
    ensures P.Inv(w.(cloud := Landed(w.cloud, late)))
  {
    var w' := w.(cloud := Landed(w.cloud, late));
    forall c | c in w'.callers ensures P.CallerOk(w', w'.callers[c]) {
      assert P.CallerOk(w, w.callers[c]);
    }
  }

  lemma DeleteLands(w: P.World, late: Late)
    requires P.Inv(w) && late.LateDelete? && Safe(w, late)
    ensures P.Inv(w.(cloud := Landed(w.cloud, late)))
  {
    var w' := w.(cloud := Landed(w.cloud, late));
    forall c | c in w'.callers ensures P.CallerOk(w', w'.callers[c]) {
      assert P.CallerOk(w, w.callers[c]);
    }
  }

  lemma UnsafeLands(w: P.World, late: Late)
    requires P.Inv(w) && !Safe(w, late)
    ensures !P.Inv(w.(cloud := Landed(w.cloud, late)))
    ensures P.DocIs(w.doc, Ready) ==> !Landed(w.cloud, late).Complete()
  {
    var w' := w.(cloud := Landed(w.cloud, late));
    if !P.DocIs(w.doc, Ready) {
      var c :| c in w.callers && w.callers[c].phase.Ensuring? && P.DocHolds(w.doc, w.callers[c].phase.token) &&
               w.callers[c].phase.done > 3 - late.k;
      assert !P.CallerOk(w', w'.callers[c]);
    }
  }

  /** A late operation keeps the protocol's invariant exactly if it is safe; landing unsafely on a
      READY document takes a resource from under it. */
  lemma LandsExactly(w: P.World, late: Late)
    requires P.Inv(w)
    ensures P.Inv(w.(cloud := Landed(w.cloud, late))) <==> Safe(w, late)
    ensures !Safe(w, late) && P.DocIs(w.doc, Ready) ==> !Landed(w.cloud, late).Complete()
  {
    if !Safe(w, late) {
      UnsafeLands(w, late);
    } else if late.LateCreate? {
      CreateLands(w, late);
    } else {
      DeleteLands(w, late);
    }
  }

  ghost predicate SafeLandings(w: World, steps: seq<Step>)
    requires Legal(w, steps)
    decreases |steps|
  {
    steps == [] || ((steps[0].Land? ==> Safe(w.base, steps[0].late)) && SafeLandings(Apply(w, steps[0]), steps[1..]))
  }

  ghost predicate Throughout(w: World, steps: seq<Step>)
    requires Legal(w, steps)
    decreases |steps|
  {
    P.Inv(w.base) && (steps == [] || Throughout(Apply(w, steps[0]), steps[1..]))
  }

  /** With late operations the invariant holds all along a run if and only if every landing is safe. */
  lemma {:induction false} InvariantExactly(w: World, steps: seq<Step>)
    requires P.Inv(w.base) && Legal(w, steps)
    ensures Throughout(w, steps) <==> SafeLandings(w, steps)
    decreases |steps|
  {
    if steps != [] {
      var w' := Apply(w, steps[0]);
      match steps[0] {
        case Base(s) => P.StepInv(w.base, s);
        case Detach(c, issued) =>
          P.StepInv(w.base, if w.base.callers[c].phase.Ensuring? then P.Ensure(c, P.Refused, issued)
                            else P.Erase(c, P.Refused));
        case Land(late) => LandsExactly(w.base, late);
      }
      if P.Inv(w'.base) {
        InvariantExactly(w', steps[1..]);
      } else {
        assert !Throughout(w', steps[1..]);
      }
    }
  }

  lemma {:induction false} ThroughoutEnds(w: World, steps: seq<Step>)
    requires Legal(w, steps) && Throughout(w, steps)
    ensures P.Inv(Execute(w, steps).base)
    decreases |steps|
  {
    if steps != [] { ThroughoutEnds(Apply(w, steps[0]), steps[1..]); }
  }

  /** So in every run whose late operations land safely, READY still means all four resources. */
  lemma LateReadyMeansResources(w: World, steps: seq<Step>)
    requires Initial(w) && Legal(w, steps) && SafeLandings(w, steps)
    ensures var e := Execute(w, steps).base;
      P.DocIs(e.doc, Ready) ==> e.cloud.Complete() && e.doc.value.address == e.cloud.gateway
  {
    P.InitialOk(w.base);
    InvariantExactly(w, steps);
    ThroughoutEnds(w, steps);
  }

  // --------------------------------------------------- a landing that is not safe

  lemma {:induction false} Extend(w: World, steps: seq<Step>, step: Step) returns (longer: seq<Step>, e: World)
    requires Legal(w, steps) && Enabled(Execute(w, steps), step)
    ensures longer == steps + [step] && Legal(w, longer)
    ensures e == Execute(w, longer) == Apply(Execute(w, steps), step)
    decreases |steps|
  {
    longer := steps + [step];
    if steps == [] {
      assert longer[1..] == [];
    } else {
      assert longer[1..] == steps[1..] + [step];
      var _, _ := Extend(Apply(w, steps[0]), steps[1..], step);
    }
    e := Execute(w, longer);
  }

  /** Runs of the protocol are runs here. */
  lemma {:induction false} Lift(w: P.World, steps: seq<P.Step>) returns (lifted: seq<Step>)
    requires P.Legal(w, steps)
    ensures Legal(World(w, multiset{}), lifted)
    ensures Execute(World(w, multiset{}), lifted) == World(P.Execute(w, steps), multiset{})
    decreases |steps|
  {
    if steps == [] {
      lifted := [];
    } else {
      var rest := Lift(P.Apply(w, steps[0]), steps[1..]);
      lifted := [Base(steps[0])] + rest;
      assert lifted[1..] == rest;
    }
  }

  /** A reconciler's deletion of the gateway outlives its wait, and the document is left FAILED. */
  lemma DeletionDetached() returns (w: World, steps: seq<Step>)
    ensures Initial(w) && Legal(w, steps)
    ensures var e := Execute(w, steps);
      && e.late == multiset{LateDelete(1)} && e.base.nextToken == 2
      && e.base.cloud == P.Cloud(true, true, Some("old"), None)
      && P.DocIs(e.base.doc, Failed) && e.base.doc.value.leases == [] && e.base.callers.Keys == {0, 1}
  {
    var base, first := P.TakenOver();
    w := World(base, multiset{});
    steps := Lift(base, first);
    var e: World;
    steps, e := Extend(w, steps, Base(P.Erase(1, P.Done)));
    steps, e := Extend(w, steps, Detach(1, ""));
    steps, e := Extend(w, steps, Base(P.Abandon(1, "", false)));
  }

  /** The next provisioner starts. */
  lemma NextProvisioner() returns (w: World, steps: seq<Step>)
    ensures Initial(w) && Legal(w, steps)
    ensures var e := Execute(w, steps);
      && e.late == multiset{LateDelete(1)} && e.base.cloud == P.Cloud(true, true, Some("old"), None)
      && P.DocOwn(e.base.doc, 2) && e.base.doc.value.leases == [Lease("b", e.base.now + 1)]
      && 2 in e.base.callers && e.base.callers[2].phase == P.Ensuring(2, 0, "")
  {
    var e: World;
    w, steps := DeletionDetached();
    e := Execute(w, steps);
    steps, e := Extend(w, steps, Base(P.Spawn(2, P.AcquireJob(Lease("b", e.base.now + 1), e.base.now + WAIT))));
    steps, e := Extend(w, steps, Base(P.Request(2)));
    steps, e := Extend(w, steps, Base(P.Loop(2)));
  }

  /** It finds the gateway there. */
  lemma GatewayReused() returns (w: World, steps: seq<Step>)
    ensures Initial(w) && Legal(w, steps)
    ensures var e := Execute(w, steps);
      && e.late == multiset{LateDelete(1)} && e.base.cloud == P.Cloud(true, true, Some("old"), None)
      && P.DocOwn(e.base.doc, 2) && e.base.doc.value.leases == [Lease("b", e.base.now + 1)]
      && 2 in e.base.callers && e.base.callers[2].phase == P.Ensuring(2, 3, "old")
  {
    var e: World;
    w, steps := NextProvisioner();
    steps, e := Extend(w, steps, Base(P.Ensure(2, P.Done, "")));
    steps, e := Extend(w, steps, Base(P.Ensure(2, P.Done, "")));
    steps, e := Extend(w, steps, Base(P.Ensure(2, P.Done, "")));
  }

  /** It becomes READY, and then the gateway goes. */
  lemma GatewayLost() returns (w: World, steps: seq<Step>)
    ensures Initial(w) && Legal(w, steps)
    ensures var e := Execute(w, steps).base; P.DocIs(e.doc, Ready) && e.cloud.gateway.None?
  {
    var e: World;
    w, steps := GatewayReused();
    steps, e := Extend(w, steps, Base(P.Ensure(2, P.Done, "")));
    steps, e := Extend(w, steps, Base(P.Commit(2)));
    steps, e := Extend(w, steps, Land(LateDelete(1)));
  }
}
