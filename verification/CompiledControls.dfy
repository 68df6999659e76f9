/** The probes the repository generates for a credential (server/core/inventory/controls.py,
    `compile_controls`), and what the REVOKE stage comes to under them. */
module CompiledControls {
  import opened Wrappers
  import opened Probes
  import opened Revocation

  datatype Credential = Credential(provider: string, secret: string)

  /** One consumer binding: its runtime resource and its service's telemetry resources. */
  datatype Consumer = Consumer(runtime: string, telemetry: seq<string>)

  /** Probe versions so far, numbered as they come, and which of them each stage pins. */
  datatype Draft = Draft(probes: seq<Definition>, verify: seq<ProbeId>, observe: seq<ProbeId>, revoke: seq<ProbeId>)

  const EMPTY := Draft([], [], [], [])

  function Add(d: Draft, stage: Stage, definition: Definition): Draft {
    var id := |d.probes|;
    var probes := d.probes + [definition.(id := id)];
    match stage
    case Verifying => d.(probes := probes, verify := d.verify + [id])
    case Observing => d.(probes := probes, observe := d.observe + [id])
    case Revoking => d.(probes := probes, revoke := d.revoke + [id])
  }

  function Probe(kind: Kind, target: string, binding: GenerationBinding, targetBinding: TargetBinding,
                 negative: bool, secret: Option<string>): Definition
  {
    Definition(0, kind, target, secret, None, binding, targetBinding, false, Thresholds(1, 0, 0), negative)
  }

  /** The provider and credential probes, if the provider is managed through an API, and the secret
      probes. */
  function Managed(c: Credential, browser: bool): Draft {
    var verified :=
      if browser then EMPTY
      else Add(Add(EMPTY, Verifying, Probe(Provider, c.provider, Target, ProviderId, false, None)),
               Verifying, Probe(Kind.Credential, c.provider, Target, ProviderId, false, Some(c.secret)));
    var stored := Add(verified, Verifying, Probe(Secret, c.secret, Target, SecretReference, false, None));
    var revoked :=
      if browser then stored
      else Add(Add(stored, Revoking, Probe(Provider, c.provider, Current, ProviderId, true, None)),
               Revoking, Probe(Kind.Credential, c.provider, Current, ProviderId, true, Some(c.secret)));
    Add(revoked, Revoking, Probe(Secret, c.secret, Current, SecretReference, false, None))
  }

  function WithTelemetry(d: Draft, targets: seq<string>): Draft {
    if targets == [] then d
    else
      var t := targets[|targets| - 1];
      var before := WithTelemetry(d, targets[..|targets| - 1]);
      Add(Add(Add(before, Verifying, Probe(Telemetry, t, Target, Static, false, None)),
              Observing, Probe(Telemetry, t, Target, Static, false, None)),
          Observing, Probe(Telemetry, t, Current, Static, true, None))
  }

  function WithConsumer(d: Draft, k: Consumer): Draft {
    var runtime := Probe(Runtime, k.runtime, Target, Static, false, None);
    WithTelemetry(Add(Add(d, Verifying, runtime), Observing, runtime), k.telemetry)
  }

  function WithConsumers(d: Draft, consumers: seq<Consumer>): Draft {
    if consumers == [] then d
    else WithConsumer(WithConsumers(d, consumers[..|consumers| - 1]), consumers[|consumers| - 1])
  }

  predicate Monitored(consumers: seq<Consumer>) {
    exists i :: 0 <= i < |consumers| && consumers[i].telemetry != []
  }

  /** `compile_controls`, once the connections have been found. */
  function Compile(c: Credential, consumers: seq<Consumer>, browser: bool): Draft {
    WithConsumers(Managed(c, browser), consumers)
  }

  /** The controls of a run over the compiled probes. */
  function ControlsOf(d: Draft, telemetry: bool, generations: map<GenerationId, Generation>,
                      current: Option<GenerationId>, target: Option<GenerationId>): Controls
  {
    Controls(map[Verifying := d.verify, Observing := d.observe, Revoking := d.revoke],
             map id: ProbeId | 0 <= id < |d.probes| :: Version(d.probes[id], true),
             generations, current, target, telemetry)
  }

  // -------------------------------------------------------- what is compiled

  predicate ForVerify(d: Definition) {
    && d.generationBinding.Target? && !d.negative && d.expectedGeneration.None?
    && d.thresholds == Thresholds(1, 0, 0)
  }

  predicate ForRevoke(d: Definition) {
    && d.generationBinding.Current? && (d.negative <==> RevocationKind(d.kind)) && d.expectedGeneration.None?
    && (d.kind.Provider? ==> d.targetBinding.ProviderId?)
    && !d.kind.Telemetry?
  }

  predicate Numbered(d: Draft) { forall i :: 0 <= i < |d.probes| ==> d.probes[i].id == i }

  predicate Pins(d: Draft, ids: seq<ProbeId>) { forall k :: 0 <= k < |ids| ==> ids[k] < |d.probes| }

  ghost predicate Good(d: Draft) {
    && Numbered(d) && Pins(d, d.verify) && Pins(d, d.revoke)
    && (forall k :: 0 <= k < |d.verify| ==> ForVerify(d.probes[d.verify[k]]))
    && (forall k :: 0 <= k < |d.revoke| ==> ForRevoke(d.probes[d.revoke[k]]))
  }

  predicate Pinned(d: Draft, ids: seq<ProbeId>, kind: Kind) {
    exists k :: 0 <= k < |ids| && ids[k] < |d.probes| && d.probes[ids[k]].kind == kind
  }

  /** Drafts only grow. */
  predicate Grows(d: Draft, e: Draft) { d.probes <= e.probes && d.verify <= e.verify && d.revoke <= e.revoke }

  lemma AddGood(d: Draft, stage: Stage, definition: Definition)
    requires Good(d) && (stage.Verifying? ==> ForVerify(definition)) && (stage.Revoking? ==> ForRevoke(definition))
    ensures Good(Add(d, stage, definition)) && Grows(d, Add(d, stage, definition))
    ensures stage.Verifying? ==> Pinned(Add(d, stage, definition), Add(d, stage, definition).verify, definition.kind)
    ensures stage.Revoking? ==> Pinned(Add(d, stage, definition), Add(d, stage, definition).revoke, definition.kind)
  {
    var e := Add(d, stage, definition);
    assert e.probes[|d.probes|] == definition.(id := |d.probes|);
    if stage.Verifying? { assert e.verify[|d.verify|] == |d.probes|; }
    if stage.Revoking? { assert e.revoke[|d.revoke|] == |d.probes|; }
  }

  lemma StillPinned(d: Draft, e: Draft, kind: Kind)
    requires Grows(d, e)
    ensures Pinned(d, d.verify, kind) ==> Pinned(e, e.verify, kind)
    ensures Pinned(d, d.revoke, kind) ==> Pinned(e, e.revoke, kind)
  {
    if k :| 0 <= k < |d.verify| && d.verify[k] < |d.probes| && d.probes[d.verify[k]].kind == kind {
      assert e.verify[k] == d.verify[k];
    }
    if k :| 0 <= k < |d.revoke| && d.revoke[k] < |d.probes| && d.probes[d.revoke[k]].kind == kind {
      assert e.revoke[k] == d.revoke[k];
    }
  }

  lemma GrowsTransitive(a: Draft, b: Draft, c: Draft)
    requires Grows(a, b) && Grows(b, c)
    ensures Grows(a, c)
  {
  }

  /** The stages of an API-managed credential. */
  ghost predicate ApiReady(d: Draft) {
    && Pinned(d, d.verify, Provider) && Pinned(d, d.verify, Kind.Credential) && Pinned(d, d.verify, Secret)
    && Pinned(d, d.revoke, Provider) && Pinned(d, d.revoke, Kind.Credential) && Pinned(d, d.revoke, Secret)
  }

  lemma StillReady(d: Draft, e: Draft)
    requires Grows(d, e) && ApiReady(d)
    ensures ApiReady(e)
  {
    StillPinned(d, e, Provider);
    StillPinned(d, e, Kind.Credential);
    StillPinned(d, e, Secret);
  }

  lemma ManagedGood(c: Credential, browser: bool)
    ensures Good(Managed(c, browser)) && (!browser ==> ApiReady(Managed(c, browser)))
  {
    if browser {
      var stored := Add(EMPTY, Verifying, Probe(Secret, c.secret, Target, SecretReference, false, None));
      AddGood(EMPTY, Verifying, Probe(Secret, c.secret, Target, SecretReference, false, None));
      AddGood(stored, Revoking, Probe(Secret, c.secret, Current, SecretReference, false, None));
    } else {
      ApiManagedGood(c);
    }
  }

  /** The VERIFY probes of an API-managed credential. */
  function ApiVerified(c: Credential): Draft {
    Add(Add(Add(EMPTY, Verifying, Probe(Provider, c.provider, Target, ProviderId, false, None)),
            Verifying, Probe(Kind.Credential, c.provider, Target, ProviderId, false, Some(c.secret))),
        Verifying, Probe(Secret, c.secret, Target, SecretReference, false, None))
  }

  lemma ApiVerifiedGood(c: Credential)
    ensures var d := ApiVerified(c);
      Good(d) && Pinned(d, d.verify, Provider) && Pinned(d, d.verify, Kind.Credential) && Pinned(d, d.verify, Secret)
  {
    var p1 := Probe(Provider, c.provider, Target, ProviderId, false, None);
    var p2 := Probe(Kind.Credential, c.provider, Target, ProviderId, false, Some(c.secret));
    var p3 := Probe(Secret, c.secret, Target, SecretReference, false, None);
    var d1 := Add(EMPTY, Verifying, p1);
    var d2 := Add(d1, Verifying, p2);
    AddGood(EMPTY, Verifying, p1);
    AddGood(d1, Verifying, p2);
    AddGood(d2, Verifying, p3);
    GrowsTransitive(d1, d2, ApiVerified(c));
    StillPinned(d1, ApiVerified(c), Provider);
    StillPinned(d2, ApiVerified(c), Kind.Credential);
  }

  lemma ApiManagedGood(c: Credential)
    ensures Good(Managed(c, false)) && ApiReady(Managed(c, false))
  {
    var p4 := Probe(Provider, c.provider, Current, ProviderId, true, None);
    var p5 := Probe(Kind.Credential, c.provider, Current, ProviderId, true, Some(c.secret));
    var p6 := Probe(Secret, c.secret, Current, SecretReference, false, None);
    var d3 := ApiVerified(c);
    var d4 := Add(d3, Revoking, p4);
    var d5 := Add(d4, Revoking, p5);
    var d6 := Managed(c, false);
    ApiVerifiedGood(c);
    AddGood(d3, Revoking, p4);
    AddGood(d4, Revoking, p5);
    AddGood(d5, Revoking, p6);
    GrowsTransitive(d4, d5, d6);
    GrowsTransitive(d3, d4, d6);
    StillPinned(d3, d6, Provider);
    StillPinned(d3, d6, Kind.Credential);
    StillPinned(d3, d6, Secret);
    StillPinned(d4, d6, Provider);
    StillPinned(d5, d6, Kind.Credential);
  }

  lemma {:induction false} TelemetryGood(d: Draft, targets: seq<string>)
    requires Good(d)
    ensures var e := WithTelemetry(d, targets);
      Good(e) && Grows(d, e) && (targets != [] ==> Pinned(e, e.verify, Telemetry))
    decreases |targets|
  {
    if targets != [] {
      var t := targets[|targets| - 1];
      var before := WithTelemetry(d, targets[..|targets| - 1]);
      TelemetryGood(d, targets[..|targets| - 1]);
      var healthy := Probe(Telemetry, t, Target, Static, false, None);
      var d1 := Add(before, Verifying, healthy);
      var d2 := Add(d1, Observing, healthy);
      AddGood(before, Verifying, healthy);
      AddGood(d1, Observing, healthy);
      AddGood(d2, Observing, Probe(Telemetry, t, Current, Static, true, None));
      GrowsTransitive(d1, d2, WithTelemetry(d, targets));
      GrowsTransitive(before, d1, WithTelemetry(d, targets));
      GrowsTransitive(d, before, WithTelemetry(d, targets));
      StillPinned(d1, WithTelemetry(d, targets), Telemetry);
    }
  }

  lemma ConsumerGood(d: Draft, k: Consumer)
    requires Good(d)
    ensures var e := WithConsumer(d, k);
      && Good(e) && Grows(d, e) && Pinned(e, e.verify, Runtime)
      && (k.telemetry != [] ==> Pinned(e, e.verify, Telemetry))
  {
    var runtime := Probe(Runtime, k.runtime, Target, Static, false, None);
    var d1 := Add(d, Verifying, runtime);
    var d2 := Add(d1, Observing, runtime);
    var e := WithConsumer(d, k);
    AddGood(d, Verifying, runtime);
    AddGood(d1, Observing, runtime);
    TelemetryGood(d2, k.telemetry);
    GrowsTransitive(d1, d2, e);
    GrowsTransitive(d, d1, e);
    StillPinned(d1, e, Runtime);
  }

  lemma {:induction false} ConsumersGood(d: Draft, consumers: seq<Consumer>)
    requires Good(d)
    ensures var e := WithConsumers(d, consumers);
      && Good(e) && Grows(d, e)
      && (consumers != [] ==> Pinned(e, e.verify, Runtime))
      && (Monitored(consumers) ==> Pinned(e, e.verify, Telemetry))
    decreases |consumers|
  {
    if consumers != [] {
      var n := |consumers| - 1;
      var before := WithConsumers(d, consumers[..n]);
      ConsumersGood(d, consumers[..n]);
      MonitoredPrefix(consumers);
      NextGood(d, before, consumers[n], Monitored(consumers[..n]));
    }
  }

  lemma MonitoredPrefix(consumers: seq<Consumer>)
    requires consumers != []
    ensures var n := |consumers| - 1;
      Monitored(consumers) ==> Monitored(consumers[..n]) || consumers[n].telemetry != []
  {
    var n := |consumers| - 1;
    if i :| 0 <= i < |consumers| && consumers[i].telemetry != [] {
      if i < n { assert consumers[..n][i] == consumers[i]; }
    }
  }

  lemma NextGood(d: Draft, before: Draft, k: Consumer, monitored: bool)
    requires Good(before) && Grows(d, before) && (monitored ==> Pinned(before, before.verify, Telemetry))
    ensures var e := WithConsumer(before, k);
      && Good(e) && Grows(d, e) && Pinned(e, e.verify, Runtime)
      && (monitored || k.telemetry != [] ==> Pinned(e, e.verify, Telemetry))
  {
    ConsumerGood(before, k);
    GrowsTransitive(d, before, WithConsumer(before, k));
    StillPinned(before, WithConsumer(before, k), Telemetry);
  }

  /** What `compile_controls` produces: VERIFY probes bound to the target generation and positive,
      REVOKE probes bound to the current one and negative exactly for provider and credential, under
      numbers of their own; with all kinds an API-managed credential needs. */
  lemma CompileGood(c: Credential, consumers: seq<Consumer>, browser: bool)
    ensures var e := Compile(c, consumers, browser);
      && Good(e) && (!browser ==> ApiReady(e))
      && (consumers != [] ==> Pinned(e, e.verify, Runtime))
      && (Monitored(consumers) ==> Pinned(e, e.verify, Telemetry))
  {
    ManagedGood(c, browser);
    ConsumersGood(Managed(c, browser), consumers);
    if !browser { StillReady(Managed(c, browser), Compile(c, consumers, browser)); }
  }

  /** Compiled controls bind every revocation probe to the old generation, always. */
  lemma BindsToOld(c: Credential, consumers: seq<Consumer>, browser: bool, telemetry: bool,
                   generations: map<GenerationId, Generation>, current: Option<GenerationId>, target: Option<GenerationId>)
    ensures var controls := ControlsOf(Compile(c, consumers, browser), telemetry, generations, current, target);
      BoundToOld(controls) && Consistent(controls)
  {
    CompileGood(c, consumers, browser);
    var d := Compile(c, consumers, browser);
    var controls := ControlsOf(d, telemetry, generations, current, target);
    forall id | id in Ids(controls, Revoking) ensures id < |d.probes| && ForRevoke(d.probes[id]) {
      var k :| 0 <= k < |d.revoke| && d.revoke[k] == id;
    }
  }

  // --------------------------------------------------- resolving compiled probes

  /** Both generations of the run are on record, each with a provider id and a secret. */
  predicate OnRecord(c: Controls) {
    && c.current.Some? && c.current.value in c.generations && Full(c.generations[c.current.value])
    && c.target.Some? && c.target.value in c.generations && Full(c.generations[c.target.value])
  }

  predicate Full(g: Generation) { g.providerId.Some? && g.secretReference.Some? }

  lemma Binds(c: Controls, d: Definition, negative: bool)
    requires OnRecord(c) && d.expectedGeneration.None? && !d.generationBinding.Unbound?
    requires RevocationKind(d.kind) ==> d.negative == negative
    ensures Bind(c, d, negative).Ok?
    ensures var b := Bind(c, d, negative).value;
      && b.kind == d.kind && b.negative == d.negative && b.thresholds == d.thresholds
      && b.expectedGeneration.Some? && (d.kind.Credential? ==> b.secretReference.Some?)
  {
  }

  /** The pinned probes of a stage, bound. */
  ghost function BoundAll(c: Controls, stage: Stage, negative: bool): seq<Definition>
    requires BindsAll(c, Ids(c, stage), negative)
  {
    var ids := Ids(c, stage);
    seq(|ids|, i requires 0 <= i < |ids| => BindId(c, ids[i], negative).value)
  }

  predicate Resolvable(d: Definition, negative: bool) {
    && d.expectedGeneration.None? && !d.generationBinding.Unbound?
    && (RevocationKind(d.kind) ==> d.negative == negative)
  }

  lemma StageBinds(c: Controls, stage: Stage, negative: bool)
    requires OnRecord(c)
    requires forall id :: id in Ids(c, stage) ==>
      id in c.versions && c.versions[id].authorised && Resolvable(c.versions[id].definition, negative)
    ensures BindsAll(c, Ids(c, stage), negative)
    ensures var ds, ids := BoundAll(c, stage, negative), Ids(c, stage);
      && IsBinding(c, ids, negative, ds)
      && forall k :: 0 <= k < |ids| ==>
           && ds[k].kind == c.versions[ids[k]].definition.kind && ds[k].negative == c.versions[ids[k]].definition.negative
           && ds[k].thresholds == c.versions[ids[k]].definition.thresholds
           && ds[k].expectedGeneration.Some? && (ds[k].kind.Credential? ==> ds[k].secretReference.Some?)
  {
    var ids := Ids(c, stage);
    forall k | 0 <= k < |ids| ensures BindId(c, ids[k], negative).Ok? {
      assert ids[k] in ids;
      Binds(c, c.versions[ids[k]].definition, negative);
    }
    forall k | 0 <= k < |ids|
      ensures var d, b := c.versions[ids[k]].definition, BindId(c, ids[k], negative).value;
        && b.kind == d.kind && b.negative == d.negative && b.thresholds == d.thresholds
        && b.expectedGeneration.Some? && (d.kind.Credential? ==> b.secretReference.Some?)
    {
      assert ids[k] in ids;
      Binds(c, c.versions[ids[k]].definition, negative);
    }
  }

  /** A run over compiled controls of an API-managed credential with at least one consumer. */
  ghost predicate Generated(c: Controls, credential: Credential, consumers: seq<Consumer>) {
    && consumers != [] && OnRecord(c)
    && c == ControlsOf(Compile(credential, consumers, false), Monitored(consumers), c.generations, c.current, c.target)
  }

  lemma PinnedHas(d: Draft, c: Controls, stage: Stage, ds: seq<Definition>, kind: Kind)
    requires |ds| == |Ids(c, stage)| && Ids(c, stage) == (match stage case Verifying => d.verify case Observing => d.observe case Revoking => d.revoke)
    requires forall k :: 0 <= k < |ds| ==> Ids(c, stage)[k] < |d.probes| && ds[k].kind == d.probes[Ids(c, stage)[k]].kind
    ensures Pinned(d, Ids(c, stage), kind) ==> Has(ds, kind)
  {
    var ids := Ids(c, stage);
    if k :| 0 <= k < |ids| && ids[k] < |d.probes| && d.probes[ids[k]].kind == kind {
      assert ds[k].kind == kind;
    }
  }

  lemma VerifyHas(c: Controls, d: Draft, a: seq<Definition>)
    requires Ids(c, Verifying) == d.verify && |a| == |d.verify| && ApiReady(d) && Pinned(d, d.verify, Runtime)
    requires forall k :: 0 <= k < |a| ==> d.verify[k] < |d.probes| && a[k].kind == d.probes[d.verify[k]].kind
    ensures Has(a, Provider) && Has(a, Kind.Credential) && Has(a, Secret) && Has(a, Runtime)
    ensures Pinned(d, d.verify, Telemetry) ==> Has(a, Telemetry)
  {
    PinnedHas(d, c, Verifying, a, Provider);
    PinnedHas(d, c, Verifying, a, Kind.Credential);
    PinnedHas(d, c, Verifying, a, Secret);
    PinnedHas(d, c, Verifying, a, Runtime);
    PinnedHas(d, c, Verifying, a, Telemetry);
  }

  lemma VerifyFacts(c: Controls, credential: Credential, consumers: seq<Consumer>)
    requires Generated(c, credential, consumers)
    ensures BindsAll(c, Ids(c, Verifying), false)
    ensures var a, d := BoundAll(c, Verifying, false), Compile(credential, consumers, false);
      && IsBinding(c, Ids(c, Verifying), false, a) && Ids(c, Verifying) == d.verify
      && (forall k :: 0 <= k < |a| ==>
            d.verify[k] < |d.probes| && a[k].kind == d.probes[d.verify[k]].kind && !a[k].negative &&
            a[k].thresholds == Thresholds(1, 0, 0) && a[k].expectedGeneration.Some? &&
            (a[k].kind.Credential? ==> a[k].secretReference.Some?))
  {
    CompileGood(credential, consumers, false);
    var d := Compile(credential, consumers, false);
    forall id | id in Ids(c, Verifying) ensures id < |d.probes| && ForVerify(d.probes[id]) {
      var k :| 0 <= k < |d.verify| && d.verify[k] == id;
    }
    StageBinds(c, Verifying, false);
    forall k | 0 <= k < |d.verify| ensures d.verify[k] in Ids(c, Verifying) {}
  }

  lemma VerifyResolves(c: Controls, credential: Credential, consumers: seq<Consumer>)
    requires Generated(c, credential, consumers)
    ensures BindsAll(c, Ids(c, Verifying), false)
    ensures var a := BoundAll(c, Verifying, false);
      && Resolved(c, Verifying, false, a)
      && Has(a, Kind.Credential) && !HasSigned(a, Secret, true)
      && (c.requireTelemetry ==> HasSigned(a, Telemetry, false))
      && Hopeful(a)
  {
    CompileGood(credential, consumers, false);
    VerifyFacts(c, credential, consumers);
    VerifyHas(c, Compile(credential, consumers, false), BoundAll(c, Verifying, false));
    VerifyCovered(c, BoundAll(c, Verifying, false));
  }

  lemma VerifyCovered(c: Controls, a: seq<Definition>)
    requires forall k :: 0 <= k < |a| ==> !a[k].negative && a[k].expectedGeneration.Some?
    requires Has(a, Provider) && Has(a, Kind.Credential) && Has(a, Secret) && Has(a, Runtime)
    requires c.requireTelemetry ==> Has(a, Telemetry)
    ensures Coverage(c, a, false, false, Verifying).None? && !HasSigned(a, Secret, true)
    ensures c.requireTelemetry ==> HasSigned(a, Telemetry, false)
  {
    if Has(a, Telemetry) {
      var k :| 0 <= k < |a| && a[k].kind == Telemetry;
      assert a[k].negative == false;
    }
  }

  lemma RevokeResolves(c: Controls, credential: Credential, consumers: seq<Consumer>)
    requires Generated(c, credential, consumers)
    ensures BindsAll(c, Ids(c, Revoking), true)
    ensures var r := BoundAll(c, Revoking, true);
      && Resolved(c, Revoking, true, r)
      && Has(r, Provider) && Has(r, Kind.Credential) && HasSigned(r, Secret, false)
      && Hopeful(r)
  {
    CompileGood(credential, consumers, false);
    var d := Compile(credential, consumers, false);
    forall id | id in Ids(c, Revoking) ensures id < |d.probes| && ForRevoke(d.probes[id]) {
      var k :| 0 <= k < |d.revoke| && d.revoke[k] == id;
    }
    StageBinds(c, Revoking, true);
    var r := BoundAll(c, Revoking, true);
    forall k | 0 <= k < |r|
      ensures Ids(c, Revoking)[k] < |d.probes| && r[k].kind == d.probes[Ids(c, Revoking)[k]].kind
      ensures (r[k].negative <==> RevocationKind(r[k].kind)) && !r[k].kind.Telemetry?
    {
      assert Ids(c, Revoking)[k] in Ids(c, Revoking);
    }
    PinnedHas(d, c, Revoking, r, Provider);
    PinnedHas(d, c, Revoking, r, Kind.Credential);
    PinnedHas(d, c, Revoking, r, Secret);
    RevokeCovered(c, r);
  }

  lemma RevokeCovered(c: Controls, r: seq<Definition>)
    requires forall k :: 0 <= k < |r| ==> (r[k].negative <==> RevocationKind(r[k].kind))
    requires Has(r, Provider) && Has(r, Kind.Credential) && Has(r, Secret)
    ensures Coverage(c, r, true, false, Revoking).None? && HasSigned(r, Secret, false)
  {
    var i :| 0 <= i < |r| && r[i].kind == Provider;
    var j :| 0 <= j < |r| && r[j].kind == Kind.Credential;
    var k :| 0 <= k < |r| && r[k].kind == Secret;
    assert r[i].negative == true && r[j].negative == true && r[k].negative == false;
  }

  // ------------------------------------------------------------ the REVOKE stage

  ghost function ReportOf(ds: seq<Definition>, observe: nat -> Observation): Report {
    var results := seq(|ds|, k requires 0 <= k < |ds| => Execute(ds[k], observe(k)));
    Report(if forall k :: 0 <= k < |ds| ==> results[k].status.Passed? then Passed else Failed, results,
           set k, check | 0 <= k < |ds| && check in results[k].checks :: check)
  }

  lemma ReportOfIs(ds: seq<Definition>, observe: nat -> Observation)
    requires ds != []
    ensures IsReport(ds, observe, ReportOf(ds, observe))
    ensures ReportOf(ds, observe).status.Passed? <==> Passes(ds, observe)
  {
    var report := ReportOf(ds, observe);
    forall k: nat | k < |ds| ensures report.results[k].status.Passed? <==> observe(k).ready && Holds(ds[k], observe(k)) {}
  }

  /** Every probe passes. */
  ghost predicate Passes(ds: seq<Definition>, observe: nat -> Observation) {
    forall k: nat :: k < |ds| ==> observe(k).ready && Holds(ds[k], observe(k))
  }

  predicate RollsBack(w: World) { w.rollbacks != [] && forall i :: 0 <= i < |w.rollbacks| ==> w.rollbacks[i] }

  /** For an API-managed credential under the controls the repository generates, with both generations on
      record: the stage returns if and only if the provider steps ran, every VERIFY probe of the
      replacement and every REVOKE probe of the old credential passed, every deployment can be rolled
      back, and the old secret version was disabled. */
  lemma GeneratedRevokesExactly(w: World, credential: Credential, consumers: seq<Consumer>)
    requires Generated(w.controls, credential, consumers) && !w.playbook
    ensures BindsAll(w.controls, Ids(w.controls, Verifying), false) && BindsAll(w.controls, Ids(w.controls, Revoking), true)
    ensures (exists p :: Granted(w, p)) <==>
      && w.steps && w.disabled && RollsBack(w)
      && Passes(BoundAll(w.controls, Verifying, false), w.replacement)
      && Passes(BoundAll(w.controls, Revoking, true), w.rejection)
  {
    var c := w.controls;
    VerifyResolves(c, credential, consumers);
    RevokeResolves(c, credential, consumers);
    BindsToOld(credential, consumers, false, Monitored(consumers), c.generations, c.current, c.target);
    var a, r := BoundAll(c, Verifying, false), BoundAll(c, Revoking, true);
    var p := Proof(a, ReportOf(a, w.replacement), r, ReportOf(r, w.rejection));
    ReportOfIs(a, w.replacement);
    ReportOfIs(r, w.rejection);
    ExactlyFor(w, p);
    forall q | Granted(w, q) ensures q == p {
      ResolvedOnce(c, Verifying, false, q.accepting, a);
      ResolvedOnce(c, Revoking, true, q.rejecting, r);
      ReportedOnce(a, w.replacement, q.replacement, p.replacement);
      ReportedOnce(r, w.rejection, q.rejection, p.rejection);
    }
  }

  lemma ExactlyFor(w: World, p: Proof)
    requires Consistent(w.controls) && !w.playbook && OnRecord(w.controls)
    requires Resolved(w.controls, Verifying, false, p.accepting) && IsReport(p.accepting, w.replacement, p.replacement)
    requires Resolved(w.controls, Revoking, true, p.rejecting) && IsReport(p.rejecting, w.rejection, p.rejection)
    requires Has(p.accepting, Kind.Credential) && !HasSigned(p.accepting, Secret, true)
    requires w.controls.requireTelemetry ==> HasSigned(p.accepting, Telemetry, false)
    requires Has(p.rejecting, Provider) && Has(p.rejecting, Kind.Credential) && HasSigned(p.rejecting, Secret, false)
    ensures Granted(w, p) <==>
      w.steps && w.disabled && RollsBack(w) && p.replacement.status.Passed? && p.rejection.status.Passed?
  {
    RevokesExactly(w, p);
  }

  /** And when it returns it is the old generation that was rejected: every provider probe was told that
      its provider id is gone, and every credential probe was refused with its secret. */
  lemma GeneratedOldRejected(w: World, p: Proof, credential: Credential, consumers: seq<Consumer>, k: nat)
    requires Generated(w.controls, credential, consumers) && Granted(w, p) && k < |p.rejecting|
    ensures p.rejecting[k].kind.Provider? ==>
      Gone(p.rejecting[k], w.rejection(k)) && Some(p.rejecting[k].target) == Old(w).value.providerId
    ensures p.rejecting[k].kind.Credential? ==>
      Refused(p.rejecting[k], w.rejection(k)) && p.rejecting[k].secretReference == Old(w).value.secretReference
  {
    var c := w.controls;
    BindsToOld(credential, consumers, false, Monitored(consumers), c.generations, c.current, c.target);
    OldGenerationRejected(w, p, k);
  }

  // ------------------------------------------------------------------ it returns

  /** What every probe hopes to see. */
  function Hoped(d: Definition): Answer {
    match d.kind
    case Provider => Exists(Some(!d.negative))
    case Credential => Authenticated(if d.negative then 401 else 200, {200})
    case Secret => SecretIs(if d.negative then Disabled else Enabled)
    case Telemetry => Logged([Entry(false, false)])
    case _ => Asserted(true)
  }

  /** Probes whose hopes can be met so. */
  predicate Hopeful(ds: seq<Definition>) {
    forall k :: 0 <= k < |ds| ==>
      && (ds[k].kind.Credential? ==> ds[k].secretReference.Some?)
      && (ds[k].kind.Telemetry? ==>
            !ds[k].negative && ds[k].expectedGeneration.Some? && ds[k].thresholds == Thresholds(1, 0, 0))
  }

  function Favourable(ds: seq<Definition>): nat -> Observation {
    (k: nat) => Observation(true, true, if k < |ds| then Hoped(ds[k]) else Raised)
  }

  lemma FavourablePasses(ds: seq<Definition>)
    requires Hopeful(ds)
    ensures Passes(ds, Favourable(ds))
  {
    assert Severe([Entry(false, false)]) == 0 && AuthFailures([Entry(false, false)]) == 0;
    forall k: nat | k < |ds| ensures Holds(ds[k], Favourable(ds)(k)) {}
  }

  lemma GeneratedHopeful(c: Controls, credential: Credential, consumers: seq<Consumer>)
    requires Generated(c, credential, consumers)
    ensures BindsAll(c, Ids(c, Verifying), false) && Hopeful(BoundAll(c, Verifying, false))
    ensures BindsAll(c, Ids(c, Revoking), true) && Hopeful(BoundAll(c, Revoking, true))
  {
    VerifyResolves(c, credential, consumers);
    RevokeResolves(c, credential, consumers);
  }

  lemma FavourableReturns(w: World, credential: Credential, consumers: seq<Consumer>)
    requires Generated(w.controls, credential, consumers) && !w.playbook && w.steps && w.disabled && RollsBack(w)
    requires BindsAll(w.controls, Ids(w.controls, Verifying), false) && BindsAll(w.controls, Ids(w.controls, Revoking), true)
    requires w.replacement == Favourable(BoundAll(w.controls, Verifying, false))
    requires w.rejection == Favourable(BoundAll(w.controls, Revoking, true))
    ensures exists p :: Granted(w, p)
  {
    GeneratedHopeful(w.controls, credential, consumers);
    FavourablePasses(BoundAll(w.controls, Verifying, false));
    FavourablePasses(BoundAll(w.controls, Revoking, true));
    GeneratedRevokesExactly(w, credential, consumers);
  }

  /** So it does return for every such credential, when every probe sees what it hopes for. */
  lemma GeneratedRevokes(c: Controls, credential: Credential, consumers: seq<Consumer>) returns (w: World)
    requires Generated(c, credential, consumers)
    ensures w.controls == c && !w.playbook && exists p :: Granted(w, p)
  {
    GeneratedHopeful(c, credential, consumers);
    w := World(c, false, true, false, [true], Favourable(BoundAll(c, Verifying, false)),
               Favourable(BoundAll(c, Revoking, true)), true);
    FavourableReturns(w, credential, consumers);
  }
}
