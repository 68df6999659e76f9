/** Revoking the old credential (server/coordinator/service.py, `_revoke`, `_verification_checks`,
    `_revocation_checks`): what has been observed when the stage returns. */
module Revocation {
  import opened Wrappers
  import opened Probes

  /** Everything the environment decides while the stage runs. */
  datatype World = World(
    controls: Controls,
    playbook: bool,                        // the provider is driven through a browser playbook
    steps: bool,                           // the provider steps executed
    playbookStep: bool,                    // and one of them completed in the browser
    rollbacks: seq<bool>,                  // for each deployment, whether a rollback revision is pinned
    replacement: nat -> Observation,
    rejection: nat -> Observation,
    disabled: bool)                        // the secret store answered that the version is disabled

  function Old(w: World): Option<Generation> {
    var c := w.controls;
    if c.current.Some? && c.current.value in c.generations then Some(c.generations[c.current.value]) else None
  }

  // ----------------------------------------------------------------- the evidence

  function ResultOf(results: seq<ProbeResult>, id: ProbeId): Option<ProbeResult> {
    if results == [] then None
    else
      var last := results[|results| - 1];
      if last.id == id then Some(last) else ResultOf(results[..|results| - 1], id)
  }

  predicate Selected(c: Controls, id: ProbeId, kind: Kind, sign: Option<bool>) {
    id in c.versions && c.versions[id].definition.kind == kind &&
    (sign.None? || c.versions[id].definition.negative == sign.value)
  }

  /** The inner `require` of `_verification_checks`. */
  predicate Evidence(c: Controls, ids: seq<ProbeId>, results: seq<ProbeResult>, kind: Kind, required: set<Check>,
                     sign: Option<bool>)
  {
    && (exists i :: 0 <= i < |ids| && Selected(c, ids[i], kind, sign))
    && (forall i :: 0 <= i < |ids| && Selected(c, ids[i], kind, sign) ==>
          ResultOf(results, ids[i]).Some? && required <= ResultOf(results, ids[i]).value.checks)
  }

  const RUNTIME_CHECKS := {RuntimeReady, RuntimeBindingInspected, GenerationIdentified}
  const TELEMETRY_CHECKS := {TelemetryQueryExecuted, TelemetryGenerationBound, TelemetryThresholdMet}

  predicate PinnedBrowserManaged(c: Controls, ids: seq<ProbeId>) {
    !(exists i :: 0 <= i < |ids| && (Selected(c, ids[i], Provider, None) || Selected(c, ids[i], Credential, None)))
  }

  /** `_verification_checks` for the VERIFY stage. */
  predicate ChecksPass(w: World, report: Report) {
    var c := w.controls;
    var ids := Ids(c, Verifying);
    && report.status.Passed?
    && (set r | r in report.results :: r.id) == (set id | id in ids)
    && (PinnedBrowserManaged(c, ids) ||
        (Evidence(c, ids, report.results, Provider, {ProviderCredentialExists}, None) &&
         Evidence(c, ids, report.results, Credential, {CredentialAccepted}, None)))
    && Evidence(c, ids, report.results, Secret, {SecretVersionEnabled}, None)
    && Evidence(c, ids, report.results, Runtime, RUNTIME_CHECKS, None)
    && w.rollbacks != [] && (forall i :: 0 <= i < |w.rollbacks| ==> w.rollbacks[i])
    && (c.requireTelemetry ==> Evidence(c, ids, report.results, Telemetry, TELEMETRY_CHECKS, Some(false)))
  }

  /** `_revocation_checks`. */
  predicate ProvesRejection(w: World, replacement: Report, rejection: Report) {
    && (w.playbook || CredentialAccepted in replacement.checks)
    && SecretVersionEnabled in rejection.checks
    && (w.playbook || (ProviderCredentialRevoked in rejection.checks && CredentialRejected in rejection.checks))
    && Old(w).Some? && Old(w).value.secretReference.Some?
  }

  datatype Proof = Proof(accepting: seq<Definition>, replacement: Report, rejecting: seq<Definition>, rejection: Report)

  ghost predicate Resolved(c: Controls, stage: Stage, negative: bool, ds: seq<Definition>) {
    Ids(c, stage) != [] && IsBinding(c, Ids(c, stage), negative, ds) && Coverage(c, ds, negative, false, stage).None?
  }

  /** Provider steps are skipped for a bootstrap generation of a browser-managed provider. */
  predicate NeedsSteps(w: World) { !(w.playbook && Old(w).Some? && Old(w).value.providerId.None?) }

  ghost predicate Granted(w: World, p: Proof) {
    && Old(w).Some? && (NeedsSteps(w) ==> w.steps)
    && Resolved(w.controls, Verifying, false, p.accepting) && IsReport(p.accepting, w.replacement, p.replacement)
    && p.replacement.status.Passed?
    && Resolved(w.controls, Revoking, true, p.rejecting) && IsReport(p.rejecting, w.rejection, p.rejection)
    && p.rejection.status.Passed?
    && (w.playbook && NeedsSteps(w) ==> w.playbookStep)
    && w.disabled
    && ChecksPass(w, p.replacement) && ProvesRejection(w, p.replacement, p.rejection)
  }

  lemma ResolvedOnce(c: Controls, stage: Stage, negative: bool, a: seq<Definition>, b: seq<Definition>)
    requires Resolved(c, stage, negative, a) && IsBinding(c, Ids(c, stage), negative, b)
    ensures a == b
  {
    var ids := Ids(c, stage);
    forall i | 0 <= i < |ids| ensures a[i] == b[i] {
      assert BindId(c, ids[i], negative) == Ok(a[i]) && BindId(c, ids[i], negative) == Ok(b[i]);
    }
  }

  lemma ReportedOnce(ds: seq<Definition>, observe: nat -> Observation, a: Report, b: Report)
    requires IsReport(ds, observe, a) && IsReport(ds, observe, b)
    ensures a == b
  {
    forall k | 0 <= k < |ds| ensures a.results[k] == b.results[k] {
      assert a.results[k] == Execute(ds[k], observe(k)) && b.results[k] == Execute(ds[k], observe(k));
    }
    assert a.results == b.results;
    forall check ensures check in a.checks <==> check in b.checks {}
    assert a.checks == b.checks;
  }

  /** `_revoke`. */
  method Revoke(w: World) returns (r: Result<Proof, Error>)
    ensures r.Ok? ==> Granted(w, r.value)
    ensures r.Err? ==> forall p :: !Granted(w, p)
  {
    if Old(w).None? { return Err(Missing); }
    if NeedsSteps(w) && !w.steps { return Err(StepsFailed); }
    var accepting := Resolve(w.controls, false, false, Verifying);
    if accepting.Err? { return Err(accepting.error); }
    forall p | Granted(w, p) ensures p.accepting == accepting.value {
      ResolvedOnce(w.controls, Verifying, false, p.accepting, accepting.value);
    }
    var replacement := Verify(accepting.value, w.replacement);
    if replacement.Err? { return Err(replacement.error); }
    forall p | Granted(w, p) ensures p.replacement == replacement.value {
      ReportedOnce(p.accepting, w.replacement, p.replacement, replacement.value);
    }
    if !replacement.value.status.Passed? { return Err(NotPassed); }
    var rejecting := Resolve(w.controls, true, false, Revoking);
    if rejecting.Err? { return Err(rejecting.error); }
    forall p | Granted(w, p) ensures p.rejecting == rejecting.value {
      ResolvedOnce(w.controls, Revoking, true, p.rejecting, rejecting.value);
    }
    var rejection := Verify(rejecting.value, w.rejection);
    if rejection.Err? { return Err(rejection.error); }
    forall p | Granted(w, p) ensures p.rejection == rejection.value {
      ReportedOnce(p.rejecting, w.rejection, p.rejection, rejection.value);
    }
    if !rejection.value.status.Passed? { return Err(NotPassed); }
    if w.playbook && NeedsSteps(w) && !w.playbookStep { return Err(NoPlaybookProof); }
    if Old(w).value.secretReference.Some? && !w.disabled { return Err(NotDisabled); }
    if !ChecksPass(w, replacement.value) { return Err(LacksEvidence); }
    if !ProvesRejection(w, replacement.value, rejection.value) { return Err(NoRejectionProof); }
    return Ok(Proof(accepting.value, replacement.value, rejecting.value, rejection.value));
  }

  // -------------------------------------------------------------- what it proves

  /** A provider probe was told, by the ready management connection, that its credential is gone. */
  predicate Gone(d: Definition, o: Observation) { d.kind.Provider? && o.ready && o.answer == Exists(Some(false)) }

  /** A credential probe authenticated with a stored secret and got a status that is no success. */
  predicate Refused(d: Definition, o: Observation) {
    && d.kind.Credential? && o.ready && o.secretReady && d.secretReference.Some?
    && o.answer.Authenticated? && o.answer.status !in o.answer.success
  }

  predicate Accepted(d: Definition, o: Observation) {
    && d.kind.Credential? && o.ready && o.secretReady && d.secretReference.Some?
    && o.answer.Authenticated? && o.answer.status in o.answer.success
  }

  lemma PassedProbe(ds: seq<Definition>, observe: nat -> Observation, report: Report, k: nat)
    requires IsReport(ds, observe, report) && report.status.Passed? && k < |ds|
    ensures report.results[k].status.Passed? && observe(k).ready && Holds(ds[k], observe(k))
  {
    assert report.results[k] == Execute(ds[k], observe(k));
  }

  lemma NegativeProbe(d: Definition, o: Observation)
    requires o.ready && Holds(d, o) && (RevocationKind(d.kind) ==> d.negative)
    ensures d.kind.Provider? ==> Gone(d, o)
    ensures d.kind.Credential? ==> Refused(d, o) && !Accepted(d, o)
  {
  }

  lemma PositiveProbe(d: Definition, o: Observation)
    requires o.ready && Holds(d, o) && (RevocationKind(d.kind) ==> !d.negative)
    ensures d.kind.Credential? ==> Accepted(d, o)
  {
  }

  lemma Polarity(c: Controls, stage: Stage, negative: bool, ds: seq<Definition>, k: nat)
    requires Resolved(c, stage, negative, ds) && k < |ds|
    ensures RevocationKind(ds[k].kind) ==> ds[k].negative == negative
  {
    Signed(c, stage, negative, ds, k);
  }

  lemma AllRejected(w: World, p: Proof, k: nat)
    requires Granted(w, p) && k < |p.rejecting|
    ensures p.rejection.results[k].status.Passed?
    ensures p.rejecting[k].kind.Provider? ==> Gone(p.rejecting[k], w.rejection(k))
    ensures p.rejecting[k].kind.Credential? ==>
      Refused(p.rejecting[k], w.rejection(k)) && !Accepted(p.rejecting[k], w.rejection(k))
  {
    Polarity(w.controls, Revoking, true, p.rejecting, k);
    PassedProbe(p.rejecting, w.rejection, p.rejection, k);
    NegativeProbe(p.rejecting[k], w.rejection(k));
  }

  lemma AllAccepted(w: World, p: Proof, k: nat)
    requires Granted(w, p) && k < |p.accepting|
    ensures p.accepting[k].kind.Credential? ==> Accepted(p.accepting[k], w.replacement(k))
  {
    Polarity(w.controls, Verifying, false, p.accepting, k);
    PassedProbe(p.accepting, w.replacement, p.replacement, k);
    PositiveProbe(p.accepting[k], w.replacement(k));
  }

  lemma CheckKind(d: Definition)
    ensures ProviderCredentialRevoked in Checks(d) ==> d.kind.Provider?
    ensures CredentialRejected in Checks(d) || CredentialAccepted in Checks(d) ==> d.kind.Credential?
  {
  }

  /** If the stage returns for an API-managed credential, some provider probe of the rejection report
      saw the credential gone, some credential probe was refused, and some credential probe of the
      replacement report was accepted. */
  lemma SomeRejected(w: World, p: Proof) returns (gone: nat, refused: nat, accepted: nat)
    requires Granted(w, p) && !w.playbook
    ensures gone < |p.rejecting| && Gone(p.rejecting[gone], w.rejection(gone))
    ensures refused < |p.rejecting| && Refused(p.rejecting[refused], w.rejection(refused))
    ensures accepted < |p.accepting| && Accepted(p.accepting[accepted], w.replacement(accepted))
  {
    gone := CheckSource(p.rejecting, w.rejection, p.rejection, ProviderCredentialRevoked);
    CheckKind(p.rejecting[gone]);
    AllRejected(w, p, gone);
    refused := CheckSource(p.rejecting, w.rejection, p.rejection, CredentialRejected);
    CheckKind(p.rejecting[refused]);
    AllRejected(w, p, refused);
    accepted := CheckSource(p.accepting, w.replacement, p.replacement, CredentialAccepted);
    CheckKind(p.accepting[accepted]);
    AllAccepted(w, p, accepted);
  }

  /** If the stage returns for an API-managed credential: the rejection report is all passed; some
      provider probe in it saw the credential gone and some credential probe was refused; and no
      credential probe in it was accepted. */
  lemma OldCredentialRejected(w: World, p: Proof)
    requires Granted(w, p) && !w.playbook
    ensures forall k: nat :: k < |p.rejecting| ==> p.rejection.results[k].status.Passed?
    ensures exists k: nat :: k < |p.rejecting| && Gone(p.rejecting[k], w.rejection(k))
    ensures exists k: nat :: k < |p.rejecting| && Refused(p.rejecting[k], w.rejection(k))
    ensures forall k: nat :: k < |p.rejecting| ==> !Accepted(p.rejecting[k], w.rejection(k))
  {
    var gone, refused, accepted := SomeRejected(w, p);
    forall k: nat | k < |p.rejecting|
      ensures p.rejection.results[k].status.Passed? && !Accepted(p.rejecting[k], w.rejection(k))
    {
      AllRejected(w, p, k);
    }
  }

  /** Binding fixes the polarity of provider and credential probes, and keeps identity and kind. */
  lemma Signed(c: Controls, stage: Stage, negative: bool, ds: seq<Definition>, k: nat)
    requires Resolved(c, stage, negative, ds) && k < |ds|
    ensures var id := Ids(c, stage)[k];
      && id in c.versions
      && var d := c.versions[id].definition;
         && Bind(c, d, negative) == Ok(ds[k])
         && ds[k].id == d.id && ds[k].kind == d.kind && ds[k].negative == d.negative
         && (RevocationKind(d.kind) ==> d.negative == negative)
         && ds[k].expectedGeneration == BoundGeneration(c, d)
  {
    assert BindId(c, Ids(c, stage)[k], negative) == Ok(ds[k]);
  }

  /** Whose credential was it? A credential probe authenticates with the secret of the generation it
      is bound to, and a provider probe with a dynamic target asks about that generation. */
  lemma Examined(c: Controls, stage: Stage, negative: bool, ds: seq<Definition>, k: nat)
    requires Resolved(c, stage, negative, ds) && k < |ds|
    ensures var d := c.versions[Ids(c, stage)[k]].definition;
      var bound := BoundGeneration(c, d);
      && (d.kind.Credential? ==>
            bound.Some? && bound.value in c.generations &&
            ds[k].secretReference == c.generations[bound.value].secretReference)
      && (d.kind.Provider? && d.targetBinding.ProviderId? ==>
            bound.Some? && bound.value in c.generations &&
            Some(ds[k].target) == c.generations[bound.value].providerId)
  {
    Signed(c, stage, negative, ds, k);
  }

  /** The rejection report looks at the current generation, with every provider and credential probe,
      exactly if each of those is bound to it: CURRENT, or TARGET where target and current are one. */
  lemma ExaminesCurrentExactly(c: Controls, ds: seq<Definition>)
    requires Resolved(c, Revoking, true, ds) && c.current.Some?
    ensures (forall k: nat :: k < |ds| && RevocationKind(ds[k].kind) ==> ds[k].expectedGeneration == c.current) <==>
            (forall k: nat :: k < |ds| ==> BoundToCurrent(c, Ids(c, Revoking)[k]))
  {
    forall k: nat | k < |ds|
      ensures (RevocationKind(ds[k].kind) ==> ds[k].expectedGeneration == c.current) <==>
              BoundToCurrent(c, Ids(c, Revoking)[k])
    {
      Signed(c, Revoking, true, ds, k);
    }
  }

  predicate BoundToCurrent(c: Controls, id: ProbeId) {
    id in c.versions && RevocationKind(c.versions[id].definition.kind) ==>
      var binding := c.versions[id].definition.generationBinding;
      binding.Current? || (binding.Target? && c.target == c.current)
  }

  /** Every revocation probe is bound to the current generation, and the provider ones to its provider
      id; true of all controls the repository generates (`CompiledControls.BindsToOld`). */
  ghost predicate BoundToOld(c: Controls) {
    forall id :: id in Ids(c, Revoking) && id in c.versions && RevocationKind(c.versions[id].definition.kind) ==>
      && c.versions[id].definition.generationBinding.Current?
      && (c.versions[id].definition.kind.Provider? ==> c.versions[id].definition.targetBinding.ProviderId?)
  }

  lemma BoundDefinition(c: Controls, ds: seq<Definition>, k: nat)
    requires Resolved(c, Revoking, true, ds) && BoundToOld(c) && k < |ds|
    ensures var d := c.versions[Ids(c, Revoking)[k]].definition;
      && d.kind == ds[k].kind
      && (RevocationKind(d.kind) ==> d.generationBinding.Current?)
      && (d.kind.Provider? ==> d.targetBinding.ProviderId?)
  {
    Signed(c, Revoking, true, ds, k);
    assert Ids(c, Revoking)[k] in Ids(c, Revoking);
  }

  lemma ExaminesOld(c: Controls, ds: seq<Definition>, k: nat)
    requires Resolved(c, Revoking, true, ds) && BoundToOld(c) && k < |ds|
    ensures RevocationKind(ds[k].kind) ==> c.current.Some? && c.current.value in c.generations
    ensures ds[k].kind.Provider? ==> Some(ds[k].target) == c.generations[c.current.value].providerId
    ensures ds[k].kind.Credential? ==> ds[k].secretReference == c.generations[c.current.value].secretReference
  {
    Examined(c, Revoking, true, ds, k);
    BoundDefinition(c, ds, k);
  }

  /** Under such controls it was the old generation's credential that is gone and refused. */
  lemma OldGenerationRejected(w: World, p: Proof, k: nat)
    requires Granted(w, p) && BoundToOld(w.controls) && k < |p.rejecting|
    ensures p.rejecting[k].kind.Provider? ==>
      Gone(p.rejecting[k], w.rejection(k)) && Some(p.rejecting[k].target) == Old(w).value.providerId
    ensures p.rejecting[k].kind.Credential? ==>
      Refused(p.rejecting[k], w.rejection(k)) && p.rejecting[k].secretReference == Old(w).value.secretReference
  {
    AllRejected(w, p, k);
    ExaminesOld(w.controls, p.rejecting, k);
  }

  // ---------------------------------------------- when the checks of a report pass

  /** A version is stored under the id of its definition. */
  ghost predicate Consistent(c: Controls) {
    forall id :: id in c.versions ==> c.versions[id].definition.id == id
  }

  lemma {:induction false} ResultOfLast(results: seq<ProbeResult>, id: ProbeId)
    ensures ResultOf(results, id).Some? <==> exists k :: 0 <= k < |results| && results[k].id == id
    ensures ResultOf(results, id).Some? ==> ResultOf(results, id).value in results && ResultOf(results, id).value.id == id
    decreases |results|
  {
    if results != [] {
      ResultOfLast(results[..|results| - 1], id);
    }
  }

  /** In a passed report the result filed under a pinned probe carries that probe's checks, however
      often the probe is pinned. */
  lemma FiledChecks(w: World, ds: seq<Definition>, report: Report, k: nat)
    requires Consistent(w.controls) && Resolved(w.controls, Verifying, false, ds)
    requires IsReport(ds, w.replacement, report) && report.status.Passed? && k < |ds|
    ensures var found := ResultOf(report.results, Ids(w.controls, Verifying)[k]);
      found.Some? && found.value.checks == Checks(ds[k])
  {
    var c, ids := w.controls, Ids(w.controls, Verifying);
    Signed(c, Verifying, false, ds, k);
    ResultOfLast(report.results, ids[k]);
    assert report.results[k] == Execute(ds[k], w.replacement(k)) && report.results[k].id == ids[k];
    var found := ResultOf(report.results, ids[k]).value;
    var j :| 0 <= j < |report.results| && report.results[j] == found;
    Signed(c, Verifying, false, ds, j);
    assert report.results[j] == Execute(ds[j], w.replacement(j));
    assert ids[j] == ids[k] && ds[j] == ds[k];
  }

  /** The pinned definition and the filed result of one probe. */
  lemma Filed(w: World, ds: seq<Definition>, report: Report, kind: Kind, sign: Option<bool>, k: nat)
    requires Consistent(w.controls) && Resolved(w.controls, Verifying, false, ds)
    requires IsReport(ds, w.replacement, report) && report.status.Passed? && k < |ds|
    ensures var id := Ids(w.controls, Verifying)[k];
      && report.results[k].id == id
      && (Selected(w.controls, id, kind, sign) <==> Matches(ds[k], kind, sign))
      && ResultOf(report.results, id).Some? && ResultOf(report.results, id).value.checks == Checks(ds[k])
  {
    Signed(w.controls, Verifying, false, ds, k);
    FiledChecks(w, ds, report, k);
    assert report.results[k] == Execute(ds[k], w.replacement(k));
  }

  predicate Matches(d: Definition, kind: Kind, sign: Option<bool>) {
    d.kind == kind && (sign.None? || d.negative == sign.value)
  }

  predicate AllReport(ds: seq<Definition>, kind: Kind, required: set<Check>, sign: Option<bool>) {
    && (exists k :: 0 <= k < |ds| && Matches(ds[k], kind, sign))
    && (forall k :: 0 <= k < |ds| && Matches(ds[k], kind, sign) ==> required <= Checks(ds[k]))
  }

  /** Evidence of one kind is in a passed report exactly if the pinned probes of that kind, of which
      there must be one, all report it. */
  lemma EvidenceExactly(w: World, ds: seq<Definition>, report: Report, kind: Kind, required: set<Check>, sign: Option<bool>)
    requires Consistent(w.controls) && Resolved(w.controls, Verifying, false, ds)
    requires IsReport(ds, w.replacement, report) && report.status.Passed?
    ensures Evidence(w.controls, Ids(w.controls, Verifying), report.results, kind, required, sign) <==>
            AllReport(ds, kind, required, sign)
  {
    var c, ids := w.controls, Ids(w.controls, Verifying);
    forall k: nat | k < |ds|
      ensures Selected(c, ids[k], kind, sign) <==> Matches(ds[k], kind, sign)
      ensures ResultOf(report.results, ids[k]).Some? && ResultOf(report.results, ids[k]).value.checks == Checks(ds[k])
    {
      Filed(w, ds, report, kind, sign, k);
    }
    EvidenceFrom(c, ids, ds, report.results, kind, required, sign);
  }

  lemma EvidenceFrom(c: Controls, ids: seq<ProbeId>, ds: seq<Definition>, results: seq<ProbeResult>, kind: Kind,
                     required: set<Check>, sign: Option<bool>)
    requires |ids| == |ds|
    requires forall k: nat :: k < |ds| ==> (Selected(c, ids[k], kind, sign) <==> Matches(ds[k], kind, sign))
    requires forall k: nat :: k < |ds| ==>
      ResultOf(results, ids[k]).Some? && ResultOf(results, ids[k]).value.checks == Checks(ds[k])
    ensures Evidence(c, ids, results, kind, required, sign) <==> AllReport(ds, kind, required, sign)
  {
    if Evidence(c, ids, results, kind, required, sign) {
      var i :| 0 <= i < |ids| && Selected(c, ids[i], kind, sign);
      assert Matches(ds[i], kind, sign);
      forall k: nat | k < |ds| && Matches(ds[k], kind, sign) ensures required <= Checks(ds[k]) {
        assert Selected(c, ids[k], kind, sign);
      }
    }
    if AllReport(ds, kind, required, sign) {
      var k :| 0 <= k < |ds| && Matches(ds[k], kind, sign);
      assert Selected(c, ids[k], kind, sign);
      forall i: nat | i < |ids| && Selected(c, ids[i], kind, sign)
        ensures ResultOf(results, ids[i]).Some? && required <= ResultOf(results, ids[i]).value.checks
      {
        assert Matches(ds[i], kind, sign);
      }
    }
  }

  /** What a pinned probe of the VERIFY stage reports, kind by kind. */
  lemma KindReports(c: Controls, ds: seq<Definition>, k: nat)
    requires Resolved(c, Verifying, false, ds) && k < |ds|
    ensures Matches(ds[k], Provider, None) ==> {ProviderCredentialExists} <= Checks(ds[k])
    ensures Matches(ds[k], Credential, None) ==> {CredentialAccepted} <= Checks(ds[k])
  {
    Polarity(c, Verifying, false, ds, k);
  }

  lemma RuntimeReports(c: Controls, ds: seq<Definition>, k: nat)
    requires Resolved(c, Verifying, false, ds) && k < |ds| && ds[k].kind.Runtime?
    ensures RUNTIME_CHECKS <= Checks(ds[k])
  {
    assert ds[k].expectedGeneration.Some?;
  }

  lemma KindsReport(c: Controls, ds: seq<Definition>)
    requires Resolved(c, Verifying, false, ds)
    ensures AllReport(ds, Provider, {ProviderCredentialExists}, None) <==> Has(ds, Provider)
    ensures AllReport(ds, Credential, {CredentialAccepted}, None) <==> Has(ds, Credential)
    ensures AllReport(ds, Runtime, RUNTIME_CHECKS, None)
  {
    forall k: nat | k < |ds| ensures Matches(ds[k], Provider, None) ==> {ProviderCredentialExists} <= Checks(ds[k]) {
      KindReports(c, ds, k);
    }
    KindReport(ds, Provider, {ProviderCredentialExists});
    forall k: nat | k < |ds| ensures Matches(ds[k], Credential, None) ==> {CredentialAccepted} <= Checks(ds[k]) {
      KindReports(c, ds, k);
    }
    KindReport(ds, Credential, {CredentialAccepted});
    forall k: nat | k < |ds| ensures Matches(ds[k], Runtime, None) ==> RUNTIME_CHECKS <= Checks(ds[k]) {
      if ds[k].kind.Runtime? { RuntimeReports(c, ds, k); }
    }
    KindReport(ds, Runtime, RUNTIME_CHECKS);
    HasRuntime(c, ds);
  }

  lemma KindReport(ds: seq<Definition>, kind: Kind, required: set<Check>)
    requires forall k: nat :: k < |ds| ==> (Matches(ds[k], kind, None) ==> required <= Checks(ds[k]))
    ensures AllReport(ds, kind, required, None) <==> Has(ds, kind)
  {
    HasMatches(ds, kind);
  }

  lemma HasRuntime(c: Controls, ds: seq<Definition>)
    requires Resolved(c, Verifying, false, ds)
    ensures Has(ds, Runtime)
  {
  }

  lemma HasMatches(ds: seq<Definition>, kind: Kind)
    ensures Has(ds, kind) <==> exists k :: 0 <= k < |ds| && Matches(ds[k], kind, None)
  {
    if Has(ds, kind) {
      var k :| 0 <= k < |ds| && ds[k].kind == kind;
      assert Matches(ds[k], kind, None);
    }
  }

  lemma SecretReport(ds: seq<Definition>)
    requires Has(ds, Secret)
    ensures AllReport(ds, Secret, {SecretVersionEnabled}, None) <==> !HasSigned(ds, Secret, true)
  {
    HasMatches(ds, Secret);
    forall k: nat | k < |ds| && ds[k].kind.Secret?
      ensures Matches(ds[k], Secret, None) && (SecretVersionEnabled in Checks(ds[k]) <==> !ds[k].negative)
    {}
    if HasSigned(ds, Secret, true) {
      var k :| 0 <= k < |ds| && ds[k].kind == Secret && ds[k].negative == true;
      assert Matches(ds[k], Secret, None) && SecretVersionEnabled !in Checks(ds[k]);
    }
  }

  lemma TelemetryReport(ds: seq<Definition>)
    ensures AllReport(ds, Telemetry, TELEMETRY_CHECKS, Some(false)) <==> HasSigned(ds, Telemetry, false)
  {
    forall k: nat | k < |ds| && Matches(ds[k], Telemetry, Some(false)) ensures TELEMETRY_CHECKS <= Checks(ds[k]) {}
    if HasSigned(ds, Telemetry, false) {
      var k :| 0 <= k < |ds| && ds[k].kind == Telemetry && ds[k].negative == false;
      assert Matches(ds[k], Telemetry, Some(false));
    }
  }

  /** `_verification_checks` accepts a passed report of its own pinned probes exactly if no secret
      probe among them is negative, a positive telemetry probe is there when telemetry is required,
      and every deployment, of which there must be one, has a rollback revision. */
  lemma ChecksPassExactly(w: World, ds: seq<Definition>, report: Report)
    requires Consistent(w.controls) && Resolved(w.controls, Verifying, false, ds)
    requires IsReport(ds, w.replacement, report) && report.status.Passed?
    ensures ChecksPass(w, report) <==>
      && !HasSigned(ds, Secret, true)
      && (w.controls.requireTelemetry ==> HasSigned(ds, Telemetry, false))
      && w.rollbacks != [] && (forall i :: 0 <= i < |w.rollbacks| ==> w.rollbacks[i])
  {
    forall k: nat | k < |ds| ensures report.results[k].id == Ids(w.controls, Verifying)[k] {
      Filed(w, ds, report, Secret, None, k);
    }
    CoversPinned(w, ds, report);
    EvidenceExactly(w, ds, report, Provider, {ProviderCredentialExists}, None);
    EvidenceExactly(w, ds, report, Credential, {CredentialAccepted}, None);
    EvidenceExactly(w, ds, report, Secret, {SecretVersionEnabled}, None);
    EvidenceExactly(w, ds, report, Runtime, RUNTIME_CHECKS, None);
    EvidenceExactly(w, ds, report, Telemetry, TELEMETRY_CHECKS, Some(false));
    BrowserManagedAgrees(w, ds);
    Covered(w.controls, ds);
    KindsReport(w.controls, ds);
    SecretReport(ds);
    TelemetryReport(ds);
  }

  lemma Covered(c: Controls, ds: seq<Definition>)
    requires Resolved(c, Verifying, false, ds)
    ensures Has(ds, Secret) && (BrowserManaged(ds) || (Has(ds, Provider) && Has(ds, Credential)))
  {
  }

  lemma CoversPinned(w: World, ds: seq<Definition>, report: Report)
    requires |report.results| == |ds| == |Ids(w.controls, Verifying)|
    requires forall k: nat :: k < |ds| ==> report.results[k].id == Ids(w.controls, Verifying)[k]
    ensures (set r | r in report.results :: r.id) == (set id | id in Ids(w.controls, Verifying))
  {
    var ids := Ids(w.controls, Verifying);
    forall id | id in ids ensures id in (set r | r in report.results :: r.id) {
      var k :| 0 <= k < |ids| && ids[k] == id;
      assert report.results[k] in report.results && report.results[k].id == id;
    }
    forall id | id in (set r | r in report.results :: r.id) ensures id in ids {
      var r :| r in report.results && r.id == id;
      var k :| 0 <= k < |report.results| && report.results[k] == r;
    }
  }

  lemma BrowserManagedAgrees(w: World, ds: seq<Definition>)
    requires Resolved(w.controls, Verifying, false, ds)
    ensures PinnedBrowserManaged(w.controls, Ids(w.controls, Verifying)) <==> BrowserManaged(ds)
  {
    var c, ids := w.controls, Ids(w.controls, Verifying);
    forall k: nat | k < |ds|
      ensures Selected(c, ids[k], Provider, None) <==> ds[k].kind.Provider?
      ensures Selected(c, ids[k], Credential, None) <==> ds[k].kind.Credential?
    {
      Signed(c, Verifying, false, ds, k);
    }
  }

  // ------------------------------------------------------ when the stage returns

  /** A check is in a passed report exactly if some pinned probe reports it. */
  lemma CheckReported(ds: seq<Definition>, observe: nat -> Observation, report: Report, check: Check)
    requires IsReport(ds, observe, report) && report.status.Passed?
    ensures check in report.checks <==> Reports(ds, check)
  {
    if check in report.checks {
      var k := CheckSource(ds, observe, report, check);
    }
    if k :| 0 <= k < |ds| && check in Checks(ds[k]) {
      PassedProbe(ds, observe, report, k);
      assert report.results[k] == Execute(ds[k], observe(k));
    }
  }

  predicate AllSigned(ds: seq<Definition>, negative: bool) {
    forall k :: 0 <= k < |ds| && RevocationKind(ds[k].kind) ==> ds[k].negative == negative
  }

  predicate Reports(ds: seq<Definition>, check: Check) { exists k :: 0 <= k < |ds| && check in Checks(ds[k]) }

  lemma SecretReported(d: Definition)
    ensures SecretVersionEnabled in Checks(d) <==> d.kind.Secret? && !d.negative
  {
  }

  lemma PositiveChecks(ds: seq<Definition>)
    requires AllSigned(ds, false)
    ensures Reports(ds, CredentialAccepted) <==> Has(ds, Credential)
  {
    forall k: nat | k < |ds| ensures CredentialAccepted in Checks(ds[k]) <==> ds[k].kind.Credential? {}
    if Has(ds, Credential) {
      var k :| 0 <= k < |ds| && ds[k].kind == Credential;
      assert CredentialAccepted in Checks(ds[k]);
    }
  }

  lemma NegativeChecks(ds: seq<Definition>)
    requires AllSigned(ds, true)
    ensures Reports(ds, ProviderCredentialRevoked) <==> Has(ds, Provider)
    ensures Reports(ds, CredentialRejected) <==> Has(ds, Credential)
  {
    forall k: nat | k < |ds|
      ensures ProviderCredentialRevoked in Checks(ds[k]) <==> ds[k].kind.Provider?
      ensures CredentialRejected in Checks(ds[k]) <==> ds[k].kind.Credential?
    {}
    if Has(ds, Provider) {
      var k :| 0 <= k < |ds| && ds[k].kind == Provider;
      assert ProviderCredentialRevoked in Checks(ds[k]);
    }
    if Has(ds, Credential) {
      var k :| 0 <= k < |ds| && ds[k].kind == Credential;
      assert CredentialRejected in Checks(ds[k]);
    }
  }

  lemma SecretChecks(ds: seq<Definition>)
    ensures Reports(ds, SecretVersionEnabled) <==> HasSigned(ds, Secret, false)
  {
    forall k: nat | k < |ds|
      ensures SecretVersionEnabled in Checks(ds[k]) <==> ds[k].kind.Secret? && !ds[k].negative
    {
      SecretReported(ds[k]);
    }
    if HasSigned(ds, Secret, false) {
      var k :| 0 <= k < |ds| && ds[k].kind == Secret && ds[k].negative == false;
      assert SecretVersionEnabled in Checks(ds[k]);
    }
  }

  lemma ResolvedSigned(c: Controls, stage: Stage, negative: bool, ds: seq<Definition>)
    requires Resolved(c, stage, negative, ds)
    ensures AllSigned(ds, negative)
  {
    forall k: nat | k < |ds| ensures RevocationKind(ds[k].kind) ==> ds[k].negative == negative {
      Polarity(c, stage, negative, ds, k);
    }
  }

  lemma AcceptedReported(w: World, p: Proof)
    requires Resolved(w.controls, Verifying, false, p.accepting)
    requires IsReport(p.accepting, w.replacement, p.replacement) && p.replacement.status.Passed?
    ensures CredentialAccepted in p.replacement.checks <==> Has(p.accepting, Credential)
  {
    CheckReported(p.accepting, w.replacement, p.replacement, CredentialAccepted);
    ResolvedSigned(w.controls, Verifying, false, p.accepting);
    PositiveChecks(p.accepting);
  }

  lemma RejectedReported(w: World, p: Proof)
    requires Resolved(w.controls, Revoking, true, p.rejecting)
    requires IsReport(p.rejecting, w.rejection, p.rejection) && p.rejection.status.Passed?
    ensures ProviderCredentialRevoked in p.rejection.checks <==> Has(p.rejecting, Provider)
    ensures CredentialRejected in p.rejection.checks <==> Has(p.rejecting, Credential)
    ensures SecretVersionEnabled in p.rejection.checks <==> HasSigned(p.rejecting, Secret, false)
  {
    CheckReported(p.rejecting, w.rejection, p.rejection, ProviderCredentialRevoked);
    CheckReported(p.rejecting, w.rejection, p.rejection, CredentialRejected);
    CheckReported(p.rejecting, w.rejection, p.rejection, SecretVersionEnabled);
    ResolvedSigned(w.controls, Revoking, true, p.rejecting);
    NegativeChecks(p.rejecting);
    SecretChecks(p.rejecting);
  }

  /** For an API-managed credential with an old generation on record, and given the two reports of
      its pinned probes, the stage returns exactly if the provider steps ran, both reports passed, the
      pinned probes are of the kinds the checks ask for, every deployment can be rolled back, and the
      old secret version is on record and was disabled. */
  lemma RevokesExactly(w: World, p: Proof)
    requires Consistent(w.controls) && !w.playbook && Old(w).Some?
    requires Resolved(w.controls, Verifying, false, p.accepting) && IsReport(p.accepting, w.replacement, p.replacement)
    requires Resolved(w.controls, Revoking, true, p.rejecting) && IsReport(p.rejecting, w.rejection, p.rejection)
    ensures Granted(w, p) <==>
      && w.steps && p.replacement.status.Passed? && p.rejection.status.Passed?
      && Has(p.accepting, Credential) && !HasSigned(p.accepting, Secret, true)
      && (w.controls.requireTelemetry ==> HasSigned(p.accepting, Telemetry, false))
      && Has(p.rejecting, Provider) && Has(p.rejecting, Credential) && HasSigned(p.rejecting, Secret, false)
      && w.rollbacks != [] && (forall i :: 0 <= i < |w.rollbacks| ==> w.rollbacks[i])
      && Old(w).value.secretReference.Some? && w.disabled
  {
    if p.replacement.status.Passed? && p.rejection.status.Passed? {
      ChecksPassExactly(w, p.accepting, p.replacement);
      AcceptedReported(w, p);
      RejectedReported(w, p);
    }
  }
}
