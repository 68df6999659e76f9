/** Verification probes: their definitions bound to a run (server/coordinator/service.py, `_probes`
    and `_bind_probe`), executed against one observation each (server/verifier/probes.py), and
    gathered into a report (server/verifier/service.py). */
module Probes {
  import opened Wrappers

  /** Identifiers, of probe versions and of credential generations, are only ever compared. */
  type ProbeId = nat
  type GenerationId = nat

  datatype Kind = Http | Email | Provider | Secret | Runtime | Telemetry | GenerationProbe | Credential

  datatype GenerationBinding = Unbound | Target | Current

  datatype TargetBinding = Static | ProviderId | SecretReference

  datatype Thresholds = Thresholds(minimum: nat, errors: nat, authFailures: nat)

  datatype Definition = Definition(
    id: ProbeId, kind: Kind, target: string, secretReference: Option<string>,
    expectedGeneration: Option<GenerationId>, generationBinding: GenerationBinding, targetBinding: TargetBinding,
    requiresFields: bool, thresholds: Thresholds, negative: bool)

  /** A stored version; `authorised` when its state and digest are. */
  datatype Version = Version(definition: Definition, authorised: bool)

  datatype Generation = Generation(providerId: Option<string>, secretReference: Option<string>)

  datatype Stage = Verifying | Observing | Revoking

  /** What a run's probes are resolved against. */
  datatype Controls = Controls(
    pinned: map<Stage, seq<ProbeId>>, versions: map<ProbeId, Version>, generations: map<GenerationId, Generation>,
    current: Option<GenerationId>, target: Option<GenerationId>, requireTelemetry: bool)

  datatype Error =
    | NoProbes | NotAuthorised | WrongPolarity | Missing | BindingChanged | NotBound | NoNegativeProbes
    | NoTelemetryPair | IncompleteCoverage
    | NoDefinitions | NotPassed | NotCovered | LacksEvidence | NoRollback
    | NoReplacementProof | NoRejectionProof | NoOldSecret | StepsFailed | NotDisabled | NoPlaybookProof

  // --------------------------------------------------------------------- binding

  predicate RevocationKind(kind: Kind) { kind.Provider? || kind.Credential? }

  function BoundGeneration(c: Controls, d: Definition): Option<GenerationId> {
    match d.generationBinding
    case Unbound => None
    case Target => c.target
    case Current => c.current
  }

  /** `_bind_probe`. */
  function Bind(c: Controls, d: Definition, negative: bool): Result<Definition, Error> {
    if RevocationKind(d.kind) && d.negative != negative then Err(WrongPolarity)
    else if !d.generationBinding.Unbound? && BoundGeneration(c, d).None? then Err(Missing)
    else
      var generation := BoundGeneration(c, d);
      if d.expectedGeneration.Some? && d.expectedGeneration != generation then Err(BindingChanged)
      else if d.targetBinding.Static? && !d.kind.Credential? then Ok(d.(expectedGeneration := generation))
      else if generation.None? || generation.value !in c.generations then Err(Missing)
      else
        var bound := c.generations[generation.value];
        if (d.targetBinding.ProviderId? && bound.providerId.None?) ||
           ((d.targetBinding.SecretReference? || d.kind.Credential?) && bound.secretReference.None?)
        then Err(Missing)
        else
          Ok(d.(target := if d.targetBinding.ProviderId? then bound.providerId.value
                          else if d.targetBinding.SecretReference? then bound.secretReference.value
                          else d.target,
                secretReference := if d.kind.Credential? then bound.secretReference else d.secretReference,
                expectedGeneration := generation))
  }

  function BindId(c: Controls, id: ProbeId, negative: bool): Result<Definition, Error> {
    if id !in c.versions then Err(Missing)
    else if !c.versions[id].authorised then Err(NotAuthorised)
    else Bind(c, c.versions[id].definition, negative)
  }

  ghost predicate BindsAll(c: Controls, ids: seq<ProbeId>, negative: bool) {
    forall i :: 0 <= i < |ids| ==> BindId(c, ids[i], negative).Ok?
  }

  ghost predicate IsBinding(c: Controls, ids: seq<ProbeId>, negative: bool, ds: seq<Definition>) {
    |ds| == |ids| && forall i :: 0 <= i < |ids| ==> BindId(c, ids[i], negative) == Ok(ds[i])
  }

  ghost predicate FirstError(c: Controls, ids: seq<ProbeId>, negative: bool, error: Error) {
    exists i: nat :: i < |ids| && BindId(c, ids[i], negative) == Err(error) && BindsAll(c, ids[..i], negative)
  }

  predicate Has(ds: seq<Definition>, kind: Kind) { exists i :: 0 <= i < |ds| && ds[i].kind == kind }

  predicate HasSigned(ds: seq<Definition>, kind: Kind, negative: bool) {
    exists i :: 0 <= i < |ds| && ds[i].kind == kind && ds[i].negative == negative
  }

  predicate BrowserManaged(ds: seq<Definition>) { !Has(ds, Provider) && !Has(ds, Credential) }

  /** What `_probes` checks of the bound definitions as a set. */
  function Coverage(c: Controls, ds: seq<Definition>, negative: bool, observation: bool, stage: Stage)
    : Option<Error>
  {
    if stage.Verifying? && exists i :: 0 <= i < |ds| && ds[i].expectedGeneration.None? then Some(NotBound)
    else if negative && !BrowserManaged(ds) && !(HasSigned(ds, Provider, true) && HasSigned(ds, Credential, true))
    then Some(NoNegativeProbes)
    else if observation && c.requireTelemetry &&
            !(HasSigned(ds, Telemetry, false) && HasSigned(ds, Telemetry, true))
    then Some(NoTelemetryPair)
    else if stage.Verifying? &&
            !(&& Has(ds, Secret) && Has(ds, Runtime) && (c.requireTelemetry ==> Has(ds, Telemetry))
              && (BrowserManaged(ds) || (Has(ds, Provider) && Has(ds, Credential))))
    then Some(IncompleteCoverage)
    else None
  }

  function Ids(c: Controls, stage: Stage): seq<ProbeId> { if stage in c.pinned then c.pinned[stage] else [] }

  /** `_probes`: every pinned probe bound, in order, or the first error. */
  method Resolve(c: Controls, negative: bool, observation: bool, stage: Stage)
    returns (r: Result<seq<Definition>, Error>)
    ensures r.Ok? <==>
      Ids(c, stage) != [] && BindsAll(c, Ids(c, stage), negative) &&
      exists ds :: IsBinding(c, Ids(c, stage), negative, ds) && Coverage(c, ds, negative, observation, stage).None?
    ensures r.Ok? ==>
      IsBinding(c, Ids(c, stage), negative, r.value) &&
      Coverage(c, r.value, negative, observation, stage).None?
    ensures r.Err? && Ids(c, stage) != [] && !BindsAll(c, Ids(c, stage), negative) ==>
      FirstError(c, Ids(c, stage), negative, r.error)
  {
    var ids := Ids(c, stage);
    if ids == [] { return Err(NoProbes); }
    var resolved: seq<Definition> := [];
    for i := 0 to |ids|
      invariant |resolved| == i
      invariant forall k :: 0 <= k < i ==> BindId(c, ids[k], negative) == Ok(resolved[k])
    {
      var bound := BindId(c, ids[i], negative);
      if bound.Err? {
        assert BindsAll(c, ids[..i], negative);
        return Err(bound.error);
      }
      resolved := resolved + [bound.value];
    }
    forall ds | IsBinding(c, ids, negative, ds) ensures ds == resolved {
      forall k | 0 <= k < |ids| ensures ds[k] == resolved[k] {
        assert BindId(c, ids[k], negative) == Ok(ds[k]);
      }
    }
    assert IsBinding(c, ids, negative, resolved);
    var gap := Coverage(c, resolved, negative, observation, stage);
    if gap.Some? { return Err(gap.value); }
    return Ok(resolved);
  }

  // ------------------------------------------------------------------- execution

  datatype Check =
    | HttpStatusMatched | ResponseFieldsMatched | GenerationIdentified
    | EmailActionCompleted | DownstreamResultConfirmed
    | SecretVersionExists | SecretVersionEnabled | SecretVersionDisabled
    | RuntimeReady | RuntimeBindingInspected
    | TelemetryQueryExecuted | TelemetryGenerationBound | TelemetryNoOldUse | TelemetryThresholdMet
    | ProviderCredentialExists | ProviderCredentialRevoked
    | CredentialAccepted | CredentialRejected
    | ProbeExecuted

  datatype Entry = Entry(severe: bool, authFailure: bool)

  datatype SecretState = Enabled | Disabled | OtherState

  /** What one probe got to see. */
  datatype Answer =
    | Raised
    | Asserted(holds: bool)                              // HTTP, email and runtime assertions
    | SecretIs(state: SecretState)
    | Logged(entries: seq<Entry>)
    | Exists(exists': Option<bool>)                      // the connector's answer, if it is a boolean
    | Authenticated(status: int, success: set<int>)      // against the provider's success statuses

  /** `ready`: the declared connection, READY, unexpired and in its role; `secretReady`: likewise the
      secret-store connection. */
  datatype Observation = Observation(ready: bool, secretReady: bool, answer: Answer)

  datatype ProbeStatus = Passed | Failed

  datatype ProbeResult = ProbeResult(id: ProbeId, status: ProbeStatus, checks: set<Check>)

  function Severe(entries: seq<Entry>): nat {
    if entries == [] then 0
    else Severe(entries[..|entries| - 1]) + (if entries[|entries| - 1].severe then 1 else 0)
  }

  function AuthFailures(entries: seq<Entry>): nat {
    if entries == [] then 0
    else AuthFailures(entries[..|entries| - 1]) + (if entries[|entries| - 1].authFailure then 1 else 0)
  }

  predicate TelemetryHolds(d: Definition, entries: seq<Entry>) {
    && d.expectedGeneration.Some?
    && (if d.negative then entries == [] else |entries| >= d.thresholds.minimum)
    && Severe(entries) <= d.thresholds.errors && AuthFailures(entries) <= d.thresholds.authFailures
  }

  /** `_telemetry_probe`, after the query. */
  method TelemetryProbe(d: Definition, entries: seq<Entry>) returns (holds: bool)
    ensures holds <==> TelemetryHolds(d, entries)
  {
    if d.expectedGeneration.None? { return false; }
    if d.negative && entries != [] { return false; }
    if !d.negative && |entries| < d.thresholds.minimum { return false; }
    var errors, authFailures := 0, 0;
    for i := 0 to |entries|
      invariant errors == Severe(entries[..i]) && authFailures == AuthFailures(entries[..i])
    {
      assert entries[..i + 1][..i] == entries[..i];
      if entries[i].severe { errors := errors + 1; }
      if entries[i].authFailure { authFailures := authFailures + 1; }
    }
    assert entries[..|entries|] == entries;
    return errors <= d.thresholds.errors && authFailures <= d.thresholds.authFailures;
  }

  /** The probe of each kind does not raise. */
  predicate Holds(d: Definition, o: Observation) {
    match d.kind
    case Http | Email | Runtime | GenerationProbe => o.answer.Asserted? && o.answer.holds
    case Secret => o.answer == SecretIs(if d.negative then Disabled else Enabled)
    case Telemetry => o.answer.Logged? && TelemetryHolds(d, o.answer.entries)
    case Provider => o.answer == Exists(Some(!d.negative))
    case Credential =>
      o.secretReady && d.secretReference.Some? && o.answer.Authenticated? &&
      (o.answer.status in o.answer.success) == !d.negative
  }

  /** The checks a probe reports when it does not raise. */
  function Checks(d: Definition): set<Check> {
    var identified := if d.expectedGeneration.Some? then {GenerationIdentified} else {};
    match d.kind
    case Http => {HttpStatusMatched} + (if d.requiresFields then {ResponseFieldsMatched} else {}) + identified
    case Email => {EmailActionCompleted, DownstreamResultConfirmed, GenerationIdentified}
    case Secret => {SecretVersionExists, if d.negative then SecretVersionDisabled else SecretVersionEnabled}
    case Runtime | GenerationProbe => {RuntimeReady, RuntimeBindingInspected} + identified
    case Telemetry =>
      {TelemetryQueryExecuted, TelemetryGenerationBound,
       if d.negative then TelemetryNoOldUse else TelemetryThresholdMet}
    case Provider => {if d.negative then ProviderCredentialRevoked else ProviderCredentialExists}
    case Credential => {if d.negative then CredentialRejected else CredentialAccepted}
  }

  /** `ProbeExecutor.execute`. */
  function Execute(d: Definition, o: Observation): ProbeResult {
    if o.ready && Holds(d, o) then ProbeResult(d.id, Passed, Checks(d))
    else ProbeResult(d.id, Failed, {ProbeExecuted})
  }

  // ---------------------------------------------------------------------- report

  datatype Report = Report(status: ProbeStatus, results: seq<ProbeResult>, checks: set<Check>)

  /** `VerificationService.verify`: one result per definition, in order; the report passes exactly
      if every probe did, and carries exactly the checks of its results. */
  method Verify(ds: seq<Definition>, observe: nat -> Observation) returns (r: Result<Report, Error>)
    ensures r.Err? <==> ds == []
    ensures r.Ok? ==> IsReport(ds, observe, r.value)
  {
    if ds == [] { return Err(NoDefinitions); }
    var results: seq<ProbeResult> := [];
    var statuses: set<ProbeStatus> := {};
    var checks: set<Check> := {};
    for i := 0 to |ds|
      invariant |results| == i
      invariant forall k: nat :: k < i ==> results[k] == Execute(ds[k], observe(k))
      invariant forall s :: s in statuses <==> exists k: nat :: k < i && results[k].status == s
      invariant forall check :: check in checks <==> exists k: nat :: k < i && check in results[k].checks
    {
      var result := Execute(ds[i], observe(i));
      results := results + [result];
      statuses := statuses + {result.status};
      checks := checks + result.checks;
      assert results[i] == result;
    }
    assert results[0].status in statuses;
    if k: nat :| k < |ds| && !results[k].status.Passed? {
      assert results[k].status in statuses;
    } else {
      assert statuses == {Passed};
    }
    var status := if statuses == {Passed} then Passed else Failed;
    return Ok(Report(status, results, checks));
  }

  ghost predicate IsReport(ds: seq<Definition>, observe: nat -> Observation, report: Report) {
    && |report.results| == |ds| && ds != []
    && (forall k: nat :: k < |ds| ==> report.results[k] == Execute(ds[k], observe(k)))
    && (report.status.Passed? <==> forall k: nat :: k < |ds| ==> report.results[k].status.Passed?)
    && (forall check :: check in report.checks <==> exists k: nat :: k < |ds| && check in report.results[k].checks)
  }

  /** Which probe a check of a passed report came from, and what that probe saw. */
  lemma CheckSource(ds: seq<Definition>, observe: nat -> Observation, report: Report, check: Check) returns (k: nat)
    requires IsReport(ds, observe, report) && report.status.Passed? && check in report.checks
    ensures k < |ds| && observe(k).ready && Holds(ds[k], observe(k)) && check in Checks(ds[k])
  {
    k :| k < |ds| && check in report.results[k].checks;
    assert report.results[k] == Execute(ds[k], observe(k)) && report.results[k].status.Passed?;
  }
}
