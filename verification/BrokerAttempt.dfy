/** The stored tool attempt and the four transactions over it (server/broker/storage.py). */
module BrokerAttempt {
  import opened Wrappers

  type Time = int

  datatype Status = Running | Succeeded | Failed

  /** A tool result; `version` is the secret version a credential creation stored. */
  datatype ToolResult = ToolResult(
    succeeded: bool,
    value: string,
    version: Option<nat>,
    error: Option<string>,
    evidence: seq<string>)

  /** The parameters a request identifier is bound to: organisation, run, tool and digest. */
  datatype Binding = Binding(digest: string, creates: bool)

  datatype Attempt = Attempt(
    binding: Binding,
    status: Status,
    result: Option<ToolResult>,
    checkpoint: Option<ToolResult>,
    baseline: set<nat>,
    startedAt: Time,
    leaseExpiresAt: Time,
    completedAt: Option<Time>)
  {
    predicate Terminal() { status != Running }

    /** The stored-document validator. */
    predicate Valid() {
      && (Terminal() <==> result.Some? && completedAt.Some?)
      && (Terminal() ==> checkpoint.None?)
    }

    /** A status that says what the result says. */
    predicate Truthful() {
      Terminal() ==> result.Some? && (status == Succeeded <==> result.value.succeeded)
    }
  }

  datatype Refusal = Missing | Conflict

  type Stored = Option<Attempt>

  function Read(stored: Stored, binding: Binding): Result<Stored, Refusal> {
    if stored.Some? && stored.value.binding != binding then Err(Conflict) else Ok(stored)
  }

  function Begun(stored: Stored, binding: Binding, baseline: set<nat>, now: Time, lease: Time)
    : Result<Attempt, Refusal>
  {
    if stored.Some? then Err(Conflict)
    else Ok(Attempt(binding, Running, None, None, baseline, now, lease, None))
  }

  function Reclaimed(stored: Stored, binding: Binding, expected: Time, now: Time, lease: Time)
    : Result<Attempt, Refusal>
  {
    if stored.None? then Err(Missing)
    else if stored.value.binding != binding then Err(Conflict)
    else if stored.value.Terminal() || stored.value.leaseExpiresAt != expected
         || stored.value.leaseExpiresAt > now || stored.value.checkpoint.Some? then Err(Conflict)
    else Ok(stored.value.(leaseExpiresAt := lease))
  }

  function Checkpointed(stored: Stored, binding: Binding, result: ToolResult): Result<Attempt, Refusal> {
    if stored.None? then Err(Missing)
    else if stored.value.binding != binding then Err(Conflict)
    else if stored.value.Terminal() then
      (if stored.value.result == Some(result) then Ok(stored.value) else Err(Conflict))
    else if stored.value.checkpoint.Some? && stored.value.checkpoint != Some(result) then Err(Conflict)
    else Ok(stored.value.(checkpoint := Some(result)))
  }

  function Finished(stored: Stored, binding: Binding, result: ToolResult, now: Time)
    : Result<Attempt, Refusal>
  {
    if stored.None? then Err(Missing)
    else if stored.value.binding != binding then Err(Conflict)
    else if stored.value.Terminal() then
      (if stored.value.result == Some(result) then Ok(stored.value) else Err(Conflict))
    else
      Ok(stored.value.(status := if result.succeeded then Succeeded else Failed,
                       result := Some(result), checkpoint := None, completedAt := Some(now)))
  }

  /** What `stored` becomes when a transaction answers `r` and its write, if any, takes effect. */
  function Written(stored: Stored, r: Result<Attempt, Refusal>): Stored {
    if r.Ok? then Some(r.value) else stored
  }

  // ------------------------------------------------ any sequence of transactions

  datatype Transaction =
    | Begins(binding: Binding, baseline: set<nat>, now: Time, lease: Time)
    | Reclaims(binding: Binding, expected: Time, now: Time, lease: Time)
    | Checkpoints(binding: Binding, result: ToolResult)
    | Finishes(binding: Binding, result: ToolResult, now: Time)

  function Answer(stored: Stored, t: Transaction): Result<Attempt, Refusal> {
    match t
    case Begins(binding, baseline, now, lease) => Begun(stored, binding, baseline, now, lease)
    case Reclaims(binding, expected, now, lease) => Reclaimed(stored, binding, expected, now, lease)
    case Checkpoints(binding, result) => Checkpointed(stored, binding, result)
    case Finishes(binding, result, now) => Finished(stored, binding, result, now)
  }

  /** The document before the `n`-th transaction. */
  function At(ts: seq<Transaction>, n: nat): Stored
    requires n <= |ts|
  {
    if n == 0 then None else Written(At(ts, n - 1), Answer(At(ts, n - 1), ts[n - 1]))
  }

  predicate Accepted(ts: seq<Transaction>, n: nat)
    requires n < |ts|
  {
    Answer(At(ts, n), ts[n]).Ok?
  }

  /** Every lease handed out lies ahead. */
  predicate Ahead(ts: seq<Transaction>) {
    forall n :: 0 <= n < |ts| && (ts[n].Begins? || ts[n].Reclaims?) ==> ts[n].now < ts[n].lease
  }

  lemma {:induction false} OnlyForward(ts: seq<Transaction>, i: nat, j: nat)
    requires Ahead(ts) && i <= j <= |ts| && At(ts, i).Some?
    ensures At(ts, j).Some? && At(ts, i).value.leaseExpiresAt <= At(ts, j).value.leaseExpiresAt
    ensures At(ts, i).value.Terminal() ==> At(ts, j) == At(ts, i)
    decreases j
  {
    if i < j {
      OnlyForward(ts, i, j - 1);
      var t := ts[j - 1];
      assert t.Reclaims? ==> t.now < t.lease;
    }
  }

  /** Whatever callers send, in whatever order: the attempt is begun once; each lease epoch is reclaimed
      at most once, by the reclaim that saw it end; and once a finish is accepted, nothing but a repeat
      of the same result is, and the document no longer changes. */
  lemma EachOnce(ts: seq<Transaction>, i: nat, j: nat)
    requires Ahead(ts) && i < j < |ts| && Accepted(ts, i) && Accepted(ts, j)
    ensures Follows(ts[i], ts[j])
    ensures ts[i].Finishes? ==> At(ts, j) == At(ts, j + 1) == At(ts, i + 1)
  {
    assert At(ts, i + 1).Some?;
    OnlyForward(ts, i + 1, j);
    OnlyForward(ts, i + 1, j + 1);
    assert ts[i].Reclaims? ==> ts[i].now < ts[i].lease;
  }

  /** What an accepted transaction lets be accepted after it. */
  predicate Follows(a: Transaction, b: Transaction) {
    && !b.Begins?
    && (a.Reclaims? && b.Reclaims? ==> a.expected < b.expected)
    && (a.Finishes? ==> (b.Finishes? || b.Checkpoints?) && b.result == a.result)
  }

  ghost predicate Answers(ts: seq<Transaction>, answers: seq<Result<Attempt, Refusal>>) {
    |answers| == |ts| && forall i :: 0 <= i < |ts| ==> answers[i] == Answer(At(ts, i), ts[i])
  }

  lemma AllFollow(ts: seq<Transaction>, answers: seq<Result<Attempt, Refusal>>)
    requires Ahead(ts) && Answers(ts, answers)
    ensures forall i, j :: 0 <= i < j < |ts| && answers[i].Ok? && answers[j].Ok? ==> Follows(ts[i], ts[j])
  {
    forall i, j | 0 <= i < j < |ts| && answers[i].Ok? && answers[j].Ok? ensures Follows(ts[i], ts[j]) {
      EachOnce(ts, i, j);
    }
  }

  /** The attempt document of one request identifier. */
  class AttemptStore {
    var stored: Stored

    ghost predicate Valid()
      reads this
    {
      stored.Some? ==> stored.value.Valid() && stored.value.Truthful()
    }

    constructor ()
      ensures Valid() && stored.None?
    {
      stored := None;
    }

    method Load(binding: Binding) returns (r: Result<Stored, Refusal>)
      ensures r == Read(stored, binding)
    {
      if stored.Some? && stored.value.binding != binding {
        return Err(Conflict);
      }
      return Ok(stored);
    }

    method Begin(binding: Binding, baseline: set<nat>, now: Time, lease: Time)
      returns (r: Result<Attempt, Refusal>)
      requires Valid()
      modifies this
      ensures Valid()
      ensures r == Begun(old(stored), binding, baseline, now, lease)
      ensures stored == Written(old(stored), r)
    {
      var attempt := Attempt(binding, Running, None, None, baseline, now, lease, None);
      if stored.Some? {
        return Err(Conflict);
      }
      stored := Some(attempt);
      return Ok(attempt);
    }

    method Reclaim(binding: Binding, expected: Time, now: Time, lease: Time)
      returns (r: Result<Attempt, Refusal>)
      requires Valid()
      modifies this
      ensures Valid()
      ensures r == Reclaimed(old(stored), binding, expected, now, lease)
      ensures stored == Written(old(stored), r)
    {
      if stored.None? {
        return Err(Missing);
      }
      var current := stored.value;
      if current.binding != binding {
        return Err(Conflict);
      }
      if current.status != Running || current.leaseExpiresAt != expected
         || current.leaseExpiresAt > now || current.checkpoint.Some? {
        return Err(Conflict);
      }
      var changed := current.(leaseExpiresAt := lease);
      stored := Some(changed);
      return Ok(changed);
    }

    method Checkpoint(binding: Binding, result: ToolResult) returns (r: Result<Attempt, Refusal>)
      requires Valid()
      modifies this
      ensures Valid()
      ensures r == Checkpointed(old(stored), binding, result)
      ensures stored == Written(old(stored), r)
    {
      if stored.None? {
        return Err(Missing);
      }
      var current := stored.value;
      if current.binding != binding {
        return Err(Conflict);
      }
      if current.status != Running {
        if current.result == Some(result) {
          return Ok(current);
        }
        return Err(Conflict);
      }
      if current.checkpoint.Some? && current.checkpoint != Some(result) {
        return Err(Conflict);
      }
      var changed := current.(checkpoint := Some(result));
      stored := Some(changed);
      return Ok(changed);
    }

    method Finish(binding: Binding, result: ToolResult, now: Time) returns (r: Result<Attempt, Refusal>)
      requires Valid()
      modifies this
      ensures Valid()
      ensures r == Finished(old(stored), binding, result, now)
      ensures stored == Written(old(stored), r)
    {
      if stored.None? {
        return Err(Missing);
      }
      var current := stored.value;
      if current.binding != binding {
        return Err(Conflict);
      }
      if current.status != Running {
        if current.result == Some(result) {
          return Ok(current);
        }
        return Err(Conflict);
      }
      var status := if result.succeeded then Succeeded else Failed;
      var changed := current.(status := status, result := Some(result), checkpoint := None,
                              completedAt := Some(now));
      stored := Some(changed);
      return Ok(changed);
    }

    method Serve(t: Transaction) returns (r: Result<Attempt, Refusal>)
      requires Valid()
      modifies this
      ensures Valid() && r == Answer(old(stored), t) && stored == Written(old(stored), r)
    {
      match t {
        case Begins(binding, baseline, now, lease) => r := Begin(binding, baseline, now, lease);
        case Reclaims(binding, expected, now, lease) => r := Reclaim(binding, expected, now, lease);
        case Checkpoints(binding, result) => r := Checkpoint(binding, result);
        case Finishes(binding, result, now) => r := Finish(binding, result, now);
      }
    }

    /** Any sequence of transactions on a new store. Of those it accepts: the first and only the first
        begins the attempt; reclaims name lease ends that strictly grow; and all that follows a finish
        repeats its result. */
    method ServeAll(ts: seq<Transaction>) returns (answers: seq<Result<Attempt, Refusal>>)
      requires Valid() && stored.None? && Ahead(ts)
      modifies this
      ensures Valid() && stored == At(ts, |ts|) && Answers(ts, answers)
      ensures forall i, j :: 0 <= i < j < |ts| && answers[i].Ok? && answers[j].Ok? ==> Follows(ts[i], ts[j])
    {
      answers := [];
      for n := 0 to |ts|
        invariant Valid() && stored == At(ts, n) && |answers| == n
        invariant forall i :: 0 <= i < n ==> answers[i] == Answer(At(ts, i), ts[i])
      {
        var r := Serve(ts[n]);
        answers := answers + [r];
      }
      AllFollow(ts, answers);
    }
  }
}
