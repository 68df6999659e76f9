/** One manager at work with nobody else active: the methods of server/browser/egress.py over the
    stored document and the cloud, proved against the pure transitions of EgressState. Every
    resource call may fail, with or without having taken effect. */
module EgressManager {
  import opened Wrappers
  import opened EgressState
  import opened EgressProtocol

  class Manager {
    var now: Time
    var doc: Option<State>
    var cloud: Cloud
    var nextToken: Token
    ghost var failures: nat           // resource calls that have failed

    /** What every operation keeps. */
    ghost predicate Valid()
      reads this
    {
      && WellFormed(doc)
      && (doc.Some? && doc.value.token.Some? ==> doc.value.token.value < nextToken)
      && (DocIs(doc, Ready) ==> cloud.Complete() && doc.value.address == cloud.gateway)
    }

    constructor (start: Time)
      ensures Valid() && now == start && doc.None? && cloud.Empty()
    {
      now, doc, cloud, nextToken, failures := start, None, NOTHING, 0, 0;
    }

    method Elapse(least: nat)
      modifies this`now
      ensures now >= old(now) + least
    {
      var more: int := *;
      now := now + least + if more > 0 then more else 0;
    }

    method NewToken() returns (token: Token)
      modifies this`nextToken
      ensures token == old(nextToken) && nextToken == token + 1
    {
      token := nextToken;
      nextToken := nextToken + 1;
    }

    /** The store's transaction. Its refusal of a change that does not advance the revision by
        exactly one is never met. */
    method Update(change: Change, token: Token) returns (r: Result<State, string>)
      requires WellFormed(doc)
      modifies this`doc
      ensures r == Ok(Changed(old(doc), change, token, now)) && doc == Some(r.value)
      ensures WellFormed(doc)
    {
      ChangeKeepsWellFormed(doc, change, token, now);
      var changed := Changed(doc, change, token, now);
      var expected := if doc.None? then 1 else doc.value.revision + 1;
      if changed.revision != expected {
        return Err("browser egress update did not advance revision once");
      }
      doc := Some(changed);
      return Ok(changed);
    }

    /** One of the four get-or-create calls. */
    method EnsureResource(k: nat, address: string) returns (ok: bool, ghost issued: string)
      requires k < 4
      modifies this`cloud, this`now, this`failures
      ensures now >= old(now) && failures == old(failures) + if ok then 0 else 1
      ensures cloud == Create(old(cloud), k, address, issued) || (!ok && cloud == old(cloud))
    {
      var outcome: Outcome := *;
      var given: string := *;
      Elapse(0);
      if outcome != Refused {
        cloud := Create(cloud, k, address, given);
      }
      ok, issued := outcome.Done?, given;
      if !ok { failures := failures + 1; }
    }

    /** `_ensure_resources`: on success all four exist and the answer is the gateway's address;
        whatever happens, what existed still does, and a tidy cloud stays tidy. */
    method EnsureResources() returns (r: Result<string, string>)
      modifies this`cloud, this`now, this`failures
      ensures now >= old(now) && failures >= old(failures) && (r.Ok? <==> failures == old(failures))
      ensures r.Ok? ==> cloud.Complete() && cloud.gateway == Some(r.value)
      ensures old(cloud).Prefix() ==> cloud.Prefix()
      ensures old(cloud).Complete() ==> cloud == old(cloud)
    {
      var ok, issued := EnsureResource(0, "");
      if !ok { return Err("policy"); }
      ok, issued := EnsureResource(1, "");
      if !ok { return Err("rule"); }
      ok, issued := EnsureResource(2, "");
      if !ok { return Err("gateway"); }
      var address := cloud.gateway.value;
      ok, issued := EnsureResource(3, address);
      if !ok { return Err("route"); }
      return Ok(address);
    }

    method DeleteResource(k: nat) returns (ok: bool)
      requires k < 4
      modifies this`cloud, this`now, this`failures
      ensures now >= old(now) && failures == old(failures) + if ok then 0 else 1
      ensures cloud == Remove(old(cloud), k) || (!ok && cloud == old(cloud))
    {
      var outcome: Outcome := *;
      Elapse(0);
      if outcome != Refused {
        cloud := Remove(cloud, k);
      }
      ok := outcome.Done?;
      if !ok { failures := failures + 1; }
    }

    /** `_delete_resources`: on success nothing is left; a failure leaves a tidy cloud tidy. */
    method DeleteResources() returns (ok: bool)
      modifies this`cloud, this`now, this`failures
      ensures now >= old(now) && failures >= old(failures) && (ok <==> failures == old(failures))
      ensures ok ==> cloud.Empty()
      ensures old(cloud).Prefix() ==> cloud.Prefix()
    {
      ok := DeleteResource(0);
      if !ok { return false; }
      ok := DeleteResource(1);
      if !ok { return false; }
      ok := DeleteResource(2);
      if !ok { return false; }
      ok := DeleteResource(3);
    }

    /** `_delete`, called with the document DELETING under `token`. */
    method Delete(token: Token) returns (r: Result<State, string>)
      requires Valid() && DocHolds(doc, token) && DocIs(doc, Deleting)
      modifies this
      ensures Valid() && now >= old(now) && nextToken == old(nextToken)
      ensures failures >= old(failures) && (r.Ok? <==> failures == old(failures))
      ensures old(cloud).Prefix() ==> cloud.Prefix()
      ensures doc.Some?
      ensures forall x :: x in doc.value.leases ==> x in old(doc).value.leases
      ensures r.Ok? ==> doc.value.status == Absent && doc.value.token == None && cloud.Empty()
      ensures r.Ok? ==> forall x :: x in old(doc).value.leases && now < x.expiresAt ==> x in doc.value.leases
      ensures r.Err? ==> doc.value.status == Failed && doc.value.leases == old(doc).value.leases
    {
      var ok := DeleteResources();
      if ok {
        ChangeLeases(doc, Deleted, token, now);
        r := Update(Deleted, token);
      } else {
        var _ := Update(Failure("delete"), token);
        r := Err("delete");
      }
    }

    /** `_provision`, called with the document PROVISIONING under `token`. On success the
        document is READY with a lease still live, or, every lease having run out meanwhile, what
        was built has been deleted again and the document is ABSENT. */
    method Provision(token: Token) returns (r: Result<State, string>)
      requires Valid() && DocOwn(doc, token)
      modifies this
      ensures Valid() && now >= old(now) && nextToken == old(nextToken)
      ensures failures >= old(failures) && (r.Ok? <==> failures == old(failures))
      ensures old(cloud).Prefix() ==> cloud.Prefix()
      ensures doc.Some?
      ensures forall x :: x in old(doc).value.leases && now < x.expiresAt ==> x in doc.value.leases
      ensures r.Ok? ==>
          || (doc.value.status == Ready && doc.value.leases != [] && cloud.Complete())
          || (doc.value.status == Absent && doc.value.leases == [] && cloud.Empty())
      ensures r.Err? ==> doc.value.status == Failed
    {
      var built := EnsureResources();
      if built.Err? {
        var _ := Update(Failure(built.error), token);
        return Err(built.error);
      }
      ChangeLeases(doc, Provisioned(built.value), token, now);
      r := Update(Provisioned(built.value), token);
      var s := r.value;
      if s.status == Deleting && s.Holds(token) {
        r := Delete(token);
        NoLeaseLeft(doc.value.leases);
      }
    }

    /** The request transaction of `acquire`. */
    method RequestLease(lease: Lease) returns (token: Token, state: State)
      requires Valid()
      modifies this`doc, this`nextToken
      ensures Valid() && doc == Some(state) && token == old(nextToken) && nextToken == token + 1
      ensures lease in state.leases
    {
      token := NewToken();
      ChangeLeases(doc, Acquire(lease), token, now);
      var u := Update(Acquire(lease), token);
      state := u.value;
    }

    /** `acquire` after its domain check. If it returns, the document is READY over four existing
        resources, and it lists the lease unless that has already expired; if it does not, its time was
        up or a resource call failed. */
    method AcquireLease(lease: Lease) returns (r: Result<(), string>)
      requires Valid()
      modifies this
      ensures Valid() && now >= old(now)
      ensures r.Ok? ==> DocIs(doc, Ready) && cloud.Complete() && doc.value.address == cloud.gateway
      ensures r.Ok? && now < lease.expiresAt ==> lease in doc.value.leases
      ensures r.Err? ==> now >= old(now) + WAIT || failures > old(failures)
    {
      var deadline := now + WAIT;
      var token, state := RequestLease(lease);
      while now < deadline
        invariant Valid() && now >= old(now) && doc.Some? && token < nextToken
        invariant now < lease.expiresAt ==> lease in doc.value.leases
        invariant state == doc.value && failures >= old(failures)
        decreases deadline - now
      {
        if state.status == Ready {
          return Ok(());
        }
        if state.status == Provisioning && state.token == Some(token) {
          var work := Provision(token);
          var retryable: bool := *;
          if work.Err? && !retryable {
            return Err(work.error);
          }
        }
        Elapse(2_000_000);
        state := doc.value;
        if state.status in {Absent, Failed} || (state.status == Provisioning && state.Stale(now)) {
          token, state := RequestLease(lease);
        }
      }
      return Err("browser egress did not become ready");
    }

    /** `release`: when it was the last live lease of a READY or FAILED document and the deletions
        succeed, nothing is left; otherwise the resources are not touched. */
    method ReleaseLease(id: string) returns (r: Result<(), string>)
      requires Valid()
      modifies this
      ensures Valid() && now >= old(now)
      ensures old(cloud).Prefix() ==> cloud.Prefix()
      ensures doc.Some? && forall x :: x in doc.value.leases ==> x.id != id && old(now) < x.expiresAt
      ensures old(LastLease(id)) && r.Ok? ==>
          doc.value.status == Absent && doc.value.leases == [] && cloud.Empty()
      ensures !old(LastLease(id)) ==> r.Ok? && cloud == old(cloud)
      ensures failures == old(failures) ==> r.Ok?
      ensures !old(LastLease(id)) ==> doc.value.status == Current(old(doc), old(now)).status
    {
      var token := NewToken();
      ChangeLeases(doc, Release(id), token, now);
      UnexpiredKeeps(Current(doc, now).leases, now);
      WithoutKeeps(Unexpired(Current(doc, now).leases, now), id);
      NoLeaseLeft(Without(Unexpired(Current(doc, now).leases, now), id));
      var u := Update(Release(id), token);
      if u.value.status == Deleting && u.value.token == Some(token) {
        var work := Delete(token);
        if work.Err? {
          return Err(work.error);
        }
        NoLeaseLeft(doc.value.leases);
      }
      return Ok(());
    }

    /** Nothing but the lease `id`, and leases that have expired, keeps the egress up. */
    ghost predicate LastLease(id: string)
      reads this
    {
      && doc.Some? && doc.value.status in {Ready, Failed}
      && forall x :: x in doc.value.leases ==> x.id == id || x.expiresAt <= now
    }

    /** Every lease has expired and the document is READY, FAILED or stale PROVISIONING. */
    ghost predicate Collectable()
      reads this
    {
      && doc.Some?
      && (doc.value.status in {Ready, Failed} || (doc.value.status == Provisioning && doc.value.Stale(now)))
      && forall x :: x in doc.value.leases ==> x.expiresAt <= now
    }

    /** `reconcile` converges: once every lease has expired, an uninterrupted one whose deletions
        succeed ends ABSENT with no lease, no token and no resource, and one that fails leaves a
        FAILED document without leases, from which the next one converges. With nothing to do
        it leaves the cloud alone. */
    method ReconcileOnce() returns (r: Result<(), string>)
      requires Valid()
      modifies this
      ensures Valid() && now >= old(now)
      ensures old(cloud).Prefix() ==> cloud.Prefix()
      ensures doc.Some?
      ensures r.Ok? <==> failures == old(failures)
      ensures old(Collectable()) && r.Ok? ==>
          doc.value.status == Absent && doc.value.token == None && cloud.Empty()
      ensures old(Collectable()) ==> doc.value.leases == [] && (r.Err? ==> Collectable())
      ensures !old(Collectable()) && r.Ok? ==>
          || (doc.value.status == Current(old(doc), old(now)).status && cloud == old(cloud))
          || (doc.value.status == Ready && cloud.Complete())
          || (doc.value.status == Absent && doc.value.leases == [] && cloud.Empty())
    {
      var token := NewToken();
      ChangeLeases(doc, Reconcile, token, now);
      UnexpiredKeeps(Current(doc, now).leases, now);
      NoLeaseLeft(Unexpired(Current(doc, now).leases, now));
      var u := Update(Reconcile, token);
      if u.value.token != Some(token) {
        return Ok(());
      }
      var work: Result<State, string>;
      if u.value.status == Provisioning {
        work := Provision(token);
      } else if u.value.status == Deleting {
        work := Delete(token);
        NoLeaseLeft(doc.value.leases);
      } else {
        return Ok(());
      }
      r := if work.Ok? then Ok(()) else Err(work.error);
    }
  }

  lemma NoLeaseLeft(leases: seq<Lease>)
    ensures leases == [] <==> forall x :: x !in leases
  {
    if leases != [] {
      assert leases[0] in leases;
    }
  }
}
