/** The browser-egress document and the pure transitions that the manager runs
    inside its transactions (server/browser/egress.py). */
module EgressState {
  import opened Wrappers

  /** Microseconds since the epoch, the resolution of the source's timestamps. */
  type Time = int

  /** An operation token; `new_id` never answers the same one twice. */
  type Token = nat

  const PROVISIONING_TIMEOUT: Time := 15 * 60 * 1_000_000
  const WAIT: Time := 900 * 1_000_000

  datatype Status = Absent | Provisioning | Ready | Deleting | Failed

  datatype Lease = Lease(id: string, expiresAt: Time)

  datatype State = State(
    status: Status,
    leases: seq<Lease>,
    token: Option<Token>,
    address: Option<string>,
    error: Option<string>,
    updatedAt: Time,
    revision: nat)
  {
    /** The stored-document validator. */
    predicate Valid() {
      && (status in {Provisioning, Deleting} ==> token.Some?)
      && (status == Ready ==> address.Some?)
    }

    predicate Holds(t: Token) { token == Some(t) }

    predicate Stale(now: Time) { updatedAt + PROVISIONING_TIMEOUT <= now }
  }

  // ---------------------------------------------------------------- leases

  /** Code-point order of identifiers. */
  predicate IdLess(a: string, b: string) {
    if b == "" then false
    else if a == "" then true
    else a[0] < b[0] || (a[0] == b[0] && IdLess(a[1..], b[1..]))
  }

  /** Sorted by identifier, hence no identifier twice. */
  ghost predicate Ordered(leases: seq<Lease>) {
    forall i, j :: 0 <= i < j < |leases| ==> IdLess(leases[i].id, leases[j].id)
  }

  /** Inserts a lease into a sorted sequence, replacing the one with its identifier. */
  function Put(leases: seq<Lease>, lease: Lease): seq<Lease> {
    if leases == [] then [lease]
    else if leases[0].id == lease.id then [lease] + leases[1..]
    else if IdLess(lease.id, leases[0].id) then [lease] + leases
    else [leases[0]] + Put(leases[1..], lease)
  }

  /** A dictionary built from the leases in order, read back sorted by identifier. */
  function Sorted(leases: seq<Lease>): seq<Lease> {
    if leases == [] then []
    else Put(Sorted(leases[..|leases| - 1]), leases[|leases| - 1])
  }

  function Unexpired(leases: seq<Lease>, now: Time): seq<Lease> {
    if leases == [] then []
    else (if leases[0].expiresAt > now then [leases[0]] else []) + Unexpired(leases[1..], now)
  }

  function Without(leases: seq<Lease>, id: string): seq<Lease> {
    if leases == [] then []
    else (if leases[0].id != id then [leases[0]] else []) + Without(leases[1..], id)
  }

  lemma {:induction false} IdLessTransitive(a: string, b: string, c: string)
    requires IdLess(a, b) && IdLess(b, c)
    ensures IdLess(a, c)
  {
    if a != "" && a[0] == b[0] == c[0] {
      IdLessTransitive(a[1..], b[1..], c[1..]);
    }
  }

  lemma {:induction false} IdLessTotal(a: string, b: string)
    ensures IdLess(a, b) || a == b || IdLess(b, a)
    ensures !(IdLess(a, b) && IdLess(b, a)) && !IdLess(a, a)
  {
    if a != "" {
      IdLessTotal(a[1..], a[1..]);
      if b != "" {
        IdLessTotal(a[1..], b[1..]);
        if a[0] == b[0] && a[1..] == b[1..] {
          assert a == [a[0]] + a[1..] && b == [b[0]] + b[1..];
        }
      }
    }
  }

  lemma {:induction false} PutOrdered(leases: seq<Lease>, lease: Lease)
    requires Ordered(leases)
    ensures Ordered(Put(leases, lease))
    ensures forall x :: x in Put(leases, lease) <==> x == lease || (x in leases && x.id != lease.id)
  {
    if leases != [] {
      var head, rest := leases[0], leases[1..];
      assert leases == [head] + rest;
      PutOrdered(rest, lease);
      IdLessTotal(head.id, lease.id);
      forall x | x in rest ensures IdLess(head.id, x.id) && x.id != head.id {
        IdLessTotal(head.id, x.id);
      }
      if head.id != lease.id && IdLess(lease.id, head.id) {
        forall x | x in rest ensures IdLess(lease.id, x.id) && x.id != lease.id {
          IdLessTransitive(lease.id, head.id, x.id);
          IdLessTotal(lease.id, x.id);
        }
      } else if head.id != lease.id {
        var tail := Put(rest, lease);
        forall x | x in tail ensures IdLess(head.id, x.id) {}
      }
    }
  }

  lemma {:induction false} SortedOrdered(leases: seq<Lease>)
    ensures Ordered(Sorted(leases))
    ensures forall x :: x in Sorted(leases) ==> x in leases
    ensures Ordered(leases) ==> forall x :: x in leases ==> x in Sorted(leases)
  {
    if leases != [] {
      var front, last := leases[..|leases| - 1], leases[|leases| - 1];
      assert leases == front + [last];
      SortedOrdered(front);
      PutOrdered(Sorted(front), last);
      if Ordered(leases) {
        forall x | x in front ensures x.id != last.id {
          IdLessTotal(x.id, last.id);
        }
      }
    }
  }

  lemma {:induction false} UnexpiredKeeps(leases: seq<Lease>, now: Time)
    ensures forall x :: x in Unexpired(leases, now) <==> x in leases && x.expiresAt > now
    ensures Ordered(leases) ==> Ordered(Unexpired(leases, now))
  {
    if leases != [] {
      assert leases == [leases[0]] + leases[1..];
      UnexpiredKeeps(leases[1..], now);
    }
  }

  lemma {:induction false} WithoutKeeps(leases: seq<Lease>, id: string)
    ensures forall x :: x in Without(leases, id) <==> x in leases && x.id != id
    ensures Ordered(leases) ==> Ordered(Without(leases, id))
  {
    if leases != [] {
      assert leases == [leases[0]] + leases[1..];
      WithoutKeeps(leases[1..], id);
    }
  }

  // ----------------------------------------------------------- transitions

  function Current(current: Option<State>, now: Time): State {
    if current.Some? then current.value
    else State(Absent, [], None, None, None, now, 0)
  }

  function RequestAcquire(current: Option<State>, lease: Lease, token: Token, now: Time): State {
    var s := Current(current, now);
    var kept := Sorted(Without(Unexpired(s.leases, now), lease.id));
    var start := s.status in {Absent, Failed} || (s.status == Provisioning && s.Stale(now));
    s.(status := if start then Provisioning else s.status,
       leases := Put(kept, lease),
       token := if start then Some(token) else s.token,
       address := if start then None else s.address,
       error := None,
       updatedAt := now,
       revision := s.revision + 1)
  }

  function RequestRelease(current: Option<State>, id: string, token: Token, now: Time): State {
    var s := Current(current, now);
    var leases := Without(Unexpired(s.leases, now), id);
    var stop := leases == [] && s.status in {Ready, Failed};
    s.(status := if stop then Deleting else s.status,
       leases := leases,
       token := if stop then Some(token) else s.token,
       updatedAt := now,
       revision := s.revision + 1)
  }

  function RequestReconcile(current: Option<State>, token: Token, now: Time): State {
    var s := Current(current, now);
    var leases := Unexpired(s.leases, now);
    var stuck := s.status == Provisioning && s.Stale(now);
    if leases != [] && (s.status in {Absent, Failed} || stuck) then
      s.(status := Provisioning, leases := leases, token := Some(token), address := None,
         updatedAt := now, revision := s.revision + 1)
    else if leases == [] && (s.status in {Ready, Failed} || stuck) then
      s.(status := Deleting, leases := leases, token := Some(token),
         updatedAt := now, revision := s.revision + 1)
    else
      s.(leases := leases, updatedAt := now, revision := s.revision + 1)
  }

  function FinishProvision(current: Option<State>, token: Token, address: string, now: Time): State {
    var s := Current(current, now);
    if !s.Holds(token) || s.status != Provisioning then s.(revision := s.revision + 1)
    else
      var leases := Unexpired(s.leases, now);
      s.(status := if leases != [] then Ready else Deleting,
         leases := leases,
         address := Some(address),
         error := None,
         updatedAt := now,
         revision := s.revision + 1)
  }

  function FinishDelete(current: Option<State>, token: Token, now: Time): State {
    var s := Current(current, now);
    if !s.Holds(token) || s.status != Deleting then s.(revision := s.revision + 1)
    else
      s.(status := Absent, leases := Unexpired(s.leases, now), token := None, address := None,
         error := None, updatedAt := now, revision := s.revision + 1)
  }

  function Fail(current: Option<State>, token: Token, error: string, now: Time): State {
    var s := Current(current, now);
    if !s.Holds(token) then s.(revision := s.revision + 1)
    else
      s.(status := Failed, token := None, error := Some(error), updatedAt := now,
         revision := s.revision + 1)
  }

  /** What a caller may hand to the store's `update`. */
  datatype Change =
    | Acquire(lease: Lease)
    | Release(id: string)
    | Reconcile
    | Provisioned(address: string)
    | Deleted
    | Failure(message: string)

  function Changed(current: Option<State>, change: Change, token: Token, now: Time): State {
    match change
    case Acquire(lease) => RequestAcquire(current, lease, token, now)
    case Release(id) => RequestRelease(current, id, token, now)
    case Reconcile => RequestReconcile(current, token, now)
    case Provisioned(address) => FinishProvision(current, token, address, now)
    case Deleted => FinishDelete(current, token, now)
    case Failure(message) => Fail(current, token, message, now)
  }

  /** The change acquires or releases the lease with this identifier. */
  predicate Names(change: Change, id: string) {
    match change
    case Acquire(lease) => lease.id == id
    case Release(named) => named == id
    case _ => false
  }

  ghost predicate WellFormed(current: Option<State>) {
    current.Some? ==> current.value.Valid() && Ordered(current.value.leases)
  }

  // ------------------------------------------------------------ properties

  /** The lease list after a change: who is kept, who is dropped, in what order. */
  lemma ChangeLeases(current: Option<State>, change: Change, token: Token, now: Time)
    requires WellFormed(current)
    ensures Ordered(Changed(current, change, token, now).leases)
    ensures forall x: Lease :: x in Changed(current, change, token, now).leases ==>
        x in Current(current, now).leases || (change.Acquire? && x == change.lease)
    ensures forall x: Lease ::
        x in Current(current, now).leases && x.expiresAt > now && !Names(change, x.id) ==>
          x in Changed(current, change, token, now).leases
    ensures change.Acquire? ==> change.lease in Changed(current, change, token, now).leases
  {
    var leases := Current(current, now).leases;
    UnexpiredKeeps(leases, now);
    var live := Unexpired(leases, now);
    match change {
      case Acquire(lease) =>
        WithoutKeeps(live, lease.id);
        SortedOrdered(Without(live, lease.id));
        PutOrdered(Sorted(Without(live, lease.id)), lease);
      case Release(id) => WithoutKeeps(live, id);
      case _ =>
    }
  }

  /** No change breaks the stored-document validator or the order of the leases, and each
      advances the revision by one, which is what the store demands of it. */
  lemma ChangeKeepsWellFormed(current: Option<State>, change: Change, token: Token, now: Time)
    requires WellFormed(current)
    ensures WellFormed(Some(Changed(current, change, token, now)))
    ensures Changed(current, change, token, now).revision
         == if current.None? then 1 else current.value.revision + 1
  {
    ChangeLeases(current, change, token, now);
  }

  /** The completion of an operation that lost its token touches nothing but the revision. */
  lemma SupersededCompletion(s: State, change: Change, token: Token, now: Time)
    requires change.Provisioned? || change.Deleted? || change.Failure?
    requires !s.Holds(token)
    ensures Changed(Some(s), change, token, now) == s.(revision := s.revision + 1)
  {}

  /** Nobody but the holder of a token moves a document that carries it: every change made under
      another token leaves the status alone or takes the token away. */
  lemma TokenGuardsStatus(s: State, change: Change, token: Token, now: Time, held: Token)
    requires held != token
    ensures var s' := Changed(Some(s), change, token, now);
      && (s'.Holds(held) ==> s.Holds(held) && s'.status == s.status)
      && (s.Holds(held) && s.status == Deleting ==> s'.Holds(held) && s'.status == Deleting)
  {}

  /** A ready document with a live lease that a change does not name stays ready. */
  lemma LiveLeaseKeepsReady(s: State, change: Change, token: Token, now: Time, lease: Lease)
    requires WellFormed(Some(s)) && s.status == Ready
    requires lease in s.leases && lease.expiresAt > now
    requires change.Acquire? || !Names(change, lease.id)
    requires change.Failure? ==> !s.Holds(token)
    ensures Changed(Some(s), change, token, now).status == Ready
    ensures Changed(Some(s), change, token, now).address == s.address
  {
    ChangeLeases(Some(s), change, token, now);
    UnexpiredKeeps(s.leases, now);
    assert !change.Acquire? ==> lease in Changed(Some(s), change, token, now).leases;
  }
}
