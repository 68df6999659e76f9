/** Completing the setup of a browser connection (server/browser/setup.py): the captured provider
    session goes into a secret container as a new version, and one transaction makes the setup
    COMPLETE and the connection READY. Between any two of its calls other callers may change both
    documents, and every call may fail or lose its reply. */
module Setup {
  import opened Wrappers

  /** A version of the container, by its number. */
  type Version = nat

  datatype Status = Provisioning | Ready | Capturing | Complete | Terminated

  datatype Session = Session(status: Status, reference: Option<Version>, expiresAt: int, revision: nat)

  /** What the contract accepts when a stored setup is read back. */
  predicate Readable(s: Session) { s.status.Complete? <==> s.reference.Some? }

  datatype ConnectionStatus = SetupRequired | Connected | Reauthentication | Degraded | Disabled

  datatype Connection = Connection(status: ConnectionStatus, reference: Option<Version>, revision: nat)

  /** A change by another caller: every write advances the revision of the document it changes. */
  datatype Edit = Edit(session: Option<(Status, Option<Version>, int, nat)>,
                       connection: Option<(ConnectionStatus, Option<Version>, nat)>)

  const NoEdit := Edit(None, None)

  /** When other callers may write. */
  datatype Moment =
    | Claiming | ReadingConnection | Committing | ReadingSessionBack | ReadingConnectionBack
    | Terminating | Marking(attempt: nat)

  /** A call whose failure the code sees; `fails` says which do. */
  datatype Call =
    | ListBaseline | GetConnection | Validate | ReadBack | ListCandidates | DeleteMachine | ResumeWaiting
    | MarkRead

  /** The worker's answer: nothing stored; a version stored and no usable answer; no answer in time,
      and a version stored when the cleanup has already looked; or a version stored and named. */
  datatype WorkerReply = Rejected(reauthenticate: bool) | StoredUnheard | StoredLate | Stored

  datatype Delivery = Heard | Unheard | NotApplied

  /** Everything the environment decides during one call. */
  datatype Weather = Weather(
    others: Moment -> Edit,
    fails: Call -> bool,
    worker: WorkerReply,
    version: Version,        // the number a stored version gets
    transaction: Delivery,
    disable: Delivery)

  datatype Cause = Other | AuthenticationRequired

  datatype Attempt = Attempt(
    error: Option<Cause>,
    baseline: Option<set<Version>>,
    reference: Option<Version>,
    expected: Option<(Session, Connection)>)

  datatype Outcome =
    | Refused                                        // nothing was claimed
    | Completed(session: Session, connection: Connection)
    | Failed(cleanupFailed: bool)                    // the handler of a failed attempt raised
    | Interrupted                                    // raised after completion was established

  /** Only this call knows the number of the version it has had stored. */
  ghost predicate Unaware(w: Weather) {
    forall m :: && (w.others(m).session.Some? ==> w.others(m).session.value.1 != Some(w.version))
                && (w.others(m).connection.Some? ==> w.others(m).connection.value.1 != Some(w.version))
  }

  ghost predicate Alone(w: Weather) { forall m :: w.others(m) == NoEdit }

  function EditSession(s: Session, e: Edit): Session {
    if e.session.None? then s
    else Session(e.session.value.0, e.session.value.1, e.session.value.2, s.revision + 1 + e.session.value.3)
  }

  function EditConnection(c: Connection, e: Edit): Connection {
    if e.connection.None? then c
    else Connection(e.connection.value.0, e.connection.value.1, c.revision + 1 + e.connection.value.2)
  }

  function Claimed(s: Session): Session { s.(status := Capturing, revision := s.revision + 1) }

  function Finished(s: Session, v: Version): Session {
    s.(status := Complete, reference := Some(v), revision := s.revision + 1)
  }

  function Authorised(c: Connection, v: Version): Connection {
    c.(status := Connected, reference := Some(v), revision := c.revision + 1)
  }

  // ------------------------------------------------------- conditions on the weather

  /** The worker is asked to store. */
  predicate Asks(w: Weather) { !w.fails(ListBaseline) && !w.fails(GetConnection) && !w.fails(Validate) }

  /** And has stored a version by the time the call goes on. */
  predicate Stores(w: Weather) { Asks(w) && (w.worker.StoredUnheard? || w.worker.Stored?) }

  /** And stores one after the cleanup. */
  predicate Late(w: Weather) { Asks(w) && w.worker.StoredLate? }

  /** The cleanup of a failed attempt leaves the stored version enabled. */
  predicate Strays(w: Weather) {
    Stores(w) && (w.disable.NotApplied? || (w.worker.StoredUnheard? && w.fails(ListCandidates)))
  }

  /** The transaction takes effect: nobody changed either document since it was read. */
  predicate Commits(claimed: Session, w: Weather) {
    && Stores(w) && w.worker.Stored? && !w.transaction.NotApplied? && Readable(claimed)
    && w.others(Committing) == NoEdit && w.others(ReadingConnection).session.None?
  }

  /** The handler can tell that the transaction took effect. */
  predicate SeesCommit(w: Weather) {
    && !w.fails(ReadBack) && w.others(ReadingSessionBack) == NoEdit
    && w.others(ReadingConnectionBack).connection.None?
  }

  /** The cleanup after a failed attempt fails: the version it knows, or finds, is not seen disabled. */
  predicate CleanupFails(w: Weather) {
    && !w.fails(ListBaseline)
    && if Stores(w) && w.worker.Stored? then !w.disable.Heard?
       else w.fails(ListCandidates) || (Stores(w) && !w.disable.Heard?)
  }

  predicate Claims(s: Session, entitled: bool, now: int, expected: nat, w: Weather) {
    var s' := EditSession(s, w.others(Claiming));
    entitled && Readable(s) && s.status.Ready? && now < s.expiresAt && s'.revision == expected && Readable(s')
  }

  class Service {
    var session: Session
    var connection: Connection
    var versions: map<Version, bool>                       // whether a version is enabled
    ghost var commits: seq<(Session, Connection)>

    constructor (s: Session, c: Connection)
      ensures session == s && connection == c && versions == map[] && commits == []
    {
      session, connection, versions, commits := s, c, map[], [];
    }

    ghost predicate Enabled(v: Version)
      reads this
    {
      v in versions && versions[v]
    }

    method Others(e: Edit)
      modifies this`session, this`connection
      ensures session == EditSession(old(session), e) && connection == EditConnection(old(connection), e)
    {
      session, connection := EditSession(session, e), EditConnection(connection, e);
    }

    /** `complete_setup`: both documents change together, or neither does. */
    method CompleteSetup(s: Session, s': Session, c: Connection, c': Connection, delivery: Delivery)
      returns (heard: bool)
      requires s != s'
      modifies this`session, this`connection, this`commits
      ensures var applied := !delivery.NotApplied? && old(session) == s && Readable(s) && old(connection) == c;
        && (if applied
            then session == s' && connection == c' && commits == old(commits) + [(s', c')]
            else session == old(session) && connection == old(connection) && commits == old(commits))
        && (heard ==> session == s' && connection == c')
        && (applied && delivery.Heard? ==> heard)
        && (heard ==> delivery.Heard?)
    {
      if delivery.NotApplied? || !Readable(session) { return false; }
      if session == s' && connection == c' { return delivery.Heard?; }
      if session != s || connection != c { return false; }
      session, connection, commits := s', c', commits + [(s', c')];
      return delivery.Heard?;
    }

    /** The body of the try block. */
    method Try(claimed: Session, w: Weather) returns (a: Attempt)
      requires session == claimed && claimed.status.Capturing? && w.version !in versions && Unaware(w)
      modifies this
      ensures a.error.None? ==> Stores(w) && a.reference == Some(w.version) && a.expected.Some?
      ensures a.baseline == if w.fails(ListBaseline) then None else Some(old(versions).Keys)
      ensures versions == if Stores(w) then old(versions)[w.version := true] else old(versions)
      ensures a.reference == if Stores(w) && w.worker.Stored? then Some(w.version) else None
      ensures a.reference.Some? <==> a.expected.Some?
      ensures a.expected.Some? ==> a.expected.value.0 == Finished(claimed, w.version)
      ensures a.expected.Some? ==>
        a.expected.value.1 == Authorised(EditConnection(old(connection), w.others(ReadingConnection)), w.version)
      ensures commits == if Commits(claimed, w) then old(commits) + [a.expected.value] else old(commits)
      ensures Commits(claimed, w) ==> a.expected == Some((session, connection))
      ensures a.error.None? <==> Commits(claimed, w) && w.transaction.Heard?
      ensures a.error == Some(AuthenticationRequired) <==>
        !w.fails(ListBaseline) && !w.fails(GetConnection) && !w.fails(Validate) && w.worker == Rejected(true)
      ensures Alone(w) && !Commits(claimed, w) ==> session == claimed
      ensures !Commits(claimed, w) && a.expected.Some? ==> session != a.expected.value.0
    {
      a := Attempt(Some(Other), None, None, None);
      if w.fails(ListBaseline) { return; }
      a := a.(baseline := Some(versions.Keys));
      Others(w.others(ReadingConnection));
      if w.fails(GetConnection) { return; }
      var previous := connection;
      if w.fails(Validate) { return; }
      if w.worker.Rejected? {
        a := a.(error := Some(if w.worker.reauthenticate then AuthenticationRequired else Other));
        return;
      }
      if w.worker.StoredLate? { return; }
      versions := versions[w.version := true];
      if w.worker.StoredUnheard? { return; }
      var s', c' := Finished(claimed, w.version), Authorised(previous, w.version);
      a := a.(reference := Some(w.version), expected := Some((s', c')));
      Others(w.others(Committing));
      var heard := CompleteSetup(claimed, s', previous, c', w.transaction);
      if heard { a := a.(error := None); }
    }

    /** `_committed_setup`: the attempt raised; did it commit all the same? */
    method CommittedSetup(expected: Option<(Session, Connection)>, w: Weather) returns (r: bool)
      modifies this`session, this`connection
      ensures r ==> expected.Some? && !w.fails(ReadBack)
      ensures Alone(w) ==> session == old(session) && connection == old(connection)
      ensures expected.Some? && !w.fails(ReadBack) ==>
        (r <==> EditSession(old(session), w.others(ReadingSessionBack)) == expected.value.0 &&
                Readable(expected.value.0) &&
                EditConnection(EditConnection(old(connection), w.others(ReadingSessionBack)),
                               w.others(ReadingConnectionBack)) == expected.value.1)
    {
      if expected.None? || w.fails(ReadBack) { return false; }
      Others(w.others(ReadingSessionBack));
      var storedSession := session;
      if !Readable(storedSession) { return false; }
      Others(w.others(ReadingConnectionBack));
      return storedSession == expected.value.0 && connection == expected.value.1;
    }

    /** `SecretManager.disable`. */
    method Disable(v: Version, delivery: Delivery) returns (ok: bool)
      modifies this`versions
      ensures ok <==> delivery.Heard?
      ensures versions ==
        if delivery.NotApplied? || v !in old(versions) then old(versions) else old(versions)[v := false]
    {
      if !delivery.NotApplied? && v in versions { versions := versions[v := false]; }
      ok := delivery.Heard?;
    }

    /** `_reconcile_store`: disable the version the worker named, or the one enabled version that
        appeared since the baseline. More than one cannot have appeared. */
    method ReconcileStore(before: set<Version>, known: Option<Version>, w: Weather, stored: bool)
      returns (failed: bool)
      requires known.Some? ==> stored && known == Some(w.version)
      requires stored ==> w.version !in before && w.version in versions && versions[w.version]
      requires forall v :: Enabled(v) ==> v in before || (stored && v == w.version)
      modifies this`versions
      ensures failed <==>
        if known.Some? then !w.disable.Heard? else w.fails(ListCandidates) || (stored && !w.disable.Heard?)
      ensures versions ==
        if stored && (known.Some? || !w.fails(ListCandidates)) && !w.disable.NotApplied?
        then old(versions)[w.version := false] else old(versions)
    {
      if known.Some? {
        var ok := Disable(known.value, w.disable);
        return !ok;
      }
      if w.fails(ListCandidates) { return true; }
      var candidates := set v | v in versions && v !in before && versions[v];
      assert candidates == if stored then {w.version} else {} by {
        forall v | v in candidates ensures stored && v == w.version { assert Enabled(v); }
      }
      if |candidates| > 1 { return true; }
      if candidates != {} {
        var v :| v in candidates;
        var ok := Disable(v, w.disable);
        return !ok;
      }
      return false;
    }

    /** `_terminate_failed`: best effort, under the revision this call claimed. */
    method TerminateFailed(claimed: Session, w: Weather)
      modifies this`session, this`connection
      ensures var now := EditSession(old(session), w.others(Terminating));
        session == if now.revision == claimed.revision && Readable(now)
                   then now.(status := Terminated, revision := now.revision + 1) else now
      ensures connection == EditConnection(old(connection), w.others(Terminating))
    {
      Others(w.others(Terminating));
      if session.revision == claimed.revision && Readable(session) {
        session := session.(status := Terminated, revision := session.revision + 1);
      }
    }

    /** `_mark_reauthentication`: three attempts under compare-and-set. */
    method MarkReauthentication(w: Weather)
      modifies this`session, this`connection
      ensures (!w.fails(MarkRead) && exists i: nat :: i < 3 && w.others(Marking(i)).connection.None?) ==>
        connection.status == Reauthentication && connection.reference == None
      ensures connection.revision >= old(connection.revision)
      ensures Alone(w) ==> session == old(session)
    {
      var i: nat := 0;
      while i < 3
        invariant i <= 3 && connection.revision >= old(connection.revision)
        invariant Alone(w) ==> session == old(session)
        invariant forall j: nat :: j < i ==> w.others(Marking(j)).connection.Some?
      {
        if w.fails(MarkRead) { return; }
        var current := connection;
        Others(w.others(Marking(i)));
        if connection.revision == current.revision {
          connection := Connection(Reauthentication, None, connection.revision + 1);
          return;
        }
        i := i + 1;
      }
    }

    /** What `Try` leaves behind when it raises. */
    ghost predicate Raised(claimed: Session, a: Attempt, w: Weather)
      reads this
    {
      && a.error.Some? && claimed.status.Capturing?
      && (a.error.value.AuthenticationRequired? ==> w.worker.Rejected?)
      && (if w.fails(ListBaseline) then a.baseline.None?
          else a.baseline.Some? && w.version !in a.baseline.value &&
               versions.Keys == a.baseline.value + (if Stores(w) then {w.version} else {}))
      && (Stores(w) ==> Enabled(w.version))
      && a.reference == (if Stores(w) && w.worker.Stored? then Some(w.version) else None)
      && (a.reference.Some? <==> a.expected.Some?)
      && (a.expected.Some? ==> a.expected.value.0 == Finished(claimed, w.version))
      && (Commits(claimed, w) ==> a.expected == Some((session, connection)))
      && (!Commits(claimed, w) && a.expected.Some? ==> session != a.expected.value.0)
    }

    /** The handler of a raised attempt: `None` when it finds the setup committed, otherwise whether
        the cleanup failed. */
    method Handle(claimed: Session, a: Attempt, w: Weather) returns (cleanupFailed: Option<bool>)
      requires Raised(claimed, a, w) && Unaware(w)
      modifies this`session, this`connection, this`versions
      ensures cleanupFailed.None? <==> Commits(claimed, w) && SeesCommit(w)
      ensures cleanupFailed.Some? ==> (cleanupFailed.value <==> CleanupFails(w))
      ensures versions ==
        if cleanupFailed.Some? && Stores(w) && (w.worker.Stored? || !w.fails(ListCandidates)) && !w.disable.NotApplied?
        then old(versions)[w.version := false] else old(versions)
      ensures Alone(w) && Commits(claimed, w) ==> connection == old(connection)
      ensures Alone(w) && cleanupFailed.Some? && old(session) == claimed && Readable(claimed) ==>
        && session.status.Terminated?
        && (a.error == Some(AuthenticationRequired) && !w.fails(DeleteMachine) && !w.fails(MarkRead) ==>
              connection.status.Reauthentication? && connection.reference.None?)
    {
      var committed := CommittedSetup(a.expected, w);
      if committed { return None; }
      cleanupFailed := Some(false);
      if a.baseline.Some? {
        var failed := ReconcileStore(a.baseline.value, a.reference, w, Stores(w));
        cleanupFailed := Some(failed);
      }
      TerminateFailed(claimed, w);
      if w.fails(DeleteMachine) { return; }
      if a.error == Some(AuthenticationRequired) {
        MarkReauthentication(w);
        assert Alone(w) ==> w.others(Marking(0)) == NoEdit;
      }
    }

    /** `complete`. */
    method CompleteCall(entitled: bool, now: int, expected: nat, w: Weather) returns (r: Outcome)
      requires w.version !in versions && Unaware(w)
      modifies this
      // A normal return: the setup is complete and, when this call completed it, the connection
      // names the enabled version this call has had stored, and both were committed together.
      ensures r.Completed? ==> r.session.status.Complete? && r.session.reference.Some?
      ensures r.Completed? && old(session.status) != Complete ==>
        && r.session.reference == r.connection.reference == Some(w.version) && r.connection.status.Connected?
        && Enabled(w.version) && commits == old(commits) + [(r.session, r.connection)]
      ensures r.Completed? && old(session.status) == Complete ==>
        r.session == old(session) && commits == old(commits) && versions == old(versions)
      // At its return, a call that commits nothing leaves no new enabled version, unless the cleanup failed.
      ensures commits == old(commits) && (r.Failed? ==> !r.cleanupFailed) ==>
        forall v :: Enabled(v) <==> v in old(versions) && old(versions)[v]
      // Versions of other calls are never touched, and at most one is added.
      ensures forall v :: v in old(versions) ==> v in versions && versions[v] == old(versions)[v]
      ensures versions.Keys <= old(versions).Keys + {w.version}
      ensures r.Refused? ==> versions == old(versions) && commits == old(commits)
      ensures |commits| <= |old(commits)| + 1 && old(commits) <= commits
      ensures !Claims(old(session), entitled, now, expected, w) ==> versions == old(versions) && commits == old(commits)
      // When the call has claimed the setup: when it commits, how it ends, and when what it
      // committed names a version its own cleanup has disabled.
      ensures Claims(old(session), entitled, now, expected, w) ==>
        var claimed := Claimed(EditSession(old(session), w.others(Claiming)));
        && (|commits| > |old(commits)| <==> Commits(claimed, w))
        && (r.Failed? <==> !Commits(claimed, w) || !(w.transaction.Heard? || SeesCommit(w)))
        && (r.Failed? ==> (r.cleanupFailed <==> CleanupFails(w)))
        && (Commits(claimed, w) ==>
              (!Enabled(w.version) <==>
                 w.transaction.Unheard? && !SeesCommit(w) && !w.disable.NotApplied?))
        && (!Commits(claimed, w) ==> (Enabled(w.version) <==> Strays(w)))
      ensures Claims(old(session), entitled, now, expected, w) ==>
        var claimed := Claimed(EditSession(old(session), w.others(Claiming)));
        var previous := EditConnection(EditConnection(old(connection), w.others(Claiming)), w.others(ReadingConnection));
        Commits(claimed, w) ==>
          && commits == old(commits) + [(Finished(claimed, w.version), Authorised(previous, w.version))]
          && (Alone(w) ==> connection == Authorised(previous, w.version))
      // What a failure leaves behind when nobody else writes.
      ensures Claims(old(session), entitled, now, expected, w) && Alone(w) && r.Failed? && commits == old(commits) ==>
        && session.status.Terminated?
        && (!w.fails(GetConnection) && !w.fails(ListBaseline) && !w.fails(Validate) && w.worker == Rejected(true) &&
            !w.fails(DeleteMachine) && !w.fails(MarkRead) ==>
              connection.status.Reauthentication? && connection.reference.None?)
    {
      var seen := session;
      if !Readable(seen) || !entitled { return Refused; }
      if seen.status.Complete? {
        Others(w.others(ReadingConnection));
        if w.fails(GetConnection) || w.fails(ResumeWaiting) || w.fails(DeleteMachine) { return Interrupted; }
        return Completed(seen, connection);
      }
      if !seen.status.Ready? || seen.expiresAt <= now { return Refused; }
      Others(w.others(Claiming));
      if session.revision != expected || !Readable(session) { return Refused; }
      session := Claimed(session);
      var claimed := session;
      var a := Try(claimed, w);
      if a.error.Some? {
        var cleanupFailed := Handle(claimed, a, w);
        if cleanupFailed.Some? { return Failed(cleanupFailed.value); }
      }
      if w.fails(ResumeWaiting) || w.fails(DeleteMachine) { return Interrupted; }
      return Completed(a.expected.value.0, a.expected.value.1);
    }

    /** `complete`, and what the worker still does once nobody waits for it. A call that commits nothing
        leaves a new enabled version in the end if and only if the worker stored late, or the cleanup
        could not find or disable what it stored in time; in particular, when the cleanup succeeded, if
        and only if the worker stored late. */
    method CompleteAndSettle(entitled: bool, now: int, expected: nat, w: Weather) returns (r: Outcome)
      requires w.version !in versions && Unaware(w)
      modifies this
      ensures forall v :: v in old(versions) ==> v in versions && versions[v] == old(versions)[v]
      ensures versions.Keys <= old(versions).Keys + {w.version}
      ensures !Claims(old(session), entitled, now, expected, w) ==> versions == old(versions) && commits == old(commits)
      ensures Claims(old(session), entitled, now, expected, w) ==>
        (commits == old(commits) <==> !Commits(Claimed(EditSession(old(session), w.others(Claiming))), w))
      ensures Claims(old(session), entitled, now, expected, w) && commits == old(commits) ==>
        && r.Failed? && (r.cleanupFailed <==> CleanupFails(w))
        && (Enabled(w.version) <==> Late(w) || Strays(w))
        && (!r.cleanupFailed ==> (Enabled(w.version) <==> Late(w)))
    {
      var claims := Claims(session, entitled, now, expected, w);
      r := CompleteCall(entitled, now, expected, w);
      if claims && Late(w) { versions := versions[w.version := true]; }
    }
  }

  /** The committed connection can be left naming a version the call's own cleanup has disabled: the
      transaction takes effect, its reply is lost, and so is the read-back. */
  method DanglingReference() returns (service: Service)
    ensures service.connection.status.Connected? && service.connection.reference == Some(1)
    ensures service.commits != [] && service.commits[0].1.reference == Some(1) && !service.Enabled(1)
  {
    service := new Service(Session(Ready, None, 10, 0), Connection(Reauthentication, None, 0));
    var w := Weather(m => NoEdit, call => call == ReadBack, Stored, 1, Unheard, Heard);
    var r := service.CompleteCall(true, 0, 0, w);
  }

  /** A setup that failed, and whose cleanup found nothing to do, can still leave a new enabled version:
      the worker stores it when its request has already timed out. */
  method LateVersion() returns (service: Service, r: Outcome)
    ensures r == Failed(false) && service.commits == [] && service.Enabled(1)
  {
    service := new Service(Session(Ready, None, 10, 0), Connection(Reauthentication, None, 0));
    var w := Weather(m => NoEdit, call => false, StoredLate, 1, Heard, Heard);
    r := service.CompleteAndSettle(true, 0, 0, w);
  }
}
