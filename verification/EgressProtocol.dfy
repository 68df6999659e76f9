/** Any number of acquire / release / reconcile callers over one egress document and four cloud
    resources (server/browser/egress.py). A transaction, a resource call and a document read are
    one step each; callers may stall or crash between any two of them. */
module EgressProtocol {
  import opened Wrappers
  import opened EgressState

  // ----------------------------------------------------------- the resources

  /** The four cloud resources; a gateway has an address, a route a next hop. */
  datatype Cloud = Cloud(policy: bool, rule: bool, gateway: Option<string>, route: Option<string>)
  {
    predicate Complete() { policy && rule && gateway.Some? && route.Some? }
    predicate Empty() { !policy && !rule && gateway.None? && route.None? }

    /** Present resources form a prefix of policy, rule, gateway, route, and a present route
        points at the present gateway. */
    predicate Prefix() {
      && (rule ==> policy)
      && (gateway.Some? ==> rule)
      && (route.Some? ==> route == gateway)
    }
  }

  const NOTHING := Cloud(false, false, None, None)

  /** A resource call: done, refused, or applied with the answer lost. */
  datatype Outcome = Done | Applied | Refused

  /** Makes the k-th resource exist; an existing one is left as it is. `address` is the gateway
      address the caller read, `issued` the one a new gateway would get. */
  function Create(cloud: Cloud, k: nat, address: string, issued: string): Cloud {
    if k == 0 then cloud.(policy := true)
    else if k == 1 then cloud.(rule := true)
    else if k == 2 then (if cloud.gateway.Some? then cloud else cloud.(gateway := Some(issued)))
    else if k == 3 then (if cloud.route.Some? then cloud else cloud.(route := Some(address)))
    else cloud
  }

  /** Removes the k-th resource in deletion order. */
  function Remove(cloud: Cloud, k: nat): Cloud {
    if k == 0 then cloud.(route := None)
    else if k == 1 then cloud.(gateway := None)
    else if k == 2 then cloud.(rule := false)
    else if k == 3 then cloud.(policy := false)
    else cloud
  }

  /** The first `done` resources exist, and `address` is the gateway's once it is among them. */
  predicate Built(cloud: Cloud, done: nat, address: string) {
    && (done >= 1 ==> cloud.policy)
    && (done >= 2 ==> cloud.rule)
    && (done >= 3 ==> cloud.gateway == Some(address))
    && (done >= 4 ==> cloud.route.Some?)
  }

  /** The first `done` deletions have taken effect. */
  predicate Razed(cloud: Cloud, done: nat) {
    && (done >= 1 ==> cloud.route.None?)
    && (done >= 2 ==> cloud.gateway.None?)
    && (done >= 3 ==> !cloud.rule)
    && (done >= 4 ==> !cloud.policy)
  }

  // ------------------------------------------------------------- the callers

  datatype Job =
    | AcquireJob(lease: Lease, deadline: Time)
    | ReleaseJob(id: string)
    | ReconcileJob

  datatype Phase =
    | Requesting                                          // before its request transaction
    | Looping(token: Token, seen: State)                  // acquire: head of the wait loop
    | Ensuring(token: Token, done: nat, address: string)  // inside _ensure_resources
    | Erasing(token: Token, done: nat)                    // inside _delete_resources
    | Failing(token: Token)                               // before the failure transaction
    | Sleeping(token: Token)                              // acquire: before it reads again
    | Polled(token: Token, seen: State)                   // acquire: after it read
    | Returned
    | Raised

  /** `overtaken`: since this caller's last request, another caller released or acquired the
      same lease identifier. A history variable; no step depends on it. */
  datatype Caller = Caller(job: Job, phase: Phase, overtaken: bool)

  datatype World = World(
    now: Time,
    doc: Option<State>,
    cloud: Cloud,
    callers: map<nat, Caller>,
    nextToken: Token)

  datatype Step =
    | Tick(delta: nat)
    | Spawn(c: nat, job: Job)
    | Crash(c: nat)
    | Request(c: nat)
    | Loop(c: nat)
    | Ensure(c: nat, outcome: Outcome, issued: string)
    | Erase(c: nat, outcome: Outcome)
    | Commit(c: nat)
    | Abandon(c: nat, message: string, retryable: bool)
    | Poll(c: nat)
    | Decide(c: nat)

  function Requested(job: Job): Change {
    match job
    case AcquireJob(lease, _) => Acquire(lease)
    case ReleaseJob(id) => Release(id)
    case ReconcileJob => Reconcile
  }

  /** Where a caller goes with the document its request left behind. */
  function AfterRequest(job: Job, token: Token, s: State): Phase {
    if job.AcquireJob? then Looping(token, s)
    else if s.Holds(token) && s.status == Deleting then Erasing(token, 0)
    else if s.Holds(token) && s.status == Provisioning && job.ReconcileJob? then Ensuring(token, 0, "")
    else Returned
  }

  /** Where a caller goes once its operation is over: acquire waits on, the others return. */
  function AfterWork(job: Job, token: Token): Phase {
    if job.AcquireJob? then Sleeping(token) else Returned
  }

  function AfterLoop(job: Job, token: Token, seen: State, now: Time): Phase
    requires job.AcquireJob?
  {
    if now >= job.deadline then Raised
    else if seen.status == Ready then Returned
    else if seen.status == Provisioning && seen.Holds(token) then Ensuring(token, 0, "")
    else Sleeping(token)
  }

  function AfterPoll(token: Token, seen: State, now: Time): Phase {
    if seen.status in {Absent, Failed} || (seen.status == Provisioning && seen.Stale(now))
    then Requesting else Looping(token, seen)
  }

  predicate In(w: World, c: nat) { c in w.callers }

  predicate Enabled(w: World, step: Step) {
    match step
    case Tick(_) => true
    case Spawn(c, job) => c !in w.callers && (job.AcquireJob? ==> job.deadline == w.now + WAIT)
    case Crash(c) => In(w, c) && !w.callers[c].phase.Returned?
    case Request(c) => In(w, c) && w.callers[c].phase.Requesting?
    case Loop(c) => In(w, c) && w.callers[c].phase.Looping? && w.callers[c].job.AcquireJob?
    case Ensure(c, _, _) => In(w, c) && w.callers[c].phase.Ensuring? && w.callers[c].phase.done < 4
    case Erase(c, _) => In(w, c) && w.callers[c].phase.Erasing? && w.callers[c].phase.done < 4
    case Commit(c) => In(w, c) && (w.callers[c].phase.Ensuring? || w.callers[c].phase.Erasing?)
        && w.callers[c].phase.done == 4
    case Abandon(c, _, _) => In(w, c) && w.callers[c].phase.Failing?
    case Poll(c) => In(w, c) && w.callers[c].phase.Sleeping?
    case Decide(c) => In(w, c) && w.callers[c].phase.Polled?
  }

  function Overtake(k: Caller, change: Change): Caller {
    if k.job.AcquireJob? && Names(change, k.job.lease.id) then k.(overtaken := true) else k
  }

  function Move(w: World, c: nat, phase: Phase): World
    requires In(w, c)
  {
    w.(callers := w.callers[c := w.callers[c].(phase := phase)])
  }

  /** One committed `store.update` by caller `c`, leaving the document `s`. */
  function Install(w: World, c: nat, change: Change, s: State, phase: Phase): World
    requires In(w, c)
  {
    w.(doc := Some(s),
       callers := map d | d in w.callers ::
         if d == c
         then Caller(w.callers[c].job, phase, w.callers[c].overtaken && !change.Acquire?)
         else Overtake(w.callers[d], change))
  }

  function Transact(w: World, c: nat, change: Change, token: Token, phase: Phase): World
    requires In(w, c)
  {
    Install(w, c, change, Changed(w.doc, change, token, w.now), phase)
  }

  function Apply(w: World, step: Step): World
    requires Enabled(w, step)
  {
    match step
    case Tick(delta) => w.(now := w.now + delta)
    case Spawn(c, job) => w.(callers := w.callers[c := Caller(job, Requesting, false)])
    case Crash(c) => Move(w, c, Raised)
    case Request(c) =>
      var job := w.callers[c].job;
      var token := w.nextToken;
      var s := Changed(w.doc, Requested(job), token, w.now);
      Transact(w, c, Requested(job), token, AfterRequest(job, token, s)).(nextToken := token + 1)
    case Loop(c) =>
      var k := w.callers[c];
      Move(w, c, AfterLoop(k.job, k.phase.token, k.phase.seen, w.now))
    case Ensure(c, outcome, issued) =>
      var at := w.callers[c].phase;
      var cloud := if outcome.Refused? then w.cloud else Create(w.cloud, at.done, at.address, issued);
      var address := if at.done == 2 && cloud.gateway.Some? then cloud.gateway.value else at.address;
      Move(w.(cloud := cloud), c,
           if outcome.Done? then Ensuring(at.token, at.done + 1, address) else Failing(at.token))
    case Erase(c, outcome) =>
      var at := w.callers[c].phase;
      var cloud := if outcome.Refused? then w.cloud else Remove(w.cloud, at.done);
      Move(w.(cloud := cloud), c,
           if outcome.Done? then Erasing(at.token, at.done + 1) else Failing(at.token))
    case Commit(c) =>
      var k := w.callers[c];
      var token := k.phase.token;
      if k.phase.Ensuring? then
        var s := Changed(w.doc, Provisioned(k.phase.address), token, w.now);
        Transact(w, c, Provisioned(k.phase.address), token,
                 if s.status == Deleting && s.Holds(token) then Erasing(token, 0)
                 else AfterWork(k.job, token))
      else
        Transact(w, c, Deleted, token, AfterWork(k.job, token))
    case Abandon(c, message, retryable) =>
      var k := w.callers[c];
      Transact(w, c, Failure(message), k.phase.token,
               if k.job.AcquireJob? && retryable then Sleeping(k.phase.token) else Raised)
    case Poll(c) =>
      Move(w, c, if w.doc.None? then Requesting else Polled(w.callers[c].phase.token, w.doc.value))
    case Decide(c) =>
      var at := w.callers[c].phase;
      Move(w, c, AfterPoll(at.token, at.seen, w.now))
  }

  predicate Initial(w: World) {
    w.doc.None? && w.cloud == NOTHING && w.callers == map[] && w.nextToken == 0
  }

  /** A run: every step enabled in the world the earlier ones left. */
  predicate Legal(w: World, steps: seq<Step>)
    decreases |steps|
  {
    steps == [] || (Enabled(w, steps[0]) && Legal(Apply(w, steps[0]), steps[1..]))
  }

  function Execute(w: World, steps: seq<Step>): World
    requires Legal(w, steps)
    decreases |steps|
  {
    if steps == [] then w else Execute(Apply(w, steps[0]), steps[1..])
  }

  // --------------------------------------------------------- the invariant

  function Held(phase: Phase): Option<Token> {
    if phase.Looping? || phase.Ensuring? || phase.Erasing? || phase.Failing? || phase.Sleeping?
       || phase.Polled? then Some(phase.token) else None
  }

  predicate Own(s: State, t: Token) { s.status == Provisioning && s.Holds(t) }

  predicate DocOwn(doc: Option<State>, t: Token) { doc.Some? && Own(doc.value, t) }

  predicate DocIs(doc: Option<State>, status: Status) { doc.Some? && doc.value.status == status }

  predicate DocHolds(doc: Option<State>, t: Token) { doc.Some? && doc.value.Holds(t) }

  /** The caller's lease is in force: not expired, and nobody else touched its identifier. */
  predicate Guarded(k: Caller, now: Time) {
    k.job.AcquireJob? && !k.overtaken && now < k.job.lease.expiresAt
  }

  ghost predicate CallerOk(w: World, k: Caller) {
    && (Held(k.phase).Some? ==> Held(k.phase).value < w.nextToken)
    && (k.phase.Looping? || k.phase.Sleeping? || k.phase.Polled? ==> k.job.AcquireJob?)
    && (Guarded(k, w.now) && !k.phase.Requesting? && !k.phase.Raised? ==>
          w.doc.Some? && k.job.lease in w.doc.value.leases)
    && match k.phase
       case Looping(t, seen) =>
         && (if Own(seen, t) then DocHolds(w.doc, t) ==> DocIs(w.doc, Provisioning)
             else !DocOwn(w.doc, t))
         && (seen.status == Ready && Guarded(k, w.now) ==> DocIs(w.doc, Ready))
       case Ensuring(t, done, address) =>
         DocHolds(w.doc, t) ==> DocIs(w.doc, Provisioning) && Built(w.cloud, done, address)
       case Erasing(t, done) =>
         DocHolds(w.doc, t) && DocIs(w.doc, Deleting)
       case Failing(t) =>
         DocHolds(w.doc, t) ==> DocIs(w.doc, Provisioning) || DocIs(w.doc, Deleting)
       case Sleeping(t) => !DocOwn(w.doc, t)
       case Polled(t, seen) =>
         && !DocOwn(w.doc, t) && !Own(seen, t)
         && (seen.status == Ready && Guarded(k, w.now) ==> DocIs(w.doc, Ready))
       case Returned => Guarded(k, w.now) ==> DocIs(w.doc, Ready)
       case _ => true
  }

  ghost predicate Inv(w: World) {
    && WellFormed(w.doc)
    && (w.doc.Some? && w.doc.value.token.Some? ==> w.doc.value.token.value < w.nextToken)
    && (DocIs(w.doc, Ready) ==> w.cloud.Complete() && w.doc.value.address == w.cloud.gateway)
    && (forall c :: c in w.callers ==> CallerOk(w, w.callers[c]))
    && Distinct(w)
  }

  /** No two callers carry the same token. */
  ghost predicate Distinct(w: World) {
    forall c, d :: c in w.callers && d in w.callers && c != d && Held(w.callers[c].phase).Some? ==>
      Held(w.callers[c].phase) != Held(w.callers[d].phase)
  }

  /** A transaction run by one caller under its own token leaves every other caller in order. */
  lemma TransactFrame(w: World, w': World, change: Change, token: Token, k: Caller)
    requires Inv(w) && CallerOk(w, k) && Held(k.phase) != Some(token)
    requires w' == w.(doc := Some(Changed(w.doc, change, token, w.now)),
                      callers := w'.callers, nextToken := w'.nextToken)
    requires w.nextToken <= w'.nextToken
    requires change.Failure? && DocHolds(w.doc, token) ==> !DocIs(w.doc, Ready)
    ensures CallerOk(w', Overtake(k, change))
  {
    var s := Current(w.doc, w.now);
    ChangeLeases(w.doc, change, token, w.now);
    if Held(k.phase).Some? {
      TokenGuardsStatus(s, change, token, w.now, Held(k.phase).value);
    }
    if Guarded(Overtake(k, change), w.now) && DocIs(w.doc, Ready) && k.job.lease in s.leases {
      LiveLeaseKeepsReady(s, change, token, w.now, k.job.lease);
    }
  }

  /** The new document is in order, and its token was handed out. */
  lemma DocAfter(w: World, change: Change, token: Token)
    requires Inv(w)
    ensures var s := Changed(w.doc, change, token, w.now);
      WellFormed(Some(s)) && (s.token.Some? ==> s.token.value < w.nextToken || s.token == Some(token))
  {
    ChangeKeepsWellFormed(w.doc, change, token, w.now);
  }

  lemma InstallInv(w: World, w': World, c: nat, change: Change, s: State, phase: Phase)
    requires Inv(w) && In(w, c) && w.nextToken <= w'.nextToken
    requires w' == Install(w, c, change, s, phase).(nextToken := w'.nextToken)
    requires WellFormed(Some(s)) && (s.token.Some? ==> s.token.value < w'.nextToken)
    requires s.status == Ready ==> w.cloud.Complete() && s.address == w.cloud.gateway
    requires CallerOk(w', w'.callers[c])
    requires forall d :: d in w.callers && d != c ==>
        CallerOk(w', Overtake(w.callers[d], change))
        && (Held(phase).Some? ==> Held(w.callers[d].phase) != Held(phase))
    ensures Inv(w')
  {
    forall d | d in w'.callers
      ensures CallerOk(w', w'.callers[d])
      ensures d != c ==> Held(w'.callers[d].phase) == Held(w.callers[d].phase)
    {
      assert d != c ==> w'.callers[d] == Overtake(w.callers[d], change);
    }
    StaysDistinct(w, w', c);
  }

  lemma StaysDistinct(w: World, w': World, c: nat)
    requires Distinct(w) && w'.callers.Keys == w.callers.Keys && In(w, c)
    requires forall d :: d in w.callers && d != c ==> Held(w'.callers[d].phase) == Held(w.callers[d].phase)
    requires forall d :: d in w.callers && d != c && Held(w'.callers[c].phase).Some? ==>
        Held(w.callers[d].phase) != Held(w'.callers[c].phase)
    ensures Distinct(w')
  {
  }

  /** What a transaction by caller `c` needs from its own bookkeeping to keep the invariant. */
  lemma TransactInv(w: World, w': World, c: nat, change: Change, token: Token, phase: Phase)
    requires Inv(w) && In(w, c)
    requires Held(w.callers[c].phase) == Some(token)
          || (token == w.nextToken && token < w'.nextToken)
    requires w.nextToken <= w'.nextToken
    requires w' == Transact(w, c, change, token, phase).(nextToken := w'.nextToken)
    requires change.Failure? && DocHolds(w.doc, token) ==> !DocIs(w.doc, Ready)
    requires Held(phase) in {None, Some(token)}
    requires CallerOk(w', w'.callers[c])
    requires DocIs(w'.doc, Ready) ==> w.cloud.Complete() && w'.doc.value.address == w.cloud.gateway
    ensures Inv(w')
  {
    DocAfter(w, change, token);
    forall d | d in w.callers && d != c
      ensures CallerOk(w', Overtake(w.callers[d], change)) && Held(w.callers[d].phase) != Some(token)
    {
      assert CallerOk(w, w.callers[d]);
      TransactFrame(w, w', change, token, w.callers[d]);
    }
    assert CallerOk(w, w.callers[c]);
    InstallInv(w, w', c, change, Changed(w.doc, change, token, w.now), phase);
  }

  lemma RequestInv(w: World, c: nat)
    requires Inv(w) && Enabled(w, Request(c))
    ensures Inv(Apply(w, Request(c)))
  {
    var job := w.callers[c].job;
    var token := w.nextToken;
    var w' := Apply(w, Request(c));
    ChangeLeases(w.doc, Requested(job), token, w.now);
    TransactInv(w, w', c, Requested(job), token, w'.callers[c].phase);
  }

  lemma CommitProvisioned(w: World, c: nat)
    requires Inv(w) && Enabled(w, Commit(c)) && w.callers[c].phase.Ensuring?
    ensures Inv(Apply(w, Commit(c)))
  {
    var k := w.callers[c];
    var change := Provisioned(k.phase.address);
    var w' := Apply(w, Commit(c));
    assert CallerOk(w, k);
    ChangeLeases(w.doc, change, k.phase.token, w.now);
    TransactInv(w, w', c, change, k.phase.token, w'.callers[c].phase);
  }

  lemma CommitDeleted(w: World, c: nat)
    requires Inv(w) && Enabled(w, Commit(c)) && w.callers[c].phase.Erasing?
    ensures Inv(Apply(w, Commit(c)))
  {
    var k := w.callers[c];
    var w' := Apply(w, Commit(c));
    assert CallerOk(w, k);
    ChangeLeases(w.doc, Deleted, k.phase.token, w.now);
    TransactInv(w, w', c, Deleted, k.phase.token, w'.callers[c].phase);
  }

  lemma AbandonInv(w: World, c: nat, message: string, retryable: bool)
    requires Inv(w) && Enabled(w, Abandon(c, message, retryable))
    ensures Inv(Apply(w, Abandon(c, message, retryable)))
  {
    var k := w.callers[c];
    var w' := Apply(w, Abandon(c, message, retryable));
    assert CallerOk(w, k);
    ChangeLeases(w.doc, Failure(message), k.phase.token, w.now);
    TransactInv(w, w', c, Failure(message), k.phase.token, w'.callers[c].phase);
  }

  /** Creating a resource disturbs nobody: what exists stays as it is. */
  lemma EnsureInv(w: World, c: nat, outcome: Outcome, issued: string)
    requires Inv(w) && Enabled(w, Ensure(c, outcome, issued))
    ensures Inv(Apply(w, Ensure(c, outcome, issued)))
  {
    var w' := Apply(w, Ensure(c, outcome, issued));
    forall d | d in w.callers ensures CallerOk(w', w'.callers[d]) {
      assert CallerOk(w, w.callers[d]);
    }
  }

  /** A deleter's document is DELETING under its token, so nobody relies on the resources. */
  lemma EraseInv(w: World, c: nat, outcome: Outcome)
    requires Inv(w) && Enabled(w, Erase(c, outcome))
    ensures Inv(Apply(w, Erase(c, outcome)))
  {
    var w' := Apply(w, Erase(c, outcome));
    assert CallerOk(w, w.callers[c]);
    forall d | d in w.callers ensures CallerOk(w', w'.callers[d]) {
      assert CallerOk(w, w.callers[d]);
    }
  }

  lemma TickInv(w: World, delta: nat)
    requires Inv(w)
    ensures Inv(Apply(w, Tick(delta)))
  {
    var w' := Apply(w, Tick(delta));
    forall d | d in w.callers ensures CallerOk(w', w'.callers[d]) {
      assert CallerOk(w, w.callers[d]);
    }
  }

  lemma SpawnInv(w: World, c: nat, job: Job)
    requires Inv(w) && Enabled(w, Spawn(c, job))
    ensures Inv(Apply(w, Spawn(c, job)))
  {
    var w' := Apply(w, Spawn(c, job));
    forall d | d in w'.callers ensures CallerOk(w', w'.callers[d]) {
      assert d != c ==> CallerOk(w, w.callers[d]);
    }
  }

  /** A step that only moves one caller, and gives it no token it did not carry. */
  lemma MoveInv(w: World, c: nat, phase: Phase)
    requires Inv(w) && In(w, c)
    requires Held(phase) in {None, Held(w.callers[c].phase)}
    requires CallerOk(w, w.callers[c].(phase := phase))
    ensures Inv(Move(w, c, phase))
  {
    var w' := Move(w, c, phase);
    forall d | d in w'.callers ensures CallerOk(w', w'.callers[d]) {
      assert CallerOk(w, if d == c then w.callers[c].(phase := phase) else w.callers[d]);
    }
  }

  lemma LocalInv(w: World, step: Step)
    requires Inv(w) && Enabled(w, step)
    requires step.Crash? || step.Loop? || step.Poll? || step.Decide?
    ensures Inv(Apply(w, step))
  {
    var w' := Apply(w, step);
    var c := step.c;
    assert CallerOk(w, w.callers[c]);
    MoveInv(w, c, w'.callers[c].phase);
  }

  lemma StepInv(w: World, step: Step)
    requires Inv(w) && Enabled(w, step)
    ensures Inv(Apply(w, step))
  {
    match step {
      case Request(c) => RequestInv(w, c);
      case Commit(c) =>
        if w.callers[c].phase.Ensuring? { CommitProvisioned(w, c); } else { CommitDeleted(w, c); }
      case Abandon(c, message, retryable) => AbandonInv(w, c, message, retryable);
      case Ensure(c, outcome, issued) => EnsureInv(w, c, outcome, issued);
      case Erase(c, outcome) => EraseInv(w, c, outcome);
      case Tick(delta) => TickInv(w, delta);
      case Spawn(c, job) => SpawnInv(w, c, job);
      case _ => LocalInv(w, step);
    }
  }

  lemma {:induction false} RunInv(w: World, steps: seq<Step>)
    requires Inv(w) && Legal(w, steps)
    ensures Inv(Execute(w, steps))
    decreases |steps|
  {
    if steps != [] {
      StepInv(w, steps[0]);
      RunInv(Apply(w, steps[0]), steps[1..]);
    }
  }

  // ------------------------------------------------------------ the theorems

  /** In every interleaving, a READY document means that all four resources exist and that the
      recorded gateway address is the address of the gateway that exists. */
  lemma ReadyMeansResources(w: World, steps: seq<Step>)
    requires Initial(w) && Legal(w, steps)
    ensures var e := Execute(w, steps);
      DocIs(e.doc, Ready) ==> e.cloud.Complete() && e.doc.value.address == e.cloud.gateway
  {
    RunInv(w, steps);
  }

  /** At most one caller is ever inside `_delete_resources`, and the document is DELETING with
      exactly its token for as long as it is. */
  lemma DeleterIsAlone(w: World, steps: seq<Step>, c: nat)
    requires Initial(w) && Legal(w, steps)
    requires var e := Execute(w, steps); In(e, c) && e.callers[c].phase.Erasing?
    ensures var e := Execute(w, steps);
      && DocIs(e.doc, Deleting) && e.doc.value.token == Some(e.callers[c].phase.token)
      && forall d :: d in e.callers && e.callers[d].phase.Erasing? ==> d == c
  {
    RunInv(w, steps);
    var e := Execute(w, steps);
    assert CallerOk(e, e.callers[c]);
    forall d | d in e.callers && e.callers[d].phase.Erasing? ensures d == c {
      assert CallerOk(e, e.callers[d]);
    }
  }

  /** No caller other than `c` requests the release or the acquisition of `id` along the run. */
  predicate Untouched(w: World, steps: seq<Step>, c: nat, id: string)
    requires Legal(w, steps)
    decreases |steps|
  {
    steps == [] ||
    (&& (steps[0].Request? && steps[0].c != c ==>
           !Names(Requested(w.callers[steps[0].c].job), id))
     && Untouched(Apply(w, steps[0]), steps[1..], c, id))
  }

  lemma {:induction false} StaysUntouched(w: World, steps: seq<Step>, c: nat)
    requires In(w, c) && w.callers[c].job.AcquireJob? && !w.callers[c].overtaken
    requires Legal(w, steps) && Untouched(w, steps, c, w.callers[c].job.lease.id)
    ensures var e := Execute(w, steps);
      In(e, c) && e.callers[c].job == w.callers[c].job && !e.callers[c].overtaken
    decreases |steps|
  {
    if steps != [] {
      StaysUntouched(Apply(w, steps[0]), steps[1..], c);
    }
  }

  /** The lease guarantee. Take any run in which caller `c` requests its lease and, from that
      request on, nobody else releases or acquires the same identifier. Wherever `c` has returned
      and its lease has not expired, the document is READY, still lists the lease, and all four
      resources exist, whatever the other callers did, before the return or after it. */
  lemma LeaseGuarantee(w: World, before: seq<Step>, c: nat, after: seq<Step>)
    requires Initial(w) && Legal(w, before)
    requires var m := Execute(w, before);
      && Enabled(m, Request(c)) && m.callers[c].job.AcquireJob?
      && Legal(Apply(m, Request(c)), after)
      && Untouched(Apply(m, Request(c)), after, c, m.callers[c].job.lease.id)
    ensures var m := Execute(w, before);
      var e := Execute(Apply(m, Request(c)), after);
      && In(e, c)
      && (e.callers[c].phase.Returned? && e.now < m.callers[c].job.lease.expiresAt ==>
            && DocIs(e.doc, Ready)
            && m.callers[c].job.lease in e.doc.value.leases
            && e.cloud.Complete())
  {
    RunInv(w, before);
    var m := Execute(w, before);
    StepInv(m, Request(c));
    var r := Apply(m, Request(c));
    RunInv(r, after);
    StaysUntouched(r, after, c);
    var e := Execute(r, after);
    assert CallerOk(e, e.callers[c]);
  }

  // ------------------------------------------------- a deletion nobody finishes

  predicate Deletes(w: World, t: Token) { DocHolds(w.doc, t) && DocIs(w.doc, Deleting) }

  predicate WorksOn(phase: Phase, t: Token) {
    (phase.Erasing? && phase.token == t) || (phase.Failing? && phase.token == t)
  }

  /** Some caller is still deleting under the token, or about to report that it could not. */
  ghost predicate Tended(w: World, t: Token) {
    exists c :: c in w.callers && WorksOn(w.callers[c].phase, t)
  }

  lemma UntendedTransaction(w: World, w': World, c: nat, change: Change, token: Token, phase: Phase, t: Token)
    requires Deletes(w, t) && !Tended(w, t) && In(w, c) && token != t && Held(phase) in {None, Some(token)}
    requires w' == Transact(w, c, change, token, phase).(nextToken := w'.nextToken)
    ensures Deletes(w', t) && !Tended(w', t)
  {
    TokenGuardsStatus(w.doc.value, change, token, w.now, t);
    forall d | d in w'.callers ensures !WorksOn(w'.callers[d].phase, t) {
      if d != c { assert w'.callers[d].phase == w.callers[d].phase; }
    }
  }

  lemma UntendedLocal(w: World, step: Step, t: Token)
    requires Inv(w) && Deletes(w, t) && !Tended(w, t) && Enabled(w, step)
    requires !step.Request? && !step.Commit? && !step.Abandon?
    ensures Deletes(Apply(w, step), t) && !Tended(Apply(w, step), t)
  {
    var w' := Apply(w, step);
    forall d | d in w'.callers ensures !WorksOn(w'.callers[d].phase, t) {
      assert d in w.callers ==> CallerOk(w, w.callers[d]) && !WorksOn(w.callers[d].phase, t);
    }
  }

  lemma UntendedStep(w: World, step: Step, t: Token)
    requires Inv(w) && Deletes(w, t) && !Tended(w, t) && Enabled(w, step)
    ensures Deletes(Apply(w, step), t) && !Tended(Apply(w, step), t)
  {
    var w' := Apply(w, step);
    match step {
      case Request(c) =>
        UntendedTransaction(w, w', c, Requested(w.callers[c].job), w.nextToken, w'.callers[c].phase, t);
      case Commit(c) =>
        var at := w.callers[c].phase;
        assert CallerOk(w, w.callers[c]);
        var change := if at.Ensuring? then Provisioned(at.address) else Deleted;
        UntendedTransaction(w, w', c, change, at.token, w'.callers[c].phase, t);
      case Abandon(c, message, _) =>
        UntendedTransaction(w, w', c, Failure(message), w.callers[c].phase.token, w'.callers[c].phase, t);
      case _ => UntendedLocal(w, step, t);
    }
  }

  /** DELETING has no staleness path: a document whose deleter has crashed stays DELETING under its
      token in every continuation, whatever acquirers, releasers and reconcilers do. */
  lemma {:induction false} DeletingForGood(w: World, steps: seq<Step>, t: Token)
    requires Inv(w) && Deletes(w, t) && !Tended(w, t) && Legal(w, steps)
    ensures Deletes(Execute(w, steps), t) && !Tended(Execute(w, steps), t)
    decreases |steps|
  {
    if steps != [] {
      StepInv(w, steps[0]);
      UntendedStep(w, steps[0], t);
      DeletingForGood(Apply(w, steps[0]), steps[1..], t);
    }
  }

  ghost predicate Bounded(w: World) {
    forall c :: c in w.callers && w.callers[c].phase.Erasing? ==> w.callers[c].phase.done <= 4
  }

  lemma {:induction false} StaysBounded(w: World, steps: seq<Step>)
    requires Bounded(w) && Legal(w, steps)
    ensures Bounded(Execute(w, steps))
    decreases |steps|
  {
    if steps != [] {
      var w' := Apply(w, steps[0]);
      forall c | c in w'.callers && w'.callers[c].phase.Erasing? ensures w'.callers[c].phase.done <= 4 {
        assert c in w.callers && w.callers[c].phase.Erasing? ==> w.callers[c].phase.done <= 4;
      }
      StaysBounded(w', steps[1..]);
    }
  }

  /** A deleter left alone, with calls that succeed, ends with the document ABSENT. */
  lemma {:induction false} DeleterFinishes(w: World, c: nat, t: Token) returns (steps: seq<Step>)
    requires Deletes(w, t) && In(w, c) && w.callers[c].phase.Erasing? && w.callers[c].phase.token == t
    requires w.callers[c].phase.done <= 4
    ensures Legal(w, steps) && DocIs(Execute(w, steps).doc, Absent)
    decreases 4 - w.callers[c].phase.done
  {
    if w.callers[c].phase.done == 4 {
      steps := [Commit(c)];
      assert Execute(w, steps) == Apply(w, Commit(c)) by { assert steps[1..] == []; }
    } else {
      var w' := Apply(w, Erase(c, Done));
      var rest := DeleterFinishes(w', c, t);
      steps := [Erase(c, Done)] + rest;
      assert steps[1..] == rest;
    }
  }

  ghost predicate CanSettle(w: World) {
    exists steps :: Legal(w, steps) && (DocIs(Execute(w, steps).doc, Absent) || DocIs(Execute(w, steps).doc, Failed))
  }

  lemma TendedSettles(w: World, c: nat, t: Token)
    requires Bounded(w) && Deletes(w, t) && In(w, c) && WorksOn(w.callers[c].phase, t)
    ensures CanSettle(w)
  {
    if w.callers[c].phase.Erasing? {
      var steps := DeleterFinishes(w, c, t);
    } else {
      var steps := [Abandon(c, "", false)];
      assert Legal(w, steps) && Execute(w, steps) == Apply(w, Abandon(c, "", false)) by { assert steps[1..] == []; }
      assert DocIs(Execute(w, steps).doc, Failed);
    }
  }

  /** Exactly: a reachable DELETING document can still become ABSENT or FAILED if and only if some
      caller is deleting under its token or about to report its failure. */
  lemma SettlesExactly(w: World, before: seq<Step>, t: Token)
    requires Initial(w) && Legal(w, before) && Deletes(Execute(w, before), t)
    ensures CanSettle(Execute(w, before)) <==> Tended(Execute(w, before), t)
  {
    RunInv(w, before);
    StaysBounded(w, before);
    var e := Execute(w, before);
    if Tended(e, t) {
      var c :| c in e.callers && WorksOn(e.callers[c].phase, t);
      TendedSettles(e, c, t);
    } else {
      forall steps | Legal(e, steps) ensures DocIs(Execute(e, steps).doc, Deleting) {
        DeletingForGood(e, steps, t);
      }
    }
  }

  /** And it happens: a reconciler takes an operation over, to delete, and crashes. */
  lemma DeleterCrashes() returns (w: World, steps: seq<Step>)
    ensures Initial(w) && Legal(w, steps)
    ensures Deletes(Execute(w, steps), 1) && !Tended(Execute(w, steps), 1) && !CanSettle(Execute(w, steps))
  {
    var e;
    w, steps := TakenOver();
    steps, e := RunThen(w, steps, Crash(1));
    SettlesExactly(w, steps, 1);
  }

  // ----------------------------------- runs without harmful resource creation

  ghost predicate Tidy(w: World) {
    && w.cloud.Prefix()
    && (w.doc.None? || DocIs(w.doc, Absent) ==> w.cloud.Empty())
    && (forall c :: c in w.callers && w.callers[c].phase.Erasing? ==>
          Razed(w.cloud, w.callers[c].phase.done))
  }

  predicate Exists(cloud: Cloud, k: nat) {
    match k
    case 0 => cloud.policy
    case 1 => cloud.rule
    case 2 => cloud.gateway.Some?
    case _ => cloud.route.Some?
  }

  /** What the next resource needs to be there first; a route also needs the gateway it points at. */
  predicate Grounded(cloud: Cloud, k: nat, address: string) {
    match k
    case 0 => true
    case 1 => cloud.policy
    case 2 => cloud.rule
    case _ => cloud.gateway == Some(address)
  }

  /** Somebody deleting has already been past resource `k`. */
  ghost predicate Passed(w: World, k: nat) {
    exists d :: d in w.callers && w.callers[d].phase.Erasing? && w.callers[d].phase.done > 3 - k
  }

  /** The creating calls that do no harm: one that is refused, one that finds its resource, and one
      that creates it in its place, for a document that is not ABSENT and with no eraser past it. */
  ghost predicate Harmless(w: World, step: Step)
    requires step.Ensure? && Enabled(w, step)
  {
    var at := w.callers[step.c].phase;
    || step.outcome.Refused?
    || Exists(w.cloud, at.done)
    || (w.doc.Some? && !DocIs(w.doc, Absent) && Grounded(w.cloud, at.done, at.address) && !Passed(w, at.done))
  }

  /** A creating call keeps the resources tidy exactly if it is harmless. */
  lemma EnsureTidyExactly(w: World, step: Step)
    requires Inv(w) && Enabled(w, step) && Tidy(w) && step.Ensure?
    ensures Tidy(Apply(w, step)) <==> Harmless(w, step)
  {
    var at := w.callers[step.c].phase;
    var w' := Apply(w, step);
    forall d | d in w.callers && w.callers[d].phase.Erasing?
      ensures d != step.c && w'.callers[d] == w.callers[d] && Razed(w.cloud, w.callers[d].phase.done)
    {}
    forall d | d in w'.callers && w'.callers[d].phase.Erasing?
      ensures d != step.c && w.callers[d] == w'.callers[d]
    {}
  }

  /** A deleting call: nobody else is deleting. */
  lemma EraseTidy(w: World, step: Step)
    requires Inv(w) && Enabled(w, step) && Tidy(w) && step.Erase?
    ensures Tidy(Apply(w, step))
  {
    assert CallerOk(w, w.callers[step.c]);
    forall d | d in w.callers && d != step.c ensures !w.callers[d].phase.Erasing? {
      assert CallerOk(w, w.callers[d]);
    }
  }

  lemma TidyInstall(w: World, w': World, c: nat)
    requires Tidy(w) && In(w, c) && w'.cloud == w.cloud && w'.callers.Keys == w.callers.Keys
    requires forall d :: d in w.callers && d != c ==> w'.callers[d].phase == w.callers[d].phase
    requires w'.doc.None? || DocIs(w'.doc, Absent) ==> w.cloud.Empty()
    requires w'.callers[c].phase.Erasing? ==> Razed(w.cloud, w'.callers[c].phase.done)
    ensures Tidy(w')
  {
  }

  lemma TidyRequest(w: World, c: nat)
    requires Inv(w) && Enabled(w, Request(c)) && Tidy(w)
    ensures Tidy(Apply(w, Request(c)))
  {
    var w' := Apply(w, Request(c));
    assert forall d :: d in w.callers && d != c ==> w'.callers[d].phase == w.callers[d].phase;
    TidyInstall(w, w', c);
  }

  lemma TidyCommit(w: World, c: nat)
    requires Inv(w) && Enabled(w, Commit(c)) && Tidy(w)
    ensures Tidy(Apply(w, Commit(c)))
  {
    assert CallerOk(w, w.callers[c]);
    var w' := Apply(w, Commit(c));
    assert forall d :: d in w.callers && d != c ==> w'.callers[d].phase == w.callers[d].phase;
    TidyInstall(w, w', c);
  }

  lemma TidyAbandon(w: World, c: nat, message: string, retryable: bool)
    requires Inv(w) && Enabled(w, Abandon(c, message, retryable)) && Tidy(w)
    ensures Tidy(Apply(w, Abandon(c, message, retryable)))
  {
    var w' := Apply(w, Abandon(c, message, retryable));
    assert forall d :: d in w.callers && d != c ==> w'.callers[d].phase == w.callers[d].phase;
    TidyInstall(w, w', c);
  }

  /** No other step disturbs them. */
  lemma TidyStep(w: World, step: Step)
    requires Inv(w) && Enabled(w, step) && Tidy(w) && !step.Ensure?
    ensures Tidy(Apply(w, step))
  {
    if step.Erase? {
      EraseTidy(w, step);
    } else if step.Request? {
      TidyRequest(w, step.c);
    } else if step.Commit? {
      TidyCommit(w, step.c);
    } else if step.Abandon? {
      TidyAbandon(w, step.c, step.message, step.retryable);
    } else {
      var w' := Apply(w, step);
      forall d | d in w'.callers && w'.callers[d].phase.Erasing?
        ensures d in w.callers && w.callers[d].phase == w'.callers[d].phase
      {}
    }
  }

  /** Every creating call of the run is harmless. */
  ghost predicate Prompt(w: World, steps: seq<Step>)
    requires Legal(w, steps)
    decreases |steps|
  {
    steps == [] || ((steps[0].Ensure? ==> Harmless(w, steps[0])) && Prompt(Apply(w, steps[0]), steps[1..]))
  }

  /** The resources are tidy all along the run. */
  ghost predicate TidyThroughout(w: World, steps: seq<Step>)
    requires Legal(w, steps)
    decreases |steps|
  {
    Tidy(w) && (steps == [] || TidyThroughout(Apply(w, steps[0]), steps[1..]))
  }

  /** Through every partial failure of a create or a delete, a run keeps to this at every point if and
      only if each of its creating calls is harmless: the existing resources are a prefix of policy,
      rule, gateway, route; a present route's next hop is the present gateway's address; an ABSENT
      document leaves nothing. */
  lemma {:induction false} ResourcesFormPrefix(w: World, steps: seq<Step>)
    requires Inv(w) && Tidy(w) && Legal(w, steps)
    ensures TidyThroughout(w, steps) <==> Prompt(w, steps)
    decreases |steps|
  {
    if steps != [] {
      var w' := Apply(w, steps[0]);
      StepInv(w, steps[0]);
      if steps[0].Ensure? { EnsureTidyExactly(w, steps[0]); } else { TidyStep(w, steps[0]); }
      if Tidy(w') {
        ResourcesFormPrefix(w', steps[1..]);
      } else {
        assert !TidyThroughout(w', steps[1..]);
      }
    }
  }

  /** A provisioner that still holds its token creates harmlessly: only one that has been superseded
      can do harm. */
  lemma OwnerHarmless(w: World, step: Step)
    requires Inv(w) && Enabled(w, step) && Tidy(w) && step.Ensure?
    requires DocHolds(w.doc, w.callers[step.c].phase.token)
    ensures Harmless(w, step)
  {
    assert CallerOk(w, w.callers[step.c]);
    forall d | d in w.callers ensures !w.callers[d].phase.Erasing? {
      assert CallerOk(w, w.callers[d]);
    }
  }

  /** Every creating call of the run is by a provisioner that holds its token at the time. */
  predicate OwnersOnly(w: World, steps: seq<Step>)
    requires Legal(w, steps)
    decreases |steps|
  {
    steps == [] ||
    ((steps[0].Ensure? ==> DocHolds(w.doc, w.callers[steps[0].c].phase.token)) &&
     OwnersOnly(Apply(w, steps[0]), steps[1..]))
  }

  /** So when superseded provisioners create nothing more, the resources are tidy all along the run. */
  lemma {:induction false} OwnersKeepTidy(w: World, steps: seq<Step>)
    requires Inv(w) && Tidy(w) && Legal(w, steps) && OwnersOnly(w, steps)
    ensures TidyThroughout(w, steps)
    decreases |steps|
  {
    if steps != [] {
      StepInv(w, steps[0]);
      if steps[0].Ensure? {
        OwnerHarmless(w, steps[0]);
        EnsureTidyExactly(w, steps[0]);
      } else {
        TidyStep(w, steps[0]);
      }
      OwnersKeepTidy(Apply(w, steps[0]), steps[1..]);
    }
  }

  lemma InitialOk(w: World)
    requires Initial(w)
    ensures Inv(w) && Tidy(w)
  {}

  /** A legal run goes on with any step enabled at its end. */
  lemma {:induction false} RunThen(w: World, steps: seq<Step>, step: Step) returns (longer: seq<Step>, e: World)
    requires Legal(w, steps) && Enabled(Execute(w, steps), step)
    ensures longer == steps + [step] && Legal(w, longer)
    ensures e == Execute(w, longer) == Apply(Execute(w, steps), step)
    decreases |steps|
  {
    longer := steps + [step];
    if steps == [] {
      assert longer[1..] == [];
    } else {
      var _, _ := RunThen(Apply(w, steps[0]), steps[1..], step);
      assert longer[1..] == steps[1..] + [step];
    }
    e := Execute(w, longer);
  }

  /** The first provisioner has requested its lease and starts on the resources. */
  lemma FirstProvisioner() returns (w: World, steps: seq<Step>)
    ensures Initial(w) && Legal(w, steps)
    ensures var e := Execute(w, steps);
      && e.now == 0 && e.nextToken == 1 && e.cloud == NOTHING
      && e.doc.Some? && e.doc.value.status == Provisioning && e.doc.value.updatedAt == 0
      && e.doc.value.leases == [Lease("a", 1)]
      && e.callers.Keys == {0} && e.callers[0].phase == Ensuring(0, 0, "")
  {
    var e := World(0, None, NOTHING, map[], 0);
    w, steps := e, [];
    steps, e := RunThen(w, steps, Spawn(0, AcquireJob(Lease("a", 1), WAIT)));
    steps, e := RunThen(w, steps, Request(0));
    steps, e := RunThen(w, steps, Loop(0));
  }

  /** It builds a gateway and stalls before its route. */
  lemma StalledProvisioner() returns (w: World, steps: seq<Step>)
    ensures Initial(w) && Legal(w, steps)
    ensures var e := Execute(w, steps);
      && e.now == 0 && e.nextToken == 1 && e.cloud == Cloud(true, true, Some("old"), None)
      && e.doc.Some? && e.doc.value.status == Provisioning && e.doc.value.updatedAt == 0
      && e.doc.value.leases == [Lease("a", 1)]
      && e.callers.Keys == {0} && e.callers[0].phase == Ensuring(0, 3, "old")
  {
    var e;
    w, steps := FirstProvisioner();
    steps, e := RunThen(w, steps, Ensure(0, Done, ""));
    steps, e := RunThen(w, steps, Ensure(0, Done, ""));
    steps, e := RunThen(w, steps, Ensure(0, Done, "old"));
  }

  /** A reconciler takes the stale operation over, to delete. */
  lemma TakenOver() returns (w: World, steps: seq<Step>)
    ensures Initial(w) && Legal(w, steps)
    ensures var e := Execute(w, steps);
      && e.now == PROVISIONING_TIMEOUT && e.nextToken == 2
      && e.cloud == Cloud(true, true, Some("old"), None)
      && e.doc.Some? && e.doc.value.status == Deleting && e.doc.value.Holds(1)
      && e.doc.value.leases == []
      && e.callers.Keys == {0, 1} && e.callers[0].phase == Ensuring(0, 3, "old")
      && e.callers[1] == Caller(ReconcileJob, Erasing(1, 0), false)
  {
    var e;
    w, steps := StalledProvisioner();
    steps, e := RunThen(w, steps, Tick(PROVISIONING_TIMEOUT));
    UnexpiredKeeps(e.doc.value.leases, e.now);
    assert Unexpired(e.doc.value.leases, e.now) == [];
    steps, e := RunThen(w, steps, Spawn(1, ReconcileJob));
    steps, e := RunThen(w, steps, Request(1));
  }

  /** It deletes everything. */
  lemma CleanedUp() returns (w: World, steps: seq<Step>)
    ensures Initial(w) && Legal(w, steps)
    ensures var e := Execute(w, steps);
      && e.nextToken == 2 && e.cloud == NOTHING
      && e.doc.Some? && e.doc.value.status == Deleting && e.doc.value.Holds(1) && e.doc.value.leases == []
      && e.callers.Keys == {0, 1} && e.callers[0].phase == Ensuring(0, 3, "old")
      && e.callers[1] == Caller(ReconcileJob, Erasing(1, 4), false)
  {
    var e;
    w, steps := TakenOver();
    steps, e := RunThen(w, steps, Erase(1, Done));
    steps, e := RunThen(w, steps, Erase(1, Done));
    steps, e := RunThen(w, steps, Erase(1, Done));
    steps, e := RunThen(w, steps, Erase(1, Done));
  }

  /** Only then does the stalled caller create its route. */
  lemma LateRoute() returns (w: World, steps: seq<Step>)
    ensures Initial(w) && Legal(w, steps)
    ensures var e := Execute(w, steps);
      && e.nextToken == 2 && e.cloud == Cloud(false, false, None, Some("old"))
      && e.doc.Some? && e.doc.value.status == Absent && e.doc.value.leases == []
      && e.callers.Keys == {0, 1}
  {
    var e;
    w, steps := CleanedUp();
    steps, e := RunThen(w, steps, Commit(1));
    steps, e := RunThen(w, steps, Ensure(0, Done, ""));
  }

  /** The next provisioner builds a gateway of its own. */
  lemma NewGateway() returns (w: World, steps: seq<Step>)
    ensures Initial(w) && Legal(w, steps)
    ensures var e := Execute(w, steps);
      && e.cloud == Cloud(true, true, Some("new"), Some("old"))
      && DocOwn(e.doc, 2) && e.doc.value.leases == [Lease("b", e.now + 1)]
      && 2 in e.callers && e.callers[2].phase == Ensuring(2, 3, "new")
  {
    var e;
    w, steps := LateRoute();
    e := Execute(w, steps);
    steps, e := RunThen(w, steps, Spawn(2, AcquireJob(Lease("b", e.now + 1), e.now + WAIT)));
    steps, e := RunThen(w, steps, Request(2));
    steps, e := RunThen(w, steps, Loop(2));
    steps, e := RunThen(w, steps, Ensure(2, Done, ""));
    steps, e := RunThen(w, steps, Ensure(2, Done, ""));
    steps, e := RunThen(w, steps, Ensure(2, Done, "new"));
  }

  /** Harm does happen: a provisioner that stalls past the timeout, is cleaned up
      after, and then creates its route, leaves a route to a gateway that is gone; the next
      provisioner finds the route present, keeps it, and the document becomes READY. */
  lemma StaleRoute() returns (w: World, steps: seq<Step>)
    ensures Initial(w) && Legal(w, steps)
    ensures var e := Execute(w, steps);
      DocIs(e.doc, Ready) && e.cloud.gateway == Some("new") && e.cloud.route == Some("old")
  {
    var e;
    w, steps := NewGateway();
    steps, e := RunThen(w, steps, Ensure(2, Done, ""));
    steps, e := RunThen(w, steps, Commit(2));
  }
}
