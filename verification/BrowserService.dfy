/** The browser service and the worker that drives it (server/browser/service.py, worker.py) acting
    on the stored documents, one call at a time: each method is proved against the operation it
    performs in BrowserSession. */
module BrowserService {
  import opened Wrappers
  import opened BrowserSession
  import H = SessionProtocol

  /** The service's `_current`: the session a caller may change at this revision. */
  function Checked(stored: Option<Session>, revision: nat, now: Time, expires: bool): Result<Session, Error> {
    if Read(stored).Err? then Read(stored)
    else if stored.value.revision != revision then Err(Conflict)
    else if expires && now >= stored.value.expiresAt then Err(Expired)
    else Ok(stored.value)
  }

  /** The store's compare-and-set. */
  function Replaced(stored: Option<Session>, revision: nat, changed: Session): Result<Session, Error> {
    if Read(stored).Err? then Read(stored)
    else if stored.value.revision != revision then Err(Conflict)
    else if changed.revision != revision + 1 || changed.id != stored.value.id then Err(Conflict)
    else Ok(changed)
  }

  /** An operation took place as a whole, or was refused and changed nothing. */
  ghost predicate Did(before: Store, after: Store, op: Op, revision: nat, now: Time, r: Result<Session, Error>) {
    var p := Performed(before, op, revision, now);
    if p.Ok? then after == p.value && r == Ok(p.value.session.value)
    else after == before && r == Err(p.error)
  }

  class Service {
    var now: Time
    var session: Option<Session>
    var actions: map<string, Record>
    var captures: map<string, Capture>
    ghost var log: seq<Action>
    ghost var mark: nat
    ghost var base: nat

    ghost function View(): Store
      reads this
    {
      Store(session, actions, captures, log, mark, base)
    }

    ghost predicate Valid()
      reads this
    {
      Inv(View())
    }

    constructor (start: Time)
      ensures Valid() && session.None? && now == start
    {
      now, session, actions, captures := start, None, map[], map[];
      log, mark, base := [], 0, 0;
    }

    method Elapse()
      modifies this`now
      ensures now >= old(now)
    {
      var more: int := *;
      if more > 0 { now := now + more; }
    }

    // ------------------------------------------------------------- storage

    method Current(revision: nat, expires: bool) returns (r: Result<Session, Error>)
      ensures r == Checked(session, revision, now, expires)
    {
      if session.None? { return Err(NotFound); }
      if !session.value.Valid() { return Err(Unreadable); }
      if session.value.revision != revision { return Err(Conflict); }
      if expires && now >= session.value.expiresAt { return Err(Expired); }
      return Ok(session.value);
    }

    method Update(revision: nat, changed: Session) returns (r: Result<Session, Error>)
      modifies this`session
      ensures r == Replaced(old(session), revision, changed)
      ensures session == if r.Ok? then Some(changed) else old(session)
    {
      if session.None? { return Err(NotFound); }
      if !session.value.Valid() { return Err(Unreadable); }
      if session.value.revision != revision { return Err(Conflict); }
      if changed.revision != revision + 1 || changed.id != session.value.id { return Err(Conflict); }
      session := Some(changed);
      return Ok(changed);
    }

    method BeginAction(current: Session, changed: Session, action: Action) returns (r: Result<Session, Error>)
      modifies this`session, this`actions, this`log
      ensures r == (if Read(old(session)).Err? then Read(old(session))
                    else if old(session).value != current || action.id in old(actions) then Err(Conflict)
                    else Ok(changed))
      ensures r.Ok? ==> View() == old(View()).(session := Some(changed),
          actions := old(actions)[action.id := Record(action, Authorized, None, now, None)],
          log := old(log) + [action])
      ensures r.Err? ==> View() == old(View())
    {
      if session.None? { return Err(NotFound); }
      if !session.value.Valid() { return Err(Unreadable); }
      if session.value != current { return Err(Conflict); }
      if action.id in actions { return Err(Conflict); }
      actions := actions[action.id := Record(action, Authorized, None, now, None)];
      session := Some(changed);
      log := log + [action];
      return Ok(changed);
    }

    method StoreCapture(current: Session, changed: Session, capture: Capture) returns (r: Result<Session, Error>)
      modifies this`session, this`captures
      ensures r == (if Read(old(session)).Err? then Read(old(session))
                    else if old(session).value != current || capture.id in old(captures) then Err(Conflict)
                    else Ok(changed))
      ensures r.Ok? ==> session == Some(changed) && captures == old(captures)[capture.id := capture]
      ensures r.Err? ==> session == old(session) && captures == old(captures)
    {
      if session.None? { return Err(NotFound); }
      if !session.value.Valid() { return Err(Unreadable); }
      if session.value != current { return Err(Conflict); }
      if capture.id in captures { return Err(Conflict); }
      captures := captures[capture.id := capture];
      session := Some(changed);
      return Ok(changed);
    }

    method FinishAction(id: string, status: ActionStatus, error: Option<string>)
      returns (r: Result<Record, Error>)
      requires Valid()
      modifies this`actions
      ensures Valid()
      ensures var p := FinishedAction(old(View()), id, status, error, now);
        if p.Ok? then View() == p.value && id in actions && r == Ok(actions[id])
        else View() == old(View()) && r == Err(p.error)
    {
      ghost var p := FinishedAction(View(), id, status, error, now);
      if p.Ok? { FinishInv(View(), id, status, error, now); }
      if id !in actions { return Err(NotFound); }
      var current := actions[id];
      if !current.Valid() { return Err(Unreadable); }
      if current.status != Authorized {
        if current.status == status && current.error == error { return Ok(current); }
        return Err(Conflict);
      }
      var changed := current.(status := status, error := error, completedAt := Some(now));
      actions := actions[id := changed];
      return Ok(changed);
    }

    // ------------------------------------------------------------- service

    method Create(initial: Session) returns (r: Result<Session, Error>)
      requires Valid() && initial.Valid()
      modifies this
      ensures Valid() && now == old(now)
      ensures var p := Created(old(View()), initial);
        if p.Ok? then View() == p.value && r == Ok(initial) else View() == old(View()) && r == Err(p.error)
    {
      ghost var p := Created(View(), initial);
      if p.Ok? { CreateInv(View(), initial); }
      if initial.status != Provisioning { return Err(Conflict); }
      if !initial.modelPaused || !initial.recordingPaused { return Err(Conflict); }
      if session.Some? {
        if !session.value.Valid() { return Err(Unreadable); }
        if session.value == initial { return Ok(initial); }
        return Err(Conflict);
      }
      session := Some(initial);
      mark, base := |log|, initial.stepCount;
      return Ok(initial);
    }

    /** An accepted operation keeps the invariant of the documents. */
    lemma Preserves(op: Op, revision: nat)
      requires Valid()
      ensures Performed(View(), op, revision, now).Ok? ==> Inv(Performed(View(), op, revision, now).value)
    {
      if Performed(View(), op, revision, now).Ok? {
        OperationInv(View(), op, revision, now);
      }
    }

    method AttachWorker(revision: nat, worker: string) returns (r: Result<Session, Error>)
      requires Valid()
      modifies this
      ensures Valid() && now == old(now) && Did(old(View()), View(), Attach(worker), revision, now, r)
    {
      Preserves(Attach(worker), revision);
      var c := Current(revision, true);
      if c.Err? { return Err(c.error); }
      var current := c.value;
      if current.status != Provisioning { return Err(Conflict); }
      var changed := current.(status := Ready, worker := Some(worker),
                              updatedAt := now, revision := current.revision + 1);
      r := Update(revision, changed);
    }

    method StartSession(revision: nat) returns (r: Result<Session, Error>)
      requires Valid()
      modifies this
      ensures Valid() && now == old(now) && Did(old(View()), View(), Start, revision, now, r)
    {
      Preserves(Start, revision);
      var c := Current(revision, true);
      if c.Err? { return Err(c.error); }
      var current := c.value;
      if current.status !in {Ready, Paused} { return Err(Conflict); }
      var changed := current.(status := Running, modelPaused := false, recordingPaused := false,
                              updatedAt := now, revision := current.revision + 1);
      r := Update(revision, changed);
    }

    method Rebind(revision: nat, fence: int) returns (r: Result<Session, Error>)
      requires Valid()
      modifies this
      ensures Valid() && now == old(now) && Did(old(View()), View(), RebindFence(fence), revision, now, r)
    {
      Preserves(RebindFence(fence), revision);
      var c := Current(revision, true);
      if c.Err? { return Err(c.error); }
      var current := c.value;
      if current.status !in {Ready, Paused} || fence <= current.fence { return Err(Conflict); }
      var changed := current.(fence := fence,
                              updatedAt := now, revision := current.revision + 1);
      r := Update(revision, changed);
    }

    method Arm(revision: nat) returns (r: Result<Session, Error>)
      requires Valid()
      modifies this
      ensures Valid() && now == old(now) && Did(old(View()), View(), ArmCapture, revision, now, r)
    {
      Preserves(ArmCapture, revision);
      var c := Current(revision, true);
      if c.Err? { return Err(c.error); }
      var current := c.value;
      if current.status != Running { return Err(Conflict); }
      var changed := current.(status := Capturing, modelPaused := true, recordingPaused := true,
                              updatedAt := now, revision := current.revision + 1);
      r := Update(revision, changed);
    }

    method ArmHuman(revision: nat) returns (r: Result<Session, Error>)
      requires Valid()
      modifies this
      ensures Valid() && now == old(now) && Did(old(View()), View(), ArmHumanCapture, revision, now, r)
    {
      Preserves(ArmHumanCapture, revision);
      var c := Current(revision, true);
      if c.Err? { return Err(c.error); }
      var current := c.value;
      if current.status !in {Takeover, Paused} { return Err(Conflict); }
      var changed := current.(status := Capturing, modelPaused := true, recordingPaused := true,
                              updatedAt := now, revision := current.revision + 1);
      r := Update(revision, changed);
    }

    method FinishCapture(revision: nat, capture: Capture) returns (r: Result<Session, Error>)
      requires Valid()
      modifies this
      ensures Valid() && now == old(now) && Did(old(View()), View(), CompleteCapture(capture), revision, now, r)
    {
      Preserves(CompleteCapture(capture), revision);
      var c := Current(revision, true);
      if c.Err? { return Err(c.error); }
      var current := c.value;
      if current.status != Capturing { return Err(Conflict); }
      var changed := current.(status := if current.subject.Some? then Takeover else Running,
                              modelPaused := current.subject.Some?, recordingPaused := current.subject.Some?,
                              updatedAt := now, revision := current.revision + 1);
      r := StoreCapture(current, changed, capture);
    }

    method FreezeSession(revision: nat) returns (r: Result<Session, Error>)
      requires Valid()
      modifies this
      ensures Valid() && now == old(now) && Did(old(View()), View(), Freeze, revision, now, r)
    {
      Preserves(Freeze, revision);
      var c := Current(revision, true);
      if c.Err? { return Err(c.error); }
      var current := c.value;
      var changed := current.(status := Paused, modelPaused := true, recordingPaused := true,
                              updatedAt := now, revision := current.revision + 1);
      r := Update(revision, changed);
    }

    method BeginTakeover(revision: nat, subject: string) returns (r: Result<Session, Error>)
      requires Valid()
      modifies this
      ensures Valid() && now == old(now) && Did(old(View()), View(), TakeOver(subject), revision, now, r)
    {
      Preserves(TakeOver(subject), revision);
      var c := Current(revision, true);
      if c.Err? { return Err(c.error); }
      var current := c.value;
      if current.status !in {Running, Paused} { return Err(Conflict); }
      var changed := current.(status := Takeover, modelPaused := true, recordingPaused := true,
                              subject := Some(subject),
                              updatedAt := now, revision := current.revision + 1);
      r := Update(revision, changed);
    }

    method EndTakeover(revision: nat, subject: string) returns (r: Result<Session, Error>)
      requires Valid()
      modifies this
      ensures Valid() && now == old(now) && Did(old(View()), View(), ReleaseTakeover(subject), revision, now, r)
    {
      Preserves(ReleaseTakeover(subject), revision);
      var c := Current(revision, true);
      if c.Err? { return Err(c.error); }
      var current := c.value;
      if current.status != Takeover || current.subject != Some(subject) { return Err(Conflict); }
      var changed := current.(status := Paused, modelPaused := true, recordingPaused := true,
                              subject := None,
                              updatedAt := now, revision := current.revision + 1);
      r := Update(revision, changed);
    }

    /** The guards of `authorize_action`. */
    method MayAct(current: Session, action: Action) returns (ok: bool)
      ensures ok == Accepts(current, Authorize(action))
    {
      var allowed := current.status in {Running, Takeover};
      var capturing := current.status == Capturing && action.isProtected
        && current.modelPaused && current.recordingPaused;
      if !allowed && !capturing { return false; }
      if action.sessionId != current.id || action.fence != current.fence { return false; }
      if action.kind !in current.policy.allowed { return false; }
      if current.status == Takeover && action.isProtected { return false; }
      return true;
    }

    method RecordAction(revision: nat, action: Action) returns (r: Result<Session, Error>)
      modifies this`session, this`actions, this`log
      ensures Did(old(View()), View(), Authorize(action), revision, now, r)
    {
      var c := Current(revision, true);
      if c.Err? { return Err(c.error); }
      var current := c.value;
      var ok := MayAct(current, action);
      if !ok { return Err(Conflict); }
      var changed := current.(stepCount := current.stepCount + 1,
                              updatedAt := now, revision := current.revision + 1);
      var recorded := if action.kind == Type then action.(value := Some("<redacted>")) else action;
      r := BeginAction(current, changed, recorded);
    }

    method AuthorizeAction(revision: nat, action: Action) returns (r: Result<Session, Error>)
      requires Valid()
      modifies this
      ensures Valid() && now == old(now) && Did(old(View()), View(), Authorize(action), revision, now, r)
    {
      Preserves(Authorize(action), revision);
      r := RecordAction(revision, action);
    }

    method ReprovisionSession(revision: nat, settings: string, policy: Policy, fence: int, expiresAt: Time) returns (r: Result<Session, Error>)
      requires Valid()
      modifies this
      ensures Valid() && now == old(now) && Did(old(View()), View(), Reprovision(settings, policy, fence, expiresAt), revision, now, r)
    {
      Preserves(Reprovision(settings, policy, fence, expiresAt), revision);
      var c := Current(revision, false);
      if c.Err? { return Err(c.error); }
      var current := c.value;
      if current.status != Terminated { return Err(Conflict); }
      var changed := current.(status := Provisioning, settings := settings, policy := policy,
                              fence := fence, worker := None, terminatedAt := None, stepCount := 0,
                              modelPaused := true, recordingPaused := true, subject := None,
                              expiresAt := expiresAt,
                              updatedAt := now, revision := current.revision + 1);
      r := Update(revision, changed);
      if r.Ok? { mark, base := |log|, 0; }
    }

    method TerminateSession(revision: nat) returns (r: Result<Session, Error>)
      requires Valid()
      modifies this
      ensures Valid() && now == old(now) && Did(old(View()), View(), Terminate, revision, now, r)
    {
      Preserves(Terminate, revision);
      var c := Current(revision, true);
      if c.Err? { return Err(c.error); }
      var current := c.value;
      var changed := current.(status := Terminated, modelPaused := true, recordingPaused := true, terminatedAt := Some(now),
                              updatedAt := now, revision := current.revision + 1);
      r := Update(revision, changed);
    }

    /** Any operation of the service takes place as a whole, or is refused and changes nothing. */
    method Perform(op: Op, revision: nat) returns (r: Result<Session, Error>)
      requires Valid()
      modifies this
      ensures Valid() && now == old(now) && Did(old(View()), View(), op, revision, now, r)
    {
      match op {
        case Attach(worker) => r := AttachWorker(revision, worker);
        case Start => r := StartSession(revision);
        case RebindFence(fence) => r := Rebind(revision, fence);
        case ArmCapture => r := Arm(revision);
        case ArmHumanCapture => r := ArmHuman(revision);
        case CompleteCapture(capture) => r := FinishCapture(revision, capture);
        case Freeze => r := FreezeSession(revision);
        case TakeOver(subject) => r := BeginTakeover(revision, subject);
        case ReleaseTakeover(subject) => r := EndTakeover(revision, subject);
        case Authorize(action) => r := AuthorizeAction(revision, action);
        case Reprovision(settings, policy, fence, expiresAt) =>
          r := ReprovisionSession(revision, settings, policy, fence, expiresAt);
        case Terminate => r := TerminateSession(revision);
      }
    }

    // ------------------------------------------------- the worker among other callers

    /** Everything since `start`, by whomever, is the sequence of whole operations `events`. */
    ghost predicate Since(start: Store, events: seq<H.Event>)
      reads this
    {
      H.Replays(start, events) && View() == H.Replay(start, events)
    }

    method Act(ghost start: Store, ghost past: seq<H.Event>, op: Op, revision: nat)
      returns (r: Result<Session, Error>, ghost events: seq<H.Event>)
      requires Valid() && Since(start, past)
      modifies this
      ensures Valid() && now == old(now) && Did(old(View()), View(), op, revision, now, r)
      ensures Since(start, events) && H.Forward(old(View()), View())
    {
      ghost var before := View();
      r := Perform(op, revision);
      events := past;
      if r.Ok? {
        ghost var event := H.Operation(op, revision, now);
        H.ReplaySnoc(start, past, event);
        H.EventForward(before, event);
        events := past + [event];
      }
    }

    method ActFinish(ghost start: Store, ghost past: seq<H.Event>, id: string, status: ActionStatus, error: Option<string>)
      returns (r: Result<Record, Error>, ghost events: seq<H.Event>)
      requires Valid() && Since(start, past)
      modifies this
      ensures Valid() && now == old(now) && Since(start, events) && H.Forward(old(View()), View())
      ensures session == old(session) && captures == old(captures)
      ensures r.Ok? ==> id in old(actions) && id in actions && actions == old(actions)[id := actions[id]]
      ensures r.Ok? ==> actions[id].status == status
      ensures r.Err? ==> actions == old(actions)
    {
      ghost var before := View();
      FinishedIs(before, id, status, error, now);
      r := FinishAction(id, status, error);
      events := past;
      if r.Ok? {
        ghost var event := H.Completion(id, status, error, now);
        H.ReplaySnoc(start, past, event);
        H.EventForward(before, event);
        events := past + [event];
      }
    }

    method ActCreate(ghost start: Store, ghost past: seq<H.Event>, initial: Session)
      returns (r: Result<Session, Error>, ghost events: seq<H.Event>)
      requires Valid() && Since(start, past) && initial.Valid()
      modifies this
      ensures Valid() && now == old(now) && Since(start, events) && H.Forward(old(View()), View())
    {
      ghost var before := View();
      r := Create(initial);
      events := past;
      if r.Ok? {
        ghost var event := H.Creation(initial);
        H.ReplaySnoc(start, past, event);
        H.EventForward(before, event);
        events := past + [event];
      }
    }

    /** Other callers do anything, any number of times. */
    method Others(ghost start: Store, ghost past: seq<H.Event>) returns (ghost events: seq<H.Event>)
      requires Valid() && Since(start, past)
      modifies this
      ensures Valid() && now >= old(now) && Since(start, events) && H.Forward(old(View()), View())
    {
      events := past;
      ghost var first := View();
      var n: int := *;
      while n > 0
        invariant Valid() && now >= old(now) && Since(start, events) && H.Forward(first, View())
        decreases n
      {
        Elapse();
        ghost var before := View();
        var choice, revision: int := *, *;
        var op: Op := *;
        var id: string := *;
        var status: ActionStatus := *;
        var error: Option<string> := *;
        var initial: Session := *;
        if choice == 0 && revision >= 0 {
          var _, more := Act(start, events, op, revision);
          events := more;
        } else if choice == 1 {
          var _, more := ActFinish(start, events, id, status, error);
          events := more;
        } else if initial.Valid() {
          var _, more := ActCreate(start, events, initial);
          events := more;
        }
        H.ForwardTransitive(first, before, View());
        n := n - 1;
      }
    }

    ghost predicate Frozen(r: Result<Session, Error>)
      reads this
    {
      r.Ok? && session == Some(r.value) && r.value.status == Paused && r.value.modelPaused && r.value.recordingPaused
    }

    /** Armed for a capture. */
    predicate Armed(s: Session) { s.status == Capturing && s.modelPaused && s.recordingPaused }

    method TryFreeze(ghost start: Store, ghost past: seq<H.Event>, revision: nat)
      returns (r: Result<Session, Error>, ghost events: seq<H.Event>)
      requires Valid() && Since(start, past)
      modifies this
      ensures Valid() && Since(start, events) && H.Forward(old(View()), View())
      ensures (r.Ok? ==> Frozen(r)) && (r.Err? ==> View() == old(View()))
    {
      r, events := Act(start, past, Freeze, revision);
    }

    method TryArm(ghost start: Store, ghost past: seq<H.Event>, revision: nat)
      returns (r: Result<Session, Error>, ghost events: seq<H.Event>)
      requires Valid() && Since(start, past)
      modifies this
      ensures Valid() && Since(start, events) && H.Forward(old(View()), View())
      ensures r.Ok? ==> session == Some(r.value) && Armed(r.value)
      ensures r.Err? ==> View() == old(View())
    {
      r, events := Act(start, past, ArmCapture, revision);
    }

    /** Authorising an action changes no status and no barrier. */
    method TryAuthorize(ghost start: Store, ghost past: seq<H.Event>, revision: nat, action: Action)
      returns (r: Result<Session, Error>, ghost events: seq<H.Event>)
      requires Valid() && Since(start, past)
      modifies this
      ensures Valid() && Since(start, events) && H.Forward(old(View()), View())
      ensures r.Ok? ==> old(session).Some? && old(session).value.revision == revision && session == Some(r.value)
      ensures r.Ok? ==> (Armed(r.value) <==> Armed(old(session).value))
      ensures r.Ok? ==> action.id !in old(actions) && action.id in actions
      ensures r.Err? ==> View() == old(View())
    {
      r, events := Act(start, past, Authorize(action), revision);
    }

    method TryCapture(ghost start: Store, ghost past: seq<H.Event>, revision: nat, capture: Capture)
      returns (r: Result<Session, Error>, ghost events: seq<H.Event>)
      requires Valid() && Since(start, past)
      modifies this
      ensures Valid() && Since(start, events) && H.Forward(old(View()), View())
      ensures r.Ok? ==> session == Some(r.value) && r.value.status in {Running, Takeover}
      ensures r.Ok? ==> capture.id !in old(captures) && captures == old(captures)[capture.id := capture]
      ensures r.Err? ==> View() == old(View())
    {
      r, events := Act(start, past, CompleteCapture(capture), revision);
    }

    // -------------------------------------------------------------- worker

    /** The action is performed, and its ledger entry closed; or it fails, its entry is closed as failed
        and the session frozen. */
    method Drive(ghost start: Store, ghost past: seq<H.Event>, authorised: Session, action: Action)
      returns (r: Result<Session, Error>, performed: bool, ghost events: seq<H.Event>)
      requires Valid() && Since(start, past)
      modifies this
      ensures Valid() && Since(start, events)
      ensures performed ==> r.Ok? && action.id in actions && actions[action.id].status == Succeeded
      ensures r.Ok? && !performed ==> Frozen(r)
    {
      performed := false;
      events := Others(start, past);
      var ok: bool := *;
      var closed;
      if !ok {
        closed, events := ActFinish(start, events, action.id, Broken, Some("driver error"));
        if closed.Err? { r := Err(closed.error); return; }
        events := Others(start, events);
        r, events := TryFreeze(start, events, authorised.revision);
        return;
      }
      closed, events := ActFinish(start, events, action.id, Succeeded, None);
      if closed.Err? { r := Err(closed.error); return; }
      events := Others(start, events);
      r, performed := Ok(authorised), true;
    }

    /** `execute`, among other callers: an unconfirmed action freezes the session, and a failed one
        freezes it after its ledger entry is closed as failed; an action counts as performed only with
        an entry that is new and SUCCEEDED; and no entry completed before is touched. */
    method Execute(s: Session, action: Action, unconfirmed: bool)
      returns (r: Result<Session, Error>, performed: bool, ghost events: seq<H.Event>)
      requires Valid()
      modifies this
      ensures Valid() && Since(old(View()), events) && H.Forward(old(View()), View())
      ensures performed ==> !unconfirmed && r.Ok? && action.id !in old(actions)
      ensures performed ==> action.id in actions && actions[action.id].status == Succeeded
      ensures r.Ok? && !performed ==> Frozen(r)
    {
      ghost var start := View();
      performed, events := false, [];
      events := Others(start, events);
      if unconfirmed {
        r, events := TryFreeze(start, events, s.revision);
      } else {
        r, events := TryAuthorize(start, events, s.revision, action);
        if r.Ok? { r, performed, events := Drive(start, events, r.value, action); }
      }
      H.ReplayForward(start, events);
    }

    /** Nobody has written the session since it was `mine`, or somebody has. */
    ghost predicate MineOrLater(mine: Session)
      reads this
    {
      session.Some? && (session.value == mine || session.value.revision > mine.revision)
    }

    ghost predicate StoredSince(before: map<string, Capture>, capture: Capture)
      reads this
    {
      capture.id !in before && capture.id in captures && captures[capture.id] == capture
    }

    /** The action runs, its ledger entry is closed, and the secret is transferred. */
    method Transfer(ghost start: Store, ghost past: seq<H.Event>, authorised: Session, action: Action)
      returns (ok: bool, ghost events: seq<H.Event>)
      requires Valid() && Since(start, past) && MineOrLater(authorised)
      modifies this
      ensures Valid() && Since(start, events) && MineOrLater(authorised)
    {
      events := Others(start, past);
      var driven, moved: bool := *, *;
      if !driven { return false, events; }
      var done;
      done, events := ActFinish(start, events, action.id, Succeeded, None);
      if done.Err? || !moved { return false, events; }
      events := Others(start, events);
      return true, events;
    }

    /** The guarded part: the transfer, and then the capture is completed; any of it may raise. `mine` is
        the session as this worker last wrote it. */
    method RunCapture(ghost start: Store, ghost past: seq<H.Event>, authorised: Session, action: Action, capture: Capture)
      returns (resumed: Option<Session>, ghost mine: Session, ghost events: seq<H.Event>)
      requires Valid() && Since(start, past) && MineOrLater(authorised)
      modifies this
      ensures Valid() && Since(start, events) && MineOrLater(mine)
      ensures resumed.Some? ==> session == resumed && resumed.value.status in {Running, Takeover}
      ensures resumed.Some? ==> StoredSince(start.captures, capture)
      ensures mine == authorised || StoredSince(start.captures, capture)
    {
      mine, resumed := authorised, None;
      var ok;
      ok, events := Transfer(start, past, authorised, action);
      if !ok { return; }
      H.ReplayForward(start, events);
      var r, lost: bool := Err(Conflict), *;
      r, events := TryCapture(start, events, authorised.revision, capture);
      if r.Err? { return; }
      mine := r.value;
      if !lost { resumed := Some(r.value); }
    }

    /** The handler: the ledger entry is closed as failed, unless it is closed already, and the session
        frozen, unless somebody has written it. */
    method Recover(ghost start: Store, ghost past: seq<H.Event>, ghost mine: Session, authorised: Session, action: Action)
      returns (r: Result<Session, Error>, ghost events: seq<H.Event>)
      requires Valid() && Since(start, past) && MineOrLater(mine)
      modifies this
      ensures Valid() && Since(start, events) && H.Forward(old(View()), View())
      ensures r.Ok? ==> Frozen(r)
      ensures r.Err? ==> MineOrLater(mine)
    {
      events := Others(start, past);
      var closed;
      closed, events := ActFinish(start, events, action.id, Broken, Some("capture error"));
      if closed.Err? && closed.error != Conflict { return Err(closed.error), events; }
      events := Others(start, events);
      r, events := TryFreeze(start, events, authorised.revision);
    }

    /** `execute_protected_capture`, among other callers that do anything between its calls. All that
        happens meanwhile is a sequence of whole operations, none of which takes the session out of
        CAPTURING but by storing a new record or arming both barriers of a PAUSED or TERMINATED session.
        A normal return means that this call's record is stored and the session resumed, or that the
        session is PAUSED with both barriers armed. After an exception the session is as this worker last
        wrote it, if it wrote it, or has been written by others since; and what the worker last wrote is
        CAPTURING with both barriers armed, or came with the record. */
    method ExecuteProtectedCapture(s: Session, action: Action, declared: bool, confirmed: bool, capture: Capture)
      returns (r: Result<Session, Error>, captured: bool, ghost mine: Option<Session>, ghost events: seq<H.Event>)
      requires Valid()
      modifies this
      ensures Valid() && Since(old(View()), events) && H.AllProper(old(View()), events)
      ensures captured ==> r.Ok? && session == Some(r.value) && r.value.status in {Running, Takeover}
      ensures captured ==> StoredSince(old(captures), capture)
      ensures r.Ok? && !captured ==> Frozen(r)
      ensures r.Err? && mine.Some? ==> MineOrLater(mine.value)
      ensures r.Err? && mine.Some? ==> Armed(mine.value) || StoredSince(old(captures), capture)
    {
      ghost var start := View();
      r, captured, mine, events := Err(Conflict), false, None, [];
      if declared {
        r, captured, mine, events := CaptureDeclared(s, action, confirmed, capture);
      }
      H.HistoryLeavesProperly(start, events);
    }

    method CaptureDeclared(s: Session, action: Action, confirmed: bool, capture: Capture)
      returns (r: Result<Session, Error>, captured: bool, ghost mine: Option<Session>, ghost events: seq<H.Event>)
      requires Valid()
      modifies this
      ensures Valid() && Since(old(View()), events)
      ensures captured ==> r.Ok? && session == Some(r.value) && r.value.status in {Running, Takeover}
      ensures captured ==> StoredSince(old(captures), capture)
      ensures r.Ok? && !captured ==> Frozen(r)
      ensures r.Err? && mine.Some? ==> MineOrLater(mine.value)
      ensures r.Err? && mine.Some? ==> Armed(mine.value) || StoredSince(old(captures), capture)
    {
      ghost var start := View();
      captured, mine, events := false, None, [];
      events := Others(start, events);
      if !confirmed {
        r, events := TryFreeze(start, events, s.revision);
        return;
      }
      r, events := TryArm(start, events, s.revision);
      if r.Err? { return; }
      var armed := r.value;
      mine := Some(armed);
      events := Others(start, events);
      r, events := TryAuthorize(start, events, armed.revision, action);
      if r.Err? { return; }
      r, captured, mine, events := FinishDeclared(start, events, r.value, action, capture);
    }

    method FinishDeclared(ghost start: Store, ghost past: seq<H.Event>, authorised: Session, action: Action, capture: Capture)
      returns (r: Result<Session, Error>, captured: bool, ghost mine: Option<Session>, ghost events: seq<H.Event>)
      requires Valid() && Since(start, past) && MineOrLater(authorised) && Armed(authorised)
      modifies this
      ensures Valid() && Since(start, events) && mine.Some?
      ensures captured ==> r.Ok? && session == Some(r.value) && r.value.status in {Running, Takeover}
      ensures captured ==> StoredSince(start.captures, capture)
      ensures r.Ok? && !captured ==> Frozen(r)
      ensures r.Err? ==> MineOrLater(mine.value)
      ensures r.Err? ==> Armed(mine.value) || StoredSince(start.captures, capture)
    {
      var resumed;
      ghost var last;
      resumed, last, events := RunCapture(start, past, authorised, action, capture);
      mine := Some(last);
      if resumed.Some? { return Ok(resumed.value), true, mine, events; }
      captured := false;
      r, events := Recover(start, events, last, authorised, action);
    }
  }
}
