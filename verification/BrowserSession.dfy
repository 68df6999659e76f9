/** The stored browser session, its action ledger and capture records, and the operations of
    server/browser/service.py as they act on them through server/browser/storage.py. */
module BrowserSession {
  import opened Wrappers

  type Time = int

  datatype Status =
    | Provisioning | Ready | Running | Paused | Takeover | Capturing | Complete | Failed | Terminated

  datatype Kind = Navigate | Click | Type | Select | Scroll | Key | Wait

  datatype Policy = Policy(allowed: set<Kind>, maxSteps: nat)

  /** `settings` stands for the connection, playbook and secret fields, `worker` for the VM's. */
  datatype Session = Session(
    id: string,
    status: Status,
    settings: string,
    policy: Policy,
    fence: int,
    stepCount: nat,
    modelPaused: bool,
    recordingPaused: bool,
    subject: Option<string>,
    worker: Option<string>,
    expiresAt: Time,
    updatedAt: Time,
    terminatedAt: Option<Time>,
    revision: nat)
  {
    /** The stored-document validator; reading a document that fails it raises. */
    predicate Valid() {
      && stepCount <= policy.maxSteps
      && (status == Capturing ==> modelPaused && recordingPaused)
      && (status == Terminated ==> terminatedAt.Some?)
    }

    /** Both barriers are down in RUNNING and armed everywhere else. */
    predicate Barred() { modelPaused == recordingPaused == (status != Running) }
  }

  datatype Action = Action(
    id: string, sessionId: string, kind: Kind, value: Option<string>, isProtected: bool, fence: int)

  datatype ActionStatus = Authorized | Succeeded | Broken

  datatype Record = Record(
    action: Action, status: ActionStatus, error: Option<string>, authorisedAt: Time, completedAt: Option<Time>)
  {
    predicate Valid() {
      && (status != Authorized <==> completedAt.Some?)
      && (status == Broken ==> error.Some? && error.value != "")
    }
  }

  datatype Capture = Capture(id: string, sessionId: string, reference: string)

  datatype Op =
    | Attach(worker: string)
    | Start
    | RebindFence(fence: int)
    | ArmCapture
    | ArmHumanCapture
    | CompleteCapture(capture: Capture)
    | Freeze
    | TakeOver(subject: string)
    | ReleaseTakeover(subject: string)
    | Authorize(action: Action)
    | Reprovision(settings: string, policy: Policy, fence: int, expiresAt: Time)
    | Terminate

  datatype Error = NotFound | Unreadable | Conflict | Expired

  /** The documents, with three history variables no operation reads: `log`, every action ever
      authorised; `mark`, its length when the session was last (re)provisioned; `base`, the step
      count it had then. */
  datatype Store = Store(
    session: Option<Session>,
    actions: map<string, Record>,
    captures: map<string, Capture>,
    log: seq<Action>,
    mark: nat,
    base: nat)

  // ------------------------------------------------------------- operations

  predicate Accepts(s: Session, op: Op) {
    match op
    case Attach(_) => s.status == Provisioning
    case Start => s.status in {Ready, Paused}
    case RebindFence(fence) => s.status in {Ready, Paused} && fence > s.fence
    case ArmCapture => s.status == Running
    case ArmHumanCapture => s.status in {Takeover, Paused}
    case CompleteCapture(_) => s.status == Capturing
    case Freeze => true
    case TakeOver(_) => s.status in {Running, Paused}
    case ReleaseTakeover(subject) => s.status == Takeover && s.subject == Some(subject)
    case Authorize(action) =>
      && (s.status in {Running, Takeover}
          || (s.status == Capturing && action.isProtected && s.modelPaused && s.recordingPaused))
      && action.sessionId == s.id && action.fence == s.fence
      && action.kind in s.policy.allowed
      && !(s.status == Takeover && action.isProtected)
    case Reprovision(_, _, _, _) => s.status == Terminated
    case Terminate => true
  }

  function Barrier(s: Session, status: Status, armed: bool): Session {
    s.(status := status, modelPaused := armed, recordingPaused := armed)
  }

  function Edited(s: Session, op: Op, now: Time): Session {
    match op
    case Attach(worker) => s.(status := Ready, worker := Some(worker))
    case Start => Barrier(s, Running, false)
    case RebindFence(fence) => s.(fence := fence)
    case ArmCapture => Barrier(s, Capturing, true)
    case ArmHumanCapture => Barrier(s, Capturing, true)
    case CompleteCapture(_) =>
      Barrier(s, if s.subject.Some? then Takeover else Running, s.subject.Some?)
    case Freeze => Barrier(s, Paused, true)
    case TakeOver(subject) => Barrier(s, Takeover, true).(subject := Some(subject))
    case ReleaseTakeover(_) => Barrier(s, Paused, true).(subject := None)
    case Authorize(_) => s.(stepCount := s.stepCount + 1)
    case Reprovision(settings, policy, fence, expiresAt) =>
      Barrier(s, Provisioning, true).(settings := settings, policy := policy, fence := fence,
        worker := None, terminatedAt := None, stepCount := 0, subject := None, expiresAt := expiresAt)
    case Terminate => Barrier(s, Terminated, true).(terminatedAt := Some(now))
  }

  function Changed(s: Session, op: Op, now: Time): Session {
    Edited(s, op, now).(updatedAt := now, revision := s.revision + 1)
  }

  function Read(stored: Option<Session>): Result<Session, Error> {
    if stored.None? then Err(NotFound)
    else if !stored.value.Valid() then Err(Unreadable)
    else Ok(stored.value)
  }

  /** The service's half of an operation: read, check, compute the changed session. */
  function Prepared(stored: Option<Session>, op: Op, revision: nat, now: Time): Result<Session, Error> {
    var r := Read(stored);
    if r.Err? then r
    else if r.value.revision != revision then Err(Conflict)
    else if !op.Reprovision? && now >= r.value.expiresAt then Err(Expired)
    else if !Accepts(r.value, op) then Err(Conflict)
    else r
  }

  /** Typed text never reaches the ledger. */
  function Recorded(action: Action): Action {
    if action.kind == Type then action.(value := Some("<redacted>")) else action
  }

  /** The storage transaction of an operation computed from `current` at `now`. */
  function Committed(st: Store, op: Op, current: Session, now: Time): Result<Store, Error> {
    var r := Read(st.session);
    var changed := Changed(current, op, now);
    if r.Err? then Err(r.error)
    else match op
      case Authorize(action) =>
        if r.value != current then Err(Conflict)
        else if action.id in st.actions then Err(Conflict)
        else Ok(st.(session := Some(changed),
                    actions := st.actions[action.id :=
                      Record(Recorded(action), Authorized, None, now, None)],
                    log := st.log + [Recorded(action)]))
      case CompleteCapture(capture) =>
        if r.value != current then Err(Conflict)
        else if capture.id in st.captures then Err(Conflict)
        else Ok(st.(session := Some(changed), captures := st.captures[capture.id := capture]))
      case Reprovision(_, _, _, _) =>
        if r.value.revision != current.revision then Err(Conflict)
        else Ok(st.(session := Some(changed), mark := |st.log|, base := 0))
      case _ =>
        if r.value.revision != current.revision then Err(Conflict)
        else Ok(st.(session := Some(changed)))
  }

  /** An operation with nobody in between. */
  function Performed(st: Store, op: Op, revision: nat, now: Time): Result<Store, Error> {
    var r := Prepared(st.session, op, revision, now);
    if r.Err? then Err(r.error) else Committed(st, op, r.value, now)
  }

  function Created(st: Store, session: Session): Result<Store, Error> {
    if session.status != Provisioning || !session.modelPaused || !session.recordingPaused then Err(Conflict)
    else if st.session.Some? then
      (if Read(st.session).Err? then Err(Unreadable)
       else if st.session == Some(session) then Ok(st)
       else Err(Conflict))
    else Ok(st.(session := Some(session), mark := |st.log|, base := session.stepCount))
  }

  function FinishedAction(st: Store, id: string, status: ActionStatus, error: Option<string>, now: Time)
    : Result<Store, Error>
  {
    if id !in st.actions then Err(NotFound)
    else
      var r := st.actions[id];
      if !r.Valid() then Err(Unreadable)
      else if r.status != Authorized then
        (if r.status == status && r.error == error then Ok(st) else Err(Conflict))
      else
        Ok(st.(actions := st.actions[id :=
             r.(status := status, error := error, completedAt := Some(now))]))
  }

  // ---------------------------------------------------------------- invariant

  predicate Ids(log: seq<Action>, ids: set<string>) {
    && (forall i :: 0 <= i < |log| ==> log[i].id in ids)
    && (forall id :: id in ids ==> exists i :: 0 <= i < |log| && log[i].id == id)
  }

  /** The ledger lists every authorised action once. */
  ghost predicate LedgerOk(log: seq<Action>, actions: map<string, Record>) {
    && Ids(log, actions.Keys)
    && (forall i, j :: 0 <= i < j < |log| ==> log[i].id != log[j].id)
    && (forall i :: 0 <= i < |log| && log[i].id in actions ==> actions[log[i].id].action == log[i])
  }

  /** The actions since the last (re)provisioning: counted by the session, fences in order. */
  ghost predicate SpanOk(s: Session, log: seq<Action>, mark: nat, base: nat) {
    && mark <= |log| && s.stepCount == base + |log| - mark
    && (forall i :: mark <= i < |log| ==> log[i].fence <= s.fence)
    && (forall i, j :: mark <= i < j < |log| ==> log[i].fence <= log[j].fence)
  }

  ghost predicate SessionOk(s: Session) {
    && s.Barred()
    && (s.status == Terminated ==> s.terminatedAt.Some?)
    && s.status !in {Complete, Failed}
  }

  /** What every reachable store satisfies. */
  ghost predicate Inv(st: Store) {
    && LedgerOk(st.log, st.actions)
    && (st.session.Some? ==>
          SessionOk(st.session.value) && SpanOk(st.session.value, st.log, st.mark, st.base))
  }

  lemma {:induction false} LogGrows(log: seq<Action>, actions: map<string, Record>, record: Record)
    requires LedgerOk(log, actions) && record.action.id !in actions
    ensures LedgerOk(log + [record.action], actions[record.action.id := record])
  {
    var grown := log + [record.action];
    assert grown[|log|] == record.action;
    forall id | id in actions.Keys ensures exists i :: 0 <= i < |grown| && grown[i].id == id {
      var i :| 0 <= i < |log| && log[i].id == id;
      assert grown[i].id == id;
    }
  }

  lemma SpanGrows(s: Session, log: seq<Action>, mark: nat, base: nat, action: Action)
    requires SpanOk(s, log, mark, base) && action.fence == s.fence
    ensures SpanOk(s.(stepCount := s.stepCount + 1), log + [action], mark, base)
  {}

  lemma SpanDependsOn(s: Session, t: Session, log: seq<Action>, mark: nat, base: nat)
    requires SpanOk(s, log, mark, base) && t.stepCount == s.stepCount && t.fence >= s.fence
    ensures SpanOk(t, log, mark, base)
  {}

  /** Every operation keeps the barriers, the ledger and the step count in line: both barriers are
      armed exactly outside RUNNING, the step count is the number of actions authorised since the
      last (re)provisioning, no action identifier is authorised twice, and their fences never
      decrease within that span. */
  lemma OperationInv(st: Store, op: Op, revision: nat, now: Time)
    requires Inv(st) && Performed(st, op, revision, now).Ok?
    ensures Inv(Performed(st, op, revision, now).value)
  {
    var s := st.session.value;
    var t := Changed(s, op, now);
    assert SessionOk(t);
    if op.Authorize? {
      var action := Recorded(op.action);
      LogGrows(st.log, st.actions, Record(action, Authorized, None, now, None));
      SpanGrows(s, st.log, st.mark, st.base, action);
      SpanDependsOn(s.(stepCount := s.stepCount + 1), t, st.log + [action], st.mark, st.base);
    } else if !op.Reprovision? {
      SpanDependsOn(s, t, st.log, st.mark, st.base);
    }
  }

  lemma CreateInv(st: Store, session: Session)
    requires Inv(st) && Created(st, session).Ok? && (st.session.None? ==> session.Valid())
    ensures Inv(Created(st, session).value)
  {}

  lemma FinishInv(st: Store, id: string, status: ActionStatus, error: Option<string>, now: Time)
    requires Inv(st) && FinishedAction(st, id, status, error, now).Ok?
    ensures Inv(FinishedAction(st, id, status, error, now).value)
  {
    var st' := FinishedAction(st, id, status, error, now).value;
    assert st'.actions.Keys == st.actions.Keys;
  }

  lemma FinishedIs(st: Store, id: string, status: ActionStatus, error: Option<string>, now: Time)
    ensures var r := FinishedAction(st, id, status, error, now);
      r.Ok? ==>
        && id in st.actions && id in r.value.actions && r.value.actions[id].status == status
        && r.value.actions == st.actions[id := r.value.actions[id]] && r.value == st.(actions := r.value.actions)
  {
  }

  // --------------------------------------------------------------- properties

  /** A session leaves CAPTURING only by storing a new capture record, or for PAUSED or TERMINATED
      with both barriers armed. */
  lemma LeavingCapture(st: Store, op: Op, revision: nat, now: Time)
    requires Inv(st) && st.session.Some? && st.session.value.status == Capturing
    requires Performed(st, op, revision, now).Ok?
    ensures var st' := Performed(st, op, revision, now).value;
      st'.session.Some? && var s := st'.session.value;
      || s.status == Capturing
      || (op.CompleteCapture? && op.capture.id !in st.captures
          && st'.captures == st.captures[op.capture.id := op.capture])
      || (s.status in {Paused, Terminated} && s.modelPaused && s.recordingPaused)
  {}

  /** A ledger entry is written once: authorised with its first write, completed with its second,
      and never changed after that, whatever operation or completion follows. */
  lemma LedgerWriteOnce(st: Store, op: Op, revision: nat, now: Time, id: string,
                        other: string, status: ActionStatus, error: Option<string>)
    requires id in st.actions
    ensures var r := Performed(st, op, revision, now);
      r.Ok? ==> id in r.value.actions && r.value.actions[id] == st.actions[id]
    ensures var r := FinishedAction(st, other, status, error, now);
      r.Ok? && (st.actions[id].status != Authorized || other != id) ==>
        id in r.value.actions && r.value.actions[id] == st.actions[id]
    ensures var r := FinishedAction(st, other, status, error, now);
      r.Ok? ==> id in r.value.actions && r.value.actions[id].action == st.actions[id].action
  {}

  /** Each committed session write advances the revision by one and keeps the identity. */
  lemma RevisionAdvances(st: Store, op: Op, revision: nat, now: Time)
    requires Performed(st, op, revision, now).Ok?
    ensures var st' := Performed(st, op, revision, now).value;
      && st.session.Some? && st'.session.Some?
      && st.session.value.revision == revision
      && st'.session.value.revision == revision + 1
      && st'.session.value.id == st.session.value.id
  {}

  /** The step budget. An authorised action is the only operation that can leave a session behind
      that no longer passes its own validator, and it does exactly when the budget was already
      used up: nothing checks the budget before the write. */
  lemma BudgetOverrun(st: Store, op: Op, revision: nat, now: Time)
    requires Inv(st) && Performed(st, op, revision, now).Ok?
    ensures var s, s' := st.session.value, Performed(st, op, revision, now).value.session.value;
      s'.Valid() <==> !(op.Authorize? && s.stepCount == s.policy.maxSteps)
  {}

  /** And such a session is lost: no operation, not even terminate or reprovision, is accepted on it
      ever again. */
  lemma OverrunIsForGood(st: Store, op: Op, revision: nat, now: Time, session: Session)
    requires st.session.Some? && !st.session.value.Valid()
    ensures Performed(st, op, revision, now).Err?
    ensures Created(st, session).Err?
  {}
}
