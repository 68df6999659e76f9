/** The organisation's audit log: events chained by hash when they are appended
    (server/core/storage/audit.py, server/core/audit/chain.py) and re-checked when a rotation
    completes (server/coordinator/service.py, `_verify_audit`). */
module AuditChain {
  import opened Wrappers

  type Hash = string

  const GENESIS: Hash := "0000000000000000000000000000000000000000000000000000000000000000"

  datatype Payload = Flag(flag: bool) | Number(number: int) | Text(text: string) | Null

  /** What the writer of an event says. */
  datatype Content = Content(
    organisation: string, kind: string, actor: string, resource: string, run: Option<string>,
    payload: map<string, Payload>, evidence: seq<string>, region: string)

  /** What is hashed. */
  datatype Hashed = Hashed(content: Content, sequence: nat, previous: Hash, occurredAt: int)

  datatype Event = Event(id: string, hashed: Hashed, hash: Hash)

  /** SHA-256 over canonical JSON. */
  type Hasher = Hashed -> Hash

  ghost predicate CollisionFree(h: Hasher) { forall a, b :: h(a) == h(b) ==> a == b }

  function Last(events: seq<Event>): Hash { if events == [] then GENESIS else events[|events| - 1].hash }

  /** Every event carries its position, the hash of the event before it, and its own hash. */
  ghost predicate Chained(h: Hasher, events: seq<Event>) {
    forall i :: 0 <= i < |events| ==> Linked(h, events, i)
  }

  predicate Linked(h: Hasher, events: seq<Event>, i: nat)
    requires i < |events|
  {
    && events[i].hashed.sequence == i
    && events[i].hashed.previous == Last(events[..i])
    && events[i].hash == h(events[i].hashed)
  }

  /** `_verify_audit`, on the events ordered by sequence. */
  method VerifyAudit(h: Hasher, events: seq<Event>) returns (accepted: bool)
    ensures accepted <==> events != [] && Chained(h, events)
  {
    var previous := GENESIS;
    for sequence := 0 to |events|
      invariant previous == Last(events[..sequence])
      invariant forall i :: 0 <= i < sequence ==> Linked(h, events, i)
    {
      var event := events[sequence];
      var expected := h(Hashed(event.hashed.content, sequence, previous, event.hashed.occurredAt));
      if event.hashed.sequence != sequence || event.hashed.previous != previous || event.hash != expected {
        assert !Linked(h, events, sequence);
        return false;
      }
      assert Linked(h, events, sequence);
      previous := event.hash;
    }
    return events != [];
  }

  /** Two accepted logs that share one hash, at whatever positions, agree there and everywhere
      before. */
  lemma {:induction false} SharedHash(h: Hasher, a: seq<Event>, b: seq<Event>, i: nat, j: nat)
    requires CollisionFree(h) && Chained(h, a) && Chained(h, b)
    requires i < |a| && j < |b| && a[i].hash == b[j].hash
    ensures i == j
    ensures forall k :: 0 <= k <= i ==> a[k].hashed == b[k].hashed && a[k].hash == b[k].hash
    decreases i
  {
    assert Linked(h, a, i) && Linked(h, b, j);
    assert h(a[i].hashed) == h(b[j].hashed);
    if i > 0 {
      assert Last(a[..i]) == a[i - 1].hash && Last(b[..j]) == b[j - 1].hash;
      SharedHash(h, a, b, i - 1, j - 1);
    }
  }

  /** The last hash commits to the whole log: its length and every hashed field of every event. */
  lemma LastHashCommits(h: Hasher, a: seq<Event>, b: seq<Event>)
    requires CollisionFree(h) && Chained(h, a) && Chained(h, b)
    requires a != [] && b != [] && Last(a) == Last(b)
    ensures |a| == |b| && forall k :: 0 <= k < |a| ==> a[k].hashed == b[k].hashed && a[k].hash == b[k].hash
  {
    SharedHash(h, a, b, |a| - 1, |b| - 1);
  }

  /** So no accepted log rewrites, drops, adds or reorders an event under a hash seen before. */
  lemma HistoryIsFixed(h: Hasher, before: seq<Event>, after: seq<Event>)
    requires CollisionFree(h) && Chained(h, before) && Chained(h, after) && before != []
    requires exists j :: 0 <= j < |after| && after[j].hash == Last(before)
    ensures |before| <= |after|
    ensures forall k :: 0 <= k < |before| ==> after[k].hashed == before[k].hashed && after[k].hash == before[k].hash
  {
    var j :| 0 <= j < |after| && after[j].hash == Last(before);
    SharedHash(h, before, after, |before| - 1, j);
  }

  // ------------------------------------------------------------------- appending

  /** The log and its head document. */
  datatype Log = Log(events: seq<Event>, head: Option<(nat, Hash)>)

  const EMPTY := Log([], None)

  datatype Command = Command(id: string, content: Content, occurredAt: int)

  datatype Error = Conflict | HeadMissing

  predicate Holds(events: seq<Event>, id: string) { exists i :: 0 <= i < |events| && events[i].id == id }

  function Stored(events: seq<Event>, id: string): (event: Event)
    requires Holds(events, id)
    ensures event in events && event.id == id
  {
    if events[0].id == id then events[0] else Stored(events[1..], id)
  }

  function NextEvent(h: Hasher, command: Command, sequence: nat, previous: Hash): Event {
    var hashed := Hashed(command.content, sequence, previous, command.occurredAt);
    Event(command.id, hashed, h(hashed))
  }

  /** One append transaction. An event id that is already used answers with the stored event if it
      says the same (whenever it occurred), and conflicts otherwise. */
  function Append(h: Hasher, log: Log, command: Command): (Log, Result<Event, Error>) {
    if Holds(log.events, command.id) then
      var current := Stored(log.events, command.id);
      if current.hashed.content == command.content then (log, Ok(current)) else (log, Err(Conflict))
    else if log.head.Some? then
      var event := NextEvent(h, command, log.head.value.0 + 1, log.head.value.1);
      (Log(log.events + [event], Some((event.hashed.sequence, event.hash))), Ok(event))
    else if log.events != [] then (log, Err(HeadMissing))
    else
      var event := NextEvent(h, command, 0, GENESIS);
      (Log([event], Some((0, event.hash))), Ok(event))
  }

  function AppendAll(h: Hasher, log: Log, commands: seq<Command>): Log
    decreases |commands|
  {
    if commands == [] then log else AppendAll(h, Append(h, log, commands[0]).0, commands[1..])
  }

  ghost predicate Distinct(events: seq<Event>) {
    forall i, j :: 0 <= i < j < |events| ==> events[i].id != events[j].id
  }

  ghost predicate Valid(h: Hasher, log: Log) {
    && Chained(h, log.events) && Distinct(log.events)
    && log.head == if log.events == [] then None else Some((|log.events| - 1, Last(log.events)))
  }

  /** An append keeps the chain and everything already on it, and answers with an event of the log
      that says what was asked. */
  lemma AppendKeeps(h: Hasher, log: Log, command: Command)
    requires Valid(h, log)
    ensures var (log', answer) := Append(h, log, command);
      && Valid(h, log') && log.events <= log'.events
      && |log'.events| == |log.events| + (if Holds(log.events, command.id) then 0 else 1)
      && (answer.Ok? <==> !Holds(log.events, command.id) ||
                          Stored(log.events, command.id).hashed.content == command.content)
      && (answer.Ok? ==> answer.value in log'.events && answer.value.id == command.id &&
                         answer.value.hashed.content == command.content)
  {
    if !Holds(log.events, command.id) {
      AppendsNext(h, log, command);
    }
  }

  /** A new event links to the log's last one. */
  lemma AppendsNext(h: Hasher, log: Log, command: Command)
    requires Valid(h, log) && !Holds(log.events, command.id)
    ensures var event := NextEvent(h, command, |log.events|, Last(log.events));
      && Append(h, log, command) == (Log(log.events + [event], Some((|log.events|, event.hash))), Ok(event))
      && Valid(h, Append(h, log, command).0)
  {
    var n := |log.events|;
    var event := NextEvent(h, command, n, Last(log.events));
    var events := log.events + [event];
    assert [event] == [] + [event];
    assert Append(h, log, command) == (Log(events, Some((n, event.hash))), Ok(event));
    forall i | 0 <= i <= n ensures Linked(h, events, i) {
      assert events[..i] == log.events[..i];
      assert i < n ==> Linked(h, log.events, i);
    }
  }

  lemma {:induction false} StoredIs(events: seq<Event>, event: Event)
    requires Distinct(events) && event in events
    ensures Holds(events, event.id) && Stored(events, event.id) == event
    decreases |events|
  {
    if events[0] != event {
      var i :| 0 <= i < |events| && events[i] == event;
      assert events[0].id != events[i].id;
      assert event == events[1..][i - 1];
      StoredIs(events[1..], event);
    }
  }

  /** Repeating an append changes nothing and gets the same event. */
  lemma AppendTwice(h: Hasher, log: Log, command: Command)
    requires Valid(h, log) && Append(h, log, command).1.Ok?
    ensures Append(h, Append(h, log, command).0, command) == Append(h, log, command)
  {
    AppendKeeps(h, log, command);
    var (log', answer) := Append(h, log, command);
    StoredIs(log'.events, answer.value);
  }

  /** Whatever was appended, in whatever order and however often, the log that results is one that
      verification accepts. */
  lemma {:induction false} AppendedIsChained(h: Hasher, log: Log, commands: seq<Command>)
    requires Valid(h, log)
    ensures Valid(h, AppendAll(h, log, commands)) && log.events <= AppendAll(h, log, commands).events
    decreases |commands|
  {
    if commands != [] {
      AppendKeeps(h, log, commands[0]);
      AppendedIsChained(h, Append(h, log, commands[0]).0, commands[1..]);
    }
  }

  function Commands(events: seq<Event>): seq<Command> {
    if events == [] then []
    else
      var e := events[|events| - 1];
      Commands(events[..|events| - 1]) + [Command(e.id, e.hashed.content, e.hashed.occurredAt)]
  }

  lemma {:induction false} AppendAllSnoc(h: Hasher, log: Log, commands: seq<Command>, command: Command)
    ensures AppendAll(h, log, commands + [command]) == Append(h, AppendAll(h, log, commands), command).0
    decreases |commands|
  {
    if commands == [] {
      assert (commands + [command])[1..] == [];
    } else {
      assert (commands + [command])[1..] == commands[1..] + [command];
      AppendAllSnoc(h, Append(h, log, commands[0]).0, commands[1..], command);
    }
  }

  /** And only such logs: a log with distinct ids is chained exactly if appending its own events, one
      by one, writes it. */
  lemma {:induction false} ChainedIsAppended(h: Hasher, events: seq<Event>)
    requires Distinct(events)
    ensures Chained(h, events) <==> AppendAll(h, EMPTY, Commands(events)).events == events
    decreases |events|
  {
    if AppendAll(h, EMPTY, Commands(events)).events == events {
      AppendedIsChained(h, EMPTY, Commands(events));
    }
    if Chained(h, events) { Rebuild(h, events); }
  }

  lemma {:induction false} Rebuild(h: Hasher, events: seq<Event>)
    requires Distinct(events) && Chained(h, events)
    ensures AppendAll(h, EMPTY, Commands(events)).events == events
    decreases |events|
  {
    if events != [] {
      var n := |events| - 1;
      var start, e := events[..n], events[n];
      forall i | 0 <= i < n ensures Linked(h, start, i) {
        assert Linked(h, events, i) && start[..i] == events[..i];
      }
      Rebuild(h, start);
      var command := Command(e.id, e.hashed.content, e.hashed.occurredAt);
      AppendAllSnoc(h, EMPTY, Commands(start), command);
      AppendedIsChained(h, EMPTY, Commands(start));
      assert Linked(h, events, n);
      assert !Holds(start, e.id);
      assert events == start + [e];
    }
  }
}
