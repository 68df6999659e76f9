/** The rollout stage (server/coordinator/service.py): its schedule, its request identifiers, and one
    execution of it. */
module Rollout {
  import opened Wrappers

  datatype Deployment = Deployment(
    bindingId: string, connectionId: string, service: string, candidate: string, rollback: string)

  /** What the stage does, one after the other. */
  datatype Item = Shift(percent: nat, deployment: Deployment) | Report(percent: nat)

  /** The digest of these three parts, taken as collision-free. */
  datatype RequestId = RequestId(runId: string, stepId: string, fence: nat)

  function Shifts(percent: nat, deployments: seq<Deployment>): (items: seq<Item>)
    ensures |items| == |deployments|
    ensures forall j :: 0 <= j < |items| ==> items[j] == Shift(percent, deployments[j])
  {
    seq(|deployments|, j requires 0 <= j < |deployments| => Shift(percent, deployments[j]))
  }

  /** Each percentage in turn: every deployment, then a report. */
  function Schedule(percents: seq<nat>, deployments: seq<Deployment>): seq<Item> {
    if percents == [] then []
    else
      var last := percents[|percents| - 1];
      Schedule(percents[..|percents| - 1], deployments) + Shifts(last, deployments) + [Report(last)]
  }

  // ------------------------------------------------------ request identifiers

  function Digit(d: nat): char
    requires d < 10
  {
    "0123456789"[d]
  }

  function Decimal(n: nat): string {
    if n < 10 then [Digit(n)] else Decimal(n / 10) + [Digit(n % 10)]
  }

  function StepId(bindingId: string, percent: nat): string {
    "rollout_" + bindingId + "_" + Decimal(percent)
  }

  lemma {:induction false} DecimalDigits(n: nat)
    ensures |Decimal(n)| > 0 && '_' !in Decimal(n)
  {
    if n >= 10 {
      DecimalDigits(n / 10);
    }
  }

  lemma DecimalParts(n: nat)
    ensures var text := Decimal(n);
      && |text| > 0 && text[|text| - 1] == Digit(n % 10)
      && text[..|text| - 1] == if n < 10 then "" else Decimal(n / 10)
  {
  }

  lemma {:induction false} DecimalInjective(n: nat, m: nat)
    requires Decimal(n) == Decimal(m)
    ensures n == m
  {
    DecimalParts(n);
    DecimalParts(m);
    DecimalDigits(n / 10);
    DecimalDigits(m / 10);
    assert n % 10 == m % 10;
    if n >= 10 && m >= 10 {
      DecimalInjective(n / 10, m / 10);
    }
  }

  lemma EarlierSplit(a: string, x: string, b: string, y: string)
    requires a + "_" + x == b + "_" + y && |a| < |b|
    ensures '_' in x
  {
    assert (b + "_" + y)[|b|] == '_';
    assert (a + "_" + x)[|b|] == x[|b| - |a| - 1];
  }

  /** A separator that the second part cannot contain makes the split unique. */
  lemma SplitUnique(a: string, x: string, b: string, y: string)
    requires a + "_" + x == b + "_" + y && '_' !in x && '_' !in y
    ensures a == b && x == y
  {
    if |a| < |b| { EarlierSplit(a, x, b, y); }
    if |b| < |a| { EarlierSplit(b, y, a, x); }
    var s := a + "_" + x;
    assert a == s[..|a|] && b == s[..|a|] && x == s[|a| + 1..] && y == s[|a| + 1..];
  }

  /** Two shifts share a step identifier only if they are of the same binding and percentage,
      although binding identifiers may contain underscores and digits. */
  lemma StepIdInjective(b: string, p: nat, c: string, q: nat)
    requires StepId(b, p) == StepId(c, q)
    ensures b == c && p == q
  {
    DecimalDigits(p);
    DecimalDigits(q);
    SplitUnique("rollout_" + b, Decimal(p), "rollout_" + c, Decimal(q));
    assert b == ("rollout_" + b)[8..] && c == ("rollout_" + c)[8..];
    DecimalInjective(p, q);
  }

  function IdOf(runId: string, fence: nat, item: Item): RequestId
    requires item.Shift?
  {
    RequestId(runId, StepId(item.deployment.bindingId, item.percent), fence)
  }

  ghost predicate Increasing(percents: seq<nat>) {
    forall i, j :: 0 <= i < j < |percents| ==> percents[i] < percents[j]
  }

  ghost predicate DistinctBindings(deployments: seq<Deployment>) {
    forall i, j :: 0 <= i < j < |deployments| ==> deployments[i].bindingId != deployments[j].bindingId
  }

  lemma {:induction false} ScheduleItems(percents: seq<nat>, deployments: seq<Deployment>)
    ensures forall k :: 0 <= k < |Schedule(percents, deployments)| ==>
        Schedule(percents, deployments)[k].percent in percents
  {
    if percents != [] {
      var front := percents[..|percents| - 1];
      ScheduleItems(front, deployments);
      assert forall p :: p in front ==> p in percents;
    }
  }

  /** No two shifts of a schedule share a request identifier. */
  lemma {:induction false} ScheduleIdsDistinct(
    percents: seq<nat>, deployments: seq<Deployment>, runId: string, fence: nat, a: nat, b: nat)
    requires Increasing(percents) && DistinctBindings(deployments)
    requires a < b < |Schedule(percents, deployments)|
    requires Schedule(percents, deployments)[a].Shift? && Schedule(percents, deployments)[b].Shift?
    ensures IdOf(runId, fence, Schedule(percents, deployments)[a])
         != IdOf(runId, fence, Schedule(percents, deployments)[b])
  {
    var items := Schedule(percents, deployments);
    var front, last := percents[..|percents| - 1], percents[|percents| - 1];
    var rest := Schedule(front, deployments);
    ScheduleItems(front, deployments);
    assert items == rest + Shifts(last, deployments) + [Report(last)];
    assert a < |rest| ==> rest[a].percent in front;
    assert last !in front;
    if b < |rest| {
      ScheduleIdsDistinct(front, deployments, runId, fence, a, b);
    } else if IdOf(runId, fence, items[a]) == IdOf(runId, fence, items[b]) {
      StepIdInjective(items[a].deployment.bindingId, items[a].percent,
                      items[b].deployment.bindingId, items[b].percent);
    }
  }

  // ------------------------------------------------------------ one execution

  datatype Outcome = Advanced | Halted

  /** What happens at one item: a crash before its call, a shift that does not succeed or a report
      that does not pass, or success. */
  datatype Event = Crash | Refuse | Accept

  ghost predicate FirstStop(events: nat -> Event, n: nat) {
    events(n) != Accept && forall m: nat :: m < n ==> events(m) == Accept
  }

  lemma {:induction false} ScheduleGrows(percents: seq<nat>, deployments: seq<Deployment>, i: nat)
    requires i <= |percents|
    ensures Schedule(percents[..i], deployments) <= Schedule(percents, deployments)
    decreases |percents|
  {
    if i < |percents| {
      ScheduleGrows(percents[..|percents| - 1], deployments, i);
      assert percents[..|percents| - 1][..i] == percents[..i];
    } else {
      assert percents[..i] == percents;
    }
  }

  ghost predicate StopsAt(schedule: seq<Item>, events: nat -> Event, n: nat, trace: seq<Item>) {
    && n < |schedule| && FirstStop(events, n)
    && trace == if events(n) == Crash then schedule[..n] else schedule[..n + 1]
  }

  ghost predicate Stopped(schedule: seq<Item>, events: nat -> Event, trace: seq<Item>) {
    exists n: nat :: StopsAt(schedule, events, n, trace)
  }

  lemma StoppedWithin(part: seq<Item>, schedule: seq<Item>, events: nat -> Event, trace: seq<Item>)
    requires part <= schedule && Stopped(part, events, trace)
    ensures Stopped(schedule, events, trace)
  {
    var n: nat :| StopsAt(part, events, n, trace);
    assert part[..n] == schedule[..n] && part[..n + 1] == schedule[..n + 1];
    assert StopsAt(schedule, events, n, trace);
  }

  ghost predicate Accepted(events: nat -> Event, count: nat) { forall m: nat :: m < count ==> events(m) == Accept }

  /** The inner loop: one percentage, deployment by deployment. */
  method ShiftAll(percent: nat, deployments: seq<Deployment>, events: nat -> Event, before: seq<Item>)
    returns (trace: seq<Item>, ok: bool)
    requires Accepted(events, |before|)
    ensures ok ==> trace == before + Shifts(percent, deployments) && Accepted(events, |trace|)
    ensures !ok ==> Stopped(before + Shifts(percent, deployments), events, trace)
  {
    trace := before;
    ghost var part := before + Shifts(percent, deployments);
    for j := 0 to |deployments|
      invariant trace == part[..|before| + j] && Accepted(events, |trace|)
    {
      var event := events(|trace|);
      if event != Crash { trace := trace + [Shift(percent, deployments[j])]; }
      if event != Accept {
        assert StopsAt(part, events, |before| + j, trace);
        return trace, false;
      }
    }
    return trace, true;
  }

  /** `_rollout` from one run snapshot, whatever happens at each item. It issues the schedule in
      order up to and including the first item that is refused, or up to where it crashes; it
      promotes exactly if there is a schedule and the whole of it is accepted. */
  method Execute(percents: seq<nat>, deployments: seq<Deployment>, events: nat -> Event)
    returns (trace: seq<Item>, outcome: Outcome)
    ensures deployments == [] || percents == [] ==> trace == []
    ensures outcome == Advanced <==>
      deployments != [] && percents != [] && Accepted(events, |Schedule(percents, deployments)|)
    ensures outcome == Advanced ==> trace == Schedule(percents, deployments)
    ensures outcome == Halted && deployments != [] && percents != [] ==>
      Stopped(Schedule(percents, deployments), events, trace)
  {
    trace, outcome := [], Halted;
    if deployments == [] || percents == [] { return; }
    ghost var schedule := Schedule(percents, deployments);
    assert percents[..|percents|] == percents;
    for i := 0 to |percents|
      invariant trace == Schedule(percents[..i], deployments) && Accepted(events, |trace|)
    {
      ghost var before := trace;
      var ok: bool;
      trace, ok := ShiftAll(percents[i], deployments, events, trace);
      ghost var shifted := before + Shifts(percents[i], deployments);
      SchedulePart(percents, deployments, i);
      if !ok {
        StoppedWithin(shifted, schedule, events, trace);
        return;
      }
      var event := events(|trace|);
      if event != Crash { trace := trace + [Report(percents[i])]; }
      if event != Accept {
        assert StopsAt(shifted + [Report(percents[i])], events, |shifted|, trace);
        StoppedWithin(shifted + [Report(percents[i])], schedule, events, trace);
        return;
      }
    }
    outcome := Advanced;
  }

  lemma SchedulePart(percents: seq<nat>, deployments: seq<Deployment>, i: nat)
    requires i < |percents|
    ensures var part := Schedule(percents[..i], deployments) + Shifts(percents[i], deployments);
      && part + [Report(percents[i])] == Schedule(percents[..i + 1], deployments)
      && part + [Report(percents[i])] <= Schedule(percents, deployments)
      && part <= Schedule(percents, deployments)
  {
    ScheduleGrows(percents, deployments, i + 1);
    assert percents[..i + 1][..i] == percents[..i];
  }

  /** So executions from one snapshot never issue different calls at the same point: whatever
      happens to either, one trace is a prefix of the other. */
  lemma ExecutionsAgree(schedule: seq<Item>, events: nat -> Event, trace: seq<Item>,
                        events': nat -> Event, trace': seq<Item>)
    requires trace == schedule || Stopped(schedule, events, trace)
    requires trace' == schedule || Stopped(schedule, events', trace')
    ensures trace <= schedule && trace' <= schedule && (trace <= trace' || trace' <= trace)
  {
  }
}
