/** One-time use of capabilities in a browser worker (server/browser/workerapp.py, `_authorise` and
    `_consume_nonce`): a cache of consumed nonces that forgets them when they expire. The clock is
    read twice, once to verify the token and once to consume its nonce. */
module NonceCache {

  datatype Token = Token(nonce: string, expires: int)

  /** One call: the token, whether its claims bind the request, and the two clock readings. */
  datatype Call = Call(token: Token, bound: bool, verified: int, consumed: int)

  /** The cache, and what a worker that never forgets would know. */
  datatype State = State(seen: map<string, int>, accepted: set<Token>, clock: int)

  const START := State(map[], {}, 0)

  function Prune(seen: map<string, int>, now: int): map<string, int> {
    map nonce | nonce in seen && seen[nonce] > now :: seen[nonce]
  }

  /** `_authorise` reaches `_consume_nonce`. */
  predicate Verifies(call: Call) { call.verified < call.token.expires && call.bound }

  predicate Answer(s: State, call: Call) {
    Verifies(call) && call.token.nonce !in Prune(s.seen, call.consumed)
  }

  function Apply(s: State, call: Call): State {
    if !Verifies(call) then s
    else
      var kept := Prune(s.seen, call.consumed);
      if call.token.nonce in kept then State(kept, s.accepted, call.consumed)
      else State(kept[call.token.nonce := call.token.expires], s.accepted + {call.token}, call.consumed)
  }

  /** The clock never goes back, within a call or between calls. */
  predicate Timely(s: State, call: Call) { s.clock <= call.verified <= call.consumed }

  predicate Legal(s: State, calls: seq<Call>)
    decreases |calls|
  {
    calls == [] || (Timely(s, calls[0]) && Legal(Apply(s, calls[0]), calls[1..]))
  }

  function Run(s: State, calls: seq<Call>): State
    decreases |calls|
  {
    if calls == [] then s else Run(Apply(s, calls[0]), calls[1..])
  }

  /** The answers given over a run. */
  function Answers(s: State, calls: seq<Call>): (r: seq<bool>)
    ensures |r| == |calls|
    decreases |calls|
  {
    if calls == [] then [] else [Answer(s, calls[0])] + Answers(Apply(s, calls[0]), calls[1..])
  }

  ghost predicate Inv(s: State) {
    // the cache holds accepted tokens, and every one that has not expired
    && (forall nonce :: nonce in s.seen ==> Token(nonce, s.seen[nonce]) in s.accepted)
    && (forall t :: t in s.accepted && t.expires > s.clock ==> t.nonce in s.seen && s.seen[t.nonce] == t.expires)
  }

  lemma StepInv(s: State, call: Call)
    requires Inv(s) && Timely(s, call)
    ensures Inv(Apply(s, call)) && s.accepted <= Apply(s, call).accepted && s.clock <= Apply(s, call).clock
    ensures Answer(s, call) ==> call.token in Apply(s, call).accepted
  {
    var s' := Apply(s, call);
    if Verifies(call) {
      forall t | t in s'.accepted && t.expires > s'.clock
        ensures t.nonce in s'.seen && s'.seen[t.nonce] == t.expires
      {
        if t in s.accepted { assert t.nonce in Prune(s.seen, call.consumed); }
      }
    }
  }

  lemma {:induction false} RunInv(s: State, calls: seq<Call>)
    requires Inv(s) && Legal(s, calls)
    ensures Inv(Run(s, calls))
    decreases |calls|
  {
    if calls != [] {
      StepInv(s, calls[0]);
      RunInv(Apply(s, calls[0]), calls[1..]);
    }
  }

  lemma ConsumeAnswers(s: State, token: Token, now: int)
    requires Inv(s) && s.clock <= now
    ensures token.nonce !in Prune(s.seen, now) <==>
      forall t :: t in s.accepted && t.nonce == token.nonce ==> t.expires <= now
  {
    if token.nonce in Prune(s.seen, now) {
      assert Token(token.nonce, s.seen[token.nonce]) in s.accepted;
    }
  }

  /** The pruned cache refines the full history: it refuses a nonce exactly while some token that
      was accepted with it has not expired. */
  lemma RefinesHistory(s: State, call: Call)
    requires Inv(s) && Timely(s, call)
    ensures Answer(s, call) <==>
      Verifies(call) && forall t :: t in s.accepted && t.nonce == call.token.nonce ==> t.expires <= call.consumed
  {
    ConsumeAnswers(s, call.token, call.consumed);
  }

  /** A token that was accepted before is accepted again exactly when it expires between the two
      clock readings of the later call. */
  lemma ReplayedExactly(s: State, call: Call)
    requires Inv(s) && Timely(s, call) && call.token in s.accepted
    ensures Answer(s, call) <==> call.bound && call.verified < call.token.expires <= call.consumed
  {
  }

  /** With one clock reading per call a worker accepts no capability twice, over any run. */
  lemma NeverTwice(calls: seq<Call>, i: nat, j: nat)
    requires Legal(START, calls)
    requires forall k :: 0 <= k < |calls| ==> calls[k].verified == calls[k].consumed
    requires i < j < |calls| && calls[i].token == calls[j].token
    requires Answers(START, calls)[i]
    ensures !Answers(START, calls)[j]
  {
    AcceptedStays(START, calls, i, j);
  }

  lemma {:induction false} AcceptedStays(s: State, calls: seq<Call>, i: nat, j: nat)
    requires Inv(s) && Legal(s, calls)
    requires forall k :: 0 <= k < |calls| ==> calls[k].verified == calls[k].consumed
    requires i < j < |calls| && calls[i].token == calls[j].token && Answers(s, calls)[i]
    ensures !Answers(s, calls)[j]
    decreases |calls|
  {
    StepInv(s, calls[0]);
    if i == 0 {
      AcceptedThenRefused(Apply(s, calls[0]), calls[1..], j - 1);
    } else {
      AcceptedStays(Apply(s, calls[0]), calls[1..], i - 1, j - 1);
    }
  }

  lemma {:induction false} AcceptedThenRefused(s: State, calls: seq<Call>, j: nat)
    requires Inv(s) && Legal(s, calls)
    requires forall k :: 0 <= k < |calls| ==> calls[k].verified == calls[k].consumed
    requires j < |calls| && calls[j].token in s.accepted
    ensures !Answers(s, calls)[j]
    decreases |calls|
  {
    if j == 0 {
      ReplayedExactly(s, calls[0]);
    } else {
      StepInv(s, calls[0]);
      AcceptedThenRefused(Apply(s, calls[0]), calls[1..], j - 1);
    }
  }

  /** With two readings a token can be accepted twice: its last second passes between them. */
  lemma ReplayHappens() returns (calls: seq<Call>)
    ensures Legal(START, calls) && |calls| == 2 && calls[0].token == calls[1].token
    ensures Answers(START, calls) == [true, true]
  {
    var t := Token("nonce", 10);
    calls := [Call(t, true, 5, 5), Call(t, true, 9, 10)];
    var s := Apply(START, calls[0]);
    assert s.seen == map["nonce" := 10] && s.clock == 5;
    assert Answer(START, calls[0]) && Answer(s, calls[1]);
    assert Answers(s, calls[1..]) == [true];
  }

  /** The worker's own state. */
  class Worker {
    var seen: map<string, int>
    ghost var accepted: set<Token>
    ghost var clock: int

    ghost function View(): State
      reads this
    {
      State(seen, accepted, clock)
    }

    constructor ()
      ensures View() == START
    {
      seen, accepted, clock := map[], {}, 0;
    }

    /** `_consume_nonce`: refuses a nonce exactly while some token accepted with it has not expired, and
        remembers exactly the accepted token; it forgets only what has expired. */
    method ConsumeNonce(token: Token, now: int) returns (ok: bool)
      requires Inv(View()) && clock <= now
      modifies this
      ensures Inv(View()) && clock == now
      ensures ok <==> forall t :: t in old(accepted) && t.nonce == token.nonce ==> t.expires <= now
      ensures accepted == if ok then old(accepted) + {token} else old(accepted)
      ensures forall nonce :: nonce in seen <==>
        (ok && nonce == token.nonce) || (nonce in old(seen) && old(seen)[nonce] > now)
      ensures forall nonce :: nonce in seen ==>
        seen[nonce] == if ok && nonce == token.nonce then token.expires else old(seen)[nonce]
    {
      ConsumeAnswers(View(), token, now);
      seen := map nonce | nonce in seen && seen[nonce] > now :: seen[nonce];
      clock := now;
      if token.nonce in seen { return false; }
      seen := seen[token.nonce := token.expires];
      accepted := accepted + {token};
      return true;
    }

    /** `_authorise`: a token that does not verify, or does not bind the request, consumes nothing. */
    method Authorise(call: Call) returns (ok: bool)
      requires Inv(View()) && Timely(View(), call)
      modifies this
      ensures View() == Apply(old(View()), call) && Inv(View())
      ensures ok <==> Answer(old(View()), call)
    {
      ghost var before := View();
      StepInv(before, call);
      if call.token.expires <= call.verified || !call.bound { return false; }
      ConsumeAnswers(before, call.token, call.consumed);
      ok := ConsumeNonce(call.token, call.consumed);
      assert seen == Apply(before, call).seen;
    }
  }
}
