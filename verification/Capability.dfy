/** Action capabilities: minted for one tool request (server/coordinator/broker.py), framed and
    verified (server/broker/capability.py), and bound to the exact request they are presented with
    (server/broker/validate.py and `_authorize_mutation` in server/broker/service.py). */
module Capability {
  import opened Wrappers
  import Base64Url

  type Bytes = seq<Base64Url.Byte>

  datatype Stage =
    | Trigger | Preflight | Plan | Create | Store | Deploy | Verification | Rollout | Observe
    | AwaitApproval | Revoke | Done

  function StageText(stage: Stage): string {
    match stage
    case Trigger => "trigger"
    case Preflight => "preflight"
    case Plan => "plan"
    case Create => "create"
    case Store => "store"
    case Deploy => "deploy"
    case Verification => "verify"
    case Rollout => "rollout"
    case Observe => "observe"
    case AwaitApproval => "approval"
    case Revoke => "revoke"
    case Done => "complete"
  }

  function StageOf(text: string): Option<Stage> {
    if text == "trigger" then Some(Trigger)
    else if text == "preflight" then Some(Preflight)
    else if text == "plan" then Some(Plan)
    else if text == "create" then Some(Create)
    else if text == "store" then Some(Store)
    else if text == "deploy" then Some(Deploy)
    else if text == "verify" then Some(Verification)
    else if text == "rollout" then Some(Rollout)
    else if text == "observe" then Some(Observe)
    else if text == "approval" then Some(AwaitApproval)
    else if text == "revoke" then Some(Revoke)
    else if text == "complete" then Some(Done)
    else if text == "playbook" then Some(Plan)       // an earlier name
    else None
  }

  datatype Claims = Claims(
    organisation: string, run: string, agent: string, tool: string, connection: string,
    stage: Stage, fence: int, requestDigest: string, actionDigest: string, expires: int,
    nonce: string, approval: Option<string>)

  // -------------------------------------------------------- JSON and signatures

  datatype Key =
    | OrganisationId | RunId | AgentId | ToolName | ConnectionId | StageName | FencingToken
    | RequestDigest | ActionDigest | ExpiresAt | Nonce | ApprovalId
    | Algorithm | TokenType | TokenVersion
    | OtherKey(name: string)

  datatype Field = Text(text: string) | Number(number: int) | Truth(truth: bool) | Null | Composite

  datatype Value = Object(fields: map<Key, Field>) | NotAnObject

  /** `json.dumps` and `json.loads`. */
  datatype Json = Json(dump: Value -> Bytes, load: Bytes -> Option<Value>)

  ghost predicate Faithful(json: Json) { forall v :: json.load(json.dump(v)) == Some(v) }

  datatype Scheme = Scheme(sign: string -> Bytes, check: (string, Bytes) -> bool)

  ghost predicate Correct(scheme: Scheme) { forall text :: scheme.check(text, scheme.sign(text)) }

  // ---------------------------------------------------------------------- tokens

  const HEADER := Object(map[Algorithm := Text("EdDSA"), TokenType := Text("FKC"), TokenVersion := Number(2)])

  function ClaimsValue(c: Claims): Value {
    Object(map[
      OrganisationId := Text(c.organisation), RunId := Text(c.run), AgentId := Text(c.agent),
      ToolName := Text(c.tool), ConnectionId := Text(c.connection), StageName := Text(StageText(c.stage)),
      FencingToken := Number(c.fence), RequestDigest := Text(c.requestDigest),
      ActionDigest := Text(c.actionDigest), ExpiresAt := Number(c.expires), Nonce := Text(c.nonce),
      ApprovalId := if c.approval.Some? then Text(c.approval.value) else Null])
  }

  function Part(json: Json, v: Value): string { Base64Url.Encode(json.dump(v)) }

  /** What is signed. */
  function Message(json: Json, c: Claims): string { Part(json, HEADER) + "." + Part(json, ClaimsValue(c)) }

  function Mint(json: Json, scheme: Scheme, c: Claims): string {
    Message(json, c) + "." + Base64Url.Encode(scheme.sign(Message(json, c)))
  }

  function Split(text: string): (parts: seq<string>)
    ensures |parts| > 0
  {
    if text == "" then [""]
    else
      var rest := Split(text[1..]);
      if text[0] == '.' then [""] + rest else [[text[0]] + rest[0]] + rest[1..]
  }

  function ClaimText(fields: map<Key, Field>, key: Key): Option<string> {
    if key in fields && fields[key].Text? then Some(fields[key].text) else None
  }

  /** A boolean is not taken for an integer. */
  function ClaimNumber(fields: map<Key, Field>, key: Key): Option<int> {
    if key in fields && fields[key].Number? then Some(fields[key].number) else None
  }

  function ParseClaims(fields: map<Key, Field>): Option<Claims> {
    var organisation := ClaimText(fields, OrganisationId);
    var run := ClaimText(fields, RunId);
    var agent := ClaimText(fields, AgentId);
    var tool := ClaimText(fields, ToolName);
    var connection := ClaimText(fields, ConnectionId);
    var stageText := ClaimText(fields, StageName);
    var fence := ClaimNumber(fields, FencingToken);
    var requestDigest := ClaimText(fields, RequestDigest);
    var actionDigest := ClaimText(fields, ActionDigest);
    var expires := ClaimNumber(fields, ExpiresAt);
    var nonce := ClaimText(fields, Nonce);
    var noApproval := ApprovalId !in fields || fields[ApprovalId].Null?;
    var approval := ClaimText(fields, ApprovalId);
    if organisation.None? || run.None? || agent.None? || tool.None? || connection.None? || stageText.None? ||
       fence.None? || requestDigest.None? || actionDigest.None? || expires.None? || nonce.None? ||
       StageOf(stageText.value).None? || (!noApproval && approval.None?)
    then None
    else Some(Claims(
      organisation.value, run.value, agent.value, tool.value, connection.value,
      StageOf(stageText.value).value, fence.value, requestDigest.value, actionDigest.value, expires.value,
      nonce.value, if noApproval then None else approval))
  }

  datatype Error =
    | Malformed | BadSignature | BadEncoding | BadHeader | BadClaims | Expired
    | Unbound | ActionChanged | NotApproved

  function DecodePart(json: Json, part: string): Option<map<Key, Field>> {
    var raw := Base64Url.Decode(part);
    if raw.None? then None
    else
      var v := json.load(raw.value);
      if v.Some? && v.value.Object? then Some(v.value.fields) else None
  }

  /** `CapabilityVerifier.verify`, at `now` seconds. */
  function Verify(json: Json, scheme: Scheme, token: string, now: int): Result<Claims, Error> {
    var parts := Split(token);
    if |parts| != 3 then Err(Malformed)
    else
      var signature := Base64Url.Decode(parts[2]);
      if signature.None? || !scheme.check(parts[0] + "." + parts[1], signature.value) then Err(BadSignature)
      else
        var header := DecodePart(json, parts[0]);
        if header.None? then Err(BadEncoding)
        else if Object(header.value) != HEADER then Err(BadHeader)
        else
          var payload := DecodePart(json, parts[1]);
          if payload.None? then Err(BadEncoding)
          else
            var claims := ParseClaims(payload.value);
            if claims.None? then Err(BadClaims)
            else if claims.value.expires <= now then Err(Expired)
            else Ok(claims.value)
  }

  // ------------------------------------------------------------- verify and mint

  predicate NoDot(text: string) { forall i :: 0 <= i < |text| ==> text[i] != '.' }

  lemma {:induction false} SplitJoin(a: string, b: string)
    requires NoDot(a)
    ensures Split(a) == [a] && Split(a + "." + b) == [a] + Split(b)
    decreases |a|
  {
    if a == "" {
      assert (a + "." + b)[1..] == b;
    } else {
      SplitJoin(a[1..], b);
      assert (a + "." + b)[1..] == a[1..] + "." + b;
      assert a == [a[0]] + a[1..];
    }
  }

  lemma {:induction false} SplitNoDot(text: string)
    ensures forall k :: 0 <= k < |Split(text)| ==> NoDot(Split(text)[k])
    decreases |text|
  {
    if text != "" { SplitNoDot(text[1..]); }
  }

  lemma EncodeNoDot(bytes: Bytes)
    ensures NoDot(Base64Url.Encode(bytes))
  {
    Base64Url.EncodeAlphabet(bytes);
  }

  lemma StageRoundTrip(stage: Stage)
    ensures StageOf(StageText(stage)) == Some(stage)
  {
  }

  predicate Carries(fields: map<Key, Field>, c: Claims, stageText: string) {
    && ClaimText(fields, OrganisationId) == Some(c.organisation) && ClaimText(fields, RunId) == Some(c.run)
    && ClaimText(fields, AgentId) == Some(c.agent) && ClaimText(fields, ToolName) == Some(c.tool)
    && ClaimText(fields, ConnectionId) == Some(c.connection) && ClaimText(fields, StageName) == Some(stageText)
    && ClaimNumber(fields, FencingToken) == Some(c.fence) && ClaimNumber(fields, ExpiresAt) == Some(c.expires)
    && ClaimText(fields, RequestDigest) == Some(c.requestDigest)
    && ClaimText(fields, ActionDigest) == Some(c.actionDigest) && ClaimText(fields, Nonce) == Some(c.nonce)
    && ApprovalId in fields && fields[ApprovalId] == if c.approval.Some? then Text(c.approval.value) else Null
  }

  lemma ValueCarries(c: Claims)
    ensures Carries(ClaimsValue(c).fields, c, StageText(c.stage))
  {
  }

  lemma CarriesParse(fields: map<Key, Field>, c: Claims, stageText: string)
    requires Carries(fields, c, stageText) && StageOf(stageText) == Some(c.stage)
    ensures ParseClaims(fields) == Some(c)
  {
  }

  lemma ParseClaimsValue(c: Claims)
    ensures ParseClaims(ClaimsValue(c).fields) == Some(c)
  {
    StageRoundTrip(c.stage);
    ValueCarries(c);
    CarriesParse(ClaimsValue(c).fields, c, StageText(c.stage));
  }

  lemma PartDecodes(json: Json, v: Value)
    requires Faithful(json) && v.Object?
    ensures DecodePart(json, Part(json, v)) == Some(v.fields)
  {
    Base64Url.RoundTrip(json.dump(v));
  }

  /** Splitting is unambiguous: two texts without a separator are recovered from their join. */
  lemma JoinInjective(a: string, b: string, c: string, d: string)
    requires NoDot(a) && NoDot(b) && NoDot(c) && NoDot(d) && a + "." + b == c + "." + d
    ensures a == c && b == d
  {
    SplitJoin(a, b);
    SplitJoin(c, d);
    SplitJoin(b, "");
    SplitJoin(d, "");
    assert [a] + [b] == [c] + [d];
    assert ([a] + [b])[0] == a && ([c] + [d])[0] == c;
    assert ([a] + [b])[1] == b && ([c] + [d])[1] == d;
  }

  lemma MintSplits(json: Json, scheme: Scheme, c: Claims)
    ensures Split(Mint(json, scheme, c)) ==
            [Part(json, HEADER), Part(json, ClaimsValue(c)), Base64Url.Encode(scheme.sign(Message(json, c)))]
  {
    var header, payload := Part(json, HEADER), Part(json, ClaimsValue(c));
    var signature := Base64Url.Encode(scheme.sign(Message(json, c)));
    EncodeNoDot(json.dump(HEADER));
    EncodeNoDot(json.dump(ClaimsValue(c)));
    EncodeNoDot(scheme.sign(Message(json, c)));
    SplitThree(header, payload, signature);
  }

  lemma SplitThree(a: string, b: string, c: string)
    requires NoDot(a) && NoDot(b) && NoDot(c)
    ensures Split(a + "." + b + "." + c) == [a, b, c]
  {
    assert a + "." + b + "." + c == a + "." + (b + "." + c);
    SplitJoin(a, b + "." + c);
    SplitJoin(b, c);
    SplitJoin(c, "");
  }

  /** The token is three parts, of which the last is a signature that checks on the message of `c`. */
  predicate Presents(json: Json, scheme: Scheme, token: string, c: Claims) {
    var parts := Split(token);
    && |parts| == 3 && parts[0] + "." + parts[1] == Message(json, c)
    && Base64Url.Decode(parts[2]).Some? && scheme.check(Message(json, c), Base64Url.Decode(parts[2]).value)
  }

  /** Nobody but the signer could have signed what this token presents: if its signature checks at all,
      it is on the message of minted claims. A law about tokens that are presented, not about every
      text and signature there could be: of those, `Correct` has many more that check. */
  ghost predicate Unforged(json: Json, scheme: Scheme, minted: set<Claims>, token: string) {
    var parts := Split(token);
    |parts| == 3 && Base64Url.Decode(parts[2]).Some? &&
    scheme.check(parts[0] + "." + parts[1], Base64Url.Decode(parts[2]).value) ==>
      exists c :: c in minted && parts[0] + "." + parts[1] == Message(json, c)
  }

  /** What is signed determines the claims. */
  lemma MessageInjective(json: Json, a: Claims, b: Claims)
    requires Faithful(json) && Message(json, a) == Message(json, b)
    ensures a == b
  {
    EncodeNoDot(json.dump(HEADER));
    EncodeNoDot(json.dump(ClaimsValue(a)));
    EncodeNoDot(json.dump(ClaimsValue(b)));
    JoinInjective(Part(json, HEADER), Part(json, ClaimsValue(a)), Part(json, HEADER), Part(json, ClaimsValue(b)));
    PartDecodes(json, ClaimsValue(a));
    PartDecodes(json, ClaimsValue(b));
    ParseClaimsValue(a);
    ParseClaimsValue(b);
  }

  /** Whoever presents a message of `c` under a signature that checks gets `c`, until it expires. */
  lemma PresentedVerifies(json: Json, scheme: Scheme, token: string, c: Claims, now: int)
    requires Faithful(json) && Presents(json, scheme, token, c)
    ensures Verify(json, scheme, token, now) == if now < c.expires then Ok(c) else Err(Expired)
  {
    var parts := Split(token);
    SplitNoDot(token);
    EncodeNoDot(json.dump(HEADER));
    EncodeNoDot(json.dump(ClaimsValue(c)));
    JoinInjective(parts[0], parts[1], Part(json, HEADER), Part(json, ClaimsValue(c)));
    PartDecodes(json, HEADER);
    PartDecodes(json, ClaimsValue(c));
    ParseClaimsValue(c);
  }

  lemma MintPresents(json: Json, scheme: Scheme, c: Claims)
    requires Correct(scheme)
    ensures Presents(json, scheme, Mint(json, scheme, c), c)
  {
    MintSplits(json, scheme, c);
    Base64Url.RoundTrip(scheme.sign(Message(json, c)));
    assert Message(json, c) == Part(json, HEADER) + "." + Part(json, ClaimsValue(c));
  }

  /** A minted token verifies to exactly its claims, until they expire. */
  lemma VerifyMint(json: Json, scheme: Scheme, c: Claims, now: int)
    requires Faithful(json) && Correct(scheme)
    ensures Verify(json, scheme, Mint(json, scheme, c), now) == if now < c.expires then Ok(c) else Err(Expired)
  {
    MintPresents(json, scheme, c);
    PresentedVerifies(json, scheme, Mint(json, scheme, c), c, now);
  }

  /** Every token that verifies carries claims that were minted and have not expired. */
  lemma VerifiedIsMinted(json: Json, scheme: Scheme, minted: set<Claims>, token: string, now: int)
    requires Faithful(json) && Unforged(json, scheme, minted, token)
    requires Verify(json, scheme, token, now).Ok?
    ensures var c := Verify(json, scheme, token, now).value;
      c in minted && now < c.expires && Presents(json, scheme, token, c)
  {
    var parts := Split(token);
    var c :| c in minted && parts[0] + "." + parts[1] == Message(json, c);
    assert Presents(json, scheme, token, c);
    PresentedVerifies(json, scheme, token, c, now);
  }

  /** Both laws together. Under a correct scheme, the token minted from minted claims is itself not
      forged, and verifies until it expires; and a token that is not forged verifies to `c` if and only
      if `c` was minted, has not expired, and is what the token presents. */
  lemma VerifiesExactly(json: Json, scheme: Scheme, minted: set<Claims>, token: string, c: Claims, now: int)
    requires Faithful(json) && Correct(scheme)
    ensures c in minted ==> Unforged(json, scheme, minted, Mint(json, scheme, c))
    ensures c in minted && now < c.expires ==> Verify(json, scheme, Mint(json, scheme, c), now) == Ok(c)
    ensures Unforged(json, scheme, minted, token) ==>
      (Verify(json, scheme, token, now) == Ok(c) <==>
         c in minted && now < c.expires && Presents(json, scheme, token, c))
  {
    MintPresents(json, scheme, c);
    VerifyMint(json, scheme, c, now);
    if Unforged(json, scheme, minted, token) {
      if Verify(json, scheme, token, now) == Ok(c) {
        VerifiedIsMinted(json, scheme, minted, token, now);
      }
      if Presents(json, scheme, token, c) {
        PresentedVerifies(json, scheme, token, c, now);
      }
    }
  }

  // --------------------------------------------------------------------- binding

  datatype Request<P> = Request(
    id: string, organisation: string, run: string, agent: string, tool: string, connection: string,
    fence: int, payload: P)

  datatype Run = Run(organisation: string, id: string, stage: Stage, fence: int)

  datatype Action = Action(run: string, kind: string, body: string)

  datatype Approval = Approval(approved: bool, consumed: bool, run: string, action: string, actionDigest: string)

  /** The documents an approval is checked against. */
  datatype Documents = Documents(approvals: map<string, Approval>, actions: map<string, Action>)

  /** SHA-256 over canonical JSON, of a request and of a protected action. */
  datatype Digests<!P> = Digests(request: (string, P) -> string, action: Action -> string)

  ghost predicate CollisionFree<P(!new)>(d: Digests<P>) {
    && (forall t, p, t', p' :: d.request(t, p) == d.request(t', p') ==> t == t' && p == p')
    && (forall a, a' :: d.action(a) == d.action(a') ==> a == a')
  }

  /** `McpBrokerClient._capability`: the claims for one request, five minutes from `now`; with an
      approval, the approved action as it is stored. */
  function ClaimsFor<P>(d: Digests<P>, store: Documents, run: Run, request: Request<P>, approval: Option<string>, now: int)
    : Option<Claims>
  {
    var requestDigest := d.request(request.tool, request.payload);
    if approval.None? then Some(ClaimsWith(run, request, requestDigest, requestDigest, approval, now))
    else if approval.value !in store.approvals || store.approvals[approval.value].action !in store.actions then None
    else
      var action := store.actions[store.approvals[approval.value].action];
      Some(ClaimsWith(run, request, requestDigest, d.action(action), approval, now))
  }

  function ClaimsWith<P>(run: Run, request: Request<P>, requestDigest: string, actionDigest: string,
                         approval: Option<string>, now: int): Claims
  {
    Claims(run.organisation, run.id, request.agent, request.tool, request.connection, run.stage, run.fence,
           requestDigest, actionDigest, now + 300, request.id, approval)
  }

  /** `validate_capability`. */
  predicate Bound<P>(d: Digests<P>, request: Request<P>, run: Run, c: Claims) {
    (c.organisation, c.run, c.agent, c.tool, c.connection, c.stage, c.fence, c.requestDigest) ==
    (request.organisation, request.run, request.agent, request.tool, request.connection, run.stage, request.fence,
     d.request(request.tool, request.payload))
  }

  /** `_validate_approval`. */
  predicate Approved<P>(d: Digests<P>, store: Documents, request: Request<P>, id: string, actionDigest: string) {
    && id in store.approvals && store.approvals[id].action in store.actions
    && var approval := store.approvals[id];
       var action := store.actions[approval.action];
       && approval.approved && approval.consumed
       && approval.run == request.run && action.run == request.run
       && action.kind == request.tool
       && actionDigest == d.action(action) && approval.actionDigest == d.action(action)
  }

  /** `_authorize_mutation` on a token that was presented. */
  function Authorize<P>(json: Json, scheme: Scheme, d: Digests<P>, store: Documents,
                        request: Request<P>, run: Run, token: string, now: int): Result<Claims, Error>
  {
    var verified := Verify(json, scheme, token, now);
    if verified.Err? then verified
    else
      var c := verified.value;
      if !Bound(d, request, run, c) then Err(Unbound)
      else if c.approval.None? then
        (if c.actionDigest != d.request(request.tool, request.payload) then Err(ActionChanged) else Ok(c))
      else if !Approved(d, store, request, c.approval.value, c.actionDigest) then Err(NotApproved)
      else Ok(c)
  }

  /** Two requests the capability cannot tell apart: everything but the request id. */
  predicate SameBinding<P(==)>(run: Run, request: Request<P>, run': Run, request': Request<P>) {
    && request'.organisation == run.organisation && request'.run == run.id
    && request'.agent == request.agent && request'.tool == request.tool
    && request'.connection == request.connection
    && run'.stage == run.stage && request'.fence == run.fence
    && request'.payload == request.payload
  }

  /** The claims minted for one request pass for exactly that organisation, run, agent, tool,
      connection, stage, fence and payload. */
  lemma BoundExactly<P(!new)>(d: Digests<P>, store: Documents, run: Run, request: Request<P>, approval: Option<string>,
                              at: int, run': Run, request': Request<P>)
    requires CollisionFree(d) && ClaimsFor(d, store, run, request, approval, at).Some?
    ensures Bound(d, request', run', ClaimsFor(d, store, run, request, approval, at).value) <==>
            SameBinding(run, request, run', request')
  {
    if d.request(request.tool, request.payload) == d.request(request'.tool, request'.payload) {
      assert request.tool == request'.tool && request.payload == request'.payload;
    }
  }

  /** A capability minted without an approval is accepted for exactly the request it was minted
      for, and exactly until it expires. */
  lemma AutomaticExactly<P(!new)>(json: Json, scheme: Scheme, d: Digests<P>, store: Documents, run: Run,
                                  request: Request<P>, at: int, run': Run, request': Request<P>, now: int)
    requires Faithful(json) && Correct(scheme) && CollisionFree(d)
    ensures var c := ClaimsFor(d, store, run, request, None, at).value;
      Authorize(json, scheme, d, store, request', run', Mint(json, scheme, c), now).Ok? <==>
        SameBinding(run, request, run', request') && now < at + 300
  {
    var c := ClaimsFor(d, store, run, request, None, at).value;
    VerifyMint(json, scheme, c, now);
    BoundExactly(d, store, run, request, None, at, run', request');
  }

  /** With an approval: also exactly while the approval is granted and consumed for this run and
      tool, and the action is still the one that was approved and minted for. */
  lemma ApprovedExactly<P(!new)>(json: Json, scheme: Scheme, d: Digests<P>, minting: Documents, store: Documents, run: Run,
                                 request: Request<P>, id: string, at: int, run': Run, request': Request<P>, now: int)
    requires Faithful(json) && Correct(scheme) && CollisionFree(d)
    requires ClaimsFor(d, minting, run, request, Some(id), at).Some?
    ensures var c := ClaimsFor(d, minting, run, request, Some(id), at).value;
      Authorize(json, scheme, d, store, request', run', Mint(json, scheme, c), now).Ok? <==>
        && SameBinding(run, request, run', request') && now < at + 300
        && id in store.approvals && store.approvals[id].action in store.actions
        && var action := store.actions[store.approvals[id].action];
           && action == minting.actions[minting.approvals[id].action]
           && store.approvals[id].actionDigest == d.action(action)
           && store.approvals[id].approved && store.approvals[id].consumed
           && store.approvals[id].run == run.id && action.run == run.id && action.kind == request.tool
  {
    var c := ClaimsFor(d, minting, run, request, Some(id), at).value;
    VerifyMint(json, scheme, c, now);
    BoundExactly(d, minting, run, request, Some(id), at, run', request');
  }

  /** What an accepted token proves, whoever presents it: it was minted, for this very binding, and
      every mutation it lets through is either the automatic one it was minted for or an approved,
      unchanged action of this run and tool. */
  lemma AuthorizedIsMinted<P(!new)>(json: Json, scheme: Scheme, d: Digests<P>, store: Documents, minted: set<Claims>,
                                    request: Request<P>, run: Run, token: string, now: int)
    requires Faithful(json) && Unforged(json, scheme, minted, token)
    requires Authorize(json, scheme, d, store, request, run, token, now).Ok?
    ensures var c := Authorize(json, scheme, d, store, request, run, token, now).value;
      && c in minted && now < c.expires && Bound(d, request, run, c)
      && (if c.approval.None? then c.actionDigest == c.requestDigest
          else Approved(d, store, request, c.approval.value, c.actionDigest))
  {
    VerifiedIsMinted(json, scheme, minted, token, now);
  }
}
