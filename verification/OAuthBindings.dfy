/** OAuth principals: which agent a verified (subject, client) pair is bound to,
    and which requests reach OAuth at all (`src/oauth.rs`). */
module OAuthBindings {
  import opened Prelude
  import opened Slugs
  import opened Credentials

  /** `clientId` narrows a subject to one OAuth client; without it any client of
      the subject is bound. */
  datatype Binding = Binding(
    subject: string,
    clientId: Option<string>,
    fromAgent: string,
    client: Option<string>,
    excludeClientData: bool)

  predicate Matches(b: Binding, subject: string, clientId: string) {
    b.subject == subject && (b.clientId.None? || b.clientId.value == clientId)
  }

  // ---------- the overlap check ----------

  /** The pairwise test of the configuration check. */
  predicate Overlap(left: Binding, right: Binding) {
    && left.subject == right.subject
    && (left.clientId.None? || right.clientId.None? || left.clientId == right.clientId)
  }

  /** No principal matches two bindings. */
  ghost predicate Unambiguous(bindings: seq<Binding>) {
    forall i, j, subject, clientId ::
      0 <= i < j < |bindings| && Matches(bindings[i], subject, clientId) ==> !Matches(bindings[j], subject, clientId)
  }

  /** Two bindings overlap exactly when some principal matches both. */
  lemma {:induction false} OverlapIsSharedPrincipal(left: Binding, right: Binding)
    ensures Overlap(left, right) <==>
            exists subject, clientId :: Matches(left, subject, clientId) && Matches(right, subject, clientId)
  {
    if Overlap(left, right) {
      var clientId := if left.clientId.Some? then left.clientId.value
                      else if right.clientId.Some? then right.clientId.value else "";
      assert Matches(left, left.subject, clientId) && Matches(right, left.subject, clientId);
    }
  }

  predicate BindingOk(b: Binding) {
    && !Blank(b.subject)
    && (b.clientId.Some? ==> !Blank(b.clientId.value))
    && ValidSlug(Trim(b.fromAgent))
  }

  method CheckOverlap(bindings: seq<Binding>) returns (ok: bool)
    ensures ok <==> Unambiguous(bindings)
  {
    for i := 0 to |bindings|
      invariant forall k, l :: 0 <= k < i && k < l < |bindings| ==> !Overlap(bindings[k], bindings[l])
    {
      for j := i + 1 to |bindings|
        invariant forall l :: i < l < j ==> !Overlap(bindings[i], bindings[l])
      {
        if Overlap(bindings[i], bindings[j]) {
          OverlapIsSharedPrincipal(bindings[i], bindings[j]);
          return false;
        }
      }
    }
    forall i, j, subject, clientId |
      0 <= i < j < |bindings| && Matches(bindings[i], subject, clientId)
      ensures !Matches(bindings[j], subject, clientId)
    {
      OverlapIsSharedPrincipal(bindings[i], bindings[j]);
    }
    return true;
  }

  /** The binding list of a configuration: refused unless it is non-empty, every
      entry is well formed and no principal is bound twice; otherwise returned
      with the agent names trimmed in place. */
  method ParseBindings(given: seq<Binding>) returns (r: Option<seq<Binding>>)
    ensures r.Some? <==> given != [] && (forall b :: b in given ==> BindingOk(b)) && Unambiguous(given)
    ensures r.Some? ==>
              && |r.value| == |given|
              && Unambiguous(r.value)
              && forall i :: 0 <= i < |given| ==>
                   r.value[i] == given[i].(fromAgent := Trim(given[i].fromAgent)) && ValidSlug(r.value[i].fromAgent)
  {
    if given == [] {
      return None;
    }
    var bindings := given;
    for i := 0 to |bindings|
      invariant |bindings| == |given|
      invariant forall k :: 0 <= k < i ==>
                  BindingOk(given[k]) && bindings[k] == given[k].(fromAgent := Trim(given[k].fromAgent))
      invariant forall k :: i <= k < |bindings| ==> bindings[k] == given[k]
    {
      var b := bindings[i];
      assert b == given[i] && given[i] in given;
      if Blank(b.subject) || (b.clientId.Some? && Blank(b.clientId.value)) {
        return None;
      }
      match ValidateAgentName(b.fromAgent)
      case None => return None;
      case Some(agent) => bindings := bindings[i := b.(fromAgent := agent)];
    }
    TrimmingKeepsPrincipals(given, bindings);
    var ok := CheckOverlap(bindings);
    return if ok then Some(bindings) else None;
  }

  lemma {:induction false} TrimmingKeepsPrincipals(given: seq<Binding>, trimmed: seq<Binding>)
    requires |trimmed| == |given|
    requires forall i :: 0 <= i < |given| ==>
               trimmed[i].subject == given[i].subject && trimmed[i].clientId == given[i].clientId
    ensures Unambiguous(trimmed) <==> Unambiguous(given)
  {
    forall i, subject, clientId | 0 <= i < |given|
      ensures Matches(trimmed[i], subject, clientId) <==> Matches(given[i], subject, clientId)
    {
    }
  }

  // ---------- looking a principal up ----------

  function BoundTo(subject: string, clientId: string): Binding -> bool {
    (b: Binding) => Matches(b, subject, clientId)
  }

  /** The first binding of a principal. */
  function BindingFor(bindings: seq<Binding>, subject: string, clientId: string): Option<Binding> {
    FirstMatch(BoundTo(subject, clientId), bindings)
  }

  lemma {:induction false} OneBindingMatches(bindings: seq<Binding>, subject: string, clientId: string)
    requires Unambiguous(bindings)
    ensures AtMostOne(BoundTo(subject, clientId), bindings)
  {
  }

  /** On an accepted list the lookup finds the one binding of the principal, and
      the order of the list is immaterial. */
  lemma {:induction false} LookupIsExact(bindings: seq<Binding>, subject: string, clientId: string, b: Binding)
    requires Unambiguous(bindings)
    ensures BindingFor(bindings, subject, clientId) == Some(b) <==> b in bindings && Matches(b, subject, clientId)
  {
    OneBindingMatches(bindings, subject, clientId);
    FirstMatchMeaning(BoundTo(subject, clientId), bindings);
  }

  lemma {:induction false} LookupIgnoresOrder(bindings: seq<Binding>, other: seq<Binding>, subject: string, clientId: string)
    requires Unambiguous(bindings) && multiset(other) == multiset(bindings)
    ensures BindingFor(other, subject, clientId) == BindingFor(bindings, subject, clientId)
  {
    OneBindingMatches(bindings, subject, clientId);
    FirstMatchIgnoresOrder(BoundTo(subject, clientId), bindings, other);
  }

  // ---------- dispatch ----------

  datatype OAuthState = OAuthState(bindings: seq<Binding>, requiredScopes: seq<string>, metadataPaths: seq<string>)

  /** The outcome of checking a token's signature and claims. */
  datatype Verification = Unverified | Verified(subject: string, clientId: string, scopes: set<string>)

  datatype Outcome =
    | Metadata
    | Decided(verdict: Verdict)
    | InvalidToken
    | UnmappedPrincipal
    | InsufficientScope
    | NoOperatorCredential

  function AgentFromBinding(b: Binding): AgentToken {
    AgentToken([], b.fromAgent, b.client, b.excludeClientData)
  }

  function AdmitPrincipal(oauth: OAuthState, v: Verification): Outcome {
    match v
    case Unverified => InvalidToken
    case Verified(subject, clientId, scopes) =>
      match BindingFor(oauth.bindings, subject, clientId)
      case None => UnmappedPrincipal
      case Some(b) =>
        if forall s :: s in oauth.requiredScopes ==> s in scopes then
          Decided(As(Agent(AgentFromBinding(b))))
        else
          InsufficientScope
  }

  /** Some static credential accepts the token. */
  predicate IsStatic(auth: AuthState, token: Secret) {
    || (auth.main.Some? && ValidateToken(token, auth.main.value))
    || (exists t :: t in auth.agents && ValidateToken(token, t.token))
    || (exists t :: t in auth.machines && ValidateToken(token, t.token))
  }

  /** `oauth_bearer_auth`, with the verification of the presented token as `v`. */
  function Dispatch(auth: AuthState, oauth: Option<OAuthState>, r: Request, v: Verification): Outcome {
    if oauth.None? then Decided(Classify(auth, r))
    else if r.path in oauth.value.metadataPaths && (r.verb == "GET" || r.verb == "HEAD") then Metadata
    else if IsProbe(r.path) then Decided(Public)
    else if auth.main.None? || auth.main.value == [] then NoOperatorCredential
    else if |r.authorization| > 1 then InvalidToken
    else if Bearer(r).Some? && !IsStatic(auth, Bearer(r).value) && IsMcp(r.path) then AdmitPrincipal(oauth.value, v)
    else Decided(Classify(auth, r))
  }

  /** The two scans agree: a token is static exactly when `bearer_auth`
      recognises it. */
  lemma {:induction false} StaticIsRecognised(auth: AuthState, r: Request)
    requires auth.main.Some? && !IsProbe(r.path) && Bearer(r).Some?
    ensures IsStatic(auth, Bearer(r).value) <==> Classify(auth, r) != Refused(Unrecognised)
  {
    var token := Bearer(r).value;
    FirstMatchMeaning(HoldsMachine(token), auth.machines);
    FirstMatchMeaning(HoldsAgent(token), auth.agents);
    var machine := FirstMatch(HoldsMachine(token), auth.machines);
    var agent := FirstMatch(HoldsAgent(token), auth.agents);
    if machine.Some? {
      assert machine.value in auth.machines && ValidateToken(token, machine.value.token);
    }
    if agent.Some? {
      assert agent.value in auth.agents && ValidateToken(token, agent.value.token);
    }
    forall t | t in auth.machines
      ensures ValidateToken(token, t.token) <==> HoldsMachine(token)(t)
    {
    }
    forall t | t in auth.agents
      ensures ValidateToken(token, t.token) <==> HoldsAgent(token)(t)
    {
    }
  }

  /** The `WWW-Authenticate` header of a response. */
  datatype Challenge = NoChallenge | Discovery | WithError(code: string)

  datatype Response = Response(outcome: Outcome, challenge: Challenge)

  /** OAuth's own rejections name their error; a 401 of the static scan on the tool
      endpoint is given the discovery challenge. */
  function ChallengeOf(r: Request, outcome: Outcome): Challenge {
    match outcome
    case InvalidToken => WithError("invalid_token")
    case InsufficientScope => WithError("insufficient_scope")
    case Decided(Refused(NoCredential)) => if IsMcp(r.path) then Discovery else NoChallenge
    case Decided(Refused(Unrecognised)) => if IsMcp(r.path) then Discovery else NoChallenge
    case _ => NoChallenge
  }

  /** What the middleware answers, or lets through. */
  function Respond(auth: AuthState, oauth: Option<OAuthState>, r: Request, v: Verification): Response {
    var outcome := Dispatch(auth, oauth, r, v);
    Response(outcome, if oauth.None? then NoChallenge else ChallengeOf(r, outcome))
  }

  /** The requests OAuth leaves alone: the probes, and those that carry at most
      one credential and are either static or off the tool endpoint, on a server
      with an operator secret. */
  predicate LeftAlone(auth: AuthState, oauth: OAuthState, r: Request) {
    && !(r.path in oauth.metadataPaths && (r.verb == "GET" || r.verb == "HEAD"))
    && (IsProbe(r.path)
        || (&& auth.main.Some? && auth.main.value != []
            && |r.authorization| <= 1
            && (!IsMcp(r.path) || (Bearer(r).Some? && IsStatic(auth, Bearer(r).value)))))
  }

  /** Turning OAuth on changes the response to exactly the other requests, so no
      caller with a static credential loses or gains anything. */
  lemma {:induction false} OAuthChangesExactly(auth: AuthState, oauth: OAuthState, r: Request, v: Verification)
    ensures Respond(auth, Some(oauth), r, v) == Respond(auth, None, r, v) <==> LeftAlone(auth, oauth, r)
  {
    if auth.main.Some? && !IsProbe(r.path) && Bearer(r).Some? {
      StaticIsRecognised(auth, r);
    }
  }

  /** The token acts under the name, the client and the restriction of the
      binding, and stands for no static secret. */
  predicate ActsAs(agent: AgentToken, b: Binding) {
    && agent.fromAgent == b.fromAgent && agent.client == b.client
    && agent.excludeClientData == b.excludeClientData && agent.token == []
  }

  predicate HasScopes(oauth: OAuthState, v: Verification)
    requires v.Verified?
  {
    forall s :: s in oauth.requiredScopes ==> s in v.scopes
  }

  /** The request is for OAuth to decide: one credential on the tool endpoint that
      is not a static one, on a server with an operator secret. */
  predicate ForOAuth(auth: AuthState, oauth: OAuthState, r: Request) {
    && !(r.path in oauth.metadataPaths && (r.verb == "GET" || r.verb == "HEAD"))
    && auth.main.Some? && auth.main.value != []
    && |r.authorization| == 1 && Bearer(r).Some? && !IsStatic(auth, Bearer(r).value) && IsMcp(r.path)
  }

  lemma {:induction false} ToolEndpointIsNoProbe(path: string)
    requires IsMcp(path)
    ensures !IsProbe(path)
  {
    assert "/mcp"[1] == 'm' && "/mcp/"[1] == 'm' && "/health"[1] == 'h' && "/ready"[1] == 'r';
  }

  /** Such a request is admitted exactly when its token is verified, its principal
      bound and its scopes complete, and then as the bound agent, restriction
      included; otherwise it is told which of the three is missing. */
  lemma {:induction false} OAuthAdmitsExactly(
      auth: AuthState, oauth: OAuthState, r: Request, v: Verification, b: Binding, agent: AgentToken)
    requires Unambiguous(oauth.bindings) && ForOAuth(auth, oauth, r)
    ensures v.Unverified? ==> Respond(auth, Some(oauth), r, v) == Response(InvalidToken, WithError("invalid_token"))
    ensures v.Verified? && (forall other :: other in oauth.bindings ==> !Matches(other, v.subject, v.clientId)) ==>
              Respond(auth, Some(oauth), r, v) == Response(UnmappedPrincipal, NoChallenge)
    ensures v.Verified? && b in oauth.bindings && Matches(b, v.subject, v.clientId) && !HasScopes(oauth, v) ==>
              Respond(auth, Some(oauth), r, v) == Response(InsufficientScope, WithError("insufficient_scope"))
    ensures v.Verified? && b in oauth.bindings && Matches(b, v.subject, v.clientId) && HasScopes(oauth, v) ==>
              (Respond(auth, Some(oauth), r, v) == Response(Decided(As(Agent(agent))), NoChallenge) <==> ActsAs(agent, b))
  {
    ToolEndpointIsNoProbe(r.path);
    if v.Verified? {
      FirstMatchMeaning(BoundTo(v.subject, v.clientId), oauth.bindings);
      LookupIsExact(oauth.bindings, v.subject, v.clientId, b);
    }
  }

  /** With OAuth on, full access needs the operator's own secret, machine access
      a machine token; an OAuth principal gets only the agent it is bound to,
      only with the required scopes and only on the tool endpoint. */
  lemma {:induction false} OAuthOnlyAdmitsBoundAgents(
      auth: AuthState, oauth: OAuthState, r: Request, v: Verification, class_: CallerClass)
    requires WellKeyed(auth) && Unambiguous(oauth.bindings)
    requires Dispatch(auth, Some(oauth), r, v) == Decided(As(class_))
    ensures class_.Full? ==> Bearer(r) == auth.main != None
    ensures class_.Machine? ==> class_.machine in auth.machines && Bearer(r) == Some(class_.machine.token)
    ensures class_.Agent? && class_.agent in auth.agents ==> Bearer(r) == Some(class_.agent.token)
    ensures class_.Agent? ==> IsMcp(r.path)
    ensures class_.Agent? && class_.agent !in auth.agents ==>
              && v.Verified? && HasScopes(oauth, v)
              && exists b :: b in oauth.bindings && Matches(b, v.subject, v.clientId) && ActsAs(class_.agent, b)
  {
    assert Bearer(r).Some?;
    var token := Bearer(r).value;
    if IsStatic(auth, token) || !IsMcp(r.path) {
      var m := if class_.Machine? then class_.machine else MachineToken([], "", None, [], []);
      var a := if class_.Agent? then class_.agent else AgentToken([], "", None, false);
      ClassesAreExact(auth, r, m, a);
    } else {
      FirstMatchMeaning(BoundTo(v.subject, v.clientId), oauth.bindings);
    }
  }
}
