/** Static bearer credentials: comparing secrets, loading the token lists, and
    classifying a request by the credential it presents (`src/auth.rs`). */
module Credentials {
  import opened Prelude
  import opened Slugs
  import opened Callers

  type Secret = seq<bv8>

  const MIN_TOKEN_LEN := 32

  datatype MachineToken = MachineToken(
    token: Secret,
    fromAgent: string,
    client: Option<string>,
    agents: seq<string>,
    scopes: seq<string>)

  datatype AgentToken = AgentToken(
    token: Secret,
    fromAgent: string,
    client: Option<string>,
    excludeClientData: bool)

  // ---------- comparing secrets ----------

  /** The fold over both byte strings, which never stops early. */
  function Difference(acc: bv8, token: Secret, expected: Secret): bv8
    requires |token| == |expected|
    decreases token
  {
    if token == [] then acc
    else Difference(acc | (token[0] ^ expected[0]), token[1..], expected[1..])
  }

  predicate ValidateToken(token: Secret, expected: Secret) {
    && expected != []
    && |token| == |expected|
    && Difference(0, token, expected) == 0
  }

  lemma {:induction false} ByteDifference(acc: bv8, a: bv8, b: bv8)
    ensures acc | (a ^ b) == 0 <==> acc == 0 && a == b
  {
  }

  lemma {:induction false} DifferenceIsZero(acc: bv8, token: Secret, expected: Secret)
    requires |token| == |expected|
    ensures Difference(acc, token, expected) == 0 <==> acc == 0 && token == expected
    decreases token
  {
    if token != [] {
      var next := acc | (token[0] ^ expected[0]);
      assert next == 0 <==> acc == 0 && token[0] == expected[0] by {
        ByteDifference(acc, token[0], expected[0]);
      }
      DifferenceIsZero(next, token[1..], expected[1..]);
      assert token == [token[0]] + token[1..] && expected == [expected[0]] + expected[1..];
    }
  }

  /** The constant-time comparison accepts exactly the configured secret, and a
      blank configured secret accepts nothing. */
  lemma {:induction false} ValidatesExactly(token: Secret, expected: Secret)
    ensures ValidateToken(token, expected) <==> token == expected && expected != []
  {
    if |token| == |expected| {
      DifferenceIsZero(0, token, expected);
    }
  }

  // ---------- loading the lists ----------

  /** An environment value: absent or blank, not a JSON list, or its entries. */
  datatype Config<+T> = Unset | Malformed | Listed(tokens: seq<T>)

  /** Why startup aborts. */
  datatype ConfigError =
    | NotAList
    | BadEntry(index: nat)
    | SharedSecret(first: nat, second: nat)
    | ScopedWithoutMain

  predicate KnownScope(scope: string) {
    scope == "create" || scope == "read"
  }

  predicate LongEnough(secret: Secret, main: Option<Secret>) {
    |secret| >= MIN_TOKEN_LEN && main != Some(secret)
  }

  predicate MachineTokenOk(t: MachineToken, main: Option<Secret>) {
    && LongEnough(t.token, main)
    && ValidSlug(Trim(t.fromAgent))
    && t.agents != [] && (forall a :: a in t.agents ==> ValidSlug(Trim(a)))
    && t.scopes != [] && (forall s :: s in t.scopes ==> KnownScope(s))
  }

  predicate MachineListOk(tokens: seq<MachineToken>, main: Option<Secret>) {
    && (forall t :: t in tokens ==> MachineTokenOk(t, main))
    && (forall i, j :: 0 <= i < j < |tokens| ==> tokens[i].token != tokens[j].token)
  }

  method CheckMachineToken(t: MachineToken, main: Option<Secret>) returns (ok: bool)
    ensures ok <==> MachineTokenOk(t, main)
  {
    if |t.token| < MIN_TOKEN_LEN {
      return false;
    }
    if main.Some? && t.token == main.value {
      return false;
    }
    if ValidateAgentName(t.fromAgent).None? {
      return false;
    }
    if t.agents == [] {
      return false;
    }
    for i := 0 to |t.agents|
      invariant forall k :: 0 <= k < i ==> ValidSlug(Trim(t.agents[k]))
    {
      if ValidateAgentName(t.agents[i]).None? {
        return false;
      }
    }
    if t.scopes == [] {
      return false;
    }
    for i := 0 to |t.scopes|
      invariant forall k :: 0 <= k < i ==> KnownScope(t.scopes[k])
    {
      if !KnownScope(t.scopes[i]) {
        return false;
      }
    }
    return true;
  }


  method ParseMachineTokens(config: Config<MachineToken>, main: Option<Secret>)
    returns (r: Result<seq<MachineToken>, ConfigError>)
    ensures r.Ok? <==> config.Unset? || (config.Listed? && MachineListOk(config.tokens, main))
    ensures r.Ok? ==> r.value == if config.Listed? then config.tokens else []
    ensures r.Err? && r.error.NotAList? <==> config.Malformed?
    ensures r.Err? && r.error.BadEntry? ==>
              r.error.index < |config.tokens| && !MachineTokenOk(config.tokens[r.error.index], main)
    ensures r.Err? && r.error.SharedSecret? ==>
              && r.error.first < r.error.second < |config.tokens|
              && config.tokens[r.error.first].token == config.tokens[r.error.second].token
  {
    match config
    case Unset => return Ok([]);
    case Malformed => return Err(NotAList);
    case Listed(tokens) =>
      for i := 0 to |tokens|
        invariant forall k :: 0 <= k < i ==> MachineTokenOk(tokens[k], main)
      {
        var ok := CheckMachineToken(tokens[i], main);
        if !ok {
          return Err(BadEntry(i));
        }
      }
      for i := 0 to |tokens|
        invariant forall k, j :: 0 <= k < i && k < j < |tokens| ==> tokens[k].token != tokens[j].token
      {
        for j := i + 1 to |tokens|
          invariant forall k :: i < k < j ==> tokens[i].token != tokens[k].token
        {
          if tokens[i].token == tokens[j].token {
            return Err(SharedSecret(i, j));
          }
        }
      }
      return Ok(tokens);
  }

  /** The normalised binding of a per-agent token: a trimmed slug, or a trimmed
      slug followed by `-*`. */
  function BindingOf(fromAgent: string): (binding: Option<Text>)
    ensures binding.Some? ==> ValidBinding(binding.value)
  {
    var raw := Trim(fromAgent);
    if IsFamily(raw) then
      match ValidateAgentName(raw[..|raw| - 2])
      case None => None
      case Some(base) =>
        var family: string := base + "-*";
        assert family[..|family| - 2] == base;
        Some(family)
    else
      ValidateAgentName(raw)
  }

  predicate AgentTokenOk(t: AgentToken, main: Option<Secret>, machines: seq<MachineToken>) {
    && LongEnough(t.token, main)
    && (forall m :: m in machines ==> m.token != t.token)
    && BindingOf(t.fromAgent).Some?
  }

  predicate AgentListOk(tokens: seq<AgentToken>, main: Option<Secret>, machines: seq<MachineToken>) {
    && (forall t :: t in tokens ==> AgentTokenOk(t, main, machines))
    && (forall i, j :: 0 <= i < j < |tokens| ==> tokens[i].token != tokens[j].token)
  }

  /** `stored` is `given` with its binding normalised and nothing else changed. */
  predicate Normalises(given: AgentToken, stored: AgentToken) {
    && BindingOf(given.fromAgent).Some?
    && stored == given.(fromAgent := BindingOf(given.fromAgent).value)
  }

  method CheckAgentToken(t: AgentToken, main: Option<Secret>, machines: seq<MachineToken>)
    returns (normal: Option<AgentToken>)
    ensures normal.Some? <==> AgentTokenOk(t, main, machines)
    ensures normal.Some? ==> Normalises(t, normal.value)
  {
    if |t.token| < MIN_TOKEN_LEN {
      return None;
    }
    if main.Some? && t.token == main.value {
      return None;
    }
    for j := 0 to |machines|
      invariant forall k :: 0 <= k < j ==> machines[k].token != t.token
    {
      if t.token == machines[j].token {
        return None;
      }
    }
    match BindingOf(t.fromAgent)
    case None => return None;
    case Some(binding) => return Some(t.(fromAgent := binding));
  }

  method FindSharedSecret(tokens: seq<AgentToken>) returns (clash: Option<(nat, nat)>)
    ensures clash.None? <==> forall i, j :: 0 <= i < j < |tokens| ==> tokens[i].token != tokens[j].token
    ensures clash.Some? ==>
              && clash.value.0 < clash.value.1 < |tokens|
              && tokens[clash.value.0].token == tokens[clash.value.1].token
  {
    for i := 0 to |tokens|
      invariant forall k, j :: 0 <= k < i && k < j < |tokens| ==> tokens[k].token != tokens[j].token
    {
      for j := i + 1 to |tokens|
        invariant forall k :: i < k < j ==> tokens[i].token != tokens[k].token
      {
        if tokens[i].token == tokens[j].token {
          return Some((i, j));
        }
      }
    }
    return None;
  }

  /** A refused list is refused for a reason; an accepted one is returned with
      every binding normalised in place. */
  method ParseAgentTokens(config: Config<AgentToken>, main: Option<Secret>, machines: seq<MachineToken>)
    returns (r: Result<seq<AgentToken>, ConfigError>)
    ensures r.Ok? <==> config.Unset? || (config.Listed? && AgentListOk(config.tokens, main, machines))
    ensures config.Unset? ==> r == Ok([])
    ensures r.Ok? && config.Listed? ==>
              && |r.value| == |config.tokens|
              && forall i :: 0 <= i < |r.value| ==> Normalises(config.tokens[i], r.value[i])
    ensures r.Err? && r.error.NotAList? <==> config.Malformed?
    ensures r.Err? && r.error.BadEntry? ==>
              && r.error.index < |config.tokens|
              && !AgentTokenOk(config.tokens[r.error.index], main, machines)
    ensures r.Err? && r.error.SharedSecret? ==>
              && r.error.first < r.error.second < |config.tokens|
              && config.tokens[r.error.first].token == config.tokens[r.error.second].token
  {
    match config
    case Unset => return Ok([]);
    case Malformed => return Err(NotAList);
    case Listed(given) =>
      var tokens := given;
      for i := 0 to |tokens|
        invariant |tokens| == |given|
        invariant forall k :: 0 <= k < i ==> AgentTokenOk(given[k], main, machines)
        invariant forall k :: 0 <= k < i ==> Normalises(given[k], tokens[k])
        invariant forall k :: i <= k < |tokens| ==> tokens[k] == given[k]
      {
        var normal := CheckAgentToken(tokens[i], main, machines);
        match normal
        case None => return Err(BadEntry(i));
        case Some(t) => tokens := tokens[i := t];
      }
      assert forall k :: 0 <= k < |given| ==> tokens[k].token == given[k].token;
      var clash := FindSharedSecret(tokens);
      match clash
      case Some((i, j)) => return Err(SharedSecret(i, j));
      case None => return Ok(tokens);
  }

  /** A stored binding is already normal: loading it again changes nothing. */
  lemma {:induction false} NormalisingIsIdempotent(fromAgent: string)
    requires BindingOf(fromAgent).Some?
    ensures BindingOf(BindingOf(fromAgent).value) == BindingOf(fromAgent)
  {
    var binding := BindingOf(fromAgent).value;
    if IsFamily(Trim(fromAgent)) {
      var base := binding[..|binding| - 2];
      assert IsFamily(binding) && ValidSlug(base);
      assert !IsWhite(binding[0]) && !IsWhite(binding[|binding| - 1]);
      assert TrimStart(binding) == binding && TrimEnd(binding) == binding;
      ValidSlugIsTrimmed(base);
    } else {
      ValidSlugIsTrimmed(binding);
      ValidSlugIsNoFamily(binding);
    }
  }

  /** A machine token's sender is validated trimmed but kept as given, so what
      it stamps on its filings is a valid slug only if it was not padded. */
  lemma {:induction false} MachineSenderIsKeptAsGiven(t: MachineToken, main: Option<Secret>)
    requires MachineTokenOk(t, main)
    ensures ValidSlug(t.fromAgent) <==> Trim(t.fromAgent) == t.fromAgent
  {
  }

  const PADDED_SENDER: Text := "cron "

  lemma {:induction false} PaddedSenderTrims()
    ensures Trim(PADDED_SENDER) == "cron" && !ValidSlug(PADDED_SENDER)
  {
    assert TrimStart(PADDED_SENDER) == PADDED_SENDER;
    assert PADDED_SENDER[..4] == "cron" && PADDED_SENDER[4] == ' ';
    assert TrimEnd("cron") == "cron";
  }

  /** A padded sender passes the check of a server that has a main token. */
  lemma {:induction false} PaddedMachineSenderIsAccepted(secret: Secret, main: Secret)
    requires |secret| == MIN_TOKEN_LEN && main != secret
    ensures var t := MachineToken(secret, PADDED_SENDER, None, ["ops"], ["create"]);
            MachineTokenOk(t, Some(main)) && !ValidSlug(t.fromAgent)
  {
    PaddedSenderTrims();
    ValidSlugIsTrimmed("ops");
  }

  /** Names on an allowlist are compared as given with a trimmed recipient, so an
      accepted entry allows some recipient exactly when it was not padded. */
  lemma {:induction false} PaddedAllowlistEntryAllowsNobody(entry: Text)
    requires ValidSlug(Trim(entry))
    ensures (exists recipient: Text :: ValidSlug(recipient) && EqFold(entry, recipient)) <==> Trim(entry) == entry
  {
    forall recipient: Text | ValidSlug(recipient) && EqFold(entry, recipient)
      ensures Trim(entry) == entry
    {
      FoldOfSlugIsSlug(entry, recipient);
      ValidSlugIsTrimmed(entry);
    }
    if Trim(entry) == entry {
      assert EqFold(entry, entry);
    }
  }

  lemma {:induction false} FoldOfSlugIsSlug(entry: Text, slug: Text)
    requires ValidSlug(slug) && EqFold(entry, slug)
    ensures ValidSlug(entry)
  {
    assert |entry| == |Lower(entry)| == |Lower(slug)| == |slug|;
    forall i | 0 <= i < |entry|
      ensures SlugChar(entry[i])
    {
      assert LowerChar(entry[i]) == Lower(entry)[i] == LowerChar(slug[i]);
    }
  }

  const PADDED_ENTRY: Text := "ops "

  lemma {:induction false} PaddedEntryTrims()
    ensures Trim(PADDED_ENTRY) == "ops" && Trim(PADDED_ENTRY) != PADDED_ENTRY
  {
    assert TrimStart(PADDED_ENTRY) == PADDED_ENTRY;
    assert PADDED_ENTRY[..3] == "ops" && PADDED_ENTRY[3] == ' ';
    assert TrimEnd("ops") == "ops";
  }

  /** A token that may file to nobody passes the check. */
  lemma {:induction false} PaddedAllowlistIsAccepted(secret: Secret, main: Secret)
    requires |secret| == MIN_TOKEN_LEN && main != secret
    ensures MachineTokenOk(MachineToken(secret, "cron", None, [PADDED_ENTRY], ["create"]), Some(main))
  {
    PaddedEntryTrims();
    ValidSlugIsTrimmed("cron");
  }

  // ---------- classifying a request ----------

  datatype AuthState = AuthState(
    main: Option<Secret>,
    machines: seq<MachineToken>,
    agents: seq<AgentToken>)

  datatype CallerClass = Full | Machine(machine: MachineToken) | Agent(agent: AgentToken)

  datatype Refusal =
    | NoCredential
    | Unrecognised
    | NotAMachineEndpoint
    | MissingScope(scope: string)
    | NotAnInteractiveRequest

  datatype Verdict = Public | As(class_: CallerClass) | Refused(why: Refusal)

  /** One entry per `Authorization` header: the bearer token it holds, if any. */
  datatype Request = Request(verb: string, path: string, authorization: seq<Option<Secret>>)

  function Bearer(r: Request): Option<Secret> {
    if r.authorization == [] then None else r.authorization[0]
  }

  predicate IsProbe(path: string) {
    path == "/health" || path == "/ready"
  }

  predicate IsMcp(path: string) {
    path == "/mcp" || "/mcp/" <= path
  }

  function RequiredMachineScope(verb: string, path: string): Option<string> {
    if verb == "POST" && path == "/api/handoff" then Some("create")
    else if verb == "GET" && path == "/api/pending" then Some("read")
    else None
  }

  function FirstMatch<T>(accept: T -> bool, xs: seq<T>): Option<T> {
    if xs == [] then None
    else if accept(xs[0]) then Some(xs[0])
    else FirstMatch(accept, xs[1..])
  }

  function HoldsMachine(presented: Secret): MachineToken -> bool {
    (t: MachineToken) => ValidateToken(presented, t.token)
  }

  function HoldsAgent(presented: Secret): AgentToken -> bool {
    (t: AgentToken) => ValidateToken(presented, t.token)
  }

  function AdmitMachine(t: MachineToken, r: Request): Verdict {
    match RequiredMachineScope(r.verb, r.path)
    case None => Refused(NotAMachineEndpoint)
    case Some(scope) => if scope in t.scopes then As(Machine(t)) else Refused(MissingScope(scope))
  }

  function AdmitAgent(t: AgentToken, r: Request): Verdict {
    if IsMcp(r.path) then As(Agent(t)) else Refused(NotAnInteractiveRequest)
  }

  function Recognise(auth: AuthState, main: Secret, presented: Secret, r: Request): Verdict {
    if ValidateToken(presented, main) then As(Full)
    else
      var machine := FirstMatch(HoldsMachine(presented), auth.machines);
      if machine.Some? then AdmitMachine(machine.value, r)
      else
        var agent := FirstMatch(HoldsAgent(presented), auth.agents);
        if agent.Some? then AdmitAgent(agent.value, r) else Refused(Unrecognised)
  }

  /** `bearer_auth`. */
  function Classify(auth: AuthState, r: Request): Verdict {
    if IsProbe(r.path) then Public
    else if auth.main.None? then As(Full)
    else if Bearer(r).None? then Refused(NoCredential)
    else Recognise(auth, auth.main.value, Bearer(r).value, r)
  }

  // ---------- a secret names one credential ----------

  /** What loading guarantees about the whole credential set. */
  predicate WellKeyed(auth: AuthState) {
    && MachineListOk(auth.machines, auth.main)
    && (forall t :: t in auth.agents ==> AgentTokenOk(t, auth.main, auth.machines))
    && (forall t :: t in auth.agents ==> IsAscii(t.fromAgent) && ValidBinding(t.fromAgent))
    && (forall i, j :: 0 <= i < j < |auth.agents| ==> auth.agents[i].token != auth.agents[j].token)
  }

  function TokensOf<T>(config: Config<T>): seq<T> {
    if config.Listed? then config.tokens else []
  }

  /** The configurations that start. */
  predicate Loadable(main: Option<Secret>, machineConfig: Config<MachineToken>, agentConfig: Config<AgentToken>) {
    && !machineConfig.Malformed? && !agentConfig.Malformed?
    && MachineListOk(TokensOf(machineConfig), main)
    && AgentListOk(TokensOf(agentConfig), main, TokensOf(machineConfig))
    && (main.None? ==> TokensOf(machineConfig) == [] && TokensOf(agentConfig) == [])
  }

  /** Startup: both lists are read and cross-checked, or nothing is served. */
  method LoadAuth(main: Option<Secret>, machineConfig: Config<MachineToken>, agentConfig: Config<AgentToken>)
    returns (r: Result<AuthState, ConfigError>)
    ensures r.Ok? <==> Loadable(main, machineConfig, agentConfig)
    ensures r.Ok? ==> WellKeyed(r.value) && r.value.main == main && r.value.machines == TokensOf(machineConfig)
    ensures r.Ok? ==>
              && |r.value.agents| == |TokensOf(agentConfig)|
              && forall i :: 0 <= i < |r.value.agents| ==>
                   var given, stored := TokensOf(agentConfig)[i], r.value.agents[i];
                   && Normalises(given, stored)
                   && (stored.token, stored.client, stored.excludeClientData)
                      == (given.token, given.client, given.excludeClientData)
  {
    var machines := ParseMachineTokens(machineConfig, main);
    if machines.Err? {
      return Err(machines.error);
    }
    var agents := ParseAgentTokens(agentConfig, main, machines.value);
    if agents.Err? {
      return Err(agents.error);
    }
    if main.None? && !(machines.value == [] && agents.value == []) {
      return Err(ScopedWithoutMain);
    }
    if agentConfig.Listed? {
      forall i | 0 <= i < |agents.value|
        ensures AgentTokenOk(agents.value[i], main, machines.value)
        ensures IsAscii(agents.value[i].fromAgent) && ValidBinding(agents.value[i].fromAgent)
      {
        assert agentConfig.tokens[i] in agentConfig.tokens;
        NormalisingIsIdempotent(agentConfig.tokens[i].fromAgent);
      }
    }
    return Ok(AuthState(main, machines.value, agents.value));
  }

  ghost predicate AtMostOne<T(!new)>(accept: T -> bool, xs: seq<T>) {
    forall x, y :: x in xs && y in xs && accept(x) && accept(y) ==> x == y
  }

  lemma {:induction false} FirstMatchMeaning<T(!new)>(accept: T -> bool, xs: seq<T>)
    ensures FirstMatch(accept, xs).None? <==> forall x :: x in xs ==> !accept(x)
    ensures FirstMatch(accept, xs).Some? ==> FirstMatch(accept, xs).value in xs && accept(FirstMatch(accept, xs).value)
  {
    if xs != [] {
      FirstMatchMeaning(accept, xs[1..]);
      assert xs == [xs[0]] + xs[1..];
    }
  }

  /** When at most one value matches, the first match does not depend on order. */
  lemma {:induction false} FirstMatchIgnoresOrder<T(!new)>(accept: T -> bool, xs: seq<T>, ys: seq<T>)
    requires multiset(xs) == multiset(ys)
    requires AtMostOne(accept, xs)
    ensures FirstMatch(accept, xs) == FirstMatch(accept, ys)
  {
    FirstMatchMeaning(accept, xs);
    FirstMatchMeaning(accept, ys);
    forall x
      ensures x in xs <==> x in ys
    {
      assert x in multiset(xs) <==> x in multiset(ys);
    }
  }

  /** What a presented secret can stand for. */
  datatype Credential = MainBearer | MachineBearer(machine: MachineToken) | AgentBearer(agent: AgentToken)

  predicate Presents(auth: AuthState, presented: Secret, c: Credential) {
    match c
    case MainBearer => auth.main.Some? && ValidateToken(presented, auth.main.value)
    case MachineBearer(t) => t in auth.machines && ValidateToken(presented, t.token)
    case AgentBearer(t) => t in auth.agents && ValidateToken(presented, t.token)
  }

  /** A presented secret matches at most one configured credential. */
  lemma {:induction false} SecretNamesOneCredential(auth: AuthState, presented: Secret, a: Credential, b: Credential)
    requires WellKeyed(auth) && Presents(auth, presented, a) && Presents(auth, presented, b)
    ensures a == b
  {
    if auth.main.Some? { ValidatesExactly(presented, auth.main.value); }
    if a.MachineBearer? { ValidatesExactly(presented, a.machine.token); }
    if a.AgentBearer? { ValidatesExactly(presented, a.agent.token); }
    if b.MachineBearer? { ValidatesExactly(presented, b.machine.token); }
    if b.AgentBearer? { ValidatesExactly(presented, b.agent.token); }
  }

  lemma {:induction false} MatchesAreUnique(auth: AuthState, presented: Secret)
    requires WellKeyed(auth)
    ensures AtMostOne(HoldsMachine(presented), auth.machines)
    ensures AtMostOne(HoldsAgent(presented), auth.agents)
  {
    forall x, y | x in auth.machines && y in auth.machines && HoldsMachine(presented)(x) && HoldsMachine(presented)(y)
      ensures x == y
    {
      SecretNamesOneCredential(auth, presented, MachineBearer(x), MachineBearer(y));
    }
    forall x, y | x in auth.agents && y in auth.agents && HoldsAgent(presented)(x) && HoldsAgent(presented)(y)
      ensures x == y
    {
      SecretNamesOneCredential(auth, presented, AgentBearer(x), AgentBearer(y));
    }
  }

  /** Rearranging either list never changes how a request is classified. */
  lemma {:induction false} OrderIsImmaterial(auth: AuthState, other: AuthState, r: Request)
    requires WellKeyed(auth) && other.main == auth.main
    requires multiset(other.machines) == multiset(auth.machines)
    requires multiset(other.agents) == multiset(auth.agents)
    ensures Classify(other, r) == Classify(auth, r)
  {
    if Bearer(r).Some? {
      var presented := Bearer(r).value;
      MatchesAreUnique(auth, presented);
      FirstMatchIgnoresOrder(HoldsMachine(presented), auth.machines, other.machines);
      FirstMatchIgnoresOrder(HoldsAgent(presented), auth.agents, other.agents);
    }
  }

  /** With a main token configured and outside the probes, each class is reached
      by exactly its own secret, and only on its own endpoints. */
  lemma {:induction false} ClassesAreExact(auth: AuthState, r: Request, m: MachineToken, a: AgentToken)
    requires WellKeyed(auth) && auth.main.Some? && !IsProbe(r.path)
    ensures Classify(auth, r) == As(Full) <==> Bearer(r) == auth.main != Some([])
    ensures Classify(auth, r) == As(Machine(m)) <==>
            && m in auth.machines && Bearer(r) == Some(m.token)
            && ((r.verb == "POST" && r.path == "/api/handoff" && "create" in m.scopes)
                || (r.verb == "GET" && r.path == "/api/pending" && "read" in m.scopes))
    ensures Classify(auth, r) == As(Agent(a)) <==>
            && a in auth.agents && Bearer(r) == Some(a.token)
            && (r.path == "/mcp" || "/mcp/" <= r.path)
  {
    if Bearer(r).Some? {
      var presented := Bearer(r).value;
      ValidatesExactly(presented, auth.main.value);
      ValidatesExactly(presented, m.token);
      ValidatesExactly(presented, a.token);
      FirstMatchMeaning(HoldsMachine(presented), auth.machines);
      FirstMatchMeaning(HoldsAgent(presented), auth.agents);
      var machine := FirstMatch(HoldsMachine(presented), auth.machines);
      var agent := FirstMatch(HoldsAgent(presented), auth.agents);
      if machine.Some? { ValidatesExactly(presented, machine.value.token); }
      if agent.Some? { ValidatesExactly(presented, agent.value.token); }
      MatchesAreUnique(auth, presented);
    }
  }

  /** Every agent class that reaches the tools is a caller with a valid binding. */
  lemma {:induction false} AgentsAreValidCallers(auth: AuthState, r: Request, t: AgentToken)
    requires WellKeyed(auth) && Classify(auth, r) == As(Agent(t))
    ensures IsAscii(t.fromAgent) && ValidCaller(Bound(t.fromAgent, t.excludeClientData))
  {
    FirstMatchMeaning(HoldsAgent(Bearer(r).value), auth.agents);
  }

  /** Every refusal says which check failed: no bearer token, a secret nobody
      holds, a machine off its two endpoints or without their scope, an agent off
      the tool endpoint. */
  lemma {:induction false} RefusalsAreExact(auth: AuthState, r: Request, m: MachineToken, a: AgentToken)
    requires WellKeyed(auth) && auth.main.Some? && !IsProbe(r.path)
    ensures Classify(auth, r) == Refused(NoCredential) <==> Bearer(r).None?
    ensures Classify(auth, r) == Refused(Unrecognised) <==>
            Bearer(r).Some? && forall c :: !Presents(auth, Bearer(r).value, c)
    ensures m in auth.machines && Bearer(r) == Some(m.token) ==>
              var filing := r.verb == "POST" && r.path == "/api/handoff";
              var polling := r.verb == "GET" && r.path == "/api/pending";
              && (Classify(auth, r) == Refused(NotAMachineEndpoint) <==> !filing && !polling)
              && (Classify(auth, r) == Refused(MissingScope("create")) <==> filing && "create" !in m.scopes)
              && (Classify(auth, r) == Refused(MissingScope("read")) <==> polling && "read" !in m.scopes)
    ensures a in auth.agents && Bearer(r) == Some(a.token) ==>
              (Classify(auth, r) == Refused(NotAnInteractiveRequest) <==> !(r.path == "/mcp" || "/mcp/" <= r.path))
  {
    if Bearer(r).Some? {
      UnrecognisedExactly(auth, Bearer(r).value, r);
      if m in auth.machines && Bearer(r) == Some(m.token) {
        ValidatesExactly(m.token, m.token);
        OnlyMachine(auth, m.token, m);
      }
      if a in auth.agents && Bearer(r) == Some(a.token) {
        ValidatesExactly(a.token, a.token);
        OnlyAgent(auth, a.token, a);
      }
    }
  }

  lemma {:induction false} UnrecognisedExactly(auth: AuthState, presented: Secret, r: Request)
    requires auth.main.Some?
    ensures Recognise(auth, auth.main.value, presented, r) == Refused(Unrecognised) <==>
            forall c :: !Presents(auth, presented, c)
  {
    FirstMatchMeaning(HoldsMachine(presented), auth.machines);
    FirstMatchMeaning(HoldsAgent(presented), auth.agents);
    var machine := FirstMatch(HoldsMachine(presented), auth.machines);
    var agent := FirstMatch(HoldsAgent(presented), auth.agents);
    assert machine.Some? ==> Presents(auth, presented, MachineBearer(machine.value));
    assert agent.Some? ==> Presents(auth, presented, AgentBearer(agent.value));
    assert ValidateToken(presented, auth.main.value) ==> Presents(auth, presented, MainBearer);
  }

  lemma {:induction false} OnlyMachine(auth: AuthState, presented: Secret, m: MachineToken)
    requires WellKeyed(auth) && auth.main.Some? && Presents(auth, presented, MachineBearer(m))
    ensures !ValidateToken(presented, auth.main.value)
    ensures FirstMatch(HoldsMachine(presented), auth.machines) == Some(m)
  {
    ValidatesExactly(presented, auth.main.value);
    ValidatesExactly(presented, m.token);
    MatchesAreUnique(auth, presented);
    FirstMatchMeaning(HoldsMachine(presented), auth.machines);
  }

  lemma {:induction false} OnlyAgent(auth: AuthState, presented: Secret, a: AgentToken)
    requires WellKeyed(auth) && auth.main.Some? && Presents(auth, presented, AgentBearer(a))
    ensures !ValidateToken(presented, auth.main.value)
    ensures FirstMatch(HoldsMachine(presented), auth.machines).None?
    ensures FirstMatch(HoldsAgent(presented), auth.agents) == Some(a)
  {
    FirstMatchMeaning(HoldsMachine(presented), auth.machines);
    FirstMatchMeaning(HoldsAgent(presented), auth.agents);
    forall c | Presents(auth, presented, c) ensures c == AgentBearer(a) {
      SecretNamesOneCredential(auth, presented, c, AgentBearer(a));
    }
    AgentExcludes(auth, presented, a);
  }

  /** Nothing but the agent itself matches. */
  lemma {:induction false} AgentExcludes(auth: AuthState, presented: Secret, a: AgentToken)
    requires forall c :: Presents(auth, presented, c) ==> c == AgentBearer(a)
    ensures auth.main.Some? ==> !ValidateToken(presented, auth.main.value)
    ensures forall m :: m in auth.machines ==> !HoldsMachine(presented)(m)
    ensures forall other :: other in auth.agents && HoldsAgent(presented)(other) ==> other == a
  {
    assert !Presents(auth, presented, MainBearer);
    forall m | m in auth.machines ensures !HoldsMachine(presented)(m) {
      assert !Presents(auth, presented, MachineBearer(m));
    }
    forall other | other in auth.agents && HoldsAgent(presented)(other) ensures other == a {
      assert Presents(auth, presented, AgentBearer(other));
    }
  }

  // ---------- which single entries start ----------

  /** A server with a main token and one machine token starts exactly when the
      machine's secret is long and its own, its names are slugs once trimmed, its
      allowlist is not empty, and it has scopes out of the two there are. */
  lemma {:induction false} MachineStartsExactly(t: MachineToken, main: Secret)
    ensures Loadable(Some(main), Listed([t]), Unset) <==>
            && |t.token| >= 32 && t.token != main
            && ValidSlug(Trim(t.fromAgent))
            && |t.agents| > 0 && (forall i :: 0 <= i < |t.agents| ==> ValidSlug(Trim(t.agents[i])))
            && |t.scopes| > 0 && (forall i :: 0 <= i < |t.scopes| ==> t.scopes[i] in ["create", "read"])
  {
    assert t in [t];
    if MachineTokenOk(t, Some(main)) {
      forall i | 0 <= i < |t.agents| ensures ValidSlug(Trim(t.agents[i])) { assert t.agents[i] in t.agents; }
      forall i | 0 <= i < |t.scopes| ensures t.scopes[i] in ["create", "read"] { assert KnownScope(t.scopes[i]); }
    }
  }

  /** The binding is the configured name, trimmed, or for a family its trimmed base
      and the same `-*`; there is one exactly when that name or base is a slug. */
  lemma {:induction false} BindingIsConfiguredName(fromAgent: string, base: string)
    ensures !IsFamily(Trim(fromAgent)) ==>
              && (BindingOf(fromAgent).Some? <==> ValidSlug(Trim(fromAgent)))
              && (BindingOf(fromAgent).Some? ==> BindingOf(fromAgent).value == Trim(fromAgent))
    ensures Trim(fromAgent) == base + "-*" ==>
              && (BindingOf(fromAgent).Some? <==> ValidSlug(Trim(base)))
              && (BindingOf(fromAgent).Some? ==> BindingOf(fromAgent).value == Trim(base) + "-*")
  {
    var raw := Trim(fromAgent);
    if !IsFamily(raw) {
      TrimIdempotent(fromAgent);
    }
    if raw == base + "-*" {
      assert IsFamily(raw) && raw[..|raw| - 2] == base;
    }
  }

  /** A server with a main token and one agent token starts exactly when the
      agent's secret is long and its own and its name gives a binding. */
  lemma {:induction false} AgentStartsExactly(t: AgentToken, main: Secret)
    ensures Loadable(Some(main), Unset, Listed([t])) <==>
            |t.token| >= 32 && t.token != main && BindingOf(t.fromAgent).Some?
  {
    assert t in [t];
  }

  /** A server without a main token has no other credentials and asks for none. */
  lemma {:induction false} OpenServersAskNothing(
      auth: AuthState, machines: Config<MachineToken>, agents: Config<AgentToken>, r: Request)
    requires Loadable(None, machines, agents) && auth.main.None?
    ensures TokensOf(machines) == [] && TokensOf(agents) == []
    ensures Classify(auth, r) == if r.path == "/health" || r.path == "/ready" then Public else As(Full)
  {
  }

  /** The two probes, and they alone, pass without a credential being looked at. */
  lemma {:induction false} OnlyProbesArePublic(auth: AuthState, r: Request)
    ensures Classify(auth, r) == Public <==> r.path == "/health" || r.path == "/ready"
  {
    if auth.main.Some? && Bearer(r).Some? {
      RecognitionIsNotPublic(auth, auth.main.value, Bearer(r).value, r);
    }
  }

  lemma {:induction false} RecognitionIsNotPublic(auth: AuthState, main: Secret, presented: Secret, r: Request)
    ensures !Recognise(auth, main, presented, r).Public?
  {
  }
}
