/** The JWKS cache of the OAuth resource server (`src/oauth.rs`): parsing a key
    set, and a locked cache with a lifetime and a global refresh cooldown. */
module Jwks {
  import opened Prelude

  /** Nanoseconds on a monotonic clock. */
  type Instant = nat

  const SECOND: nat := 1_000_000_000
  const CACHE_TTL: nat := 300 * SECOND
  const REFRESH_COOLDOWN: nat := 30 * SECOND

  const MAX_JWKS_BYTES := 262_144
  const MAX_JWKS_KEYS := 64

  datatype Algorithm = RS256 | ES256

  /** `material` stands for the decoded public key. */
  datatype VerificationKey = VerificationKey(kid: string, algorithm: Algorithm, material: string)

  // ---------- parsing ----------

  datatype Json = Str(text: string) | Arr(items: seq<Json>) | Other

  /** One entry of the key set; `decoded` is the outcome of decoding its key
      parameters. */
  datatype Jwk = Jwk(
    use: Option<Json>,
    keyOps: Option<Json>,
    kty: Option<Json>,
    crv: Option<Json>,
    alg: Option<Json>,
    kid: Option<Json>,
    decoded: Option<string>)

  /** The algorithm a usable signature key is bound to; `None` for entries that
      are passed over: encryption keys, other types, a contradicting `alg`. */
  function CandidateAlgorithm(k: Jwk): Option<Algorithm> {
    if k.use.Some? && k.use != Some(Str("sig")) then None
    else if k.keyOps.Some? && !(k.keyOps.value.Arr? && Str("verify") in k.keyOps.value.items) then None
    else if k.kty == Some(Str("RSA")) then
      (if k.alg.Some? && k.alg != Some(Str("RS256")) then None else Some(RS256))
    else if k.kty == Some(Str("EC")) && k.crv == Some(Str("P-256")) then
      (if k.alg.Some? && k.alg != Some(Str("ES256")) then None else Some(ES256))
    else None
  }

  /** A candidate must carry a usable key id and decode. */
  predicate WellFormed(k: Jwk) {
    k.kid.Some? && k.kid.value.Str? && 0 < ByteLength(k.kid.value.text) <= 256 && k.decoded.Some?
  }

  predicate IsCandidate(k: Jwk) {
    CandidateAlgorithm(k).Some?
  }

  function KidOf(k: Jwk): string {
    if k.kid.Some? && k.kid.value.Str? then k.kid.value.text else ""
  }

  function VerifierOf(k: Jwk): VerificationKey
    requires IsCandidate(k)
  {
    VerificationKey(KidOf(k), CandidateAlgorithm(k).value, if k.decoded.Some? then k.decoded.value else "")
  }

  /** The candidates of a key set, in order. */
  function Verifiers(entries: seq<Jwk>): seq<VerificationKey> {
    if entries == [] then []
    else
      var n := |entries| - 1;
      if IsCandidate(entries[n]) then Verifiers(entries[..n]) + [VerifierOf(entries[n])] else Verifiers(entries[..n])
  }

  predicate UniqueKids(keys: seq<VerificationKey>) {
    forall i, j :: 0 <= i < j < |keys| ==> keys[i].kid != keys[j].kid
  }

  /** The key sets that are accepted whole; one bad candidate rejects the set. */
  predicate Acceptable(bodyBytes: nat, document: Option<seq<Jwk>>) {
    && bodyBytes <= MAX_JWKS_BYTES
    && document.Some?
    && 1 <= |document.value| <= MAX_JWKS_KEYS
    && (forall k :: k in document.value && IsCandidate(k) ==> WellFormed(k))
    && UniqueKids(Verifiers(document.value))
    && Verifiers(document.value) != []
  }

  lemma {:induction false} VerifiersSnoc(entries: seq<Jwk>, n: nat)
    requires n < |entries|
    ensures Verifiers(entries[..n + 1]) ==
            if IsCandidate(entries[n]) then Verifiers(entries[..n]) + [VerifierOf(entries[n])] else Verifiers(entries[..n])
  {
    assert entries[..n + 1][..n] == entries[..n];
  }

  lemma {:induction false} VerifiersPrefix(entries: seq<Jwk>, n: nat)
    requires n <= |entries|
    ensures Verifiers(entries[..n]) <= Verifiers(entries)
    decreases |entries| - n
  {
    if n == |entries| {
      assert entries[..n] == entries;
    } else {
      VerifiersPrefix(entries, n + 1);
      VerifiersSnoc(entries, n);
    }
  }

  method ParseKeys(bodyBytes: nat, document: Option<seq<Jwk>>) returns (r: Option<seq<VerificationKey>>)
    ensures r.Some? <==> Acceptable(bodyBytes, document)
    ensures r.Some? ==> r.value == Verifiers(document.value)
  {
    if bodyBytes > MAX_JWKS_BYTES || document.None? {
      return None;
    }
    var entries := document.value;
    if entries == [] || |entries| > MAX_JWKS_KEYS {
      return None;
    }
    var parsed: seq<VerificationKey> := [];
    var ids: set<string> := {};
    for n := 0 to |entries|
      invariant forall k :: k in entries[..n] && IsCandidate(k) ==> WellFormed(k)
      invariant parsed == Verifiers(entries[..n]) && UniqueKids(parsed)
      invariant forall kid :: kid in ids <==> exists i :: 0 <= i < |parsed| && parsed[i].kid == kid
    {
      var k := entries[n];
      assert entries[..n + 1] == entries[..n] + [k];
      VerifiersSnoc(entries, n);
      if !IsCandidate(k) {
        continue;
      }
      if !WellFormed(k) {
        assert k in entries;
        return None;
      }
      if KidOf(k) in ids {
        RepeatedKidRejects(entries, n);
        return None;
      }
      ids := ids + {KidOf(k)};
      var parsed' := parsed + [VerifierOf(k)];
      assert parsed'[|parsed|].kid == KidOf(k);
      assert forall i :: 0 <= i < |parsed| ==> parsed'[i] == parsed[i];
      parsed := parsed';
    }
    assert entries[..|entries|] == entries;
    r := if parsed == [] then None else Some(parsed);
  }

  lemma {:induction false} RepeatedKidRejects(entries: seq<Jwk>, n: nat)
    requires n < |entries| && IsCandidate(entries[n])
    requires exists i :: 0 <= i < |Verifiers(entries[..n])| && Verifiers(entries[..n])[i].kid == KidOf(entries[n])
    ensures !UniqueKids(Verifiers(entries))
  {
    VerifiersPrefix(entries, n + 1);
    VerifiersSnoc(entries, n);
    var before, all := Verifiers(entries[..n]), Verifiers(entries);
    var i :| 0 <= i < |before| && before[i].kid == KidOf(entries[n]);
    assert all[i] == before[i] && all[|before|].kid == KidOf(entries[n]);
  }

  function NameOf(algorithm: Algorithm): string {
    if algorithm.RS256? then "RS256" else "ES256"
  }

  /** The entry may verify signatures of this algorithm and of no other: an RSA
      key RS256, a P-256 key ES256, not marked for another use. */
  predicate Verifies(k: Jwk, algorithm: Algorithm) {
    && (k.use == None || k.use == Some(Str("sig")))
    && (k.keyOps.Some? ==> k.keyOps.value.Arr? && Str("verify") in k.keyOps.value.items)
    && (k.alg == None || k.alg == Some(Str(NameOf(algorithm))))
    && match algorithm
       case RS256 => k.kty == Some(Str("RSA"))
       case ES256 => k.kty == Some(Str("EC")) && k.crv == Some(Str("P-256"))
  }

  lemma {:induction false} CandidateVerifies(k: Jwk, algorithm: Algorithm)
    ensures CandidateAlgorithm(k) == Some(algorithm) <==> Verifies(k, algorithm)
  {
    assert forall s: string, t: string :: s != t ==> Str(s) != Str(t);
    assert "RS256"[0] != "ES256"[0] && "RSA"[0] != "EC"[0];
  }

  /** Every key of an accepted set comes from an entry fit for its algorithm, under
      that entry's id and with its decoded key, and every such entry is there. */
  lemma {:induction false} AcceptedKeysAreBound(bodyBytes: nat, entries: seq<Jwk>, v: VerificationKey)
    requires Acceptable(bodyBytes, Some(entries))
    ensures v in Verifiers(entries) <==>
            exists k :: && k in entries && Verifies(k, v.algorithm)
                        && k.kid == Some(Str(v.kid)) && k.decoded == Some(v.material)
  {
    VerifierMembers(entries, v);
    forall k | k in entries
      ensures IsCandidate(k) && VerifierOf(k) == v <==>
              Verifies(k, v.algorithm) && k.kid == Some(Str(v.kid)) && k.decoded == Some(v.material)
    {
      CandidateVerifies(k, v.algorithm);
    }
  }

  /** The entry may verify signatures of some algorithm. */
  predicate Usable(k: Jwk) {
    Verifies(k, RS256) || Verifies(k, ES256)
  }

  lemma {:induction false} UsableIsCandidate(k: Jwk)
    ensures Usable(k) <==> IsCandidate(k)
  {
    CandidateVerifies(k, RS256);
    CandidateVerifies(k, ES256);
    if IsCandidate(k) {
      var algorithm := CandidateAlgorithm(k).value;
      assert algorithm == RS256 || algorithm == ES256;
    }
  }

  /** The entry has a short, non-empty id and a key that decodes. */
  predicate Sound(k: Jwk) {
    k.kid.Some? && k.kid.value.Str? && k.kid.value.text != "" && ByteLength(k.kid.value.text) <= 256 && k.decoded.Some?
  }

  lemma {:induction false} EmptyHasNoBytes(s: string)
    ensures ByteLength(s) > 0 <==> s != ""
  {
  }

  /** No usable entry repeats the id of an earlier one. */
  predicate DistinctIds(entries: seq<Jwk>) {
    forall i, j :: 0 <= i < j < |entries| && Usable(entries[i]) && Usable(entries[j]) ==> KidOf(entries[i]) != KidOf(entries[j])
  }

  lemma {:induction false} UniqueKidsSnoc(keys: seq<VerificationKey>, v: VerificationKey)
    ensures UniqueKids(keys + [v]) <==> UniqueKids(keys) && forall k :: k in keys ==> k.kid != v.kid
  {
    var all := keys + [v];
    assert all[|keys|] == v && forall i :: 0 <= i < |keys| ==> all[i] == keys[i];
    if UniqueKids(all) {
      forall k | k in keys ensures k.kid != v.kid {
        var i :| 0 <= i < |keys| && keys[i] == k;
        assert all[i] == k;
      }
    }
  }

  lemma {:induction false} KidInVerifiers(entries: seq<Jwk>, kid: string)
    ensures (exists v :: v in Verifiers(entries) && v.kid == kid) <==>
            exists i :: 0 <= i < |entries| && Usable(entries[i]) && KidOf(entries[i]) == kid
  {
    forall k | k in entries ensures Usable(k) <==> IsCandidate(k) {
      UsableIsCandidate(k);
    }
    if v :| v in Verifiers(entries) && v.kid == kid {
      VerifierMembers(entries, v);
      var k :| k in entries && IsCandidate(k) && VerifierOf(k) == v;
      var i :| 0 <= i < |entries| && entries[i] == k;
    }
    if i :| 0 <= i < |entries| && Usable(entries[i]) && KidOf(entries[i]) == kid {
      assert entries[i] in entries;
      VerifierMembers(entries, VerifierOf(entries[i]));
    }
  }

  lemma {:induction false} IdsAreDistinct(entries: seq<Jwk>)
    ensures UniqueKids(Verifiers(entries)) <==> DistinctIds(entries)
  {
    if entries != [] {
      var n := |entries| - 1;
      var before := entries[..n];
      IdsAreDistinct(before);
      UsableIsCandidate(entries[n]);
      if IsCandidate(entries[n]) {
        UniqueKidsSnoc(Verifiers(before), VerifierOf(entries[n]));
        KidInVerifiers(before, KidOf(entries[n]));
      }
    }
  }

  /** A key set is taken exactly when it is small, has 1 to 64 entries, some of them
      usable, and every usable one is sound and has an id of its own. */
  lemma {:induction false} KeySetsAreTakenExactly(bodyBytes: nat, entries: seq<Jwk>)
    ensures Acceptable(bodyBytes, Some(entries)) <==>
            && bodyBytes <= 262_144 && 1 <= |entries| <= 64
            && (exists k :: k in entries && Usable(k))
            && (forall k :: k in entries && Usable(k) ==> Sound(k))
            && DistinctIds(entries)
  {
    IdsAreDistinct(entries);
    forall k | k in entries ensures (Usable(k) <==> IsCandidate(k)) && (WellFormed(k) <==> Sound(k)) {
      UsableIsCandidate(k);
      if k.kid.Some? && k.kid.value.Str? {
        EmptyHasNoBytes(k.kid.value.text);
      }
    }
    if Verifiers(entries) != [] {
      VerifierMembers(entries, Verifiers(entries)[0]);
    }
    if k :| k in entries && IsCandidate(k) {
      VerifierMembers(entries, VerifierOf(k));
    }
  }

  lemma {:induction false} VerifierMembers(entries: seq<Jwk>, v: VerificationKey)
    ensures v in Verifiers(entries) <==> exists k :: k in entries && IsCandidate(k) && VerifierOf(k) == v
  {
    if entries != [] {
      var n := |entries| - 1;
      VerifierMembers(entries[..n], v);
      assert entries == entries[..n] + [entries[n]];
    }
  }

  // ---------- the cache ----------

  datatype Cache = Cache(keys: seq<VerificationKey>, fetchedAt: Option<Instant>, lastAttempt: Option<Instant>)

  const EMPTY := Cache([], None, None)

  /** How the refresh a lookup may start ends, and when. */
  datatype Fetch = Fetched(keys: seq<VerificationKey>) | Failed | Cancelled

  datatype Lookup = Lookup(kid: string, algorithm: Algorithm, now: Instant, fetch: Fetch, done: Instant)

  datatype Answer = Key(key: VerificationKey) | Denied | NoAnswer

  function Since(now: Instant, at: Instant): nat {
    if now < at then 0 else now - at
  }

  function FindKey(keys: seq<VerificationKey>, kid: string, algorithm: Algorithm): (found: Option<VerificationKey>)
    ensures found.Some? ==> found.value in keys && found.value.kid == kid && found.value.algorithm == algorithm
    ensures found.None? ==> forall k :: k in keys ==> !(k.kid == kid && k.algorithm == algorithm)
  {
    if keys == [] then None
    else if keys[0].kid == kid && keys[0].algorithm == algorithm then Some(keys[0])
    else FindKey(keys[1..], kid, algorithm)
  }

  function Reply(found: Option<VerificationKey>): Answer {
    if found.Some? then Key(found.value) else Denied
  }

  /** The key a fresh cache already holds. */
  function Cached(c: Cache, l: Lookup): Option<VerificationKey> {
    if c.fetchedAt.Some? && Since(l.now, c.fetchedAt.value) < CACHE_TTL then FindKey(c.keys, l.kid, l.algorithm) else None
  }

  /** The lookup starts a refresh. */
  predicate Attempts(c: Cache, l: Lookup) {
    Cached(c, l).None? && !(c.lastAttempt.Some? && Since(l.now, c.lastAttempt.value) < REFRESH_COOLDOWN)
  }

  function AfterFetch(c: Cache, l: Lookup): Cache {
    var tried := c.(lastAttempt := Some(l.now));
    if l.fetch.Fetched? then tried.(keys := l.fetch.keys, fetchedAt := Some(l.done)) else tried
  }

  function FetchAnswer(l: Lookup): Answer {
    match l.fetch
    case Fetched(keys) => Reply(FindKey(keys, l.kid, l.algorithm))
    case Failed => Denied
    case Cancelled => NoAnswer
  }

  function CacheAfter(c: Cache, l: Lookup): Cache {
    if Attempts(c, l) then AfterFetch(c, l) else c
  }

  function AnswerOf(c: Cache, l: Lookup): Answer {
    if Attempts(c, l) then FetchAnswer(l) else Reply(Cached(c, l))
  }

  /** The cache behind its lock: one lookup at a time, the refresh included. */
  class JwksCache {
    var keys: seq<VerificationKey>
    var fetchedAt: Option<Instant>
    var lastAttempt: Option<Instant>

    function Contents(): Cache
      reads this
    {
      Cache(keys, fetchedAt, lastAttempt)
    }

    constructor ()
      ensures Contents() == EMPTY
    {
      keys, fetchedAt, lastAttempt := [], None, None;
    }

    method KeyWithFetch(l: Lookup) returns (answer: Answer)
      modifies this
      ensures Contents() == CacheAfter(old(Contents()), l)
      ensures answer == AnswerOf(old(Contents()), l)
    {
      var fresh_ := fetchedAt.Some? && Since(l.now, fetchedAt.value) < CACHE_TTL;
      if fresh_ {
        var found := FindKey(keys, l.kid, l.algorithm);
        if found.Some? {
          return Key(found.value);
        }
      }
      if lastAttempt.Some? && Since(l.now, lastAttempt.value) < REFRESH_COOLDOWN {
        return Denied;
      }
      lastAttempt := Some(l.now);
      match l.fetch {
        case Failed => return Denied;
        case Cancelled => return NoAnswer;
        case Fetched(newKeys) =>
          keys := newKeys;
          fetchedAt := Some(l.done);
          var found := FindKey(keys, l.kid, l.algorithm);
          return if found.Some? then Key(found.value) else Denied;
      }
    }
  }

  // ---------- runs ----------

  /** Lookups in the order they take the lock, on a monotonic clock: each ends
      before the next begins. Fetched sets have passed `ParseKeys`. */
  predicate IsRun(run: seq<Lookup>) {
    && (forall i :: 0 <= i < |run| ==> run[i].now <= run[i].done)
    && (forall i, j :: 0 <= i < j < |run| ==> run[i].done <= run[j].now)
    && (forall i :: 0 <= i < |run| && run[i].fetch.Fetched? ==> UniqueKids(run[i].fetch.keys))
  }

  function CacheOf(run: seq<Lookup>): Cache {
    if run == [] then EMPTY else CacheAfter(CacheOf(run[..|run| - 1]), run[|run| - 1])
  }

  /** The lookup at position `i` started a refresh. */
  predicate Refreshes(run: seq<Lookup>, i: nat)
    requires i < |run|
  {
    Attempts(CacheOf(run[..i]), run[i])
  }

  /** Start times of the refreshes of a run. */
  function AttemptTimes(run: seq<Lookup>): seq<Instant> {
    if run == [] then []
    else
      var n := |run| - 1;
      var before := AttemptTimes(run[..n]);
      if Attempts(CacheOf(run[..n]), run[n]) then before + [run[n].now] else before
  }

  predicate Spaced(times: seq<Instant>) {
    forall i, j :: 0 <= i < j < |times| ==> times[i] + REFRESH_COOLDOWN <= times[j]
  }

  lemma {:induction false} RunPrefix(run: seq<Lookup>)
    requires IsRun(run) && run != []
    ensures IsRun(run[..|run| - 1])
  {
  }

  lemma {:induction false} AttemptsPrecede(run: seq<Lookup>, now: Instant)
    requires IsRun(run) && (run != [] ==> run[|run| - 1].now <= now)
    ensures forall i :: 0 <= i < |AttemptTimes(run)| ==> AttemptTimes(run)[i] <= now
  {
    if run != [] {
      RunPrefix(run);
      AttemptsPrecede(run[..|run| - 1], run[|run| - 1].now);
    }
  }

  lemma {:induction false} AttemptsAreSpaced(run: seq<Lookup>)
    requires IsRun(run)
    ensures Spaced(AttemptTimes(run))
    ensures var times := AttemptTimes(run);
            CacheOf(run).lastAttempt == if times == [] then None else Some(times[|times| - 1])
  {
    if run != [] {
      var n := |run| - 1;
      RunPrefix(run);
      AttemptsAreSpaced(run[..n]);
      AttemptsPrecede(run[..n], run[n].now);
      var times := AttemptTimes(run[..n]);
      if Attempts(CacheOf(run[..n]), run[n]) {
        forall i | 0 <= i < |times|
          ensures times[i] + REFRESH_COOLDOWN <= run[n].now
        {
          assert times[i] <= times[|times| - 1];
        }
      }
    }
  }

  function CountIn(times: seq<Instant>, lo: Instant, hi: Instant): nat {
    if times == [] then 0
    else
      var n := |times| - 1;
      CountIn(times[..n], lo, hi) + (if lo <= times[n] <= hi then 1 else 0)
  }

  lemma {:induction false} CountBelow(times: seq<Instant>, lo: Instant, hi: Instant, cut: int)
    requires forall i :: 0 <= i < |times| ==> times[i] <= cut
    ensures CountIn(times, lo, hi) <= if cut < lo then 0 else CountIn(times, lo, cut)
  {
    if times != [] {
      CountBelow(times[..|times| - 1], lo, hi, cut);
    }
  }

  lemma {:induction false} SpacedCount(times: seq<Instant>, lo: Instant, hi: Instant)
    requires Spaced(times) && lo <= hi
    ensures CountIn(times, lo, hi) <= (hi - lo) / REFRESH_COOLDOWN + 1
  {
    if times != [] {
      var n := |times| - 1;
      var before := times[..n];
      if lo <= times[n] <= hi {
        var cut := times[n] - REFRESH_COOLDOWN;
        CountBelow(before, lo, hi, cut);
        if lo <= cut {
          SpacedCount(before, lo, cut);
        }
      } else {
        SpacedCount(before, lo, hi);
      }
    }
  }

  /** However many callers queue on the lock, a window of length `T` sees at most
      T/30s + 1 fetch attempts, failed and cancelled ones included. */
  lemma {:induction false} FetchesAreRateLimited(run: seq<Lookup>, start: Instant, length: nat)
    requires IsRun(run)
    ensures CountIn(AttemptTimes(run), start, start + length) <= length / REFRESH_COOLDOWN + 1
  {
    AttemptsAreSpaced(run);
    SpacedCount(AttemptTimes(run), start, start + length);
  }

  /** `keys` is the set of the successful refresh at position `i`. */
  predicate FetchedBy(run: seq<Lookup>, i: nat, keys: seq<VerificationKey>, at: Instant) {
    i < |run| && Refreshes(run, i) && run[i].fetch == Fetched(keys) && run[i].done == at
  }

  lemma {:induction false} FetchedByExtends(run: seq<Lookup>, i: nat, keys: seq<VerificationKey>, at: Instant)
    requires run != [] && FetchedBy(run[..|run| - 1], i, keys, at)
    ensures FetchedBy(run, i, keys, at)
  {
    assert run[..|run| - 1][..i] == run[..i];
  }

  /** What the cache holds always came whole from one successful refresh. */
  lemma {:induction false} CacheHasSource(run: seq<Lookup>)
    requires IsRun(run)
    ensures var c := CacheOf(run);
            if c.fetchedAt.None? then c.keys == [] else exists i: nat :: FetchedBy(run, i, c.keys, c.fetchedAt.value)
    ensures UniqueKids(CacheOf(run).keys)
  {
    if run != [] {
      var n := |run| - 1;
      RunPrefix(run);
      CacheHasSource(run[..n]);
      var before, c := CacheOf(run[..n]), CacheOf(run);
      if Attempts(before, run[n]) && run[n].fetch.Fetched? {
        assert FetchedBy(run, n, c.keys, c.fetchedAt.value);
      } else if before.fetchedAt.Some? {
        var i: nat :| FetchedBy(run[..n], i, before.keys, before.fetchedAt.value);
        FetchedByExtends(run, i, before.keys, before.fetchedAt.value);
      }
    }
  }

  /** Every key handed out matches the request and comes from a set fetched under
      300 s before the lookup, or by the lookup itself. */
  lemma {:induction false} ServedKeysAreFresh(run: seq<Lookup>, l: Lookup)
    requires IsRun(run + [l]) && AnswerOf(CacheOf(run), l).Key?
    ensures var k := AnswerOf(CacheOf(run), l).key;
            && k.kid == l.kid && k.algorithm == l.algorithm
            && ((l.fetch.Fetched? && Attempts(CacheOf(run), l) && k in l.fetch.keys)
                || exists i: nat, keys, at: Instant :: FetchedBy(run, i, keys, at) && k in keys && at <= l.now && l.now - at < CACHE_TTL)
  {
    assert (run + [l])[..|run|] == run;
    RunPrefix(run + [l]);
    CacheHasSource(run);
    var c := CacheOf(run);
    if !Attempts(c, l) {
      var i: nat :| FetchedBy(run, i, c.keys, c.fetchedAt.value);
      assert (run + [l])[i] == run[i] && (run + [l])[|run|] == l;
    }
  }

  /** A key id and algorithm name at most one cached key, so the first match is
      the only one. */
  lemma {:induction false} CachedMatchIsUnique(run: seq<Lookup>, i: nat, j: nat)
    requires IsRun(run) && i < |CacheOf(run).keys| && j < |CacheOf(run).keys|
    requires CacheOf(run).keys[i].kid == CacheOf(run).keys[j].kid
    ensures i == j
  {
    CacheHasSource(run);
  }

  /** A refresh that fails or is cancelled leaves the key set and its age as they
      were; and no lookup at all touches the cache unless it starts a refresh. */
  lemma {:induction false} FailedRefreshKeepsKeys(c: Cache, l: Lookup)
    ensures (Attempts(c, l) ==> !l.fetch.Fetched?) ==> CacheAfter(c, l) == c.(lastAttempt := CacheAfter(c, l).lastAttempt)
    ensures CacheAfter(c, l) != c ==> Attempts(c, l) && CacheAfter(c, l).lastAttempt == Some(l.now)
  {
  }

  /** No refresh of `run` from position `start` on succeeds. */
  predicate NoSuccessFrom(run: seq<Lookup>, start: nat) {
    forall i: nat :: start <= i < |run| && Refreshes(run, i) ==> !run[i].fetch.Fetched?
  }

  lemma {:induction false} NoSuccessInPrefix(run: seq<Lookup>, l: Lookup, start: nat)
    requires start <= |run| && NoSuccessFrom(run + [l], start)
    ensures NoSuccessFrom(run, start)
    ensures Attempts(CacheOf(run), l) ==> !l.fetch.Fetched?
  {
    var all := run + [l];
    assert all[..|run|] == run;
    forall i: nat | start <= i < |run| && Refreshes(run, i)
      ensures !run[i].fetch.Fetched?
    {
      assert all[..i] == run[..i] && all[i] == run[i];
      assert Refreshes(all, i);
    }
    if Attempts(CacheOf(run), l) {
      assert Refreshes(all, |run|);
    }
  }

  lemma {:induction false} CacheSnoc(run: seq<Lookup>, l: Lookup)
    ensures CacheOf(run + [l]) == CacheAfter(CacheOf(run), l)
  {
    assert (run + [l])[..|run|] == run;
  }

  /** However many lookups come and however their refreshes fail or are
      cancelled, the keys and their age stay what they were until one succeeds. */
  lemma {:induction false} KeysChangeOnlyBySuccess(run: seq<Lookup>, start: nat)
    requires start <= |run| && NoSuccessFrom(run, start)
    ensures CacheOf(run) == CacheOf(run[..start]).(lastAttempt := CacheOf(run).lastAttempt)
  {
    if start == |run| {
      assert run[..start] == run;
    } else {
      var before, l := run[..|run| - 1], run[|run| - 1];
      assert run == before + [l];
      NoSuccessInPrefix(before, l, start);
      KeysChangeOnlyBySuccess(before, start);
      assert before[..start] == run[..start];
      CacheSnoc(before, l);
      FailedRefreshKeepsKeys(CacheOf(before), l);
    }
  }

  // ---------- exactly what a lookup is told ----------

  /** The key answers the request. */
  predicate Fits(k: VerificationKey, l: Lookup) {
    k.kid == l.kid && k.algorithm == l.algorithm
  }

  /** The lookup at position `i` is the latest of the run whose refresh succeeded. */
  predicate IsLastSuccess(run: seq<Lookup>, i: nat) {
    i < |run| && Refreshes(run, i) && run[i].fetch.Fetched? && NoSuccessFrom(run, i + 1)
  }

  /** The cache holds the last set fetched, whole and dated by its arrival. */
  lemma {:induction false} LastSuccessIsHeld(run: seq<Lookup>, i: nat)
    requires IsLastSuccess(run, i)
    ensures CacheOf(run).keys == run[i].fetch.keys && CacheOf(run).fetchedAt == Some(run[i].done)
  {
    KeysChangeOnlyBySuccess(run, i + 1);
    assert run[..i + 1] == run[..i] + [run[i]];
    CacheSnoc(run[..i], run[i]);
  }

  lemma {:induction false} NothingFetchedYet(run: seq<Lookup>)
    requires NoSuccessFrom(run, 0)
    ensures CacheOf(run).keys == [] && CacheOf(run).fetchedAt.None?
  {
    KeysChangeOnlyBySuccess(run, 0);
    assert run[..0] == [];
  }

  lemma {:induction false} FindsTheKey(keys: seq<VerificationKey>, l: Lookup, k: VerificationKey)
    requires UniqueKids(keys)
    ensures FindKey(keys, l.kid, l.algorithm) == Some(k) <==> k in keys && Fits(k, l)
  {
  }

  /** The last set fetched still counts and holds the key asked for. */
  ghost predicate FreshlyHeld(run: seq<Lookup>, l: Lookup, k: VerificationKey) {
    exists i: nat :: IsLastSuccess(run, i) && Since(l.now, run[i].done) < 300 * SECOND && k in run[i].fetch.keys && Fits(k, l)
  }

  /** No refresh, whatever came of it, began under 30 s before the lookup. */
  predicate CooledDown(run: seq<Lookup>, l: Lookup) {
    forall i: nat :: i < |run| && Refreshes(run, i) ==> Since(l.now, run[i].now) >= 30 * SECOND
  }

  lemma {:induction false} SuccessSnoc(run: seq<Lookup>, l: Lookup, start: nat)
    requires start <= |run|
    ensures NoSuccessFrom(run + [l], start) <==>
            NoSuccessFrom(run, start) && (Attempts(CacheOf(run), l) ==> !l.fetch.Fetched?)
  {
    var all := run + [l];
    assert all[..|run|] == run;
    forall i: nat | i < |run| ensures Refreshes(all, i) <==> Refreshes(run, i) {
      assert all[..i] == run[..i] && all[i] == run[i];
    }
    assert Refreshes(all, |run|) <==> Attempts(CacheOf(run), l);
  }

  lemma {:induction false} LastSuccessExists(run: seq<Lookup>)
    ensures NoSuccessFrom(run, 0) || exists i: nat :: IsLastSuccess(run, i)
  {
    if run != [] {
      var n := |run| - 1;
      var before := run[..n];
      assert run == before + [run[n]];
      LastSuccessExists(before);
      SuccessSnoc(before, run[n], 0);
      if Attempts(CacheOf(before), run[n]) && run[n].fetch.Fetched? {
        assert IsLastSuccess(run, n);
      } else if i: nat :| IsLastSuccess(before, i) {
        SuccessSnoc(before, run[n], i + 1);
        assert run[..i] == before[..i] && run[i] == before[i];
        assert IsLastSuccess(run, i);
      }
    }
  }

  lemma {:induction false} CachedIsFreshlyHeld(run: seq<Lookup>, l: Lookup, k: VerificationKey)
    requires IsRun(run)
    ensures Cached(CacheOf(run), l) == Some(k) <==> FreshlyHeld(run, l, k)
  {
    CacheHasSource(run);
    FindsTheKey(CacheOf(run).keys, l, k);
    LastSuccessExists(run);
    if NoSuccessFrom(run, 0) {
      NothingFetchedYet(run);
    }
    forall i: nat | IsLastSuccess(run, i)
      ensures CacheOf(run).keys == run[i].fetch.keys && CacheOf(run).fetchedAt == Some(run[i].done)
    {
      LastSuccessIsHeld(run, i);
    }
  }

  predicate RefreshAt(run: seq<Lookup>, i: nat, at: Instant) {
    i < |run| && Refreshes(run, i) && run[i].now == at
  }

  lemma {:induction false} RefreshIsTimed(run: seq<Lookup>, i: nat)
    requires i < |run| && Refreshes(run, i)
    ensures run[i].now in AttemptTimes(run)
  {
    var n := |run| - 1;
    if i < n {
      assert run[..n][..i] == run[..i];
      RefreshIsTimed(run[..n], i);
    }
  }

  lemma {:induction false} TimeIsOfRefresh(run: seq<Lookup>, at: Instant)
    requires at in AttemptTimes(run)
    ensures exists i: nat :: RefreshAt(run, i, at)
  {
    var n := |run| - 1;
    if at in AttemptTimes(run[..n]) {
      TimeIsOfRefresh(run[..n], at);
      var i: nat :| RefreshAt(run[..n], i, at);
      assert run[..n][..i] == run[..i];
      assert RefreshAt(run, i, at);
    } else {
      assert RefreshAt(run, n, at);
    }
  }

  lemma {:induction false} LastTimeIsLatest(times: seq<Instant>, at: Instant)
    requires Spaced(times) && at in times
    ensures at <= times[|times| - 1]
  {
    var i :| 0 <= i < |times| && times[i] == at;
  }

  lemma {:induction false} CooldownIsLastAttempt(run: seq<Lookup>, l: Lookup)
    requires IsRun(run)
    ensures var last := CacheOf(run).lastAttempt;
            CooledDown(run, l) <==> last.None? || Since(l.now, last.value) >= REFRESH_COOLDOWN
  {
    AttemptsAreSpaced(run);
    var times, last := AttemptTimes(run), CacheOf(run).lastAttempt;
    if last.Some? {
      TimeIsOfRefresh(run, last.value);
      var i: nat :| RefreshAt(run, i, last.value);
    }
    forall i: nat | i < |run| && Refreshes(run, i)
      ensures last.Some? && run[i].now <= last.value
    {
      RefreshIsTimed(run, i);
      LastTimeIsLatest(times, run[i].now);
    }
  }

  /** A lookup starts a refresh exactly when the last set fetched is too old or
      lacks the key, and no refresh began in the last 30 s. */
  lemma {:induction false} RefreshesExactly(run: seq<Lookup>, l: Lookup)
    requires IsRun(run + [l])
    ensures Attempts(CacheOf(run), l) <==> (forall k :: !FreshlyHeld(run, l, k)) && CooledDown(run, l)
  {
    assert (run + [l])[..|run|] == run;
    RunPrefix(run + [l]);
    CooldownIsLastAttempt(run, l);
    forall k ensures Cached(CacheOf(run), l) == Some(k) <==> FreshlyHeld(run, l, k) {
      CachedIsFreshlyHeld(run, l, k);
    }
    var found := Cached(CacheOf(run), l);
    assert found.Some? ==> FreshlyHeld(run, l, found.value);
  }

  /** The whole of what a lookup is told, in terms of the run alone: it gets a key
      exactly when the last set fetched still counts and holds it, or when it may
      refresh itself and what arrives holds it; it gets no answer exactly when its
      own refresh is cancelled; otherwise it is denied. */
  lemma {:induction false} LookupsAnswerExactly(run: seq<Lookup>, l: Lookup, k: VerificationKey)
    requires IsRun(run + [l])
    ensures AnswerOf(CacheOf(run), l) == Key(k) <==>
            || FreshlyHeld(run, l, k)
            || (&& (forall other :: !FreshlyHeld(run, l, other)) && CooledDown(run, l)
                && l.fetch.Fetched? && k in l.fetch.keys && Fits(k, l))
    ensures AnswerOf(CacheOf(run), l) == NoAnswer <==>
            (forall other :: !FreshlyHeld(run, l, other)) && CooledDown(run, l) && l.fetch.Cancelled?
  {
    assert (run + [l])[..|run|] == run && (run + [l])[|run|] == l;
    RunPrefix(run + [l]);
    RefreshesExactly(run, l);
    CachedIsFreshlyHeld(run, l, k);
    if l.fetch.Fetched? {
      FindsTheKey(l.fetch.keys, l, k);
    }
  }
}
