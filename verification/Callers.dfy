/** Who is calling, and what it may claim and see (`src/auth.rs`). */
module Callers {
  import opened Prelude
  import opened Slugs

  /** An interactive caller: the main bearer or stdio, or a per-agent token with
      its binding and its `exclude_client_data` flag. */
  datatype Caller = Unbound | Bound(binding: Text, excludesClientData: bool)

  /** Token parsing admits only these bindings. */
  predicate ValidCaller(c: Caller) {
    c.Bound? ==> ValidBinding(c.binding)
  }

  function BoundAgent(c: Caller): Option<Text> {
    if c.Bound? then Some(c.binding) else None
  }

  /** `Visibility::party`: the binding of a restricted caller. */
  function Party(c: Caller): Option<Text> {
    if c.Bound? && c.excludesClientData then Some(c.binding) else None
  }

  /** `Visibility::can_see_handoff`. */
  predicate CanSee(party: Option<Text>, fromAgent: Text, toAgent: Option<Text>) {
    || party.None?
    || SlugMatches(party.value, fromAgent)
    || (toAgent.Some? && SlugMatches(party.value, toAgent.value))
  }

  /** `check_bound_identity` succeeds. */
  predicate MayClaim(c: Caller, claimed: Text) {
    c.Bound? ==> SlugMatches(c.binding, claimed)
  }

  /** `Visibility::check_own_queue` succeeds. */
  predicate MayQuery(party: Option<Text>, queried: Text) {
    party.Some? ==> SlugMatches(party.value, queried)
  }

  /** The slug is the base itself or a member `<base>-<suffix>`, up to case. */
  ghost predicate InFamily(base: Text, slug: Text) {
    EqFold(slug, base) || exists suffix: Text :: |suffix| > 0 && Lower(slug) == Lower(base) + "-" + suffix
  }

  /** A caller bound to one slug may claim that slug alone, one bound to a family its
      base and its members, and an unbound one any. */
  lemma {:induction false} ClaimsAreExact(base: Text, excludes: bool, name: Text)
    requires ValidSlug(base)
    ensures MayClaim(Unbound, name)
    ensures MayClaim(Bound(base, excludes), name) <==> EqFold(name, base)
    ensures IsAscii(base + "-*") && (MayClaim(Bound(base + "-*", excludes), name) <==> InFamily(base, name))
  {
    ValidSlugIsNoFamily(base);
    FamilyCoversBaseAndMembers(base, name);
  }

  /** A caller that may see client data sees every handoff; one that may not sees
      what it sent and what was sent to it, or to its family, and no broadcast of
      others. */
  lemma {:induction false} SightIsExact(base: Text, fromAgent: Text, toAgent: Option<Text>)
    requires ValidSlug(base)
    ensures CanSee(Party(Unbound), fromAgent, toAgent) && CanSee(Party(Bound(base, false)), fromAgent, toAgent)
    ensures CanSee(Party(Bound(base, true)), fromAgent, toAgent) <==>
            EqFold(fromAgent, base) || (toAgent.Some? && EqFold(toAgent.value, base))
    ensures && IsAscii(base + "-*") && CanSee(Party(Bound(base + "-*", false)), fromAgent, toAgent)
            && (CanSee(Party(Bound(base + "-*", true)), fromAgent, toAgent) <==>
                  InFamily(base, fromAgent) || (toAgent.Some? && InFamily(base, toAgent.value)))
  {
    ValidSlugIsNoFamily(base);
    FamilyCoversBaseAndMembers(base, fromAgent);
    if toAgent.Some? {
      FamilyCoversBaseAndMembers(base, toAgent.value);
    }
  }

  /** A restricted caller may ask about the queues of its own names only. */
  lemma {:induction false} QueriesAreExact(base: Text, queried: Text)
    requires ValidSlug(base)
    ensures MayQuery(None, queried)
    ensures MayQuery(Some(base), queried) <==> EqFold(queried, base)
    ensures IsAscii(base + "-*") && (MayQuery(Some(base + "-*"), queried) <==> InFamily(base, queried))
  {
    ValidSlugIsNoFamily(base);
    FamilyCoversBaseAndMembers(base, queried);
  }
}
