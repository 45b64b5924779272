/** Who owns an open handoff: `check_in`, the wake poll, the self-claim count and
    the briefing answer the question in four separate queries
    (`src/repo/handoff_repo.rs`, `src/tools/check_in.rs`, `src/tools/briefings.rs`). */
module Queues {
  import opened Prelude
  import opened Slugs
  import opened Sql
  import opened Callers
  import opened Handoffs
  import opened Queries
  import Bus
  import Protocol

  // ---------- the four queries ----------

  /** The two pages `check_in` fetches. */
  function CheckInFilter(agent: Text, category: Category, party: Option<Text>): ListFilter {
    ListFilter(OnlyOpen, Some(agent), None, Some(category), false, true, category.Action?, party)
  }

  /** `list_pending_for_agent`, the wake poll; `since` is its cursor. */
  function WakeWhere(h: Handoff, agent: Text, since: Option<Time>): Tri {
    And(And(And(And(Truth(Open(h)), Truth(h.category.Action?)),
                Or(EqLower(h.toAgent, Some(agent)),
                   And(And(IsNull(h.toAgent), Truth(h.status.Accepted?)), EqLower(h.acceptedBy, Some(agent))))),
            NotSelfClaimed(h)),
        Truth(since.Some? ==> h.updatedAt > since.value))
  }

  /** `count_self_claims`. */
  function SelfClaimWhere(h: Handoff, agent: Text): Tri {
    And(And(And(Truth(h.status.Accepted?), Truth(h.category.Action?)), EqLower(h.toAgent, Some(agent))),
        EqLower(Some(h.fromAgent), Some(agent)))
  }

  /** One row of `list_open_action_briefs`, with its two computed columns. */
  datatype Brief = Brief(
    id: Uuid,
    fromAgent: Text,
    toAgent: Option<Text>,
    acceptedBy: Option<Text>,
    status: Status,
    priority: Priority,
    title: string,
    origin: Origin,
    repeatCount: nat,
    createdAt: Time,
    isOperator: bool,
    isSelfAddressed: bool)

  function BriefWhere(h: Handoff): Tri {
    And(Truth(h.category.Action?), Truth(Open(h)))
  }

  function ProjectBrief(h: Handoff, operator: Text): Brief {
    var claimant := if h.status.Accepted? then h.acceptedBy else None;
    var owner := if h.toAgent.Some? then h.toAgent else claimant;
    Brief(h.id, h.fromAgent, h.toAgent, h.acceptedBy, h.status, h.priority, h.title, h.origin, h.repeatCount,
          h.createdAt,
          Coalesce(EqLower(owner, Some(operator)), false).Yes?,
          And(Not(IsNull(h.toAgent)), EqLower(h.toAgent, Some(h.fromAgent))).Yes?)
  }

  const UNADDRESSED: Text := "(unaddressed)"

  /** `briefings::recipient`. */
  function Recipient(b: Brief): Text {
    if b.toAgent.Some? then b.toAgent.value
    else if b.status.Accepted? && b.acceptedBy.Some? then b.acceptedBy.value
    else UNADDRESSED
  }

  /** The row is among the actions `check_in` selects for the agent, asked by a
      caller restricted to `party`, if any. */
  predicate InCheckIn(h: Handoff, agent: Text, party: Option<Text>, now: Time) {
    Listed(CheckInFilter(agent, Action, party), h, now)
  }

  /** A broadcast from outside a restricted caller's boundary. */
  predicate OutOfReach(h: Handoff, party: Option<Text>) {
    party.Some? && h.toAgent.None? && !SlugMatches(party.value, h.fromAgent)
  }

  predicate InWakeQueue(h: Handoff, agent: Text) {
    WakeWhere(h, agent, None) == Yes
  }

  predicate CountedAsSelfClaim(h: Handoff, agent: Text) {
    SelfClaimWhere(h, agent) == Yes
  }

  // ---------- agreement ----------

  /** What an agent owns or is sent, it can see, unless it is a broadcast out of
      its reach. */
  lemma {:induction false} OwnRowsAreVisible(h: Handoff, agent: Text, party: Option<Text>)
    requires MayQuery(party, agent) && (h.toAgent.Some? ==> EqFold(h.toAgent.value, agent))
    ensures CanSee(party, h.fromAgent, h.toAgent) <==> !OutOfReach(h, party)
  {
    if party.Some? && h.toAgent.Some? {
      SlugMatchesFolds(party.value, h.toAgent.value, agent);
    }
  }

  /** The wake queue is the `check_in` action queue without pending broadcasts,
      except that the wake poll has no boundary: a restricted agent is also woken
      for the broadcasts it holds out of its reach. */
  lemma {:induction false} WakeIsCheckInWithoutBroadcasts(h: Handoff, agent: Text, party: Option<Text>, now: Time)
    requires MayQuery(party, agent)
    ensures InWakeQueue(h, agent) && !OutOfReach(h, party) <==>
            InCheckIn(h, agent, party, now) && !(h.status.Pending? && h.toAgent.None?)
  {
    if h.toAgent.Some? ==> EqFold(h.toAgent.value, agent) {
      OwnRowsAreVisible(h, agent, party);
    }
  }

  /** A remark: a poll cursor only narrows the queue. */
  lemma {:induction false} CursorNarrowsWakeQueue(h: Handoff, agent: Text, since: Time)
    ensures WakeWhere(h, agent, Some(since)) == Yes <==> InWakeQueue(h, agent) && h.updatedAt > since
  {
  }

  /** Row by row: an accepted action row with a recipient or an acceptor sits with
      the agent the briefing names, either in its queue or in its self-claim
      count, unless that agent asks as a restricted caller and the row is a
      broadcast out of its reach; then it is in neither. */
  lemma {:induction false} AcceptedRowSitsWithRecipient(
      h: Handoff, agent: Text, party: Option<Text>, operator: Text, now: Time)
    requires h.status.Accepted? && h.category.Action? && (h.toAgent.Some? || h.acceptedBy.Some?)
    requires MayQuery(party, agent)
    ensures InCheckIn(h, agent, party, now) || CountedAsSelfClaim(h, agent) <==>
            EqFold(Recipient(ProjectBrief(h, operator)), agent) && !OutOfReach(h, party)
    ensures !(InCheckIn(h, agent, party, now) && CountedAsSelfClaim(h, agent))
  {
    if h.toAgent.Some? ==> EqFold(h.toAgent.value, agent) {
      OwnRowsAreVisible(h, agent, party);
    }
  }

  lemma {:induction false} UnaddressedIsNoSlug(s: Text)
    requires ValidSlug(s)
    ensures !EqFold(UNADDRESSED, s)
  {
    assert Lower(UNADDRESSED)[0] == '(';
    assert LowerChar(s[0]) != '(';
  }

  /** The SQL column `is_operator` and the Rust `recipient` tell the same owner. */
  lemma {:induction false} OperatorColumnIsRecipient(h: Handoff, operator: Text)
    requires ValidSlug(operator)
    ensures var b := ProjectBrief(h, operator);
            b.isOperator <==> EqFold(Recipient(b), operator)
  {
    UnaddressedIsNoSlug(operator);
  }

  /** The four queries agree that the accepted action row is `owner`'s: the
      briefing names it; the wake poll and the self-claim count give the row to
      it and to nobody else, up to case; and so do its `check_in` and the count,
      just when it is not a broadcast out of the asking caller's reach. */
  ghost predicate OwnedBy(h: Handoff, owner: Text, now: Time) {
    && (forall operator :: Recipient(ProjectBrief(h, operator)) == owner)
    && (forall agent ::
          && (InWakeQueue(h, agent) || CountedAsSelfClaim(h, agent) <==> EqFold(owner, agent))
          && !(InWakeQueue(h, agent) && CountedAsSelfClaim(h, agent)))
    && (forall agent, party | MayQuery(party, agent) ::
          && (InCheckIn(h, agent, party, now) || CountedAsSelfClaim(h, agent) <==>
                EqFold(owner, agent) && !OutOfReach(h, party))
          && !(InCheckIn(h, agent, party, now) && CountedAsSelfClaim(h, agent))
          && (InCheckIn(h, agent, party, now) <==> InWakeQueue(h, agent) && !OutOfReach(h, party)))
  }

  lemma {:induction false} AcceptedRowIsOwned(h: Handoff, now: Time)
    requires h.status.Accepted? && h.category.Action? && (h.toAgent.Some? || h.acceptedBy.Some?)
    ensures OwnedBy(h, if h.toAgent.Some? then h.toAgent.value else h.acceptedBy.value, now)
  {
    var owner := if h.toAgent.Some? then h.toAgent.value else h.acceptedBy.value;
    forall agent
      ensures InWakeQueue(h, agent) || CountedAsSelfClaim(h, agent) <==> EqFold(owner, agent)
      ensures !(InWakeQueue(h, agent) && CountedAsSelfClaim(h, agent))
    {
      AcceptedRowSitsWithRecipient(h, agent, None, "", now);
      WakeIsCheckInWithoutBroadcasts(h, agent, None, now);
    }
    forall agent, party | MayQuery(party, agent)
      ensures InCheckIn(h, agent, party, now) || CountedAsSelfClaim(h, agent) <==>
              EqFold(owner, agent) && !OutOfReach(h, party)
      ensures !(InCheckIn(h, agent, party, now) && CountedAsSelfClaim(h, agent))
      ensures InCheckIn(h, agent, party, now) <==> InWakeQueue(h, agent) && !OutOfReach(h, party)
    {
      AcceptedRowSitsWithRecipient(h, agent, party, "", now);
      WakeIsCheckInWithoutBroadcasts(h, agent, party, now);
    }
  }

  /** After any run every accepted action handoff has exactly one owner, a valid
      slug, on which all four queries agree. */
  lemma {:induction false} AcceptedActionHasOneOwner(run: seq<Bus.Action>, id: Uuid, now: Time)
    requires id in Bus.Exec(Bus.INITIAL, run).db.rows
    requires var h := Bus.Exec(Bus.INITIAL, run).db.rows[id]; h.status.Accepted? && h.category.Action?
    ensures exists owner: Text :: ValidSlug(owner) && OwnedBy(Bus.Exec(Bus.INITIAL, run).db.rows[id], owner, now)
  {
    Protocol.RunsKeepInv(Bus.INITIAL, run);
    var h := Bus.Exec(Bus.INITIAL, run).db.rows[id];
    AcceptedRowIsOwned(h, now);
  }

  /** A pending broadcast is offered to everyone but its sender, wakes nobody,
      and is on nobody's books. */
  lemma {:induction false} PendingBroadcastIsOffered(h: Handoff, agent: Text, now: Time)
    requires h.status.Pending? && h.toAgent.None? && h.category.Action? && ValidSlug(agent)
    ensures InCheckIn(h, agent, None, now) <==> !EqFold(h.fromAgent, agent)
    ensures !InWakeQueue(h, agent) && !CountedAsSelfClaim(h, agent)
    ensures !ProjectBrief(h, agent).isOperator
  {
  }

  /** In every reachable state each open action row is somebody's to see: it is in
      the `check_in` queue or the self-claim count of some valid agent. */
  lemma {:induction false} OpenActionsAreNeverLost(run: seq<Bus.Action>, id: Uuid, now: Time)
    requires id in Bus.Exec(Bus.INITIAL, run).db.rows
    requires var h := Bus.Exec(Bus.INITIAL, run).db.rows[id]; Open(h) && h.category.Action?
    ensures var h := Bus.Exec(Bus.INITIAL, run).db.rows[id];
            exists agent: Text :: ValidSlug(agent) && (InCheckIn(h, agent, None, now) || CountedAsSelfClaim(h, agent))
  {
    Protocol.RunsKeepInv(Bus.INITIAL, run);
    var h := Bus.Exec(Bus.INITIAL, run).db.rows[id];
    if h.status.Accepted? {
      var owner := if h.toAgent.Some? then h.toAgent.value else h.acceptedBy.value;
      AcceptedRowSitsWithRecipient(h, owner, None, "", now);
    } else if h.toAgent.Some? {
      assert InCheckIn(h, h.toAgent.value, None, now);
    } else {
      var agent: Text := if EqFold(h.fromAgent, "a") then "b" else "a";
      PendingBroadcastIsOffered(h, agent, now);
      DifferentLetters();
    }
  }

  lemma {:induction false} DifferentLetters()
    ensures !EqFold("a", "b")
  {
    assert Lower("a")[0] == 'a' && Lower("b")[0] == 'b';
  }
}
