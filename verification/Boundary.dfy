/** The reading handlers, and the boundary of a caller whose token excludes
    client data: what it is told, and what its own calls do, depends only on the
    handoffs it sent or received (`src/tools/coordination.rs`,
    `src/tools/check_in.rs`, `src/auth.rs`). */
module Boundary {
  import opened Prelude
  import opened Slugs
  import opened Sql
  import opened Callers
  import opened Handoffs
  import opened Pagination
  import opened Queries
  import opened Queues
  import opened Coordination
  import opened Bus
  import opened Protocol
  import Utf8

  // ---------- what each query matches ----------

  function Matching(rows: Rows, f: ListFilter, now: Time): Rows {
    rows - (set id | id in rows && !Listed(f, rows[id], now))
  }

  /** `list_replies_to_me`: the join with the parent, the party filter, the cursor. */
  function ReplyWhere(rows: Rows, r: Handoff, agent: Text, since: Option<Time>, party: Option<Text>): Tri {
    if r.inReplyTo.Some? && r.inReplyTo.value in rows then
      And(And(EqLower(Some(rows[r.inReplyTo.value].fromAgent), Some(agent)),
              PartyClause(party, Some(r.fromAgent), r.toAgent)),
          Truth(since.Some? ==> r.createdAt > since.value))
    else No
  }

  function MatchingReplies(rows: Rows, agent: Text, since: Option<Time>, party: Option<Text>): Rows {
    rows - (set id | id in rows && ReplyWhere(rows, rows[id], agent, since, party) != Yes)
  }

  function SelfClaimRows(rows: Rows, agent: Text): Rows {
    rows - (set id | id in rows && SelfClaimWhere(rows[id], agent) != Yes)
  }

  // ---------- replies ----------

  datatype Listing = Listing(items: seq<Handoff>, hasMore: bool)

  /** A trimmed page of the matching rows. */
  ghost predicate IsListingBy(key: SortKey, matching: Rows, page: PageRequest, l: Listing)
    requires page.limit >= 1
  {
    exists fetched ::
      && IsPage(matching, key, FetchLimit(page), fetched)
      && l.items == Take(fetched, page.limit)
      && (l.hasMore <==> |fetched| > page.limit)
  }

  /** The tools list by creation time. */
  ghost predicate IsListing(matching: Rows, page: PageRequest, l: Listing)
    requires page.limit >= 1
  {
    IsListingBy(ByCreated, matching, page, l)
  }

  /** The count of self-claims held and the creation time of the oldest. */
  datatype Claims = Claims(count: nat, oldest: Option<Time>)

  ghost predicate IsClaims(held: Rows, c: Claims) {
    && c.count == |held|
    && (held == map[] ==> c.oldest.None?)
    && (held != map[] ==>
          && c.oldest.Some?
          && (exists id :: id in held && held[id].createdAt == c.oldest.value)
          && (forall id :: id in held ==> c.oldest.value <= held[id].createdAt))
  }

  /** The action page with its counts by status, the self-claims held unless
      their query failed, and the notification page. */
  datatype CheckInReply =
    | QueueRefused
    | Queue(actions: Listing, pending: nat, accepted: nat, claims: Option<Claims>, notifications: Listing)

  const ACTION_PAGE := NewPage(None, 20)
  const NOTIFY_PAGE := NewPage(None, 5)

  predicate IsPending(h: Handoff) {
    h.status.Pending?
  }

  predicate IsAccepted(h: Handoff) {
    h.status.Accepted?
  }

  /** `check_in` runs three queries, each on the table as it then is. */
  ghost predicate IsCheckIn(first: Rows, second: Rows, third: Rows, party: Option<Text>, agent: Text, now: Time,
                            reply: CheckInReply) {
    if !MayQuery(party, agent) then reply == QueueRefused
    else
      && reply.Queue?
      && IsListing(Matching(first, CheckInFilter(agent, Action, party), now), ACTION_PAGE, reply.actions)
      && reply.pending == |Filter(IsPending, reply.actions.items)|
      && reply.accepted == |Filter(IsAccepted, reply.actions.items)|
      && (reply.claims.Some? ==> IsClaims(SelfClaimRows(second, agent), reply.claims.value))
      && IsListing(Matching(third, CheckInFilter(agent, Notify, party), now), NOTIFY_PAGE, reply.notifications)
  }

  datatype RepliesReply = RepliesRefused | Replies(listing: Listing)

  ghost predicate IsReplies(rows: Rows, party: Option<Text>, agent: Text, since: Option<Time>, page: PageRequest,
                            reply: RepliesReply)
    requires page.limit >= 1
  {
    if !MayQuery(party, agent) then reply == RepliesRefused
    else reply.Replies? && IsListing(MatchingReplies(rows, agent, since, party), page, reply.listing)
  }

  function GetReply(rows: Rows, party: Option<Text>, id: Uuid): Reply {
    if id in rows && CanSee(party, rows[id].fromAgent, rows[id].toAgent) then Row(rows[id]) else NotFound
  }

  // ---------- the handlers ----------

  method ListFiltered(table: HandoffTable, f: ListFilter, now: Time, limit: nat) returns (v: Vec<Handoff>)
    requires forall id :: id in table.rows ==> table.rows[id].id == id
    ensures fresh(v) && IsPage(Matching(table.rows, f, now), ByCreated, limit, v.items)
  {
    var conds, limitAt, binds := BuildListQuery(f, limit);
    var rows := table.rows;
    var matching := rows - (set id | id in rows && !Selected(conds, binds, rows[id], now));
    assert matching == Matching(rows, f, now);
    v := FetchNewest(matching, ByCreated, binds[limitAt - 1].limit);
  }

  method FetchListing(table: HandoffTable, f: ListFilter, page: PageRequest, now: Time) returns (l: Listing)
    requires forall id :: id in table.rows ==> table.rows[id].id == id
    requires page.limit >= 1
    ensures IsListing(Matching(table.rows, f, now), page, l)
  {
    var v := ListFiltered(table, f, now, FetchLimit(page));
    var hasMore := TrimPage(page, v);
    l := Listing(v.items, hasMore);
  }

  /** The bodies of a compact listing. */
  method CompactBodies(items: seq<Handoff>) returns (bodies: seq<Utf8.Bytes>)
    ensures AllCompact(bodies, items)
  {
    bodies := [];
    for i := 0 to |items|
      invariant |bodies| == i
      invariant forall k :: 0 <= k < i ==> Utf8.IsCompact(bodies[k], Utf8.BytesOf(items[k].body))
    {
      Utf8.EncodingsAreValid(Utf8.Scalars(items[i].body));
      var body := Utf8.Compact(Utf8.BytesOf(items[i].body));
      bodies := bodies + [body];
    }
  }

  ghost predicate AllCompact(bodies: seq<Utf8.Bytes>, items: seq<Handoff>) {
    |bodies| == |items| && forall i :: 0 <= i < |items| ==> Utf8.IsCompact(bodies[i], Utf8.BytesOf(items[i].body))
  }

  /** The arguments of `list_handoffs`. */
  datatype ListRequest = ListRequest(
    status: Option<Status>,
    toAgent: Option<string>,
    fromAgent: Option<string>,
    category: Option<Category>,
    includeNotify: Option<bool>,
    compact: Option<bool>,
    limit: Option<int>)

  datatype ListReply = BadFilter | Shown(listing: Listing, bodies: Option<seq<Utf8.Bytes>>, page: PageRequest)

  /** A name to filter by, when one is given. */
  predicate NameOk(name: Option<string>) {
    name.Some? ==> ValidSlug(Trim(name.value))
  }

  function NameFilter(name: Option<string>): Option<Text>
    requires NameOk(name)
  {
    if name.None? then None else ValidateAgentName(name.value)
  }

  function FilterOf(q: ListRequest, party: Option<Text>): ListFilter
    requires NameOk(q.toAgent) && NameOk(q.fromAgent)
  {
    ListFilter(if q.status.Some? then Exactly(q.status.value) else AnyStatus,
               NameFilter(q.toAgent), NameFilter(q.fromAgent), q.category,
               q.includeNotify == Some(true), false, false, party)
  }

  /** A compact listing, the default, carries shortened bodies, a full one the
      rows as they are. */
  method HandleListHandoffs(table: HandoffTable, party: Option<Text>, q: ListRequest, now: Time)
    returns (reply: ListReply)
    requires forall id :: id in table.rows ==> table.rows[id].id == id
    ensures reply.Shown? <==> NameOk(q.toAgent) && NameOk(q.fromAgent)
    ensures reply.Shown? ==>
              && reply.page == NewPage(q.limit, 20)
              && IsListing(Matching(table.rows, FilterOf(q, party), now), reply.page, reply.listing)
              && (reply.bodies.None? <==> q.compact == Some(false))
              && (reply.bodies.Some? ==> AllCompact(reply.bodies.value, reply.listing.items))
  {
    if q.toAgent.Some? && ValidateAgentName(q.toAgent.value).None? {
      return BadFilter;
    }
    if q.fromAgent.Some? && ValidateAgentName(q.fromAgent.value).None? {
      return BadFilter;
    }
    var page := NewPage(q.limit, 20);
    var l := FetchListing(table, FilterOf(q, party), page, now);
    if q.compact == Some(false) {
      return Shown(l, None, page);
    }
    var short := CompactBodies(l.items);
    reply := Shown(l, Some(short), page);
  }

  /** `get_handoff` shows the row to an unrestricted caller, and to a restricted
      one when its binding covers the sender or the recipient. */
  method HandleGetHandoff(table: HandoffTable, party: Option<Text>, id: Uuid) returns (reply: Reply)
    ensures reply == GetReply(table.rows, party, id)
    ensures reply.Row? <==>
            && id in table.rows
            && (party.Some? ==>
                  || SlugMatches(party.value, table.rows[id].fromAgent)
                  || (table.rows[id].toAgent.Some? && SlugMatches(party.value, table.rows[id].toAgent.value)))
    ensures if reply.Row? then reply.row == table.rows[id] else reply == NotFound
  {
    var h := table.GetHandoff(id);
    if h.Some? && CanSee(party, h.value.fromAgent, h.value.toAgent) {
      return Row(h.value);
    }
    reply := NotFound;
  }

  method OldestClaim(held: Rows) returns (c: Claims)
    ensures IsClaims(held, c)
  {
    if held == map[] {
      return Claims(0, None);
    }
    var first :| first in held;
    var oldest, todo := held[first].createdAt, held.Keys;
    while todo != {}
      invariant todo <= held.Keys
      invariant exists id :: id in held && held[id].createdAt == oldest
      invariant forall id :: id in held.Keys - todo ==> oldest <= held[id].createdAt
    {
      var id :| id in todo;
      if held[id].createdAt < oldest {
        oldest := held[id].createdAt;
      }
      todo := todo - {id};
    }
    c := Claims(|held|, Some(oldest));
  }

  /** A failed self-claim count is reported as unknown, not as an error. */
  method HandleCheckIn(table: HandoffTable, party: Option<Text>, agent: Text, now: Time, countFails: bool)
    returns (reply: CheckInReply)
    requires forall id :: id in table.rows ==> table.rows[id].id == id
    ensures IsCheckIn(table.rows, table.rows, table.rows, party, agent, now, reply)
    ensures reply.Queue? ==> (reply.claims.None? <==> countFails)
  {
    if !MayQuery(party, agent) {
      return QueueRefused;
    }
    var actions := FetchListing(table, CheckInFilter(agent, Action, party), ACTION_PAGE, now);
    var claims: Option<Claims> := None;
    if !countFails {
      var held := OldestClaim(SelfClaimRows(table.rows, agent));
      claims := Some(held);
    }
    var notifications := FetchListing(table, CheckInFilter(agent, Notify, party), NOTIFY_PAGE, now);
    reply := Queue(actions, |Filter(IsPending, actions.items)|, |Filter(IsAccepted, actions.items)|,
                   claims, notifications);
  }

  lemma {:induction false} OpenRowsSplit(items: seq<Handoff>)
    requires forall h :: h in items ==> Open(h)
    ensures |Filter(IsPending, items)| + |Filter(IsAccepted, items)| == |items|
  {
    if items != [] {
      assert items[|items| - 1] in items;
      OpenRowsSplit(items[..|items| - 1]);
    }
  }

  /** The two status counts of a check-in add up to its page. */
  lemma {:induction false} CheckInCountsAddUp(
      first: Rows, second: Rows, third: Rows, party: Option<Text>, agent: Text, now: Time, reply: CheckInReply)
    requires IsCheckIn(first, second, third, party, agent, now, reply) && reply.Queue?
    ensures reply.pending + reply.accepted == |reply.actions.items|
  {
    var matching := Matching(first, CheckInFilter(agent, Action, party), now);
    var fetched :| && IsPage(matching, ByCreated, FetchLimit(ACTION_PAGE), fetched)
                   && reply.actions.items == Take(fetched, ACTION_PAGE.limit);
    forall h | h in reply.actions.items
      ensures Open(h)
    {
      var i :| 0 <= i < |fetched| && fetched[i] == h;
    }
    OpenRowsSplit(reply.actions.items);
  }

  method HandleListRepliesToMe(table: HandoffTable, party: Option<Text>, agent: Text, since: Option<Time>,
                               requested: Option<int>)
    returns (reply: RepliesReply)
    requires forall id :: id in table.rows ==> table.rows[id].id == id
    ensures IsReplies(table.rows, party, agent, since, NewPage(requested, 20), reply)
  {
    if !MayQuery(party, agent) {
      return RepliesRefused;
    }
    var page := NewPage(requested, 20);
    var v := FetchNewest(MatchingReplies(table.rows, agent, since, party), ByCreated, FetchLimit(page));
    var hasMore := TrimPage(page, v);
    reply := Replies(Listing(v.items, hasMore));
  }

  // ---------- reads see only visible rows ----------

  function VisibleTo(party: Text, rows: Rows): Rows {
    rows - (set id | id in rows && !CanSee(Some(party), rows[id].fromAgent, rows[id].toAgent))
  }

  /** The two tables look the same to a caller restricted to `party`. */
  predicate SameView(party: Text, a: Rows, b: Rows) {
    VisibleTo(party, a) == VisibleTo(party, b)
  }

  lemma {:induction false} SameViewRow(party: Text, a: Rows, b: Rows, id: Uuid)
    requires SameView(party, a, b)
    requires id in a && CanSee(Some(party), a[id].fromAgent, a[id].toAgent)
    ensures id in b && b[id] == a[id]
  {
    assert id in VisibleTo(party, a);
    assert VisibleTo(party, b)[id] == a[id];
  }

  lemma {:induction false} GetSeesOnlyVisible(party: Text, a: Rows, b: Rows, id: Uuid)
    requires SameView(party, a, b)
    ensures GetReply(a, Some(party), id) == GetReply(b, Some(party), id)
  {
    if id in a && CanSee(Some(party), a[id].fromAgent, a[id].toAgent) {
      SameViewRow(party, a, b, id);
    } else if id in b && CanSee(Some(party), b[id].fromAgent, b[id].toAgent) {
      SameViewRow(party, b, a, id);
    }
  }

  /** Every restricted list query matches the same rows, so has the same pages
      and the same `has_more`, in both tables. */
  lemma {:induction false} ListSeesOnlyVisible(party: Text, a: Rows, b: Rows, f: ListFilter, now: Time)
    requires SameView(party, a, b) && f.party == Some(party)
    ensures Matching(a, f, now) == Matching(b, f, now)
  {
    forall id
      ensures id in Matching(a, f, now) ==> id in Matching(b, f, now) && Matching(b, f, now)[id] == a[id]
      ensures id in Matching(b, f, now) ==> id in Matching(a, f, now) && Matching(a, f, now)[id] == b[id]
    {
      if id in Matching(a, f, now) { SameViewRow(party, a, b, id); }
      if id in Matching(b, f, now) { SameViewRow(party, b, a, id); }
    }
  }

  /** The self-claim count has no party filter of its own; the rows it counts
      are the caller's own because it may only ask about itself. */
  lemma {:induction false} ClaimsSeeOnlyVisible(party: Text, a: Rows, b: Rows, agent: Text)
    requires SameView(party, a, b) && MayQuery(Some(party), agent)
    ensures SelfClaimRows(a, agent) == SelfClaimRows(b, agent)
  {
    forall id
      ensures id in SelfClaimRows(a, agent) ==> id in SelfClaimRows(b, agent) && b[id] == a[id]
      ensures id in SelfClaimRows(b, agent) ==> id in SelfClaimRows(a, agent) && b[id] == a[id]
    {
      if id in SelfClaimRows(a, agent) {
        SlugMatchesFolds(party, a[id].fromAgent, agent);
        SameViewRow(party, a, b, id);
      }
      if id in SelfClaimRows(b, agent) {
        SlugMatchesFolds(party, b[id].fromAgent, agent);
        SameViewRow(party, b, a, id);
      }
    }
  }

  lemma {:induction false} ReplyRowCarriesOver(party: Text, a: Rows, b: Rows, agent: Text, since: Option<Time>, id: Uuid)
    requires SameView(party, a, b) && MayQuery(Some(party), agent)
    requires id in MatchingReplies(a, agent, since, Some(party))
    ensures id in MatchingReplies(b, agent, since, Some(party)) && b[id] == a[id]
  {
    PartyClauseIsCanSee(Some(party), a[id].fromAgent, a[id].toAgent);
    SameViewRow(party, a, b, id);
    var parent := a[id].inReplyTo.value;
    SlugMatchesFolds(party, a[parent].fromAgent, agent);
    SameViewRow(party, a, b, parent);
  }

  lemma {:induction false} RepliesSeeOnlyVisible(party: Text, a: Rows, b: Rows, agent: Text, since: Option<Time>)
    requires SameView(party, a, b) && MayQuery(Some(party), agent)
    ensures MatchingReplies(a, agent, since, Some(party)) == MatchingReplies(b, agent, since, Some(party))
  {
    var left, right := MatchingReplies(a, agent, since, Some(party)), MatchingReplies(b, agent, since, Some(party));
    forall id
      ensures id in left ==> id in right && right[id] == left[id]
      ensures id in right ==> id in left
    {
      if id in left { ReplyRowCarriesOver(party, a, b, agent, since, id); }
      if id in right { ReplyRowCarriesOver(party, b, a, agent, since, id); }
    }
  }

  lemma {:induction false} CheckInSeesOnlyVisible(
      party: Text, a: Rows, b: Rows, a2: Rows, b2: Rows, a3: Rows, b3: Rows, now: Time, agent: Text, reply: CheckInReply)
    requires SameView(party, a, b) && SameView(party, a2, b2) && SameView(party, a3, b3)
    ensures IsCheckIn(a, a2, a3, Some(party), agent, now, reply) <==>
            IsCheckIn(b, b2, b3, Some(party), agent, now, reply)
  {
    if MayQuery(Some(party), agent) {
      ListSeesOnlyVisible(party, a, b, CheckInFilter(agent, Action, Some(party)), now);
      ClaimsSeeOnlyVisible(party, a2, b2, agent);
      ListSeesOnlyVisible(party, a3, b3, CheckInFilter(agent, Notify, Some(party)), now);
    }
  }

  lemma {:induction false} ReplyPagesSeeOnlyVisible(
      party: Text, a: Rows, b: Rows, agent: Text, since: Option<Time>, page: PageRequest, reply: RepliesReply)
    requires SameView(party, a, b) && page.limit >= 1
    ensures IsReplies(a, Some(party), agent, since, page, reply) <==>
            IsReplies(b, Some(party), agent, since, page, reply)
  {
    if MayQuery(Some(party), agent) {
      RepliesSeeOnlyVisible(party, a, b, agent, since);
    }
  }

  /** All four reading tools answer a restricted caller alike on tables that look
      the same to it, page contents, `has_more`, self-claim count and refusals
      included; `check_in` even when the table changes between its queries. */
  lemma {:induction false} RestrictedReadsSeeOnlyVisible(party: Text, a: Rows, b: Rows, a2: Rows, b2: Rows, a3: Rows, b3: Rows, now: Time)
    requires SameView(party, a, b) && SameView(party, a2, b2) && SameView(party, a3, b3)
    ensures forall id :: GetReply(a, Some(party), id) == GetReply(b, Some(party), id)
    ensures forall f: ListFilter, page: PageRequest, l | f.party == Some(party) && page.limit >= 1 ::
              IsListing(Matching(a, f, now), page, l) <==> IsListing(Matching(b, f, now), page, l)
    ensures forall agent, reply ::
              IsCheckIn(a, a2, a3, Some(party), agent, now, reply) <==>
              IsCheckIn(b, b2, b3, Some(party), agent, now, reply)
    ensures forall agent, since, page: PageRequest, reply | page.limit >= 1 ::
              IsReplies(a, Some(party), agent, since, page, reply) <==>
              IsReplies(b, Some(party), agent, since, page, reply)
  {
    forall id ensures GetReply(a, Some(party), id) == GetReply(b, Some(party), id) {
      GetSeesOnlyVisible(party, a, b, id);
    }
    forall f: ListFilter | f.party == Some(party) ensures Matching(a, f, now) == Matching(b, f, now) {
      ListSeesOnlyVisible(party, a, b, f, now);
    }
    forall agent, reply
      ensures IsCheckIn(a, a2, a3, Some(party), agent, now, reply) <==>
              IsCheckIn(b, b2, b3, Some(party), agent, now, reply)
    {
      CheckInSeesOnlyVisible(party, a, b, a2, b2, a3, b3, now, agent, reply);
    }
    forall agent, since, page: PageRequest, reply | page.limit >= 1
      ensures IsReplies(a, Some(party), agent, since, page, reply) <==>
              IsReplies(b, Some(party), agent, since, page, reply)
    {
      ReplyPagesSeeOnlyVisible(party, a, b, agent, since, page, reply);
    }
  }

  // ---------- writes reach only visible rows ----------

  lemma {:induction false} PutKeepsSameView(party: Text, a: Rows, b: Rows, row: Handoff)
    requires SameView(party, a, b)
    requires row.id in a && row.id in b ==> CanSee(Some(party), row.fromAgent, row.toAgent)
    requires row.id in a <==> row.id in b
    ensures SameView(party, a[row.id := row], b[row.id := row])
  {
    var a', b' := a[row.id := row], b[row.id := row];
    forall id
      ensures id in VisibleTo(party, a') <==> id in VisibleTo(party, b')
      ensures id in VisibleTo(party, a') ==> a'[id] == b'[id]
    {
      if id != row.id {
        if id in VisibleTo(party, a') { SameViewRow(party, a, b, id); }
        if id in VisibleTo(party, b') { SameViewRow(party, b, a, id); }
      }
    }
  }

  lemma {:induction false} DropKeepsSameView(party: Text, a: Db, b: Db, c: Change)
    requires SameView(party, a.rows, b.rows) && c.Drop? && c.id in a.rows && c.id in b.rows
    ensures SameView(party, Apply(a, c).rows, Apply(b, c).rows)
  {
    var a', b' := Apply(a, c).rows, Apply(b, c).rows;
    forall id
      ensures id in VisibleTo(party, a') <==> id in VisibleTo(party, b')
      ensures id in VisibleTo(party, a') ==> a'[id] == b'[id]
    {
      if id in VisibleTo(party, a') { SameViewRow(party, a.rows, b.rows, id); }
      if id in VisibleTo(party, b') { SameViewRow(party, b.rows, a.rows, id); }
    }
  }

  lemma {:induction false} ChangeKeepsSameView(party: Text, a: Db, b: Db, c: Change)
    requires SameView(party, a.rows, b.rows)
    requires c.Add? ==> c.row.id !in a.rows && c.row.id !in b.rows
    requires c.Rewrite? ==> c.row.id in a.rows && c.row.id in b.rows && CanSee(Some(party), c.row.fromAgent, c.row.toAgent)
    requires c.Drop? ==> c.id in a.rows && c.id in b.rows
    ensures SameView(party, Apply(a, c).rows, Apply(b, c).rows)
  {
    match c {
      case Keep =>
      case Add(row) => PutKeepsSameView(party, a.rows, b.rows, row);
      case Rewrite(row) => PutKeepsSameView(party, a.rows, b.rows, row);
      case Drop(_, _, _) => DropKeepsSameView(party, a, b, c);
    }
  }

  /** Past its visibility read a restricted call names only a visible row, or a
      row that is in neither table. */
  lemma {:induction false} TargetsAgree(party: Text, a: Rows, b: Rows, c: Call)
    requires Party(c.caller) == Some(party) && SameView(party, a, b)
    requires CallOk(a, c) && CallOk(b, c) && !c.at.Seeing? && Target(c.request).Some?
    ensures var id := Target(c.request).value;
            (id in a <==> id in b) && (id in a ==> a[id] == b[id] && CanSee(Some(party), a[id].fromAgent, a[id].toAgent))
  {
    var id := Target(c.request).value;
    if id in a { SameViewRow(party, a, b, id); }
    if id in b { SameViewRow(party, b, a, id); }
  }

  /** One statement of a restricted call gives the same answer on tables that
      look the same to it, and leaves them looking the same: a hidden handoff is
      told apart from a missing one by nothing. */
  lemma {:induction false} RestrictedStepSeesOnlyVisible(party: Text, a: Db, b: Db, c: Call, now: Time, newId: Uuid)
    requires Party(c.caller) == Some(party) && SameView(party, a.rows, b.rows)
    requires RowsOk(a.rows) && RowsOk(b.rows) && CallOk(a.rows, c) && CallOk(b.rows, c)
    requires c.request.Create? && c.at.Writing? ==> newId !in a.rows && newId !in b.rows
    ensures var left := Statement(a.rows, c.caller, c.request, c.at, now, newId);
            var right := Statement(b.rows, c.caller, c.request, c.at, now, newId);
            left == right && SameView(party, Apply(a, left.change).rows, Apply(b, right.change).rows)
  {
    var left := Statement(a.rows, c.caller, c.request, c.at, now, newId);
    if c.at.Seeing? {
      var id := Target(c.request).value;
      GetSeesOnlyVisible(party, a.rows, b.rows, id);
    } else {
      if Target(c.request).Some? {
        TargetsAgree(party, a.rows, b.rows, c);
      }
      ChangeKeepsSameView(party, a, b, left.change);
    }
  }

  /** In any run, a restricted call about a handoff outside its boundary is
      answered as if the handoff did not exist, at its first statement. */
  lemma {:induction false} HiddenReadsAsMissing(rows: Rows, caller: Caller, r: Request, now: Time, newId: Uuid)
    requires Party(caller).Some? && Target(r).Some? && CanWaitAt(caller, r, Seeing)
    requires Target(r).value in rows ==>
               var h := rows[Target(r).value]; !CanSee(Party(caller), h.fromAgent, h.toAgent)
    ensures Begin(caller, r) == Waiting(Seeing)
    ensures Statement(rows, caller, r, Seeing, now, newId) == Step(Keep, Done(NotFound))
  {
  }
}
