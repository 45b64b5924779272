/** What the reading tools show, told field by field. */
module Listings {
  import opened Prelude
  import opened Slugs
  import opened Sql
  import opened Handoffs
  import opened Pagination
  import opened Queries
  import opened Queues
  import opened Ingestion
  import opened Boundary

  // ---------- pages ----------

  function Created(h: Handoff): Time {
    h.createdAt
  }

  function Updated(h: Handoff): Time {
    h.updatedAt
  }

  /** The items are matching rows, each once, latest first. */
  predicate LatestFirst(time: Handoff -> Time, matching: Rows, items: seq<Handoff>) {
    && (forall i :: 0 <= i < |items| ==> items[i].id in matching && matching[items[i].id] == items[i])
    && (forall i, j :: 0 <= i < j < |items| ==> items[i].id != items[j].id && time(items[i]) >= time(items[j]))
  }

  /** No matching row left out is later than one shown. */
  predicate LeavesOlder(time: Handoff -> Time, matching: Rows, items: seq<Handoff>) {
    forall id, i :: id in matching && matching[id] !in items && 0 <= i < |items| ==> time(items[i]) >= time(matching[id])
  }

  /** `l` shows the latest matching rows, latest first, as many as the page holds,
      and says whether there are more. */
  predicate ShowsLatest(time: Handoff -> Time, matching: Rows, page: PageRequest, l: Listing) {
    && |l.items| == Min(page.limit, |matching|)
    && (l.hasMore <==> |matching| > page.limit)
    && LatestFirst(time, matching, l.items) && LeavesOlder(time, matching, l.items)
  }

  lemma {:induction false} LastIsOldest(matching: Rows, key: SortKey, fetched: seq<Handoff>, limit: nat, id: Uuid, i: nat)
    requires IsPage(matching, key, limit + 1, fetched) && i < limit && i < |fetched|
    requires id in matching && matching[id] !in Take(fetched, limit)
    ensures Stamp(key, fetched[i]) >= Stamp(key, matching[id])
  {
    forall k | 0 <= k < limit && k < |fetched|
      ensures fetched[k] in Take(fetched, limit)
    {
      assert Take(fetched, limit)[k] == fetched[k];
    }
    if matching[id] in fetched {
      var k :| 0 <= k < |fetched| && fetched[k] == matching[id];
    }
  }

  lemma {:induction false} CutLeavesOlder(
      key: SortKey, time: Handoff -> Time, matching: Rows, fetched: seq<Handoff>, limit: nat)
    requires IsPage(matching, key, limit + 1, fetched) && forall h :: time(h) == Stamp(key, h)
    ensures LeavesOlder(time, matching, Take(fetched, limit))
  {
    var items := Take(fetched, limit);
    forall id, i | id in matching && matching[id] !in items && 0 <= i < |items|
      ensures time(items[i]) >= time(matching[id])
    {
      LastIsOldest(matching, key, fetched, limit, id, i);
    }
  }

  lemma {:induction false} CutIsLatestFirst(
      key: SortKey, time: Handoff -> Time, matching: Rows, fetched: seq<Handoff>, limit: nat)
    requires IsPage(matching, key, limit + 1, fetched) && forall h :: time(h) == Stamp(key, h)
    ensures LatestFirst(time, matching, Take(fetched, limit))
  {
  }

  lemma {:induction false} TrimmedPage(key: SortKey, time: Handoff -> Time, matching: Rows, page: PageRequest, l: Listing)
    requires page.limit >= 1 && IsListingBy(key, matching, page, l)
    requires forall h :: time(h) == Stamp(key, h)
    ensures ShowsLatest(time, matching, page, l)
  {
    var fetched :| IsPage(matching, key, FetchLimit(page), fetched) && l.items == Take(fetched, page.limit)
                   && (l.hasMore <==> |fetched| > page.limit);
    CutLeavesOlder(key, time, matching, fetched, page.limit);
    CutIsLatestFirst(key, time, matching, fetched, page.limit);
  }

  /** The tools show the newest matching rows, the wake poll the last touched. */
  lemma {:induction false} ListingsShowLatest(matching: Rows, page: PageRequest, l: Listing)
    requires page.limit >= 1
    ensures IsListing(matching, page, l) ==> ShowsLatest(Created, matching, page, l)
    ensures IsListingBy(ByUpdated, matching, page, l) ==> ShowsLatest(Updated, matching, page, l)
  {
    if IsListing(matching, page, l) {
      TrimmedPage(ByCreated, Created, matching, page, l);
    }
    if IsListingBy(ByUpdated, matching, page, l) {
      TrimmedPage(ByUpdated, Updated, matching, page, l);
    }
  }

  // ---------- which rows ----------

  /** A restricted caller's binding covers the sender or the recipient. */
  predicate Within(party: Option<Text>, h: Handoff) {
    party.Some? ==>
      || SlugMatches(party.value, h.fromAgent)
      || (h.toAgent.Some? && SlugMatches(party.value, h.toAgent.value))
  }

  /** Notifications are shown for a week. */
  predicate NotStale(h: Handoff, now: Time) {
    h.category.Notify? ==> now - h.createdAt < 7 * 24 * 3600 * 1_000_000
  }

  /** The row's business with the agent: sent to it, or a broadcast it claimed, or
      one it may claim. */
  predicate Concerns(h: Handoff, agent: Text) {
    match h.toAgent
    case Some(to) => EqFold(to, agent)
    case None =>
      || (h.status.Pending? && !EqFold(h.fromAgent, agent))
      || (h.status.Accepted? && h.acceptedBy.Some? && EqFold(h.acceptedBy.value, agent))
  }

  /** `check_in` queues exactly the open rows of the category that concern the
      agent and lie within the caller's boundary, except accepted actions it sent to
      itself and stale notifications. */
  lemma {:induction false} CheckInQueuesExactly(
      rows: Rows, party: Option<Text>, agent: Text, category: Category, now: Time, id: Uuid)
    ensures id in Matching(rows, CheckInFilter(agent, category, party), now) <==>
            && id in rows && rows[id].category == category
            && (rows[id].status.Pending? || rows[id].status.Accepted?)
            && Concerns(rows[id], agent) && Within(party, rows[id]) && NotStale(rows[id], now)
            && !(category.Action? && rows[id].status.Accepted? && rows[id].toAgent.Some?
                 && EqFold(rows[id].toAgent.value, rows[id].fromAgent))
  {
    DayIsSeconds();
  }

  lemma {:induction false} DayIsSeconds()
    ensures NOTIFY_TTL_DAYS * DAY == 7 * 24 * 3600 * 1_000_000
  {
  }

  /** The name is the one asked for, up to padding and case. */
  predicate SameName(name: Text, asked: string) {
    IsAscii(Trim(asked)) && EqFold(name, Trim(asked))
  }

  /** `list_handoffs` matches exactly the rows that meet every filter given, no
      notification unless asked for, none that is stale, and none outside the
      caller's boundary. */
  lemma {:induction false} ListsExactly(rows: Rows, party: Option<Text>, q: ListRequest, now: Time, id: Uuid)
    requires NameOk(q.toAgent) && NameOk(q.fromAgent)
    ensures id in Matching(rows, FilterOf(q, party), now) <==>
            && id in rows
            && (q.status.Some? ==> rows[id].status == q.status.value)
            && (q.toAgent.Some? ==> rows[id].toAgent.Some? && SameName(rows[id].toAgent.value, q.toAgent.value))
            && (q.fromAgent.Some? ==> SameName(rows[id].fromAgent, q.fromAgent.value))
            && (q.category.Some? ==> rows[id].category == q.category.value)
            && (rows[id].category.Notify? ==> q.category.Some? || q.includeNotify == Some(true))
            && Within(party, rows[id]) && NotStale(rows[id], now)
  {
    DayIsSeconds();
  }

  /** `list_replies_to_me` matches exactly the present replies, newer than the
      cursor and within the caller's boundary, to rows the agent sent. */
  lemma {:induction false} RepliesListExactly(
      rows: Rows, agent: Text, since: Option<Time>, party: Option<Text>, id: Uuid)
    ensures id in MatchingReplies(rows, agent, since, party) <==>
            && id in rows && rows[id].inReplyTo.Some? && rows[id].inReplyTo.value in rows
            && EqFold(rows[rows[id].inReplyTo.value].fromAgent, agent)
            && Within(party, rows[id]) && (since.Some? ==> since.value < rows[id].createdAt)
  {
    if id in rows {
      PartyClauseIsCanSee(party, rows[id].fromAgent, rows[id].toAgent);
    }
  }

  /** The self-claim count counts exactly the accepted actions the agent sent to
      itself. */
  lemma {:induction false} ClaimsCountExactly(rows: Rows, agent: Text, id: Uuid)
    ensures id in SelfClaimRows(rows, agent) <==>
            && id in rows && rows[id].status.Accepted? && rows[id].category.Action?
            && rows[id].toAgent.Some? && EqFold(rows[id].toAgent.value, agent) && EqFold(rows[id].fromAgent, agent)
  {
  }

  // ---------- check_in's counts ----------

  /** The number of claims held and the creation time of the oldest. */
  ghost predicate ClaimsHeld(held: Rows, c: Claims) {
    && c.count == |held|
    && (c.oldest.None? <==> held == map[])
    && (forall id :: id in held ==> c.oldest.Some? && c.oldest.value <= held[id].createdAt)
    && (c.oldest.Some? ==> exists id :: id in held && held[id].createdAt == c.oldest.value)
  }

  function PositionsWith(items: seq<Handoff>, status: Status): set<nat> {
    set i: nat | i < |items| && items[i].status == status
  }

  lemma {:induction false} PositionsSnoc(items: seq<Handoff>, h: Handoff, status: Status)
    ensures PositionsWith(items + [h], status) ==
            if h.status == status then PositionsWith(items, status) + {|items| as nat} else PositionsWith(items, status)
  {
  }

  lemma {:induction false} FilterCounts(keep: Handoff -> bool, items: seq<Handoff>, status: Status)
    requires forall h :: keep(h) <==> h.status == status
    ensures |Filter(keep, items)| == |PositionsWith(items, status)|
  {
    if items != [] {
      var n: nat := |items| - 1;
      FilterCounts(keep, items[..n], status);
      PositionsSnoc(items[..n], items[n], status);
      assert items == items[..n] + [items[n]] && n !in PositionsWith(items[..n], status);
    }
  }

  /** The two numbers of a check-in are the pending and the accepted rows of its
      page, which has no others; the pages hold up to twenty and five rows, and the
      claims are counted with their oldest. */
  lemma {:induction false} CheckInCountsExactly(
      first: Rows, second: Rows, third: Rows, party: Option<Text>, agent: Text, now: Time, reply: CheckInReply)
    requires IsCheckIn(first, second, third, party, agent, now, reply) && reply.Queue?
    ensures reply.pending == |PositionsWith(reply.actions.items, Pending)|
    ensures reply.accepted == |PositionsWith(reply.actions.items, Accepted)|
    ensures reply.pending + reply.accepted == |reply.actions.items|
    ensures |reply.actions.items| == Min(20, |Matching(first, CheckInFilter(agent, Action, party), now)|)
    ensures |reply.notifications.items| == Min(5, |Matching(third, CheckInFilter(agent, Notify, party), now)|)
    ensures reply.claims.Some? ==> ClaimsHeld(SelfClaimRows(second, agent), reply.claims.value)
  {
    ListingsShowLatest(Matching(first, CheckInFilter(agent, Action, party), now), ACTION_PAGE, reply.actions);
    ListingsShowLatest(Matching(third, CheckInFilter(agent, Notify, party), now), NOTIFY_PAGE, reply.notifications);
    FilterCounts(IsPending, reply.actions.items, Pending);
    FilterCounts(IsAccepted, reply.actions.items, Accepted);
    CheckInCountsAddUp(first, second, third, party, agent, now, reply);
  }

  // ---------- the wake poll ----------

  datatype PollReply = BadAgent | PollNotAllowed | Queued(listing: Listing, page: PageRequest)

  function WakeRows(rows: Rows, agent: Text, since: Option<Time>): Rows {
    rows - (set id | id in rows && WakeWhere(rows[id], agent, since) != Yes)
  }

  /** A machine polls for the agents on its list. */
  predicate MayPoll(filer: Filer, agent: Text) {
    filer.Machine? ==> exists a :: a in filer.agents && EqFold(a, agent)
  }

  /** `GET /api/pending`: the rows last touched, first. */
  method ListPending(table: HandoffTable, filer: Filer, agent: string, since: Option<Time>, requested: Option<int>)
    returns (reply: PollReply)
    requires forall id :: id in table.rows ==> table.rows[id].id == id
    ensures reply.BadAgent? <==> !ValidSlug(Trim(agent))
    ensures reply.PollNotAllowed? <==> ValidSlug(Trim(agent)) && !MayPoll(filer, Trim(agent))
    ensures reply.Queued? ==>
              && reply.page == NewPage(requested, 50)
              && IsListingBy(ByUpdated, WakeRows(table.rows, Trim(agent), since), reply.page, reply.listing)
  {
    var name := ValidateAgentName(agent);
    if name.None? {
      return BadAgent;
    }
    if filer.Machine? && !AllowsAgent(filer.agents, name.value) {
      return PollNotAllowed;
    }
    var page := NewPage(requested, 50);
    var v := FetchNewest(WakeRows(table.rows, name.value, since), ByUpdated, FetchLimit(page));
    var hasMore := TrimPage(page, v);
    reply := Queued(Listing(v.items, hasMore), page);
  }

  /** The poll queues exactly the open actions sent to the agent and the broadcasts
      it claimed, not its own lock records, touched since the cursor. */
  lemma {:induction false} PollQueuesExactly(rows: Rows, agent: Text, since: Option<Time>, id: Uuid)
    ensures id in WakeRows(rows, agent, since) <==>
            && id in rows && rows[id].category.Action?
            && (rows[id].status.Pending? || rows[id].status.Accepted?)
            && Concerns(rows[id], agent) && (rows[id].toAgent.None? ==> rows[id].status.Accepted?)
            && !(rows[id].status.Accepted? && rows[id].toAgent.Some?
                 && EqFold(rows[id].toAgent.value, rows[id].fromAgent))
            && (since.Some? ==> since.value < rows[id].updatedAt)
  {
  }
}
