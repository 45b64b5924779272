/** The queries over the handoffs table (`src/repo/handoff_repo.rs`): which rows
    each selects, under SQL three-valued logic, and in what order. */
module Queries {
  import opened Prelude
  import opened Slugs
  import opened Sql
  import opened Callers
  import opened Handoffs
  import opened Pagination

  const DAY: Time := 86_400_000_000
  const NOTIFY_TTL_DAYS := 7

  // ---------- ORDER BY ... DESC LIMIT n ----------

  datatype SortKey = ByCreated | ByUpdated

  function Stamp(key: SortKey, h: Handoff): Time {
    if key.ByCreated? then h.createdAt else h.updatedAt
  }

  /** `items` is an answer: the newest `n` of the matching rows, newest first.
      Rows with equal stamps may come in any order, as in SQL. */
  ghost predicate IsPage(matching: Rows, key: SortKey, n: nat, items: seq<Handoff>) {
    && |items| == Min(n, |matching|)
    && (forall i :: 0 <= i < |items| ==> items[i].id in matching && matching[items[i].id] == items[i])
    && (forall i, j :: 0 <= i < j < |items| ==>
          items[i].id != items[j].id && Stamp(key, items[i]) >= Stamp(key, items[j]))
    && (forall id, i :: id in matching && matching[id] !in items && 0 <= i < |items| ==>
          Stamp(key, items[i]) >= Stamp(key, matching[id]))
  }

  /** `ids` is what has been taken from the matching rows, `rest` what is left. */
  ghost predicate Taken(matching: Rows, key: SortKey, ids: seq<Uuid>, rest: set<Uuid>) {
    && |ids| + |rest| == |matching| && rest <= matching.Keys
    && (forall id :: id in ids <==> id in matching && id !in rest)
    && (forall i, j :: 0 <= i < j < |ids| ==>
          ids[i] != ids[j] && Stamp(key, matching[ids[i]]) >= Stamp(key, matching[ids[j]]))
    && (forall i, id :: 0 <= i < |ids| && id in rest ==> Stamp(key, matching[ids[i]]) >= Stamp(key, matching[id]))
  }

  method NewestOf(matching: Rows, rest: set<Uuid>, key: SortKey) returns (newest: Uuid)
    requires rest != {} && rest <= matching.Keys
    ensures newest in rest
    ensures forall id :: id in rest ==> Stamp(key, matching[newest]) >= Stamp(key, matching[id])
  {
    newest :| newest in rest;
    var todo := rest;
    while todo != {}
      invariant todo <= rest && newest in rest
      invariant forall id :: id in rest - todo ==> Stamp(key, matching[newest]) >= Stamp(key, matching[id])
    {
      var id :| id in todo;
      if Stamp(key, matching[id]) > Stamp(key, matching[newest]) {
        newest := id;
      }
      todo := todo - {id};
    }
  }

  lemma {:induction false} TakeNewest(matching: Rows, key: SortKey, ids: seq<Uuid>, rest: set<Uuid>, newest: Uuid)
    requires Taken(matching, key, ids, rest) && newest in rest
    requires forall id :: id in rest ==> Stamp(key, matching[newest]) >= Stamp(key, matching[id])
    ensures Taken(matching, key, ids + [newest], rest - {newest})
  {
    assert newest !in ids;
  }

  method FetchNewest(matching: Rows, key: SortKey, n: nat) returns (v: Vec<Handoff>)
    requires forall id :: id in matching ==> matching[id].id == id
    ensures IsPage(matching, key, n, v.items) && fresh(v)
  {
    var ids, rest := [], matching.Keys;
    while |ids| < n && rest != {}
      invariant |ids| <= n && Taken(matching, key, ids, rest)
      decreases |rest|
    {
      var id := NewestOf(matching, rest, key);
      TakeNewest(matching, key, ids, rest, id);
      ids := ids + [id];
      rest := rest - {id};
    }
    var items := seq(|ids|, i requires 0 <= i < |ids| => assert ids[i] in ids; matching[ids[i]]);
    TakenIsPage(matching, key, n, ids, rest, items);
    v := new Vec(items);
  }

  lemma {:induction false} TakenIsPage(matching: Rows, key: SortKey, n: nat, ids: seq<Uuid>, rest: set<Uuid>, items: seq<Handoff>)
    requires forall id :: id in matching ==> matching[id].id == id
    requires Taken(matching, key, ids, rest) && (|ids| == n || (|ids| < n && rest == {}))
    requires |items| == |ids| && forall i :: 0 <= i < |ids| ==> ids[i] in matching && items[i] == matching[ids[i]]
    ensures IsPage(matching, key, n, items)
  {
    forall id | id in ids
      ensures matching[id] in items
    {
      var k :| 0 <= k < |ids| && ids[k] == id;
      assert items[k] == matching[id];
    }
  }

  // ---------- list_handoffs_filtered ----------

  datatype StatusFilter = AnyStatus | Exactly(status: Status) | OnlyOpen

  datatype ListFilter = ListFilter(
    status: StatusFilter,
    toAgent: Option<Text>,
    fromAgent: Option<Text>,
    category: Option<Category>,
    includeNotify: bool,
    includeBroadcast: bool,
    excludeSelfClaims: bool,
    party: Option<Text>)

  /** One condition of the WHERE clause; `at` is its `$n` placeholder. */
  datatype Cond =
    | StatusIs(at: nat)
    | StatusOpen
    | ToIs(at: nat)
    | ToIsOrBroadcast(at: nat)
    | FromIs(at: nat)
    | CategoryIs(at: nat)
    | CategoryIsAction
    | NotSelfClaim
    | PartyIs(at: nat)
    | NotifyIsRecent

  datatype Param = PText(text: Text) | PStatus(status: Status) | PCategory(category: Category) | PLimit(limit: int)

  function TextAt(binds: seq<Param>, at: nat): Option<Text> {
    if 1 <= at <= |binds| && binds[at - 1].PText? then Some(binds[at - 1].text) else None
  }

  function NotSelfClaimed(h: Handoff): Tri {
    Not(And(Truth(h.status.Accepted?),
            And(Not(IsNull(h.toAgent)), EqLower(Some(h.fromAgent), h.toAgent))))
  }

  function Eval(c: Cond, binds: seq<Param>, h: Handoff, now: Time): Tri {
    match c
    case StatusIs(at) => if 1 <= at <= |binds| then Truth(binds[at - 1] == PStatus(h.status)) else Unknown
    case StatusOpen => Truth(Open(h))
    case ToIs(at) => EqLower(h.toAgent, TextAt(binds, at))
    case ToIsOrBroadcast(at) =>
      var agent := TextAt(binds, at);
      Or(Or(EqLower(h.toAgent, agent),
            And(And(IsNull(h.toAgent), Truth(h.status.Pending?)), Not(EqLower(Some(h.fromAgent), agent)))),
         And(And(IsNull(h.toAgent), Truth(h.status.Accepted?)), EqLower(h.acceptedBy, agent)))
    case FromIs(at) => EqLower(Some(h.fromAgent), TextAt(binds, at))
    case CategoryIs(at) => if 1 <= at <= |binds| then Truth(binds[at - 1] == PCategory(h.category)) else Unknown
    case CategoryIsAction => Truth(h.category.Action?)
    case NotSelfClaim => NotSelfClaimed(h)
    case PartyIs(at) => PartyClause(TextAt(binds, at), Some(h.fromAgent), h.toAgent)
    case NotifyIsRecent => Truth(h.category.Action? || h.createdAt > now - NOTIFY_TTL_DAYS * DAY)
  }

  predicate Selected(conds: seq<Cond>, binds: seq<Param>, h: Handoff, now: Time) {
    forall i :: 0 <= i < |conds| ==> Eval(conds[i], binds, h, now) == Yes
  }

  predicate Is(a: Option<Text>, agent: Text) {
    a.Some? && EqFold(a.value, agent)
  }

  /** A claimed, self-addressed row: a lock record rather than work. */
  predicate SelfClaim(h: Handoff) {
    h.status.Accepted? && Is(h.toAgent, h.fromAgent)
  }

  /** Addressed to the agent, a pending broadcast by somebody else, or a
      broadcast the agent claimed. */
  predicate OwesOrMayClaim(h: Handoff, agent: Text) {
    if h.toAgent.Some? then Is(h.toAgent, agent)
    else if h.status.Pending? then !EqFold(h.fromAgent, agent)
    else h.status.Accepted? && Is(h.acceptedBy, agent)
  }

  /** What the filter means, row by row. */
  predicate Listed(f: ListFilter, h: Handoff, now: Time) {
    && (f.status.Exactly? ==> h.status == f.status.status)
    && (f.status.OnlyOpen? ==> Open(h))
    && (f.toAgent.Some? ==>
          if f.includeBroadcast then OwesOrMayClaim(h, f.toAgent.value) else Is(h.toAgent, f.toAgent.value))
    && (f.fromAgent.Some? ==> EqFold(h.fromAgent, f.fromAgent.value))
    && (f.category.Some? ==> h.category == f.category.value)
    && (f.category.None? && !f.includeNotify ==> h.category.Action?)
    && (f.excludeSelfClaims ==> !SelfClaim(h))
    && CanSee(f.party, h.fromAgent, h.toAgent)
    && (h.category.Notify? ==> h.createdAt > now - NOTIFY_TTL_DAYS * DAY)
  }

  lemma {:induction false} SelectedConcat(a: seq<Cond>, b: seq<Cond>, binds: seq<Param>, h: Handoff, now: Time)
    ensures Selected(a + b, binds, h, now) <==> Selected(a, binds, h, now) && Selected(b, binds, h, now)
  {
    if Selected(a + b, binds, h, now) {
      forall i | 0 <= i < |a| ensures Eval(a[i], binds, h, now) == Yes { assert (a + b)[i] == a[i]; }
      forall i | 0 <= i < |b| ensures Eval(b[i], binds, h, now) == Yes { assert (a + b)[|a| + i] == b[i]; }
    }
  }

  lemma {:induction false} SelectedOne(c: Cond, binds: seq<Param>, h: Handoff, now: Time)
    ensures Selected([c], binds, h, now) <==> Eval(c, binds, h, now) == Yes
  {
    assert [c][0] == c;
  }

  /** On a bound agent parameter the recipient conditions mean what they say. */
  lemma {:induction false} RecipientConditions(at: nat, binds: seq<Param>, agent: Text, h: Handoff, now: Time)
    requires TextAt(binds, at) == Some(agent)
    ensures Selected([ToIsOrBroadcast(at)], binds, h, now) <==> OwesOrMayClaim(h, agent)
    ensures Selected([ToIs(at)], binds, h, now) <==> Is(h.toAgent, agent)
  {
    SelectedOne(ToIsOrBroadcast(at), binds, h, now);
    SelectedOne(ToIs(at), binds, h, now);
  }

  lemma {:induction false} OtherConditions(at: nat, binds: seq<Param>, agent: Text, h: Handoff, now: Time)
    requires TextAt(binds, at) == Some(agent)
    ensures Selected([FromIs(at)], binds, h, now) <==> EqFold(h.fromAgent, agent)
    ensures Selected([PartyIs(at)], binds, h, now) <==> CanSee(Some(agent), h.fromAgent, h.toAgent)
  {
    SelectedOne(FromIs(at), binds, h, now);
    SelectedOne(PartyIs(at), binds, h, now);
    PartyClauseIsCanSee(Some(agent), h.fromAgent, h.toAgent);
  }

  lemma {:induction false} FixedConditions(binds: seq<Param>, h: Handoff, now: Time)
    ensures Selected([NotSelfClaim], binds, h, now) <==> !SelfClaim(h)
    ensures Selected([NotifyIsRecent], binds, h, now) <==>
            (h.category.Notify? ==> h.createdAt > now - NOTIFY_TTL_DAYS * DAY)
    ensures Selected([StatusOpen], binds, h, now) <==> Open(h)
    ensures Selected([CategoryIsAction], binds, h, now) <==> h.category.Action?
  {
    SelectedOne(NotSelfClaim, binds, h, now);
    SelectedOne(NotifyIsRecent, binds, h, now);
    SelectedOne(StatusOpen, binds, h, now);
    SelectedOne(CategoryIsAction, binds, h, now);
  }

  lemma {:induction false} EnumConditions(at: nat, binds: seq<Param>, h: Handoff, now: Time)
    requires 1 <= at <= |binds|
    ensures Selected([StatusIs(at)], binds, h, now) <==> binds[at - 1] == PStatus(h.status)
    ensures Selected([CategoryIs(at)], binds, h, now) <==> binds[at - 1] == PCategory(h.category)
  {
    SelectedOne(StatusIs(at), binds, h, now);
    SelectedOne(CategoryIs(at), binds, h, now);
  }

  /** `party_clause` selects a row exactly when `can_see_handoff` shows it. */
  lemma {:induction false} PartyClauseIsCanSee(party: Option<Text>, fromAgent: Text, toAgent: Option<Text>)
    ensures PartyClause(party, Some(fromAgent), toAgent) == Yes <==> CanSee(party, fromAgent, toAgent)
  {
    if party.Some? {
      PartyMatchIsSlugMatches(party.value, fromAgent);
      if toAgent.Some? {
        PartyMatchIsSlugMatches(party.value, toAgent.value);
      } else {
        PartyMatchNullColumn(party.value);
      }
    }
  }

  // The placeholder of each optional parameter, counted from 1.

  function One(present: bool): nat {
    if present then 1 else 0
  }

  function ToAt(f: ListFilter): nat {
    1 + One(f.status.Exactly?)
  }

  function FromAt(f: ListFilter): nat {
    ToAt(f) + One(f.toAgent.Some?)
  }

  function CategoryAt(f: ListFilter): nat {
    FromAt(f) + One(f.fromAgent.Some?)
  }

  function PartyAt(f: ListFilter): nat {
    CategoryAt(f) + One(f.category.Some?)
  }

  function LimitAt(f: ListFilter): nat {
    PartyAt(f) + One(f.party.Some?)
  }

  /** Each present parameter stands where its placeholder says. */
  predicate BoundInOrder(f: ListFilter, limit: int, binds: seq<Param>) {
    && |binds| == LimitAt(f) && binds[LimitAt(f) - 1] == PLimit(limit)
    && (f.status.Exactly? ==> binds[0] == PStatus(f.status.status))
    && (f.toAgent.Some? ==> TextAt(binds, ToAt(f)) == f.toAgent)
    && (f.fromAgent.Some? ==> TextAt(binds, FromAt(f)) == f.fromAgent)
    && (f.category.Some? ==> binds[CategoryAt(f) - 1] == PCategory(f.category.value))
    && (f.party.Some? ==> TextAt(binds, PartyAt(f)) == f.party)
  }

  /** The second pass. */
  method BindParams(f: ListFilter, limit: int) returns (binds: seq<Param>)
    ensures BoundInOrder(f, limit, binds)
  {
    binds := [];
    if f.status.Exactly? { binds := binds + [PStatus(f.status.status)]; }
    if f.toAgent.Some? { binds := binds + [PText(f.toAgent.value)]; }
    if f.fromAgent.Some? { binds := binds + [PText(f.fromAgent.value)]; }
    if f.category.Some? { binds := binds + [PCategory(f.category.value)]; }
    if f.party.Some? { binds := binds + [PText(f.party.value)]; }
    binds := binds + [PLimit(limit)];
  }

  function StatusCond(f: ListFilter): seq<Cond> {
    match f.status
    case AnyStatus => []
    case Exactly(_) => [StatusIs(1)]
    case OnlyOpen => [StatusOpen]
  }

  function ToCond(f: ListFilter): seq<Cond> {
    if f.toAgent.None? then [] else if f.includeBroadcast then [ToIsOrBroadcast(ToAt(f))] else [ToIs(ToAt(f))]
  }

  function FromCond(f: ListFilter): seq<Cond> {
    if f.fromAgent.None? then [] else [FromIs(FromAt(f))]
  }

  function CategoryCond(f: ListFilter): seq<Cond> {
    if f.category.Some? then [CategoryIs(CategoryAt(f))] else if f.includeNotify then [] else [CategoryIsAction]
  }

  function ClaimCond(f: ListFilter): seq<Cond> {
    if f.excludeSelfClaims then [NotSelfClaim] else []
  }

  function PartyCond(f: ListFilter): seq<Cond> {
    if f.party.None? then [] else [PartyIs(PartyAt(f))]
  }

  function AllConds(f: ListFilter): seq<Cond> {
    StatusCond(f) + ToCond(f) + FromCond(f) + CategoryCond(f) + ClaimCond(f) + PartyCond(f) + [NotifyIsRecent]
  }

  /** The first half of the WHERE clause, with its running placeholder number. */
  method BuildAgentConds(f: ListFilter) returns (conds: seq<Cond>, paramIdx: nat)
    ensures conds == StatusCond(f) + ToCond(f) + FromCond(f) && paramIdx == CategoryAt(f)
  {
    conds := [];
    paramIdx := 1;
    match f.status {
      case AnyStatus =>
      case Exactly(_) =>
        conds := conds + [StatusIs(paramIdx)];
        paramIdx := paramIdx + 1;
      case OnlyOpen => conds := conds + [StatusOpen];
    }
    if f.toAgent.Some? {
      conds := conds + [if f.includeBroadcast then ToIsOrBroadcast(paramIdx) else ToIs(paramIdx)];
      paramIdx := paramIdx + 1;
    }
    if f.fromAgent.Some? {
      conds := conds + [FromIs(paramIdx)];
      paramIdx := paramIdx + 1;
    }
  }

  method BuildConds(f: ListFilter) returns (conds: seq<Cond>, limitAt: nat)
    ensures conds == AllConds(f) && limitAt == LimitAt(f)
  {
    var paramIdx;
    conds, paramIdx := BuildAgentConds(f);
    if f.category.Some? {
      conds := conds + [CategoryIs(paramIdx)];
      paramIdx := paramIdx + 1;
    } else if !f.includeNotify {
      conds := conds + [CategoryIsAction];
    }
    if f.excludeSelfClaims {
      conds := conds + [NotSelfClaim];
    }
    if f.party.Some? {
      conds := conds + [PartyIs(paramIdx)];
      paramIdx := paramIdx + 1;
    }
    conds := conds + [NotifyIsRecent];
    limitAt := paramIdx;
  }

  /** Builds the conditions with a running placeholder number, then binds the
      parameters in a second pass. The two passes agree: the query selects
      exactly the listed rows, and its last placeholder is the limit. */
  method BuildListQuery(f: ListFilter, limit: int)
    returns (conds: seq<Cond>, limitAt: nat, binds: seq<Param>)
    ensures 1 <= limitAt == |binds| && binds[limitAt - 1] == PLimit(limit)
    ensures forall h, now :: Selected(conds, binds, h, now) <==> Listed(f, h, now)
  {
    conds, limitAt := BuildConds(f);
    binds := BindParams(f, limit);
    forall h, now
      ensures Selected(conds, binds, h, now) <==> Listed(f, h, now)
    {
      SegmentsMean(f, limit, binds, h, now);
    }
  }

  lemma {:induction false} SelectedSegments(f: ListFilter, binds: seq<Param>, h: Handoff, now: Time)
    ensures Selected(AllConds(f), binds, h, now) <==>
            && Selected(StatusCond(f), binds, h, now) && Selected(ToCond(f), binds, h, now)
            && Selected(FromCond(f), binds, h, now) && Selected(CategoryCond(f), binds, h, now)
            && Selected(ClaimCond(f), binds, h, now) && Selected(PartyCond(f), binds, h, now)
            && Selected([NotifyIsRecent], binds, h, now)
  {
    var s1, s2, s3, s4, s5, s6 := StatusCond(f), ToCond(f), FromCond(f), CategoryCond(f), ClaimCond(f), PartyCond(f);
    SelectedConcat(s1 + s2 + s3 + s4 + s5 + s6, [NotifyIsRecent], binds, h, now);
    SelectedConcat(s1 + s2 + s3 + s4 + s5, s6, binds, h, now);
    SelectedConcat(s1 + s2 + s3 + s4, s5, binds, h, now);
    SelectedConcat(s1 + s2 + s3, s4, binds, h, now);
    SelectedConcat(s1 + s2, s3, binds, h, now);
    SelectedConcat(s1, s2, binds, h, now);
  }

  lemma {:induction false} AgentSegmentsMean(f: ListFilter, limit: int, binds: seq<Param>, h: Handoff, now: Time)
    requires BoundInOrder(f, limit, binds)
    ensures Selected(ToCond(f), binds, h, now) <==>
            (f.toAgent.Some? ==>
               if f.includeBroadcast then OwesOrMayClaim(h, f.toAgent.value) else Is(h.toAgent, f.toAgent.value))
    ensures Selected(FromCond(f), binds, h, now) <==> (f.fromAgent.Some? ==> EqFold(h.fromAgent, f.fromAgent.value))
    ensures Selected(PartyCond(f), binds, h, now) <==> CanSee(f.party, h.fromAgent, h.toAgent)
  {
    if f.toAgent.Some? { RecipientConditions(ToAt(f), binds, f.toAgent.value, h, now); }
    if f.fromAgent.Some? { OtherConditions(FromAt(f), binds, f.fromAgent.value, h, now); }
    if f.party.Some? { OtherConditions(PartyAt(f), binds, f.party.value, h, now); }
  }

  lemma {:induction false} EnumSegmentsMean(f: ListFilter, limit: int, binds: seq<Param>, h: Handoff, now: Time)
    requires BoundInOrder(f, limit, binds)
    ensures Selected(StatusCond(f), binds, h, now) <==>
            (f.status.Exactly? ==> h.status == f.status.status) && (f.status.OnlyOpen? ==> Open(h))
    ensures Selected(CategoryCond(f), binds, h, now) <==>
            && (f.category.Some? ==> h.category == f.category.value)
            && (f.category.None? && !f.includeNotify ==> h.category.Action?)
    ensures Selected(ClaimCond(f), binds, h, now) <==> (f.excludeSelfClaims ==> !SelfClaim(h))
  {
    if f.status.Exactly? { EnumConditions(1, binds, h, now); }
    if f.category.Some? { EnumConditions(CategoryAt(f), binds, h, now); }
    FixedConditions(binds, h, now);
  }

  /** On the parameters bound for it, the WHERE clause is the listing rule. */
  lemma {:induction false} SegmentsMean(f: ListFilter, limit: int, binds: seq<Param>, h: Handoff, now: Time)
    requires BoundInOrder(f, limit, binds)
    ensures Selected(AllConds(f), binds, h, now) <==> Listed(f, h, now)
  {
    SelectedSegments(f, binds, h, now);
    AgentSegmentsMean(f, limit, binds, h, now);
    EnumSegmentsMean(f, limit, binds, h, now);
    FixedConditions(binds, h, now);
  }
}
