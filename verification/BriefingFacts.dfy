/** What the briefing says about the table, told without the queries and loops
    that produce it. */
module BriefingFacts {
  import opened Prelude
  import opened Slugs
  import opened Handoffs
  import opened Queries
  import opened Queues
  import opened Protocol
  import opened Briefings

  // ---------- the classes of handoffs ----------

  /** A handoff somebody still has to act on. */
  predicate OnBooks(h: Handoff) {
    h.category.Action? && (h.status.Pending? || h.status.Accepted?)
  }

  /** Its recipient, or the agent that claimed the broadcast, is this one. */
  predicate Owes(h: Handoff, agent: Text) {
    match h.toAgent
    case Some(to) => EqFold(to, agent)
    case None => h.status.Accepted? && h.acceptedBy.Some? && EqFold(h.acceptedBy.value, agent)
  }

  predicate SentToSelf(h: Handoff) {
    h.toAgent.Some? && EqFold(h.toAgent.value, h.fromAgent)
  }

  const DAYS: Time := 24 * 3600 * 1_000_000

  /** Four days pending, or eight days accepted. */
  predicate Overdue(h: Handoff, now: Time) {
    now - h.createdAt >= (if h.status.Pending? then 4 else 8) * DAYS
  }

  function Waiting(operator: Text): Handoff -> bool {
    (h: Handoff) => OnBooks(h) && Owes(h, operator)
  }

  function Failing(operator: Text): Handoff -> bool {
    (h: Handoff) => OnBooks(h) && !Owes(h, operator) && h.origin.FromMachine? && (h.priority.High? || h.priority.Critical?)
  }

  function Stuck(operator: Text, now: Time): Handoff -> bool {
    (h: Handoff) => OnBooks(h) && !Owes(h, operator) && h.origin.FromAgent? && !SentToSelf(h) && Overdue(h, now)
  }

  predicate SelfAddressed(h: Handoff) {
    OnBooks(h) && SentToSelf(h)
  }

  predicate MachineFinding(h: Handoff) {
    OnBooks(h) && h.origin.FromMachine?
  }

  predicate RepeatingFinding(h: Handoff) {
    MachineFinding(h) && h.repeatCount > 0
  }

  predicate PendingAction(h: Handoff) {
    OnBooks(h) && h.status.Pending?
  }

  predicate AcceptedAction(h: Handoff) {
    OnBooks(h) && h.status.Accepted?
  }

  /** The rows of the table in a class. */
  function In(rows: Rows, class_: Handoff -> bool): set<Uuid> {
    set id | id in rows && class_(rows[id])
  }

  // ---------- counting ----------

  /** The briefs kept are those of a class of handoffs. */
  ghost predicate Picks(rows: Rows, operator: Text, keep: Brief -> bool, class_: Handoff -> bool) {
    forall id :: id in rows ==> (class_(rows[id]) <==> OnBooks(rows[id]) && keep(ProjectBrief(rows[id], operator)))
  }

  lemma {:induction false} OnBooksIsOpenAction(h: Handoff)
    ensures IsOpenAction(h) <==> OnBooks(h)
  {
  }

  lemma {:induction false} FilterIdsDistinct(keep: Brief -> bool, list: seq<Brief>)
    requires DistinctIds(list)
    ensures DistinctIds(Filter(keep, list))
  {
    if list != [] {
      var n := |list| - 1;
      FilterIdsDistinct(keep, list[..n]);
      FilterMembers(keep, list[..n]);
      forall r | r in list[..n] ensures r.id != list[n].id {
        var i :| 0 <= i < n && list[..n][i] == r;
        assert list[i] == r;
      }
    }
  }

  lemma {:induction false} KeptIsInClass(
      rows: Rows, operator: Text, list: seq<Brief>, keep: Brief -> bool, class_: Handoff -> bool, r: Brief)
    requires IsBriefList(rows, operator, list) && Picks(rows, operator, keep, class_)
    ensures r in Filter(keep, list) ==> r.id in In(rows, class_) && r == ProjectBrief(rows[r.id], operator)
  {
    FilterMembers(keep, list);
    if r in Filter(keep, list) {
      var i :| 0 <= i < |list| && list[i] == r;
      OnBooksIsOpenAction(rows[r.id]);
    }
  }

  lemma {:induction false} ClassIsKept(
      rows: Rows, operator: Text, list: seq<Brief>, keep: Brief -> bool, class_: Handoff -> bool, id: Uuid)
    requires IsBriefList(rows, operator, list) && Picks(rows, operator, keep, class_) && id in In(rows, class_)
    ensures ProjectBrief(rows[id], operator) in Filter(keep, list)
  {
    OnBooksIsOpenAction(rows[id]);
    assert id in OpenActions(rows);
    var i :| 0 <= i < |list| && list[i].id == id;
    assert list[i] == ProjectBrief(rows[id], operator);
    FilterMembers(keep, list);
  }

  /** Filtering the brief list is counting a class of the table. */
  lemma {:induction false} FilterIsClass(
      rows: Rows, operator: Text, list: seq<Brief>, keep: Brief -> bool, class_: Handoff -> bool)
    requires IsBriefList(rows, operator, list) && Picks(rows, operator, keep, class_)
    requires forall id :: id in rows ==> rows[id].id == id
    ensures |Filter(keep, list)| == |In(rows, class_)|
  {
    var kept := Filter(keep, list);
    BriefListIsOrdered(rows, operator, list);
    FilterIdsDistinct(keep, list);
    forall i | 0 <= i < |kept| ensures kept[i].id in In(rows, class_) {
      KeptIsInClass(rows, operator, list, keep, class_, kept[i]);
    }
    forall id | id in In(rows, class_) ensures exists i :: 0 <= i < |kept| && kept[i].id == id {
      ClassIsKept(rows, operator, list, keep, class_, id);
      var i :| 0 <= i < |kept| && kept[i] == ProjectBrief(rows[id], operator);
    }
    DistinctListSize(kept, In(rows, class_));
  }

  // ---------- which rows the briefing keeps ----------

  lemma {:induction false} OperatorColumn(h: Handoff, operator: Text)
    ensures ProjectBrief(h, operator).isOperator <==> Owes(h, operator)
    ensures ProjectBrief(h, operator).isSelfAddressed <==> SentToSelf(h)
  {
  }

  lemma {:induction false} StuckIsOverdue(h: Handoff, operator: Text, now: Time)
    requires OnBooks(h)
    ensures IsStuckAge(h.status, AgeDays(now, h.createdAt)) <==> Overdue(h, now)
  {
    DayLength();
    if now > h.createdAt {
      WholeDays(now - h.createdAt, 3);
      WholeDays(now - h.createdAt, 7);
    }
  }

  lemma {:induction false} DayLength()
    ensures DAY == DAYS
  {
  }

  lemma {:induction false} WholeDays(elapsed: Time, days: nat)
    requires elapsed > 0
    ensures elapsed / DAY > days <==> elapsed >= (days + 1) * DAY
  {
  }

  lemma {:induction false} SectionsPick(rows: Rows, operator: Text, now: Time)
    ensures Picks(rows, operator, IsMine, Waiting(operator))
    ensures Picks(rows, operator, IsFailing, Failing(operator))
    ensures Picks(rows, operator, StuckAt(now), Stuck(operator, now))
    ensures Picks(rows, operator, IsSelfAddressed, SelfAddressed)
    ensures Picks(rows, operator, IsMachine, MachineFinding)
  {
    forall h: Handoff {
      OperatorColumn(h, operator);
    }
    forall h | OnBooks(h) {
      StuckIsOverdue(h, operator, now);
    }
  }

  // ---------- totals ----------

  lemma {:induction false} RepeatsWithin(list: seq<Brief>)
    ensures Filter(Repeats, Filter(IsMachine, list)) == Filter(IsRepeating, list)
  {
    if list != [] {
      RepeatsWithin(list[..|list| - 1]);
    }
  }

  predicate IsRepeating(r: Brief) {
    r.origin.FromMachine? && r.repeatCount > 0
  }

  /** Each total of a briefing is the true number of handoffs of its class. */
  lemma {:induction false} BriefingTotalsExactly(rows: Rows, operator: Text, list: seq<Brief>, now: Time, s: Sections)
    requires IsBriefList(rows, operator, list) && IsTriage(list, now, s)
    requires forall id :: id in rows ==> rows[id].id == id
    ensures s.waitingOnYou.total == |In(rows, Waiting(operator))|
    ensures s.failingChecks.total == |In(rows, Failing(operator))|
    ensures s.stuck.total == |In(rows, Stuck(operator, now))|
    ensures s.selfAddressed.count == |In(rows, SelfAddressed)|
    ensures s.machineFindings.count == |In(rows, MachineFinding)|
    ensures s.machineFindings.repeating == Some(|In(rows, RepeatingFinding)|)
  {
    SectionsPick(rows, operator, now);
    FilterIsClass(rows, operator, list, IsMine, Waiting(operator));
    FilterIsClass(rows, operator, list, IsFailing, Failing(operator));
    FilterIsClass(rows, operator, list, StuckAt(now), Stuck(operator, now));
    FilterIsClass(rows, operator, list, IsSelfAddressed, SelfAddressed);
    FilterIsClass(rows, operator, list, IsMachine, MachineFinding);
    FilterIsClass(rows, operator, list, IsRepeating, RepeatingFinding);
    RepeatsWithin(list);
  }

  predicate Unclaimed(h: Handoff) {
    OnBooks(h) && h.toAgent.None? && h.status.Pending?
  }

  lemma {:induction false} RecipientIsOwner(h: Handoff, operator: Text, key: Text)
    requires RowOk(h) && OnBooks(h)
    ensures ValidSlug(key) ==> (EqFold(Recipient(ProjectBrief(h, operator)), key) <==> Owes(h, key))
    ensures EqFold(Recipient(ProjectBrief(h, operator)), UNADDRESSED) <==> Unclaimed(h)
  {
    if ValidSlug(key) {
      UnaddressedIsNoSlug(key);
    }
    if h.toAgent.Some? {
      UnaddressedIsNoSlug(h.toAgent.value);
    } else if h.acceptedBy.Some? {
      UnaddressedIsNoSlug(h.acceptedBy.value);
    }
  }

  /** The rows of the table one entry counts. */
  function Counted(key: Text): Handoff -> bool {
    (h: Handoff) => if ValidSlug(key) then OnBooks(h) && Owes(h, key) else Unclaimed(h)
  }

  lemma {:induction false} OwnerRowsCount(rows: Rows, operator: Text, list: seq<Brief>, key: Text)
    requires IsBriefList(rows, operator, list)
    requires forall id :: id in rows ==> rows[id].id == id && RowOk(rows[id])
    requires ValidSlug(key) || key == UNADDRESSED
    ensures |AddressedTo(list, key)| == |In(rows, Counted(key))|
  {
    UnaddressedIsNoSlugItself();
    forall id | id in rows
      ensures Counted(key)(rows[id]) <==> OnBooks(rows[id]) && IsFor(key)(ProjectBrief(rows[id], operator))
    {
      if OnBooks(rows[id]) {
        RecipientIsOwner(rows[id], operator, key);
      }
    }
    FilterIsClass(rows, operator, list, IsFor(key), Counted(key));
  }

  /** Each entry of the recipient counts is the true number of handoffs on the
      books of that agent, or, for the entry without a name, of unclaimed
      broadcasts. */
  lemma {:induction false} RecipientCountsExactly(
      rows: Rows, operator: Text, list: seq<Brief>, now: Time, s: Sections, c: RecipientCount)
    requires IsBriefList(rows, operator, list) && IsTriage(list, now, s) && c in s.byRecipient
    requires forall id :: id in rows ==> rows[id].id == id && RowOk(rows[id])
    ensures ValidSlug(c.toAgent) ==> c.open == |In(rows, Waiting(c.toAgent))|
    ensures c.toAgent == UNADDRESSED ==> c.open == |In(rows, Unclaimed)|
  {
    assert CountOk(c, list);
    CountedClass(rows, c.toAgent);
    if ValidSlug(c.toAgent) || c.toAgent == UNADDRESSED {
      OwnerRowsCount(rows, operator, list, c.toAgent);
    }
  }

  lemma {:induction false} CountedClass(rows: Rows, key: Text)
    ensures In(rows, Counted(key)) == In(rows, if ValidSlug(key) then Waiting(key) else Unclaimed)
    ensures !ValidSlug(UNADDRESSED)
  {
    UnaddressedIsNoSlugItself();
  }

  lemma {:induction false} UnaddressedIsNoSlugItself()
    ensures !ValidSlug(UNADDRESSED)
  {
    assert UNADDRESSED[0] == '(';
  }

  /** The three numbers of the header. */
  lemma {:induction false} HeaderCountsExactly(rows: Rows)
    ensures CountOpen(rows) == (|In(rows, OnBooks)|, |In(rows, PendingAction)|, |In(rows, AcceptedAction)|)
  {
    forall h: Handoff ensures IsOpenAction(h) <==> OnBooks(h) {
      OnBooksIsOpenAction(h);
    }
    var open := OpenActions(rows);
    assert open.Keys == In(rows, OnBooks);
    assert WithStatus(open, Pending).Keys == In(rows, PendingAction);
    assert WithStatus(open, Accepted).Keys == In(rows, AcceptedAction);
    assert |open| == |open.Keys|;
    assert |WithStatus(open, Pending)| == |WithStatus(open, Pending).Keys|;
    assert |WithStatus(open, Accepted)| == |WithStatus(open, Accepted).Keys|;
  }

  // ---------- titles ----------

  /** The item says what the row says. */
  predicate Tells(item: BriefItem, h: Handoff, now: Time) {
    && (item.id, item.title, item.fromAgent, item.toAgent, item.acceptedBy)
       == (h.id, h.title, h.fromAgent, h.toAgent, h.acceptedBy)
    && (item.status, item.priority, item.repeatCount) == (h.status, h.priority, h.repeatCount)
    && (h.createdAt <= now ==> item.ageDays * DAYS <= now - h.createdAt < (item.ageDays + 1) * DAYS)
    && (h.createdAt > now ==> item.ageDays == 0)
  }

  lemma {:induction false} ItemTells(h: Handoff, operator: Text, now: Time)
    ensures Tells(ToItem(ProjectBrief(h, operator), now), h, now)
  {
    DayLength();
    if h.createdAt < now {
      WholeAge(now - h.createdAt);
    }
  }

  lemma {:induction false} WholeAge(elapsed: Time)
    requires elapsed > 0
    ensures (elapsed / DAY) * DAY <= elapsed < (elapsed / DAY + 1) * DAY
  {
  }

  predicate TellsRows(items: seq<BriefItem>, rows: Rows, class_: Handoff -> bool, now: Time) {
    forall i :: 0 <= i < |items| ==> items[i].id in In(rows, class_) && Tells(items[i], rows[items[i].id], now)
  }

  predicate OldestItemsFirst(items: seq<BriefItem>, rows: Rows) {
    forall i, j :: 0 <= i < j < |items| ==>
      && items[i].id != items[j].id && items[i].id in rows && items[j].id in rows
      && rows[items[i].id].createdAt <= rows[items[j].id].createdAt
  }

  predicate NoneOlder(items: seq<BriefItem>, rows: Rows, class_: Handoff -> bool) {
    forall i, id :: 0 <= i < |items| && id in In(rows, class_) && !Titles(items, id) ==>
      items[i].id in rows && rows[items[i].id].createdAt <= rows[id].createdAt
  }

  /** The section titles the oldest of a class: every row it shows is told truly,
      oldest first, and none left out is older. */
  predicate TitlesOldest(items: seq<BriefItem>, rows: Rows, class_: Handoff -> bool, now: Time) {
    TellsRows(items, rows, class_, now) && OldestItemsFirst(items, rows) && NoneOlder(items, rows, class_)
  }

  /** The briefs are projections of rows of the class, each once, oldest first. */
  predicate ProjectsOldestFirst(kept: seq<Brief>, rows: Rows, operator: Text, class_: Handoff -> bool) {
    && DistinctIds(kept) && OldestRowsFirst(kept)
    && forall i :: 0 <= i < |kept| ==> kept[i].id in In(rows, class_) && kept[i] == ProjectBrief(rows[kept[i].id], operator)
  }

  lemma {:induction false} KeptProjects(
      rows: Rows, operator: Text, list: seq<Brief>, keep: Brief -> bool, class_: Handoff -> bool)
    requires IsBriefList(rows, operator, list) && Picks(rows, operator, keep, class_)
    ensures ProjectsOldestFirst(Filter(keep, list), rows, operator, class_)
  {
    var kept := Filter(keep, list);
    BriefListIsOrdered(rows, operator, list);
    FilterIdsDistinct(keep, list);
    FilterKeepsOrder(keep, list);
    forall i | 0 <= i < |kept|
      ensures kept[i].id in In(rows, class_) && kept[i] == ProjectBrief(rows[kept[i].id], operator)
    {
      KeptIsInClass(rows, operator, list, keep, class_, kept[i]);
    }
  }

  lemma {:induction false} PageTellsRows(kept: seq<Brief>, rows: Rows, operator: Text, class_: Handoff -> bool, now: Time)
    requires ProjectsOldestFirst(kept, rows, operator, class_)
    ensures TellsRows(PageOf(kept, now).items, rows, class_, now)
    ensures OldestItemsFirst(PageOf(kept, now).items, rows)
  {
    forall i | 0 <= i < |PageOf(kept, now).items|
      ensures Tells(PageOf(kept, now).items[i], rows[kept[i].id], now)
    {
      ItemTells(rows[kept[i].id], operator, now);
    }
  }

  lemma {:induction false} PageTitlesOldest(
      rows: Rows, operator: Text, list: seq<Brief>, keep: Brief -> bool, class_: Handoff -> bool, now: Time)
    requires IsBriefList(rows, operator, list) && Picks(rows, operator, keep, class_)
    requires forall id :: id in rows ==> rows[id].id == id
    ensures var page := PageOf(Filter(keep, list), now);
            && |page.items| == Min(page.total, 50) && (page.truncated <==> page.total > 50)
            && TitlesOldest(page.items, rows, class_, now)
  {
    var kept := Filter(keep, list);
    KeptProjects(rows, operator, list, keep, class_);
    PageTellsRows(kept, rows, operator, class_, now);
    forall i, id | 0 <= i < |PageOf(kept, now).items| && id in In(rows, class_) && !Titles(PageOf(kept, now).items, id)
      ensures rows[kept[i].id].createdAt <= rows[id].createdAt
    {
      ClassIsKept(rows, operator, list, keep, class_, id);
      UntitledIsYounger(kept, now, ProjectBrief(rows[id], operator), i);
    }
  }

  lemma {:induction false} UntitledIsYounger(kept: seq<Brief>, now: Time, r: Brief, i: nat)
    requires OldestRowsFirst(kept) && r in kept && !Titles(PageOf(kept, now).items, r.id)
    requires i < |PageOf(kept, now).items|
    ensures kept[i].createdAt <= r.createdAt
  {
    var items := PageOf(kept, now).items;
    forall k | 0 <= k < |items| ensures Titles(items, kept[k].id) {
      assert items[k].id == kept[k].id;
    }
    var k :| 0 <= k < |kept| && kept[k] == r;
  }

  /** The two titled sections of a briefing show the fifty oldest of their class. */
  lemma {:induction false} SectionsTitleOldest(rows: Rows, operator: Text, list: seq<Brief>, now: Time, s: Sections)
    requires IsBriefList(rows, operator, list) && IsTriage(list, now, s)
    requires forall id :: id in rows ==> rows[id].id == id
    ensures |s.waitingOnYou.items| == Min(s.waitingOnYou.total, 50)
    ensures TitlesOldest(s.waitingOnYou.items, rows, Waiting(operator), now)
    ensures |s.failingChecks.items| == Min(s.failingChecks.total, 50)
    ensures TitlesOldest(s.failingChecks.items, rows, Failing(operator), now)
    ensures s.waitingOnYou.truncated <==> s.waitingOnYou.total > 50
    ensures s.failingChecks.truncated <==> s.failingChecks.total > 50
  {
    SectionsPick(rows, operator, now);
    PageTitlesOldest(rows, operator, list, IsMine, Waiting(operator), now);
    PageTitlesOldest(rows, operator, list, IsFailing, Failing(operator), now);
  }

  lemma {:induction false} GroupItemIsRow(g: StuckGroup, shown: seq<Brief>, now: Time, i: nat)
    requires GroupOk(g, shown, now) && i < |g.items|
    ensures exists r :: r in shown && g.items[i] == ToItem(r, now) && EqFold(Recipient(r), g.toAgent)
  {
    FilterMembers(IsFor(g.toAgent), shown);
    var r := AddressedTo(shown, g.toAgent)[i];
    assert r in AddressedTo(shown, g.toAgent);
  }

  lemma {:induction false} GroupIsSpeltByFirst(
      rows: Rows, operator: Text, list: seq<Brief>, now: Time, s: Sections, g: nat)
    requires IsTriage(list, now, s) && g < |s.stuck.groups| && |s.stuck.groups[g].items| > 0
    ensures var group := s.stuck.groups[g];
            group.items[0].toAgent.Some? ==> group.toAgent == group.items[0].toAgent.value
  {
    var group, shown := s.stuck.groups[g], Take(StuckRows(list, now), SECTION_CAP);
    assert GroupOk(group, shown, now);
    RowsOfRecipient(shown, group.toAgent);
  }

  /** Every item of a stuck group is a stuck handoff, told truly, under the name of
      the agent it sits with, spelt as the first item spells it. */
  lemma {:induction false} StuckGroupsTell(
      rows: Rows, operator: Text, list: seq<Brief>, now: Time, s: Sections, g: nat, i: nat)
    requires IsBriefList(rows, operator, list) && IsTriage(list, now, s)
    requires g < |s.stuck.groups| && i < |s.stuck.groups[g].items|
    ensures var item := s.stuck.groups[g].items[i];
            && item.id in In(rows, Stuck(operator, now)) && Tells(item, rows[item.id], now)
            && (ValidSlug(s.stuck.groups[g].toAgent) && RowOk(rows[item.id]) ==>
                  Owes(rows[item.id], s.stuck.groups[g].toAgent))
            && (i == 0 && item.toAgent.Some? ==> s.stuck.groups[g].toAgent == item.toAgent.value)
  {
    GroupIsSpeltByFirst(rows, operator, list, now, s, g);
    var group, shown := s.stuck.groups[g], Take(StuckRows(list, now), SECTION_CAP);
    GroupItemIsRow(group, shown, now, i);
    var r :| r in shown && group.items[i] == ToItem(r, now) && EqFold(Recipient(r), group.toAgent);
    SectionsPick(rows, operator, now);
    assert r in StuckRows(list, now);
    KeptIsInClass(rows, operator, list, StuckAt(now), Stuck(operator, now), r);
    ItemTells(rows[r.id], operator, now);
    if RowOk(rows[r.id]) {
      RecipientIsOwner(rows[r.id], operator, group.toAgent);
    }
  }

  // ---------- ages ----------

  function DaysOld(h: Handoff, now: Time): nat {
    if now < h.createdAt then 0 else (now - h.createdAt) / DAYS
  }

  /** The age of the oldest of a class, if it has any. */
  ghost predicate IsOldestAge(age: Option<nat>, rows: Rows, class_: Handoff -> bool, now: Time) {
    && (age.None? <==> In(rows, class_) == {})
    && (age.Some? ==> exists id :: id in In(rows, class_) && DaysOld(rows[id], now) == age.value)
    && (forall id :: id in In(rows, class_) ==> age.Some? && DaysOld(rows[id], now) <= age.value)
  }

  lemma {:induction false} DaysOldIsAge(h: Handoff, now: Time)
    ensures DaysOld(h, now) == AgeDays(now, h.createdAt)
  {
    DayLength();
  }

  lemma {:induction false} FirstIsOldest(
      rows: Rows, operator: Text, list: seq<Brief>, keep: Brief -> bool, class_: Handoff -> bool, now: Time)
    requires IsBriefList(rows, operator, list) && Picks(rows, operator, keep, class_)
    requires forall id :: id in rows ==> rows[id].id == id
    ensures IsOldestAge(AgeOfFirst(Filter(keep, list), now), rows, class_, now)
  {
    var kept := Filter(keep, list);
    BriefListIsOrdered(rows, operator, list);
    BucketAgeIsMaximum(keep, list, now);
    forall id | id in In(rows, class_)
      ensures kept != [] && DaysOld(rows[id], now) <= AgeOfFirst(kept, now).value
    {
      ClassIsKept(rows, operator, list, keep, class_, id);
      DaysOldIsAge(rows[id], now);
    }
    if kept != [] {
      KeptIsInClass(rows, operator, list, keep, class_, kept[0]);
      DaysOldIsAge(rows[kept[0].id], now);
    }
  }

  /** The two buckets give the age of their oldest handoff. */
  lemma {:induction false} BucketsTellOldest(rows: Rows, operator: Text, list: seq<Brief>, now: Time, s: Sections)
    requires IsBriefList(rows, operator, list) && IsTriage(list, now, s)
    requires forall id :: id in rows ==> rows[id].id == id
    ensures IsOldestAge(s.selfAddressed.oldestAgeDays, rows, SelfAddressed, now)
    ensures IsOldestAge(s.machineFindings.oldestAgeDays, rows, MachineFinding, now)
  {
    SectionsPick(rows, operator, now);
    FirstIsOldest(rows, operator, list, IsSelfAddressed, SelfAddressed, now);
    FirstIsOldest(rows, operator, list, IsMachine, MachineFinding, now);
  }

  // ---------- order of the counts ----------

  /** The names agree up to some place, where the first ends or has the smaller
      character. */
  predicate ComesBefore(a: string, b: string) {
    exists k :: && 0 <= k <= |a| && k <= |b| && a[..k] == b[..k]
                && (k == |a| || (k < |b| && a[k] < b[k]))
  }

  lemma {:induction false} NamesInOrder(a: string, b: string)
    requires NameLe(a, b)
    ensures ComesBefore(a, b)
  {
    if a == "" {
      assert a[..0] == b[..0];
    } else if a[0] < b[0] {
      assert a[..0] == b[..0];
    } else {
      NamesInOrder(a[1..], b[1..]);
      var k :| && 0 <= k <= |a[1..]| && k <= |b[1..]| && a[1..][..k] == b[1..][..k]
               && (k == |a[1..]| || (k < |b[1..]| && a[1..][k] < b[1..][k]));
      assert a[..k + 1] == [a[0]] + a[1..][..k];
      assert b[..k + 1] == [b[0]] + b[1..][..k];
    }
  }

  /** The counts come busiest first, and by name where equally busy. */
  lemma {:induction false} CountsAreBusiestFirst(rows: seq<Brief>, now: Time, s: Sections, i: nat, j: nat)
    requires IsTriage(rows, now, s) && i < j < |s.byRecipient|
    ensures s.byRecipient[i].open >= s.byRecipient[j].open
    ensures s.byRecipient[i].open == s.byRecipient[j].open ==>
              ComesBefore(s.byRecipient[i].toAgent, s.byRecipient[j].toAgent)
  {
    assert Precedes(s.byRecipient[i], s.byRecipient[j]);
    if s.byRecipient[i].open == s.byRecipient[j].open {
      NamesInOrder(s.byRecipient[i].toAgent, s.byRecipient[j].toAgent);
    }
  }
}
