/** The operator briefing: triage of the open action handoffs into what waits on
    the operator, failing checks, stuck work, and counts
    (`src/tools/briefings.rs`). */
module Briefings {
  import opened Prelude
  import opened Slugs
  import opened Handoffs
  import opened Queries
  import opened Sql
  import opened Queues

  const STUCK_PENDING_DAYS := 3
  const STUCK_ACCEPTED_DAYS := 7
  const SECTION_CAP := 50

  datatype BriefItem = BriefItem(
    id: Uuid,
    title: string,
    fromAgent: Text,
    toAgent: Option<Text>,
    acceptedBy: Option<Text>,
    status: Status,
    priority: Priority,
    ageDays: nat,
    repeatCount: nat)

  /** A capped page of items with its true total. */
  datatype Section = Section(total: nat, truncated: bool, items: seq<BriefItem>)

  datatype StuckGroup = StuckGroup(toAgent: Text, items: seq<BriefItem>)

  datatype StuckSection = StuckSection(total: nat, truncated: bool, groups: seq<StuckGroup>)

  datatype RecipientCount = RecipientCount(toAgent: Text, open: nat)

  datatype BucketCount = BucketCount(count: nat, oldestAgeDays: Option<nat>, repeating: Option<nat>)

  datatype Sections = Sections(
    operatorSeen: bool,
    waitingOnYou: Section,
    failingChecks: Section,
    stuck: StuckSection,
    byRecipient: seq<RecipientCount>,
    selfAddressed: BucketCount,
    machineFindings: BucketCount)

  /** Whole days elapsed, zero for a row created in the future. */
  function AgeDays(now: Time, created: Time): nat {
    if now <= created then 0 else (now - created) / DAY
  }

  function ToItem(r: Brief, now: Time): BriefItem {
    BriefItem(r.id, r.title, r.fromAgent, r.toAgent, r.acceptedBy, r.status, r.priority,
              AgeDays(now, r.createdAt), r.repeatCount)
  }

  function Items(rows: seq<Brief>, now: Time): (items: seq<BriefItem>)
    ensures |items| == |rows| && forall i :: 0 <= i < |rows| ==> items[i] == ToItem(rows[i], now)
  {
    seq(|rows|, i requires 0 <= i < |rows| => ToItem(rows[i], now))
  }

  predicate IsMine(r: Brief) {
    r.isOperator
  }

  predicate IsFailingCheck(r: Brief) {
    r.origin.FromMachine? && (r.priority.High? || r.priority.Critical?)
  }

  predicate IsFailing(r: Brief) {
    IsFailingCheck(r) && !r.isOperator
  }

  predicate IsStuckAge(status: Status, age: nat) {
    match status
    case Pending => age > STUCK_PENDING_DAYS
    case Accepted => age > STUCK_ACCEPTED_DAYS
    case _ => false
  }

  predicate IsStuck(r: Brief, now: Time) {
    !r.isOperator && !r.isSelfAddressed && !r.origin.FromMachine? && IsStuckAge(r.status, AgeDays(now, r.createdAt))
  }

  function StuckAt(now: Time): Brief -> bool {
    (r: Brief) => IsStuck(r, now)
  }

  function StuckRows(rows: seq<Brief>, now: Time): seq<Brief> {
    Filter(StuckAt(now), rows)
  }

  // ---------- rows of one recipient ----------

  function IsFor(key: Text): Brief -> bool {
    (r: Brief) => EqFold(Recipient(r), key)
  }

  /** The rows owed by one recipient, up to ASCII case, in order. */
  function AddressedTo(rows: seq<Brief>, key: Text): seq<Brief> {
    Filter(IsFor(key), rows)
  }

  lemma {:induction false} AddressedToSnoc(rows: seq<Brief>, r: Brief, key: Text)
    ensures AddressedTo(rows + [r], key) ==
            if EqFold(Recipient(r), key) then AddressedTo(rows, key) + [r] else AddressedTo(rows, key)
  {
    assert (rows + [r])[..|rows|] == rows;
  }

  /** Position of the recipient's first row, or the length when it has none. */
  function FirstFor(rows: seq<Brief>, key: Text): (n: nat)
    ensures n <= |rows|
  {
    if rows == [] then 0
    else
      var n := |rows| - 1;
      var before := FirstFor(rows[..n], key);
      if before < n || EqFold(Recipient(rows[n]), key) then before else n + 1
  }

  lemma {:induction false} FirstForSnoc(rows: seq<Brief>, r: Brief, key: Text)
    ensures FirstFor(rows + [r], key) ==
            if FirstFor(rows, key) < |rows| || EqFold(Recipient(r), key) then FirstFor(rows, key) else |rows| + 1
  {
  }

  lemma {:induction false} FirstForIsFirst(rows: seq<Brief>, key: Text)
    ensures forall i :: 0 <= i < FirstFor(rows, key) && i < |rows| ==> !EqFold(Recipient(rows[i]), key)
    ensures FirstFor(rows, key) < |rows| ==> EqFold(Recipient(rows[FirstFor(rows, key)]), key)
  {
    if rows != [] {
      FirstForIsFirst(rows[..|rows| - 1], key);
    }
  }

  lemma {:induction false} FirstAddressed(rows: seq<Brief>, key: Text)
    ensures AddressedTo(rows, key) == [] <==> FirstFor(rows, key) == |rows|
    ensures AddressedTo(rows, key) != [] ==> AddressedTo(rows, key)[0] == rows[FirstFor(rows, key)]
  {
    if rows != [] {
      FirstAddressed(rows[..|rows| - 1], key);
    }
  }

  /** `FirstFor` is the first row of the recipient; `AddressedTo` holds its rows. */
  lemma {:induction false} RowsOfRecipient(rows: seq<Brief>, key: Text)
    ensures forall i :: 0 <= i < FirstFor(rows, key) && i < |rows| ==> !EqFold(Recipient(rows[i]), key)
    ensures FirstFor(rows, key) < |rows| ==> EqFold(Recipient(rows[FirstFor(rows, key)]), key)
    ensures AddressedTo(rows, key) == [] <==> FirstFor(rows, key) == |rows|
    ensures AddressedTo(rows, key) != [] ==> AddressedTo(rows, key)[0] == rows[FirstFor(rows, key)]
    ensures forall r :: r in AddressedTo(rows, key) <==> r in rows && EqFold(Recipient(r), key)
  {
    FirstForIsFirst(rows, key);
    FirstAddressed(rows, key);
    FilterMembers(IsFor(key), rows);
  }

  lemma {:induction false} RecipientFolds(rows: seq<Brief>, a: Text, b: Text)
    requires EqFold(a, b)
    ensures AddressedTo(rows, a) == AddressedTo(rows, b) && FirstFor(rows, a) == FirstFor(rows, b)
  {
    if rows != [] {
      RecipientFolds(rows[..|rows| - 1], a, b);
    }
  }

  // ---------- stuck groups ----------

  /** The group of one recipient, spelled as its oldest row spells it, holds
      exactly that recipient's rows, oldest first. */
  predicate GroupOk(g: StuckGroup, shown: seq<Brief>, now: Time) {
    && FirstFor(shown, g.toAgent) < |shown|
    && g.toAgent == Recipient(shown[FirstFor(shown, g.toAgent)])
    && g.items == Items(AddressedTo(shown, g.toAgent), now)
  }

  predicate HasGroup(groups: seq<StuckGroup>, key: Text) {
    exists i :: 0 <= i < |groups| && EqFold(groups[i].toAgent, key)
  }

  /** `groups` splits `shown` by recipient: one group per recipient up to case,
      ordered by their oldest rows. */
  ghost predicate Grouped(groups: seq<StuckGroup>, shown: seq<Brief>, now: Time) {
    && (forall i :: 0 <= i < |groups| ==> GroupOk(groups[i], shown, now))
    && OldestFirst(groups, shown)
    && Covered(groups, shown)
  }

  predicate OldestFirst(groups: seq<StuckGroup>, shown: seq<Brief>) {
    forall i, j :: 0 <= i < j < |groups| ==> FirstFor(shown, groups[i].toAgent) < FirstFor(shown, groups[j].toAgent)
  }

  predicate Covered(groups: seq<StuckGroup>, shown: seq<Brief>) {
    forall k :: 0 <= k < |shown| ==> HasGroup(groups, Recipient(shown[k]))
  }

  lemma {:induction false} HasGroupFolds(groups: seq<StuckGroup>, a: Text, b: Text)
    ensures EqFold(a, b) && HasGroup(groups, a) ==> HasGroup(groups, b)
  {
  }

  /** Distinct groups stand for different recipients even up to case. */
  lemma {:induction false} GroupKeysDistinct(groups: seq<StuckGroup>, shown: seq<Brief>, now: Time, i: nat, j: nat)
    requires Grouped(groups, shown, now) && i < j < |groups|
    ensures !EqFold(groups[i].toAgent, groups[j].toAgent)
  {
    if EqFold(groups[i].toAgent, groups[j].toAgent) {
      RecipientFolds(shown, groups[i].toAgent, groups[j].toAgent);
    }
  }

  method FindGroup(groups: seq<StuckGroup>, key: Text) returns (at: nat)
    ensures at <= |groups|
    ensures at < |groups| ==> EqFold(groups[at].toAgent, key)
    ensures at == |groups| ==> !HasGroup(groups, key)
  {
    at := 0;
    while at < |groups| && !EqFold(groups[at].toAgent, key)
      invariant at <= |groups|
      invariant forall i :: 0 <= i < at ==> !EqFold(groups[i].toAgent, key)
    {
      at := at + 1;
    }
  }

  lemma {:induction false} GroupStays(g: StuckGroup, shown: seq<Brief>, r: Brief, now: Time)
    requires GroupOk(g, shown, now) && !EqFold(Recipient(r), g.toAgent)
    ensures GroupOk(g, shown + [r], now) && FirstFor(shown + [r], g.toAgent) == FirstFor(shown, g.toAgent)
  {
  }

  lemma {:induction false} GroupGrows(g: StuckGroup, shown: seq<Brief>, r: Brief, now: Time)
    requires GroupOk(g, shown, now) && EqFold(Recipient(r), g.toAgent)
    ensures GroupOk(g.(items := g.items + [ToItem(r, now)]), shown + [r], now)
    ensures FirstFor(shown + [r], g.toAgent) == FirstFor(shown, g.toAgent)
  {
  }

  lemma {:induction false} GroupStarts(shown: seq<Brief>, r: Brief, now: Time)
    requires FirstFor(shown, Recipient(r)) == |shown|
    ensures GroupOk(StuckGroup(Recipient(r), [ToItem(r, now)]), shown + [r], now)
    ensures FirstFor(shown + [r], Recipient(r)) == |shown|
  {
    var key := Recipient(r);
    FirstForSnoc(shown, r, key);
    AddressedToSnoc(shown, r, key);
    NoRowsOfRecipient(shown, key);
    GroupOfOne(shown + [r], r, now);
  }

  lemma {:induction false} GroupOfOne(shown: seq<Brief>, r: Brief, now: Time)
    requires AddressedTo(shown, Recipient(r)) == [r]
    requires FirstFor(shown, Recipient(r)) < |shown| && shown[FirstFor(shown, Recipient(r))] == r
    ensures GroupOk(StuckGroup(Recipient(r), [ToItem(r, now)]), shown, now)
  {
  }

  lemma {:induction false} NoRowsOfRecipient(rows: seq<Brief>, key: Text)
    requires FirstFor(rows, key) == |rows|
    ensures AddressedTo(rows, key) == []
  {
    RowsOfRecipient(rows, key);
  }

  lemma {:induction false} CoveredSnoc(groups: seq<StuckGroup>, groups': seq<StuckGroup>, shown: seq<Brief>, r: Brief)
    requires Covered(groups, shown) && |groups| <= |groups'| && HasGroup(groups', Recipient(r))
    requires forall i :: 0 <= i < |groups| ==> groups'[i].toAgent == groups[i].toAgent
    ensures Covered(groups', shown + [r])
  {
  }

  lemma {:induction false} OldestStayFirst(groups: seq<StuckGroup>, groups': seq<StuckGroup>, shown: seq<Brief>, shown': seq<Brief>)
    requires OldestFirst(groups, shown) && |groups| <= |groups'| <= |groups| + 1
    requires forall i :: 0 <= i < |groups| ==>
               groups'[i].toAgent == groups[i].toAgent
               && FirstFor(shown', groups[i].toAgent) == FirstFor(shown, groups[i].toAgent) < |shown|
    requires |groups'| == |groups| + 1 ==> FirstFor(shown', groups'[|groups|].toAgent) >= |shown|
    ensures OldestFirst(groups', shown')
  {
  }

  lemma {:induction false} GroupAfterJoin(groups: seq<StuckGroup>, shown: seq<Brief>, r: Brief, now: Time, at: nat, i: nat)
    requires Grouped(groups, shown, now) && at < |groups| && EqFold(groups[at].toAgent, Recipient(r)) && i < |groups|
    ensures var g := if i == at then groups[i].(items := groups[i].items + [ToItem(r, now)]) else groups[i];
            GroupOk(g, shown + [r], now)
    ensures FirstFor(shown + [r], groups[i].toAgent) == FirstFor(shown, groups[i].toAgent)
  {
    if i == at {
      GroupGrows(groups[i], shown, r, now);
    } else {
      if i < at { GroupKeysDistinct(groups, shown, now, i, at); } else { GroupKeysDistinct(groups, shown, now, at, i); }
      GroupStays(groups[i], shown, r, now);
    }
  }

  /** The row joins its recipient's group. */
  lemma {:induction false} JoinGroup(groups: seq<StuckGroup>, shown: seq<Brief>, r: Brief, now: Time, at: nat)
    requires Grouped(groups, shown, now) && at < |groups| && EqFold(groups[at].toAgent, Recipient(r))
    ensures Grouped(groups[at := groups[at].(items := groups[at].items + [ToItem(r, now)])], shown + [r], now)
  {
    var groups' := groups[at := groups[at].(items := groups[at].items + [ToItem(r, now)])];
    forall i | 0 <= i < |groups|
      ensures GroupOk(groups'[i], shown + [r], now) && groups'[i].toAgent == groups[i].toAgent
      ensures FirstFor(shown + [r], groups[i].toAgent) == FirstFor(shown, groups[i].toAgent)
    {
      GroupAfterJoin(groups, shown, r, now, at, i);
    }
    assert HasGroup(groups', Recipient(r)) by {
      assert groups'[at].toAgent == groups[at].toAgent;
    }
    CoveredSnoc(groups, groups', shown, r);
    OldestStayFirst(groups, groups', shown, shown + [r]);
  }

  /** The row opens a group. */
  lemma {:induction false} OpenGroup(groups: seq<StuckGroup>, shown: seq<Brief>, r: Brief, now: Time)
    requires Grouped(groups, shown, now) && !HasGroup(groups, Recipient(r))
    ensures Grouped(groups + [StuckGroup(Recipient(r), [ToItem(r, now)])], shown + [r], now)
  {
    var groups' := groups + [StuckGroup(Recipient(r), [ToItem(r, now)])];
    forall i | 0 <= i < |groups|
      ensures GroupOk(groups[i], shown + [r], now)
      ensures FirstFor(shown + [r], groups[i].toAgent) == FirstFor(shown, groups[i].toAgent)
    {
      GroupStays(groups[i], shown, r, now);
    }
    NoneAddressed(groups, shown, Recipient(r));
    GroupStarts(shown, r, now);
    assert groups'[|groups|].toAgent == Recipient(r);
    CoveredSnoc(groups, groups', shown, r);
    OldestStayFirst(groups, groups', shown, shown + [r]);
  }

  lemma {:induction false} NoneAddressed(groups: seq<StuckGroup>, shown: seq<Brief>, key: Text)
    requires Covered(groups, shown) && !HasGroup(groups, key)
    ensures FirstFor(shown, key) == |shown|
  {
    RowsOfRecipient(shown, key);
    forall k | 0 <= k < |shown|
      ensures !EqFold(Recipient(shown[k]), key)
    {
      HasGroupFolds(groups, Recipient(shown[k]), key);
    }
  }

  // ---------- counts per recipient ----------

  /** One count per recipient up to case, each the true number of its rows. */
  ghost predicate Tallied(counts: seq<RecipientCount>, rows: seq<Brief>) {
    CountsOk(counts, rows) && DistinctKeys(counts) && AllCounted(counts, rows)
  }

  predicate CountsOk(counts: seq<RecipientCount>, rows: seq<Brief>) {
    forall c :: c in counts ==> CountOk(c, rows)
  }

  predicate AllCounted(counts: seq<RecipientCount>, rows: seq<Brief>) {
    forall k :: 0 <= k < |rows| ==> HasCount(counts, Recipient(rows[k]))
  }

  predicate CountOk(c: RecipientCount, rows: seq<Brief>) {
    c.open == |AddressedTo(rows, c.toAgent)| && c.open > 0
  }

  predicate DistinctKeys(counts: seq<RecipientCount>) {
    forall i, j :: 0 <= i < j < |counts| ==> !EqFold(counts[i].toAgent, counts[j].toAgent)
  }

  predicate HasCount(counts: seq<RecipientCount>, key: Text) {
    exists c :: c in counts && EqFold(c.toAgent, key)
  }

  lemma {:induction false} HasCountFolds(counts: seq<RecipientCount>, a: Text, b: Text)
    ensures EqFold(a, b) && HasCount(counts, a) ==> HasCount(counts, b)
  {
  }

  function SumOpen(counts: seq<RecipientCount>): nat {
    if counts == [] then 0 else counts[0].open + SumOpen(counts[1..])
  }

  lemma SumOpenUpdate(counts: seq<RecipientCount>, at: nat, c: RecipientCount)
    requires at < |counts|
    ensures SumOpen(counts[at := c]) == SumOpen(counts) - counts[at].open + c.open
  {
    if at > 0 {
      SumOpenUpdate(counts[1..], at - 1, c);
      assert counts[at := c][1..] == counts[1..][at - 1 := c];
    }
  }

  lemma SumOpenSnoc(counts: seq<RecipientCount>, c: RecipientCount)
    ensures SumOpen(counts + [c]) == SumOpen(counts) + c.open
  {
    if counts != [] {
      assert (counts + [c])[1..] == counts[1..] + [c];
    }
  }

  method FindCount(counts: seq<RecipientCount>, key: Text) returns (at: nat)
    ensures at <= |counts|
    ensures at < |counts| ==> EqFold(counts[at].toAgent, key)
    ensures at == |counts| ==> !HasCount(counts, key)
  {
    at := 0;
    while at < |counts| && !EqFold(counts[at].toAgent, key)
      invariant at <= |counts|
      invariant forall i :: 0 <= i < at ==> !EqFold(counts[i].toAgent, key)
    {
      at := at + 1;
    }
  }

  lemma {:induction false} CountStays(c: RecipientCount, rows: seq<Brief>, r: Brief)
    requires CountOk(c, rows)
    ensures CountOk(if EqFold(Recipient(r), c.toAgent) then c.(open := c.open + 1) else c, rows + [r])
  {
  }

  lemma {:induction false} CountRow(counts: seq<RecipientCount>, rows: seq<Brief>, r: Brief, at: nat)
    requires Tallied(counts, rows) && at < |counts| && EqFold(counts[at].toAgent, Recipient(r))
    ensures Tallied(counts[at := counts[at].(open := counts[at].open + 1)], rows + [r])
  {
    var counts' := counts[at := counts[at].(open := counts[at].open + 1)];
    forall i | 0 <= i < |counts|
      ensures CountOk(counts'[i], rows + [r])
    {
      assert counts[i] in counts;
      CountStays(counts[i], rows, r);
    }
    SameKeysCount(counts, counts', rows);
    assert HasCount(counts', Recipient(r)) by {
      assert counts'[at] in counts';
    }
    AllCountedSnoc(counts', rows, r);
  }

  lemma {:induction false} SameKeysCount(counts: seq<RecipientCount>, counts': seq<RecipientCount>, rows: seq<Brief>)
    requires AllCounted(counts, rows) && |counts'| == |counts|
    requires forall i :: 0 <= i < |counts| ==> counts'[i].toAgent == counts[i].toAgent
    ensures AllCounted(counts', rows)
  {
    forall k | 0 <= k < |rows|
      ensures HasCount(counts', Recipient(rows[k]))
    {
      var c :| c in counts && EqFold(c.toAgent, Recipient(rows[k]));
      var i :| 0 <= i < |counts| && counts[i] == c;
      assert counts'[i] in counts';
    }
  }

  lemma {:induction false} AllCountedSnoc(counts: seq<RecipientCount>, rows: seq<Brief>, r: Brief)
    requires AllCounted(counts, rows) && HasCount(counts, Recipient(r))
    ensures AllCounted(counts, rows + [r])
  {
  }

  lemma {:induction false} NoneCounted(counts: seq<RecipientCount>, rows: seq<Brief>, key: Text)
    requires Tallied(counts, rows) && !HasCount(counts, key)
    ensures AddressedTo(rows, key) == []
  {
    RowsOfRecipient(rows, key);
    forall k | 0 <= k < |rows|
      ensures !EqFold(Recipient(rows[k]), key)
    {
      HasCountFolds(counts, Recipient(rows[k]), key);
    }
  }

  lemma {:induction false} HasCountGrows(counts: seq<RecipientCount>, more: RecipientCount, key: Text)
    requires HasCount(counts, key) || EqFold(more.toAgent, key)
    ensures HasCount(counts + [more], key)
  {
    if HasCount(counts, key) {
      var c :| c in counts && EqFold(c.toAgent, key);
      assert c in counts + [more];
    } else {
      assert (counts + [more])[|counts|] == more;
    }
  }

  lemma {:induction false} NewKeyDistinct(counts: seq<RecipientCount>, c: RecipientCount)
    requires DistinctKeys(counts) && !HasCount(counts, c.toAgent)
    ensures DistinctKeys(counts + [c])
  {
    forall i | 0 <= i < |counts|
      ensures !EqFold(counts[i].toAgent, c.toAgent)
    {
      assert counts[i] in counts;
    }
  }

  lemma {:induction false} NewCountsOk(counts: seq<RecipientCount>, rows: seq<Brief>, r: Brief)
    requires CountsOk(counts, rows) && !HasCount(counts, Recipient(r)) && AddressedTo(rows, Recipient(r)) == []
    ensures CountsOk(counts + [RecipientCount(Recipient(r), 1)], rows + [r])
  {
    AddressedToSnoc(rows, r, Recipient(r));
    forall c | c in counts
      ensures CountOk(c, rows + [r])
    {
      CountStays(c, rows, r);
    }
  }

  lemma {:induction false} CountNewRecipient(counts: seq<RecipientCount>, rows: seq<Brief>, r: Brief)
    requires Tallied(counts, rows) && !HasCount(counts, Recipient(r))
    ensures Tallied(counts + [RecipientCount(Recipient(r), 1)], rows + [r])
  {
    var first := RecipientCount(Recipient(r), 1);
    NoneCounted(counts, rows, Recipient(r));
    NewKeyDistinct(counts, first);
    NewCountsOk(counts, rows, r);
    HasCountGrows(counts, first, Recipient(r));
    forall k | 0 <= k < |rows|
      ensures HasCount(counts + [first], Recipient(rows[k]))
    {
      HasCountGrows(counts, first, Recipient(rows[k]));
    }
    AllCountedSnoc(counts + [first], rows, r);
  }

  // ---------- the final sort ----------

  /** Byte order on names, as `str::cmp`. */
  predicate NameLe(a: string, b: string) {
    if a == "" then true
    else if b == "" then false
    else a[0] < b[0] || (a[0] == b[0] && NameLe(a[1..], b[1..]))
  }

  lemma NameLeTotal(a: string, b: string)
    ensures NameLe(a, b) || NameLe(b, a)
  {
  }

  lemma NameLeTransitive(a: string, b: string, c: string)
    requires NameLe(a, b) && NameLe(b, c)
    ensures NameLe(a, c)
  {
  }

  /** Busiest first, then by name. */
  predicate Precedes(a: RecipientCount, b: RecipientCount) {
    a.open > b.open || (a.open == b.open && NameLe(a.toAgent, b.toAgent))
  }

  predicate Sorted(counts: seq<RecipientCount>) {
    forall i, j :: 0 <= i < j < |counts| ==> Precedes(counts[i], counts[j])
  }

  /** The standard library's sort: any implementation returns this. */
  function SortCounts(counts: seq<RecipientCount>): (sorted: seq<RecipientCount>)
    ensures multiset(sorted) == multiset(counts)
  {
    if counts == [] then []
    else
      assert counts == [counts[0]] + counts[1..];
      Insert(counts[0], SortCounts(counts[1..]))
  }

  function Insert(c: RecipientCount, sorted: seq<RecipientCount>): (more: seq<RecipientCount>)
    ensures multiset(more) == multiset(sorted) + multiset{c}
  {
    if sorted == [] || Precedes(c, sorted[0]) then [c] + sorted
    else
      assert sorted == [sorted[0]] + sorted[1..];
      [sorted[0]] + Insert(c, sorted[1..])
  }

  lemma {:induction false} InsertSorts(c: RecipientCount, sorted: seq<RecipientCount>)
    requires Sorted(sorted)
    ensures Sorted(Insert(c, sorted)) && SumOpen(Insert(c, sorted)) == c.open + SumOpen(sorted)
  {
    if sorted == [] {
    } else if Precedes(c, sorted[0]) {
      forall j | 0 <= j < |sorted| ensures Precedes(c, sorted[j]) {
        if j > 0 { PrecedesTransitive(c, sorted[0], sorted[j]); }
      }
    } else {
      var rest := Insert(c, sorted[1..]);
      InsertSorts(c, sorted[1..]);
      PrecedesTotal(c, sorted[0]);
      forall j | 0 <= j < |rest| ensures Precedes(sorted[0], rest[j]) {
        assert rest[j] in multiset(rest);
        if rest[j] != c {
          assert rest[j] in multiset(sorted[1..]);
          assert rest[j] in sorted[1..];
        }
      }
    }
  }

  lemma {:induction false} PrecedesTransitive(a: RecipientCount, b: RecipientCount, c: RecipientCount)
    requires Precedes(a, b) && Precedes(b, c)
    ensures Precedes(a, c)
  {
    if a.open == b.open == c.open {
      NameLeTransitive(a.toAgent, b.toAgent, c.toAgent);
    }
  }

  lemma {:induction false} PrecedesTotal(a: RecipientCount, b: RecipientCount)
    ensures Precedes(a, b) || Precedes(b, a)
  {
    NameLeTotal(a.toAgent, b.toAgent);
  }

  lemma {:induction false} SortSorts(counts: seq<RecipientCount>)
    ensures Sorted(SortCounts(counts)) && SumOpen(SortCounts(counts)) == SumOpen(counts)
  {
    if counts != [] {
      SortSorts(counts[1..]);
      InsertSorts(counts[0], SortCounts(counts[1..]));
    }
  }

  lemma {:induction false} SameMembers(counts: seq<RecipientCount>, sorted: seq<RecipientCount>, c: RecipientCount)
    requires multiset(sorted) == multiset(counts)
    ensures c in sorted <==> c in counts
  {
    assert c in multiset(sorted) <==> c in multiset(counts);
  }

  lemma {:induction false} RearrangedKeysDistinct(counts: seq<RecipientCount>, sorted: seq<RecipientCount>)
    requires DistinctKeys(counts) && multiset(sorted) == multiset(counts)
    ensures DistinctKeys(sorted)
  {
    forall i, j | 0 <= i < j < |sorted|
      ensures !EqFold(sorted[i].toAgent, sorted[j].toAgent)
    {
      if sorted[i] == sorted[j] {
        TwiceInMultiset(sorted, i, j);
        OnceInMultiset(counts, sorted[i]);
      } else {
        SameMembers(counts, sorted, sorted[i]);
        SameMembers(counts, sorted, sorted[j]);
      }
    }
  }

  /** Rearranging the counts keeps them a tally of the same rows. */
  lemma {:induction false} RearrangedTally(counts: seq<RecipientCount>, sorted: seq<RecipientCount>, rows: seq<Brief>)
    requires Tallied(counts, rows) && multiset(sorted) == multiset(counts)
    ensures Tallied(sorted, rows)
  {
    RearrangedKeysDistinct(counts, sorted);
    forall c
      ensures c in sorted <==> c in counts
    {
      SameMembers(counts, sorted, c);
    }
    forall k | 0 <= k < |rows|
      ensures HasCount(sorted, Recipient(rows[k]))
    {
      assert HasCount(counts, Recipient(rows[k]));
      var c :| c in counts && EqFold(c.toAgent, Recipient(rows[k]));
      assert c in sorted;
    }
  }

  lemma {:induction false} TwiceInMultiset(xs: seq<RecipientCount>, i: nat, j: nat)
    requires i < j < |xs| && xs[i] == xs[j]
    ensures multiset(xs)[xs[i]] >= 2
  {
    assert xs == xs[..j] + [xs[j]] + xs[j + 1..];
    assert xs[..j][i] in multiset(xs[..j]);
  }

  lemma OnceInMultiset(xs: seq<RecipientCount>, c: RecipientCount)
    requires DistinctKeys(xs)
    ensures multiset(xs)[c] <= 1
  {
    if xs != [] {
      var n := |xs| - 1;
      assert xs == xs[..n] + [xs[n]];
      OnceInMultiset(xs[..n], c);
      assert xs[n] !in xs[..n];
      assert xs[n] !in multiset(xs[..n]);
    }
  }

  // ---------- triage ----------

  predicate IsSelfAddressed(r: Brief) {
    r.isSelfAddressed
  }

  predicate IsMachine(r: Brief) {
    r.origin.FromMachine?
  }

  predicate Repeats(r: Brief) {
    r.repeatCount > 0
  }

  /** A capped page of some rows, oldest first, under its true total. */
  function PageOf(mine: seq<Brief>, now: Time): Section {
    Section(|mine|, |mine| > SECTION_CAP, Items(Take(mine, SECTION_CAP), now))
  }

  function AgeOfFirst(rows: seq<Brief>, now: Time): Option<nat> {
    if rows == [] then None else Some(AgeDays(now, rows[0].createdAt))
  }

  function SumItems(groups: seq<StuckGroup>): nat {
    if groups == [] then 0 else SumItems(groups[..|groups| - 1]) + |groups[|groups| - 1].items|
  }

  lemma {:induction false} SumItemsUpdate(groups: seq<StuckGroup>, at: nat, g: StuckGroup)
    requires at < |groups|
    ensures SumItems(groups[at := g]) == SumItems(groups) - |groups[at].items| + |g.items|
  {
    var n := |groups| - 1;
    if at < n {
      SumItemsUpdate(groups[..n], at, g);
      assert groups[at := g][..n] == groups[..n][at := g];
    } else {
      assert groups[at := g][..n] == groups[..n];
    }
  }

  lemma {:induction false} SumItemsSnoc(groups: seq<StuckGroup>, g: StuckGroup)
    ensures SumItems(groups + [g]) == SumItems(groups) + |g.items|
  {
  }

  ghost predicate IsStuckSection(stuck: seq<Brief>, now: Time, s: StuckSection) {
    && s.total == |stuck|
    && (s.truncated <==> |stuck| > SECTION_CAP)
    && Grouped(s.groups, Take(stuck, SECTION_CAP), now)
    && SumItems(s.groups) == Min(|stuck|, SECTION_CAP)
  }

  /** Files one row under its recipient, opening a group when it is the first. */
  method FileStuck(groups: seq<StuckGroup>, ghost shown: seq<Brief>, r: Brief, now: Time)
    returns (groups': seq<StuckGroup>)
    requires Grouped(groups, shown, now)
    ensures Grouped(groups', shown + [r], now) && SumItems(groups') == SumItems(groups) + 1
  {
    var at := FindGroup(groups, Recipient(r));
    if at < |groups| {
      JoinGroup(groups, shown, r, now, at);
      groups' := groups[at := groups[at].(items := groups[at].items + [ToItem(r, now)])];
      SumItemsUpdate(groups, at, groups'[at]);
    } else {
      OpenGroup(groups, shown, r, now);
      groups' := groups + [StuckGroup(Recipient(r), [ToItem(r, now)])];
      SumItemsSnoc(groups, groups'[at]);
    }
  }

  lemma {:induction false} TakeSnoc(rows: seq<Brief>, r: Brief, cap: nat)
    ensures Take(rows + [r], cap) == if |rows| < cap then Take(rows, cap) + [r] else Take(rows, cap)
    ensures |Take(rows, cap)| == Min(|rows|, cap)
  {
  }

  /** The loop's progress over the stuck rows met so far. */
  ghost predicate StuckSoFar(stuck: seq<Brief>, now: Time, groups: seq<StuckGroup>, total: nat, shownCount: nat) {
    && total == |stuck| && shownCount == Min(total, SECTION_CAP)
    && Grouped(groups, Take(stuck, SECTION_CAP), now) && SumItems(groups) == shownCount
  }

  lemma {:induction false} CountBeyondCap(stuck: seq<Brief>, r: Brief, now: Time, groups: seq<StuckGroup>, total: nat)
    requires StuckSoFar(stuck, now, groups, total, SECTION_CAP)
    ensures StuckSoFar(stuck + [r], now, groups, total + 1, SECTION_CAP)
  {
    TakeSnoc(stuck, r, SECTION_CAP);
  }

  method ShowStuck(ghost stuck: seq<Brief>, r: Brief, now: Time, groups: seq<StuckGroup>, total: nat)
    returns (groups': seq<StuckGroup>)
    requires StuckSoFar(stuck, now, groups, total, total) && total < SECTION_CAP
    ensures StuckSoFar(stuck + [r], now, groups', total + 1, total + 1)
  {
    TakeSnoc(stuck, r, SECTION_CAP);
    groups' := FileStuck(groups, Take(stuck, SECTION_CAP), r, now);
  }

  method TriageStuck(rows: seq<Brief>, now: Time) returns (s: StuckSection)
    ensures IsStuckSection(StuckRows(rows, now), now, s)
  {
    var groups: seq<StuckGroup> := [];
    var total, shownCount := 0, 0;
    for n := 0 to |rows|
      invariant StuckSoFar(StuckRows(rows[..n], now), now, groups, total, shownCount)
    {
      var row := rows[n];
      ghost var stuck := StuckRows(rows[..n], now);
      FilterPrefix(StuckAt(now), rows, n);
      if row.isOperator || row.isSelfAddressed || row.origin.FromMachine? {
        continue;
      }
      if !IsStuckAge(row.status, AgeDays(now, row.createdAt)) {
        continue;
      }
      total := total + 1;
      if shownCount >= SECTION_CAP {
        CountBeyondCap(stuck, row, now, groups, total - 1);
        continue;
      }
      groups := ShowStuck(stuck, row, now, groups, shownCount);
      shownCount := shownCount + 1;
    }
    assert rows[..|rows|] == rows;
    s := StuckSection(total, total > shownCount, groups);
  }

  /** Counts one row for its recipient, opening a count when it is the first. */
  method CountInto(counts: seq<RecipientCount>, ghost rows: seq<Brief>, r: Brief) returns (counts': seq<RecipientCount>)
    requires Tallied(counts, rows)
    ensures Tallied(counts', rows + [r]) && SumOpen(counts') == SumOpen(counts) + 1
  {
    var at := FindCount(counts, Recipient(r));
    if at < |counts| {
      CountRow(counts, rows, r, at);
      counts' := counts[at := counts[at].(open := counts[at].open + 1)];
      SumOpenUpdate(counts, at, counts'[at]);
    } else {
      CountNewRecipient(counts, rows, r);
      counts' := counts + [RecipientCount(Recipient(r), 1)];
      SumOpenSnoc(counts, counts'[at]);
    }
  }

  lemma {:induction false} SortedTally(counts: seq<RecipientCount>, rows: seq<Brief>)
    requires Tallied(counts, rows)
    ensures var sorted := SortCounts(counts);
            Tallied(sorted, rows) && Sorted(sorted) && SumOpen(sorted) == SumOpen(counts)
  {
    SortSorts(counts);
    RearrangedTally(counts, SortCounts(counts), rows);
  }

  /** The loop's progress over the first `n` rows. */
  ghost predicate TalliedTo(counts: seq<RecipientCount>, rows: seq<Brief>, n: nat)
    requires n <= |rows|
  {
    Tallied(counts, rows[..n]) && SumOpen(counts) == n
  }

  method CountNth(counts: seq<RecipientCount>, rows: seq<Brief>, n: nat) returns (counts': seq<RecipientCount>)
    requires n < |rows| && TalliedTo(counts, rows, n)
    ensures TalliedTo(counts', rows, n + 1)
  {
    assert rows[..n + 1] == rows[..n] + [rows[n]];
    counts' := CountInto(counts, rows[..n], rows[n]);
  }

  method CountRecipients(rows: seq<Brief>) returns (counts: seq<RecipientCount>)
    ensures Tallied(counts, rows) && SumOpen(counts) == |rows|
  {
    counts := [];
    for n := 0 to |rows|
      invariant TalliedTo(counts, rows, n)
    {
      counts := CountNth(counts, rows, n);
    }
    assert rows[..|rows|] == rows;
  }

  method TallyRecipients(rows: seq<Brief>) returns (counts: seq<RecipientCount>)
    ensures Tallied(counts, rows) && Sorted(counts) && SumOpen(counts) == |rows|
  {
    counts := CountRecipients(rows);
    SortedTally(counts, rows);
    counts := SortCounts(counts);
  }

  function SelfBucket(own: seq<Brief>, now: Time): BucketCount {
    BucketCount(|own|, AgeOfFirst(own, now), None)
  }

  function MachineBucket(found: seq<Brief>, now: Time): BucketCount {
    BucketCount(|found|, AgeOfFirst(found, now), Some(|Filter(Repeats, found)|))
  }

  lemma {:induction false} BucketsSnoc(rows: seq<Brief>, r: Brief, now: Time)
    ensures AgeOfFirst(rows + [r], now) == if rows == [] then Some(AgeDays(now, r.createdAt)) else AgeOfFirst(rows, now)
    ensures |Filter(Repeats, rows + [r])| == |Filter(Repeats, rows)| + (if r.repeatCount > 0 then 1 else 0)
  {
  }

  method CountSelfAddressed(ghost own: seq<Brief>, b: BucketCount, r: Brief, now: Time) returns (b': BucketCount)
    requires b == SelfBucket(own, now)
    ensures b' == SelfBucket(own + [r], now)
  {
    BucketsSnoc(own, r, now);
    var oldest := if b.oldestAgeDays.None? then Some(AgeDays(now, r.createdAt)) else b.oldestAgeDays;
    b' := BucketCount(b.count + 1, oldest, None);
  }

  method CountMachineFinding(ghost found: seq<Brief>, b: BucketCount, r: Brief, now: Time) returns (b': BucketCount)
    requires b == MachineBucket(found, now)
    ensures b' == MachineBucket(found + [r], now)
  {
    BucketsSnoc(found, r, now);
    var oldest := if b.oldestAgeDays.None? then Some(AgeDays(now, r.createdAt)) else b.oldestAgeDays;
    var repeating := if r.repeatCount > 0 then Some(b.repeating.value + 1) else b.repeating;
    b' := BucketCount(b.count + 1, oldest, repeating);
  }

  method TriageBuckets(rows: seq<Brief>, now: Time) returns (selfAddressed: BucketCount, machine: BucketCount)
    ensures selfAddressed == SelfBucket(Filter(IsSelfAddressed, rows), now)
    ensures machine == MachineBucket(Filter(IsMachine, rows), now)
  {
    selfAddressed, machine := BucketCount(0, None, None), BucketCount(0, None, Some(0));
    for n := 0 to |rows|
      invariant selfAddressed == SelfBucket(Filter(IsSelfAddressed, rows[..n]), now)
      invariant machine == MachineBucket(Filter(IsMachine, rows[..n]), now)
    {
      FilterPrefix(IsSelfAddressed, rows, n);
      FilterPrefix(IsMachine, rows, n);
      if rows[n].isSelfAddressed {
        selfAddressed := CountSelfAddressed(Filter(IsSelfAddressed, rows[..n]), selfAddressed, rows[n], now);
      }
      if rows[n].origin.FromMachine? {
        machine := CountMachineFinding(Filter(IsMachine, rows[..n]), machine, rows[n], now);
      }
    }
    assert rows[..|rows|] == rows;
  }

  /** The whole briefing, over the uncapped open set. */
  ghost predicate IsTriage(rows: seq<Brief>, now: Time, s: Sections) {
    && s.waitingOnYou == PageOf(Filter(IsMine, rows), now)
    && s.failingChecks == PageOf(Filter(IsFailing, rows), now)
    && IsStuckSection(StuckRows(rows, now), now, s.stuck)
    && Tallied(s.byRecipient, rows) && Sorted(s.byRecipient) && SumOpen(s.byRecipient) == |rows|
    && s.selfAddressed == SelfBucket(Filter(IsSelfAddressed, rows), now)
    && s.machineFindings == MachineBucket(Filter(IsMachine, rows), now)
  }

  method Triage(rows: seq<Brief>, operatorSeen: bool, now: Time) returns (s: Sections)
    ensures IsTriage(rows, now, s) && s.operatorSeen == operatorSeen
  {
    var mine := Filter(IsMine, rows);
    var failing := Filter(IsFailing, rows);
    var stuck := TriageStuck(rows, now);
    var byRecipient := TallyRecipients(rows);
    var selfAddressed, machine := TriageBuckets(rows, now);
    s := Sections(operatorSeen, PageOf(mine, now), PageOf(failing, now), stuck, byRecipient, selfAddressed, machine);
  }

  // ---------- the sections agree ----------

  /** The rows name each handoff once, oldest first, as the query returns them. */
  predicate OldestRowsFirst(rows: seq<Brief>) {
    forall i, j :: 0 <= i < j < |rows| ==> rows[i].createdAt <= rows[j].createdAt
  }

  predicate DistinctIds(rows: seq<Brief>) {
    forall i, j :: 0 <= i < j < |rows| ==> rows[i].id != rows[j].id
  }

  predicate Titles(items: seq<BriefItem>, id: Uuid) {
    exists i :: 0 <= i < |items| && items[i].id == id
  }

  predicate TitledStuck(groups: seq<StuckGroup>, id: Uuid) {
    exists g :: 0 <= g < |groups| && Titles(groups[g].items, id)
  }

  lemma {:induction false} PageTitles(mine: seq<Brief>, now: Time, id: Uuid)
    requires Titles(PageOf(mine, now).items, id)
    ensures exists r :: r in mine && r.id == id
  {
  }

  lemma {:induction false} StuckTitles(rows: seq<Brief>, now: Time, s: Sections, id: Uuid)
    requires IsTriage(rows, now, s) && TitledStuck(s.stuck.groups, id)
    ensures exists r :: r in rows && r.id == id && IsStuck(r, now)
  {
    var shown := Take(StuckRows(rows, now), SECTION_CAP);
    var g :| 0 <= g < |s.stuck.groups| && Titles(s.stuck.groups[g].items, id);
    GroupTitles(s.stuck.groups[g], shown, now, id);
    var r :| r in shown && r.id == id;
    FilterMembers(StuckAt(now), rows);
    assert r in StuckRows(rows, now);
  }

  lemma {:induction false} GroupTitles(g: StuckGroup, shown: seq<Brief>, now: Time, id: Uuid)
    requires GroupOk(g, shown, now) && Titles(g.items, id)
    ensures exists r :: r in shown && r.id == id
  {
    var i :| 0 <= i < |g.items| && g.items[i].id == id;
    RowsOfRecipient(shown, g.toAgent);
    var r := AddressedTo(shown, g.toAgent)[i];
    assert r in AddressedTo(shown, g.toAgent);
  }

  lemma {:induction false} SameIdSameRow(rows: seq<Brief>, a: Brief, b: Brief)
    requires DistinctIds(rows) && a in rows && b in rows && a.id == b.id
    ensures a == b
  {
  }

  /** No handoff is titled in two of the three sections. */
  lemma {:induction false} TitledAtMostOnce(rows: seq<Brief>, now: Time, s: Sections, id: Uuid)
    requires IsTriage(rows, now, s) && DistinctIds(rows)
    ensures !(Titles(s.waitingOnYou.items, id) && Titles(s.failingChecks.items, id))
    ensures !(Titles(s.waitingOnYou.items, id) && TitledStuck(s.stuck.groups, id))
    ensures !(Titles(s.failingChecks.items, id) && TitledStuck(s.stuck.groups, id))
  {
    if Titles(s.waitingOnYou.items, id) {
      PageTitles(Filter(IsMine, rows), now, id);
      FilterMembers(IsMine, rows);
    }
    if Titles(s.failingChecks.items, id) {
      PageTitles(Filter(IsFailing, rows), now, id);
      FilterMembers(IsFailing, rows);
    }
    if TitledStuck(s.stuck.groups, id) {
      StuckTitles(rows, now, s, id);
    }
    forall a, b | a in rows && b in rows && a.id == id && b.id == id
      ensures a == b
    {
      SameIdSameRow(rows, a, b);
    }
  }

  /** The SQL `is_operator` column tells the operator's rows. */
  predicate ColumnAgrees(rows: seq<Brief>, operator: Text) {
    forall i :: 0 <= i < |rows| ==> (rows[i].isOperator <==> EqFold(Recipient(rows[i]), operator))
  }

  lemma {:induction false} OperatorRowsAgree(rows: seq<Brief>, operator: Text)
    requires ColumnAgrees(rows, operator)
    ensures Filter(IsMine, rows) == AddressedTo(rows, operator)
  {
    if rows != [] {
      OperatorRowsAgree(rows[..|rows| - 1], operator);
    }
  }

  /** The operator's entry in the recipient counts is the "waiting on you" total:
      the SQL column and the Rust grouping count the same rows. */
  lemma {:induction false} OperatorEntryIsWaitingTotal(rows: seq<Brief>, now: Time, s: Sections, operator: Text)
    requires IsTriage(rows, now, s)
    requires ColumnAgrees(rows, operator)
    ensures forall c :: c in s.byRecipient && EqFold(c.toAgent, operator) ==> c.open == s.waitingOnYou.total
    ensures HasCount(s.byRecipient, operator) <==> s.waitingOnYou.total > 0
  {
    OperatorRowsAgree(rows, operator);
    forall c | c in s.byRecipient && EqFold(c.toAgent, operator)
      ensures c.open == s.waitingOnYou.total > 0
    {
      assert CountOk(c, rows);
      RecipientFolds(rows, c.toAgent, operator);
    }
    RowsOfRecipient(rows, operator);
    if s.waitingOnYou.total > 0 {
      var r := AddressedTo(rows, operator)[0];
      var k :| 0 <= k < |rows| && rows[k] == r;
      assert HasCount(s.byRecipient, Recipient(rows[k]));
      HasCountFolds(s.byRecipient, Recipient(rows[k]), operator);
    }
  }

  lemma {:induction false} FilterKeepsOrder(keep: Brief -> bool, rows: seq<Brief>)
    requires OldestRowsFirst(rows)
    ensures OldestRowsFirst(Filter(keep, rows))
  {
    if rows != [] {
      var n := |rows| - 1;
      FilterKeepsOrder(keep, rows[..n]);
      FilterMembers(keep, rows[..n]);
      forall i | 0 <= i < |Filter(keep, rows[..n])|
        ensures Filter(keep, rows[..n])[i].createdAt <= rows[n].createdAt
      {
        var r := Filter(keep, rows[..n])[i];
        assert r in rows[..n];
        var k :| 0 <= k < n && rows[..n][k] == r;
        assert rows[k] == r;
      }
    }
  }

  /** On oldest-first rows a bucket's age is the true maximum over its rows. */
  lemma {:induction false} BucketAgeIsMaximum(keep: Brief -> bool, rows: seq<Brief>, now: Time)
    requires OldestRowsFirst(rows)
    ensures var bucket := Filter(keep, rows);
            && (AgeOfFirst(bucket, now).None? <==> bucket == [])
            && forall r :: r in bucket ==> AgeDays(now, r.createdAt) <= AgeOfFirst(bucket, now).value
  {
    FilterKeepsOrder(keep, rows);
    var bucket := Filter(keep, rows);
    forall r | r in bucket
      ensures AgeDays(now, r.createdAt) <= AgeOfFirst(bucket, now).value
    {
      var i :| 0 <= i < |bucket| && bucket[i] == r;
      OlderIsNoYounger(now, bucket[0].createdAt, r.createdAt);
    }
  }

  lemma {:induction false} OlderIsNoYounger(now: Time, a: Time, b: Time)
    requires a <= b
    ensures AgeDays(now, b) <= AgeDays(now, a)
  {
  }

  // ---------- the briefing of a table ----------

  predicate IsOpenAction(h: Handoff) {
    BriefWhere(h).Yes?
  }

  function OpenActions(rows: Rows): Rows {
    rows - (set id | id in rows && !IsOpenAction(rows[id]))
  }

  function WithStatus(rows: Rows, status: Status): Rows {
    rows - (set id | id in rows && rows[id].status != status)
  }

  /** `count_open_handoffs`, the header of the briefing. */
  function CountOpen(rows: Rows): (nat, nat, nat) {
    var open := OpenActions(rows);
    (|open|, |WithStatus(open, Pending)|, |WithStatus(open, Accepted)|)
  }

  /** `list` is what `list_open_action_briefs` returns: every open action row
      once, projected, ordered by creation time and then id. */
  ghost predicate IsBriefList(rows: Rows, operator: Text, list: seq<Brief>) {
    && (forall i :: 0 <= i < |list| ==>
          list[i].id in OpenActions(rows) && list[i] == ProjectBrief(rows[list[i].id], operator))
    && (forall id :: id in OpenActions(rows) ==> exists i :: 0 <= i < |list| && list[i].id == id)
    && (forall i, j :: 0 <= i < j < |list| ==>
          || list[i].createdAt < list[j].createdAt
          || (list[i].createdAt == list[j].createdAt && list[i].id < list[j].id))
  }

  /** `agent_seen_before`: some handoff, open or not, names the agent as sender
      or recipient. */
  predicate SeenBefore(rows: Rows, agent: Text) {
    exists id :: id in rows && Or(EqLower(Some(rows[id].fromAgent), Some(agent)), EqLower(rows[id].toAgent, Some(agent))) == Yes
  }

  predicate HasOperatorRow(list: seq<Brief>) {
    exists i :: 0 <= i < |list| && list[i].isOperator
  }

  method IsOperatorSeen(rows: Rows, operator: Text, list: seq<Brief>, lookupFails: bool) returns (seen: bool)
    ensures seen <==> HasOperatorRow(list) || lookupFails || SeenBefore(rows, operator)
  {
    for n := 0 to |list|
      invariant forall k :: 0 <= k < n ==> !list[k].isOperator
    {
      if list[n].isOperator {
        return true;
      }
    }
    seen := lookupFails || SeenBefore(rows, operator);
  }

  /** The handoff has the agent's name on it: as sender, as recipient, or as the
      claimant of an open action broadcast. */
  predicate NamesAgent(h: Handoff, agent: Text) {
    || EqFold(h.fromAgent, agent)
    || (h.toAgent.Some? && EqFold(h.toAgent.value, agent))
    || (IsOpenAction(h) && h.toAgent.None? && h.status.Accepted? && h.acceptedBy.Some? && EqFold(h.acceptedBy.value, agent))
  }

  lemma {:induction false} OperatorRowNamesOperator(h: Handoff, operator: Text)
    requires IsOpenAction(h)
    ensures ProjectBrief(h, operator).isOperator ==> NamesAgent(h, operator)
    ensures NamesAgent(h, operator) && !ProjectBrief(h, operator).isOperator ==>
              Or(EqLower(Some(h.fromAgent), Some(operator)), EqLower(h.toAgent, Some(operator))) == Yes
  {
  }

  predicate Named(rows: Rows, agent: Text) {
    exists id :: id in rows && NamesAgent(rows[id], agent)
  }

  lemma {:induction false} OperatorRowIsNamed(rows: Rows, operator: Text, list: seq<Brief>)
    requires IsBriefList(rows, operator, list) && HasOperatorRow(list)
    ensures Named(rows, operator)
  {
    var i :| 0 <= i < |list| && list[i].isOperator;
    var id := list[i].id;
    OperatorRowNamesOperator(rows[id], operator);
  }

  lemma {:induction false} NamedIsSeen(rows: Rows, operator: Text, list: seq<Brief>)
    requires IsBriefList(rows, operator, list) && Named(rows, operator)
    ensures HasOperatorRow(list) || SeenBefore(rows, operator)
  {
    var id :| id in rows && NamesAgent(rows[id], operator);
    if IsOpenAction(rows[id]) {
      OperatorRowNamesOperator(rows[id], operator);
      assert id in OpenActions(rows);
      var i :| 0 <= i < |list| && list[i].id == id;
      assert list[i] == ProjectBrief(rows[id], operator);
    }
  }

  lemma {:induction false} WaitingHasOperatorRow(list: seq<Brief>)
    ensures Filter(IsMine, list) != [] ==> HasOperatorRow(list)
  {
    FilterMembers(IsMine, list);
    if Filter(IsMine, list) != [] {
      var r := Filter(IsMine, list)[0];
      assert r in list;
      var i :| 0 <= i < |list| && list[i] == r;
    }
  }

  /** On one snapshot, when the lookup succeeds, the operator is reported unseen
      exactly when no handoff has its name on it, although the lookup itself knows
      nothing of claimed broadcasts; and then nothing waits on it. */
  lemma {:induction false} UnseenOperatorIsUnknown(rows: Rows, operator: Text, list: seq<Brief>, now: Time, s: Sections)
    requires IsBriefList(rows, operator, list) && IsTriage(list, now, s)
    requires s.operatorSeen <==> HasOperatorRow(list) || SeenBefore(rows, operator)
    ensures s.operatorSeen <==> Named(rows, operator)
    ensures !s.operatorSeen ==> s.waitingOnYou.total == 0
  {
    if HasOperatorRow(list) { OperatorRowIsNamed(rows, operator, list); }
    if SeenBefore(rows, operator) { SeenIsNamed(rows, operator); }
    if Named(rows, operator) { NamedIsSeen(rows, operator, list); }
    WaitingHasOperatorRow(list);
  }

  lemma {:induction false} SeenIsNamed(rows: Rows, operator: Text)
    requires SeenBefore(rows, operator)
    ensures Named(rows, operator)
  {
    var id :| id in rows
              && Or(EqLower(Some(rows[id].fromAgent), Some(operator)), EqLower(rows[id].toAgent, Some(operator))) == Yes;
    assert NamesAgent(rows[id], operator);
  }

  lemma {:induction false} DistinctListSize(list: seq<Brief>, ids: set<Uuid>)
    requires forall i, j :: 0 <= i < j < |list| ==> list[i].id != list[j].id
    requires forall i :: 0 <= i < |list| ==> list[i].id in ids
    requires forall id :: id in ids ==> exists i :: 0 <= i < |list| && list[i].id == id
    ensures |list| == |ids|
  {
    if list == [] {
      assert ids == {};
    } else {
      var n := |list| - 1;
      forall id | id in ids - {list[n].id}
        ensures exists i :: 0 <= i < n && list[..n][i].id == id
      {
        var i :| 0 <= i < |list| && list[i].id == id;
        assert list[..n][i].id == id;
      }
      DistinctListSize(list[..n], ids - {list[n].id});
    }
  }

  lemma {:induction false} SplitSize(whole: Rows, left: Rows, right: Rows)
    requires whole.Keys == left.Keys + right.Keys && left.Keys !! right.Keys
    ensures |whole| == |left| + |right|
  {
  }

  lemma {:induction false} OpenIsPendingOrAccepted(rows: Rows)
    ensures var (open, pending, accepted) := CountOpen(rows); open == pending + accepted
  {
    var open := OpenActions(rows);
    assert forall id :: id in open ==> Open(open[id]);
    SplitSize(open, WithStatus(open, Pending), WithStatus(open, Accepted));
  }

  lemma {:induction false} BriefListAgrees(rows: Rows, operator: Text, list: seq<Brief>)
    requires IsBriefList(rows, operator, list) && ValidSlug(operator)
    ensures ColumnAgrees(list, operator)
  {
    forall i | 0 <= i < |list|
      ensures list[i].isOperator <==> EqFold(Recipient(list[i]), operator)
    {
      OperatorColumnIsRecipient(rows[list[i].id], operator);
    }
  }

  lemma {:induction false} BriefListIsOrdered(rows: Rows, operator: Text, list: seq<Brief>)
    requires IsBriefList(rows, operator, list)
    ensures DistinctIds(list) && OldestRowsFirst(list)
  {
  }

  /** A briefing of one snapshot is consistent throughout: the recipient counts
      sum to the header's open count, which is its pending and accepted counts
      together, and the operator's entry is its "waiting on you" total. */
  lemma {:induction false} BriefingIsConsistent(rows: Rows, operator: Text, list: seq<Brief>, now: Time, s: Sections)
    requires ValidSlug(operator) && IsBriefList(rows, operator, list) && IsTriage(list, now, s)
    ensures var (open, pending, accepted) := CountOpen(rows);
            SumOpen(s.byRecipient) == open == pending + accepted
    ensures forall c :: c in s.byRecipient && EqFold(c.toAgent, operator) ==> c.open == s.waitingOnYou.total
    ensures HasCount(s.byRecipient, operator) <==> s.waitingOnYou.total > 0
    ensures DistinctIds(list) && OldestRowsFirst(list)
  {
    DistinctListSize(list, OpenActions(rows).Keys);
    OpenIsPendingOrAccepted(rows);
    BriefListAgrees(rows, operator, list);
    OperatorEntryIsWaitingTotal(list, now, s, operator);
  }

  lemma {:induction false} GroupsStartOldestFirst(groups: seq<StuckGroup>, shown: seq<Brief>, now: Time, i: nat, j: nat)
    requires Grouped(groups, shown, now) && OldestRowsFirst(shown) && i < j < |groups|
    ensures |groups[i].items| > 0 && |groups[j].items| > 0
    ensures groups[i].items[0].ageDays >= groups[j].items[0].ageDays
  {
    var a, b := groups[i].toAgent, groups[j].toAgent;
    assert GroupOk(groups[i], shown, now) && GroupOk(groups[j], shown, now);
    RowsOfRecipient(shown, a);
    RowsOfRecipient(shown, b);
    assert FirstFor(shown, a) < FirstFor(shown, b);
    OlderIsNoYounger(now, shown[FirstFor(shown, a)].createdAt, shown[FirstFor(shown, b)].createdAt);
  }

  lemma {:induction false} TakeKeepsOrder(rows: seq<Brief>, cap: nat)
    requires OldestRowsFirst(rows)
    ensures OldestRowsFirst(Take(rows, cap))
  {
  }

  /** Groups open with their oldest rows, the oldest group first, and no two
      groups stand for the same recipient even up to case. */
  lemma {:induction false} StuckGroupsOldestFirst(stuck: seq<Brief>, now: Time, section: StuckSection, i: nat, j: nat)
    requires IsStuckSection(stuck, now, section) && OldestRowsFirst(stuck) && i < j < |section.groups|
    ensures |section.groups[i].items| > 0 && |section.groups[j].items| > 0
    ensures section.groups[i].items[0].ageDays >= section.groups[j].items[0].ageDays
    ensures !EqFold(section.groups[i].toAgent, section.groups[j].toAgent)
  {
    var shown := Take(stuck, SECTION_CAP);
    TakeKeepsOrder(stuck, SECTION_CAP);
    assert Grouped(section.groups, shown, now);
    GroupKeysDistinct(section.groups, shown, now, i, j);
    GroupsStartOldestFirst(section.groups, shown, now, i, j);
  }

  /** In the briefing of a table the stuck groups open with their oldest rows, the
      oldest group first, and no two stand for one recipient up to case. */
  lemma {:induction false} StuckIsOldestFirst(
      rows: Rows, operator: Text, list: seq<Brief>, now: Time, s: Sections, i: nat, j: nat)
    requires IsBriefList(rows, operator, list) && IsTriage(list, now, s) && i < j < |s.stuck.groups|
    ensures |s.stuck.groups[i].items| > 0 && |s.stuck.groups[j].items| > 0
    ensures s.stuck.groups[i].items[0].ageDays >= s.stuck.groups[j].items[0].ageDays
    ensures !EqFold(s.stuck.groups[i].toAgent, s.stuck.groups[j].toAgent)
  {
    BriefListIsOrdered(rows, operator, list);
    FilterKeepsOrder(StuckAt(now), list);
    StuckGroupsOldestFirst(StuckRows(list, now), now, s.stuck, i, j);
  }

  lemma {:induction false} GroupHoldsRow(g: StuckGroup, shown: seq<Brief>, now: Time, k: nat)
    requires GroupOk(g, shown, now) && k < |shown| && EqFold(g.toAgent, Recipient(shown[k]))
    ensures ToItem(shown[k], now) in g.items
  {
    RowsOfRecipient(shown, g.toAgent);
    var mine := AddressedTo(shown, g.toAgent);
    assert shown[k] in mine;
    var i :| 0 <= i < |mine| && mine[i] == shown[k];
    assert g.items[i] == ToItem(shown[k], now);
  }

  lemma {:induction false} GroupedOnce(groups: seq<StuckGroup>, shown: seq<Brief>, now: Time, g: nat, key: Text)
    requires Grouped(groups, shown, now) && g < |groups| && EqFold(groups[g].toAgent, key)
    ensures forall other :: 0 <= other < |groups| && other != g ==> !EqFold(groups[other].toAgent, key)
  {
    forall other | 0 <= other < |groups| && other != g
      ensures !EqFold(groups[other].toAgent, key)
    {
      if other < g { GroupKeysDistinct(groups, shown, now, other, g); } else { GroupKeysDistinct(groups, shown, now, g, other); }
    }
  }

  /** The group that shows a row, and the only one for its recipient. */
  ghost predicate ShowsOnce(groups: seq<StuckGroup>, r: Brief, now: Time, g: nat) {
    && g < |groups|
    && ToItem(r, now) in groups[g].items
    && EqFold(groups[g].toAgent, Recipient(r))
    && forall other :: 0 <= other < |groups| && other != g ==> !EqFold(groups[other].toAgent, Recipient(r))
  }

  lemma {:induction false} GroupedRowIsShownOnce(groups: seq<StuckGroup>, shown: seq<Brief>, now: Time, k: nat)
    requires Grouped(groups, shown, now) && k < |shown|
    ensures exists g: nat :: ShowsOnce(groups, shown[k], now, g)
  {
    assert HasGroup(groups, Recipient(shown[k]));
    var g: nat :| g < |groups| && EqFold(groups[g].toAgent, Recipient(shown[k]));
    GroupHoldsRow(groups[g], shown, now, k);
    GroupedOnce(groups, shown, now, g, Recipient(shown[k]));
    assert ShowsOnce(groups, shown[k], now, g);
  }

  /** Each of the first fifty stuck rows is shown, under exactly one group. */
  lemma {:induction false} StuckRowIsShownOnce(stuck: seq<Brief>, now: Time, section: StuckSection, k: nat)
    requires IsStuckSection(stuck, now, section) && k < |stuck| && k < SECTION_CAP
    ensures exists g: nat :: ShowsOnce(section.groups, stuck[k], now, g)
  {
    var shown := Take(stuck, SECTION_CAP);
    assert Grouped(section.groups, shown, now) && shown[k] == stuck[k];
    GroupedRowIsShownOnce(section.groups, shown, now, k);
  }
}
