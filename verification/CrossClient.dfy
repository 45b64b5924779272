/** The cross-client gate: which items a client-scoped search may show, the
    notices about the rest and the audit trail (`src/tools/helpers.rs`). */
module CrossClient {
  import opened Prelude

  /** The `_client_slug` and `_client_name` fields added to an item. */
  datatype Provenance = Untouched | Global | Owner(slug: string, name: string)

  /** An item as the gate reads it: the parsed `id` and `client_id`, the
      `cross_client_safe` flag, and everything else as `content`. */
  datatype Item = Item(id: Option<Uuid>, owner: Option<Uuid>, safe: bool, content: string, provenance: Provenance)

  datatype Decision = Open | ReleasedSafe | Released | Withheld

  datatype AuditEntry = AuditEntry(entity: Uuid, owner: Uuid, action: Decision)

  datatype Notice = Notice(entityType: string, count: nat, ownerSlug: string, ownerName: string)

  type Lookup = map<Uuid, (string, string)>

  /** The client scope of a request and whether it acknowledged crossing it. */
  datatype Scope = Scope(client: Option<Uuid>, acknowledge: bool)

  function InjectProvenance(item: Item, lookup: Lookup): Item {
    match item.owner
    case None => item.(provenance := Global)
    case Some(owner) =>
      if owner in lookup then item.(provenance := Owner(lookup[owner].0, lookup[owner].1)) else item
  }

  function Inject(lookup: Lookup): Item -> Item {
    (item: Item) => InjectProvenance(item, lookup)
  }

  function Gate(item: Item, scope: Scope): Decision {
    if scope.client.None? || item.owner.None? || item.owner == scope.client then Open
    else if item.safe then ReleasedSafe
    else if scope.acknowledge then Released
    else Withheld
  }

  predicate IsWithheld(item: Item, scope: Scope) {
    Gate(item, scope).Withheld?
  }

  // ---------- the rule, told without the gate ----------

  /** The item belongs to a client other than the one asking. */
  predicate IsForeign(item: Item, scope: Scope) {
    scope.client.Some? && item.owner.Some? && item.owner != scope.client
  }

  /** Foreign items are shown only when marked safe or acknowledged. */
  predicate MayShow(item: Item, scope: Scope) {
    IsForeign(item, scope) ==> item.safe || scope.acknowledge
  }

  lemma {:induction false} WithheldExactly(item: Item, scope: Scope)
    ensures IsWithheld(item, scope) <==> !MayShow(item, scope)
  {
  }

  /** The item as shown: itself, with its owner's name when that is known, and
      marked global when it has no owner. */
  predicate Tagged(shown: Item, item: Item, lookup: Lookup) {
    && (shown.id, shown.owner, shown.safe, shown.content) == (item.id, item.owner, item.safe, item.content)
    && (item.owner.None? ==> shown.provenance == Global)
    && (item.owner.Some? && item.owner.value in lookup ==>
          shown.provenance.Owner? && (shown.provenance.slug, shown.provenance.name) == lookup[item.owner.value])
    && (item.owner.Some? && item.owner.value !in lookup ==> shown.provenance == item.provenance)
  }

  predicate AllTagged(shown: seq<Item>, items: seq<Item>, lookup: Lookup) {
    |shown| == |items| && forall i :: 0 <= i < |items| ==> Tagged(shown[i], items[i], lookup)
  }

  /** The entry says what became of a foreign item. */
  predicate RecordsDecision(e: AuditEntry, item: Item, scope: Scope) {
    && item.id == Some(e.entity) && item.owner == Some(e.owner)
    && (e.action.ReleasedSafe? <==> item.safe)
    && (e.action.Released? <==> !item.safe && scope.acknowledge)
    && (e.action.Withheld? <==> !item.safe && !scope.acknowledge)
  }

  function Foreign(scope: Scope): Item -> bool {
    (item: Item) => IsForeign(item, scope) && item.id.Some?
  }

  predicate AllRecorded(audit: seq<AuditEntry>, items: seq<Item>, scope: Scope) {
    |audit| == |items| && forall i :: 0 <= i < |items| ==> RecordsDecision(audit[i], items[i], scope)
  }

  predicate IsAudited(item: Item, scope: Scope) {
    !Gate(item, scope).Open? && item.id.Some?
  }

  // ---------- what the gate produces ----------

  function Shown(items: seq<Item>, scope: Scope, lookup: Lookup): seq<Item> {
    if items == [] then []
    else
      var n := |items| - 1;
      if IsWithheld(items[n], scope) then Shown(items[..n], scope, lookup)
      else Shown(items[..n], scope, lookup) + [InjectProvenance(items[n], lookup)]
  }

  function Audit(items: seq<Item>, scope: Scope): seq<AuditEntry> {
    if items == [] then []
    else
      var n := |items| - 1;
      if IsAudited(items[n], scope) then
        assert items[n].owner.Some?;
        Audit(items[..n], scope) + [AuditEntry(items[n].id.value, items[n].owner.value, Gate(items[n], scope))]
      else Audit(items[..n], scope)
  }

  /** The withheld entries of one owner. */
  function OwnedBy(audit: seq<AuditEntry>, owner: Uuid): seq<Uuid> {
    if audit == [] then []
    else
      var n := |audit| - 1;
      if audit[n].action.Withheld? && audit[n].owner == owner then OwnedBy(audit[..n], owner) + [audit[n].entity]
      else OwnedBy(audit[..n], owner)
  }

  function WithheldCount(audit: seq<AuditEntry>): nat {
    if audit == [] then 0
    else WithheldCount(audit[..|audit| - 1]) + (if audit[|audit| - 1].action.Withheld? then 1 else 0)
  }

  predicate NoticeOk(notice: Notice, owner: Uuid, audit: seq<AuditEntry>, entityType: string, lookup: Lookup) {
    && notice.entityType == entityType
    && notice.count == |OwnedBy(audit, owner)| > 0
    && (if owner in lookup then (notice.ownerSlug, notice.ownerName) == lookup[owner]
        else notice.ownerSlug == "unknown" && notice.ownerName == "Unknown")
  }

  /** One notice for each owner of a withheld entry, in whatever order the hash
      map yields them. */
  ghost predicate AreNotices(
      notices: seq<Notice>, owners: seq<Uuid>, audit: seq<AuditEntry>, entityType: string, lookup: Lookup) {
    && |notices| == |owners|
    && (forall i, j :: 0 <= i < j < |owners| ==> owners[i] != owners[j])
    && (forall i :: 0 <= i < |notices| ==> NoticeOk(notices[i], owners[i], audit, entityType, lookup))
    && (forall e :: e in audit && e.action.Withheld? ==> e.owner in owners)
  }

  lemma {:induction false} OwnedBySnoc(audit: seq<AuditEntry>, e: AuditEntry, owner: Uuid)
    ensures OwnedBy(audit + [e], owner) ==
            if e.action.Withheld? && e.owner == owner then OwnedBy(audit, owner) + [e.entity] else OwnedBy(audit, owner)
  {
  }

  lemma {:induction false} OwnedBySome(audit: seq<AuditEntry>, owner: Uuid)
    ensures OwnedBy(audit, owner) != [] <==> exists e :: e in audit && e.action.Withheld? && e.owner == owner
  {
    if audit != [] {
      var n := |audit| - 1;
      OwnedBySome(audit[..n], owner);
      assert audit == audit[..n] + [audit[n]];
    }
  }

  // ---------- the filter ----------

  /** The items withheld so far, by owner. */
  ghost predicate Grouped(groups: map<Uuid, seq<Uuid>>, audit: seq<AuditEntry>) {
    forall owner :: OwnedBy(audit, owner) == if owner in groups then groups[owner] else []
  }

  lemma {:induction false} GroupSnoc(groups: map<Uuid, seq<Uuid>>, audit: seq<AuditEntry>, e: AuditEntry)
    requires Grouped(groups, audit)
    ensures !e.action.Withheld? ==> Grouped(groups, audit + [e])
    ensures e.action.Withheld? ==>
              Grouped(groups[e.owner := (if e.owner in groups then groups[e.owner] else []) + [e.entity]], audit + [e])
  {
  }

  method FilterCrossClient(items: seq<Item>, entityType: string, scope: Scope, lookup: Lookup)
    returns (allowed: seq<Item>, notices: seq<Notice>, audit: seq<AuditEntry>, ghost owners: seq<Uuid>)
    ensures allowed == Shown(items, scope, lookup) && AllTagged(allowed, Cleared(items, scope), lookup)
    ensures audit == Audit(items, scope) && AllRecorded(audit, Filter(Foreign(scope), items), scope)
    ensures AreNotices(notices, owners, audit, entityType, lookup)
  {
    allowed, notices, audit, owners := [], [], [], [];
    ShownExactly(items, scope, lookup);
    AuditIsExact(items, scope);
    if scope.client.None? {
      allowed := ReleaseAll(items, scope, lookup);
      return;
    }
    var groups: map<Uuid, seq<Uuid>> := map[];
    for n := 0 to |items|
      invariant allowed == Shown(items[..n], scope, lookup)
      invariant audit == Audit(items[..n], scope)
      invariant Grouped(groups, audit)
      invariant forall owner :: owner in groups ==> groups[owner] != []
    {
      var item := items[n];
      assert items[..n + 1][..n] == items[..n];
      var decision := Gate(item, scope);
      if !decision.Withheld? {
        allowed := allowed + [InjectProvenance(item, lookup)];
      }
      if !decision.Open? && item.id.Some? {
        var entry := AuditEntry(item.id.value, item.owner.value, decision);
        GroupSnoc(groups, audit, entry);
        if decision.Withheld? {
          var others := if entry.owner in groups then groups[entry.owner] else [];
          groups := groups[entry.owner := others + [entry.entity]];
        }
        audit := audit + [entry];
      }
    }
    assert items[..|items|] == items;
    notices, owners := BuildNotices(groups, audit, entityType, lookup);
  }

  method ReleaseAll(items: seq<Item>, scope: Scope, lookup: Lookup) returns (allowed: seq<Item>)
    requires scope.client.None?
    ensures allowed == Shown(items, scope, lookup) && Audit(items, scope) == []
  {
    allowed := [];
    for n := 0 to |items|
      invariant allowed == Shown(items[..n], scope, lookup) && Audit(items[..n], scope) == []
    {
      assert items[..n + 1][..n] == items[..n];
      allowed := allowed + [InjectProvenance(items[n], lookup)];
    }
    assert items[..|items|] == items;
  }

  method BuildNotices(groups: map<Uuid, seq<Uuid>>, ghost audit: seq<AuditEntry>, entityType: string, lookup: Lookup)
    returns (notices: seq<Notice>, ghost owners: seq<Uuid>)
    requires Grouped(groups, audit) && forall owner :: owner in groups ==> groups[owner] != []
    ensures AreNotices(notices, owners, audit, entityType, lookup)
  {
    notices, owners := [], [];
    var left := groups.Keys;
    while left != {}
      invariant left <= groups.Keys && |notices| == |owners|
      invariant forall owner :: owner in owners <==> owner in groups.Keys - left
      invariant forall i, j :: 0 <= i < j < |owners| ==> owners[i] != owners[j]
      invariant forall i :: 0 <= i < |notices| ==> NoticeOk(notices[i], owners[i], audit, entityType, lookup)
      decreases left
    {
      var owner :| owner in left;
      assert owner !in owners;
      var (slug, name) := if owner in lookup then lookup[owner] else ("unknown", "Unknown");
      assert OwnedBy(audit, owner) == groups[owner];
      notices := notices + [Notice(entityType, |groups[owner]|, slug, name)];
      owners := owners + [owner];
      left := left - {owner};
    }
    forall e | e in audit && e.action.Withheld?
      ensures e.owner in owners
    {
      OwnedBySome(audit, e.owner);
    }
  }

  // ---------- what the gate promises ----------

  function Withholds(scope: Scope): Item -> bool {
    (item: Item) => !MayShow(item, scope)
  }

  function Clears(scope: Scope): Item -> bool {
    (item: Item) => MayShow(item, scope)
  }

  /** The withheld items, in order. */
  function Hidden(items: seq<Item>, scope: Scope): seq<Item> {
    Filter(Withholds(scope), items)
  }

  function Cleared(items: seq<Item>, scope: Scope): seq<Item> {
    Filter(Clears(scope), items)
  }

  /** `part` is `whole` with some elements left out. */
  predicate Subsequence<T(==)>(part: seq<T>, whole: seq<T>)
    decreases whole
  {
    if whole == [] then part == []
    else
      var n := |whole| - 1;
      || Subsequence(part, whole[..n])
      || (part != [] && part[|part| - 1] == whole[n] && Subsequence(part[..|part| - 1], whole[..n]))
  }

  lemma {:induction false} SubsequenceGrows<T>(part: seq<T>, whole: seq<T>, x: T)
    requires Subsequence(part, whole)
    ensures Subsequence(part, whole + [x]) && Subsequence(part + [x], whole + [x])
  {
  }

  /** Every item is shown or withheld, never both and never lost. */
  lemma {:induction false} ItemsAreClearedOrHidden(items: seq<Item>, scope: Scope)
    ensures multiset(items) == multiset(Cleared(items, scope)) + multiset(Hidden(items, scope))
  {
    if items != [] {
      var n := |items| - 1;
      ItemsAreClearedOrHidden(items[..n], scope);
      assert items == items[..n] + [items[n]];
    }
  }

  /** The shown items are the cleared ones in input order, changed only in their
      provenance. */
  lemma {:induction false} ShownInInputOrder(items: seq<Item>, scope: Scope, lookup: Lookup)
    ensures Shown(items, scope, lookup) == Map(Inject(lookup), Cleared(items, scope))
    ensures Subsequence(Cleared(items, scope), items)
  {
    if items != [] {
      var n := |items| - 1;
      ShownInInputOrder(items[..n], scope, lookup);
      assert items == items[..n] + [items[n]];
      SubsequenceGrows(Cleared(items[..n], scope), items[..n], items[n]);
      MapSnoc(Inject(lookup), Cleared(items[..n], scope), items[n]);
    }
  }

  /** What is shown is exactly what may be, in order, each item tagged. */
  lemma {:induction false} ShownExactly(items: seq<Item>, scope: Scope, lookup: Lookup)
    ensures AllTagged(Shown(items, scope, lookup), Cleared(items, scope), lookup)
  {
    ShownInInputOrder(items, scope, lookup);
  }

  /** The audit trail tells of every foreign item with an id, in order, whether it
      was released as safe, released on acknowledgement, or withheld. */
  lemma {:induction false} AuditIsExact(items: seq<Item>, scope: Scope)
    ensures AllRecorded(Audit(items, scope), Filter(Foreign(scope), items), scope)
  {
    if items != [] {
      AuditIsExact(items[..|items| - 1], scope);
    }
  }

  predicate IsWithheldEntry(e: AuditEntry) {
    e.action.Withheld?
  }

  function WithheldEntries(audit: seq<AuditEntry>): seq<AuditEntry> {
    Filter(IsWithheldEntry, audit)
  }

  /** `e` records that `item` was withheld from its owner's outsiders. */
  predicate Records(e: AuditEntry, item: Item) {
    item.id == Some(e.entity) && item.owner == Some(e.owner) && e.action.Withheld?
  }

  lemma {:induction false} WithheldCounted(audit: seq<AuditEntry>)
    ensures |WithheldEntries(audit)| == WithheldCount(audit)
  {
    if audit != [] {
      WithheldCounted(audit[..|audit| - 1]);
    }
  }

  /** When items carry ids, as every caller's do, the withheld audit entries are
      exactly the withheld items under their owners, one for one and in order. */
  lemma {:induction false} WithheldItemsAreAudited(items: seq<Item>, scope: Scope)
    requires forall item :: item in items ==> item.id.Some?
    ensures var entries, hidden := WithheldEntries(Audit(items, scope)), Hidden(items, scope);
            && |entries| == |hidden| == WithheldCount(Audit(items, scope))
            && forall i :: 0 <= i < |entries| ==> Records(entries[i], hidden[i])
  {
    WithheldCounted(Audit(items, scope));
    if items != [] {
      var n := |items| - 1;
      assert items == items[..n] + [items[n]];
      WithheldItemsAreAudited(items[..n], scope);
      if IsAudited(items[n], scope) {
        var before := Audit(items[..n], scope);
        assert Audit(items, scope)[..|before|] == before;
      }
    }
  }

  function SumCounts(notices: seq<Notice>): nat {
    if notices == [] then 0 else SumCounts(notices[..|notices| - 1]) + notices[|notices| - 1].count
  }

  function SumOwned(owners: seq<Uuid>, audit: seq<AuditEntry>): nat {
    if owners == [] then 0 else SumOwned(owners[..|owners| - 1], audit) + |OwnedBy(audit, owners[|owners| - 1])|
  }

  lemma {:induction false} SumOwnedSnoc(owners: seq<Uuid>, audit: seq<AuditEntry>, e: AuditEntry)
    requires forall i, j :: 0 <= i < j < |owners| ==> owners[i] != owners[j]
    ensures SumOwned(owners, audit + [e]) ==
            SumOwned(owners, audit) + (if e.action.Withheld? && e.owner in owners then 1 else 0)
  {
    if owners != [] {
      var n := |owners| - 1;
      assert owners == owners[..n] + [owners[n]];
      SumOwnedSnoc(owners[..n], audit, e);
      OwnedBySnoc(audit, e, owners[n]);
    }
  }

  lemma {:induction false} OwnersCoverWithheld(owners: seq<Uuid>, audit: seq<AuditEntry>)
    requires forall i, j :: 0 <= i < j < |owners| ==> owners[i] != owners[j]
    requires forall e :: e in audit && e.action.Withheld? ==> e.owner in owners
    ensures SumOwned(owners, audit) == WithheldCount(audit)
  {
    if audit == [] {
      NothingOwned(owners);
    } else {
      var n := |audit| - 1;
      assert audit == audit[..n] + [audit[n]];
      OwnersCoverWithheld(owners, audit[..n]);
      SumOwnedSnoc(owners, audit[..n], audit[n]);
    }
  }

  lemma {:induction false} NothingOwned(owners: seq<Uuid>)
    ensures SumOwned(owners, []) == 0
  {
    if owners != [] {
      NothingOwned(owners[..|owners| - 1]);
    }
  }

  lemma {:induction false} CountsAreOwned(
      notices: seq<Notice>, owners: seq<Uuid>, audit: seq<AuditEntry>, entityType: string, lookup: Lookup)
    requires |notices| == |owners|
    requires forall i :: 0 <= i < |notices| ==> NoticeOk(notices[i], owners[i], audit, entityType, lookup)
    ensures SumCounts(notices) == SumOwned(owners, audit)
  {
    if notices != [] {
      var n := |notices| - 1;
      CountsAreOwned(notices[..n], owners[..n], audit, entityType, lookup);
    }
  }

  /** The counts in the notices add up to the withheld entries of the audit
      trail: nothing is withheld unannounced, nothing announced twice. */
  lemma {:induction false} NoticesAccountForWithheld(
      notices: seq<Notice>, owners: seq<Uuid>, audit: seq<AuditEntry>, entityType: string, lookup: Lookup)
    requires AreNotices(notices, owners, audit, entityType, lookup)
    ensures SumCounts(notices) == WithheldCount(audit)
  {
    CountsAreOwned(notices, owners, audit, entityType, lookup);
    OwnersCoverWithheld(owners, audit);
  }

  /** The two inputs differ only inside withheld items, which keep their id and
      owner. */
  predicate AgreeOutsideWithheld(items: seq<Item>, others: seq<Item>, scope: Scope) {
    && |items| == |others|
    && forall i :: 0 <= i < |items| ==>
         items[i] == others[i]
         || (!MayShow(items[i], scope) && !MayShow(others[i], scope)
             && items[i].id == others[i].id && items[i].owner == others[i].owner)
  }

  /** A whole response: the shown items, the notices and the audit trail. */
  ghost predicate IsResponse(
      items: seq<Item>, entityType: string, scope: Scope, lookup: Lookup,
      allowed: seq<Item>, notices: seq<Notice>, audit: seq<AuditEntry>)
  {
    && allowed == Shown(items, scope, lookup) && audit == Audit(items, scope)
    && exists owners :: AreNotices(notices, owners, audit, entityType, lookup)
  }

  lemma {:induction false} WithheldContentUnused(items: seq<Item>, others: seq<Item>, scope: Scope, lookup: Lookup)
    requires AgreeOutsideWithheld(items, others, scope)
    ensures Shown(items, scope, lookup) == Shown(others, scope, lookup)
    ensures Audit(items, scope) == Audit(others, scope)
  {
    if items != [] {
      var n := |items| - 1;
      WithheldContentUnused(items[..n], others[..n], scope, lookup);
    }
  }

  /** Nothing of a withheld item but its id and owner reaches the response,
      notices included. */
  lemma {:induction false} WithheldContentStaysHidden(
      items: seq<Item>, others: seq<Item>, entityType: string, scope: Scope, lookup: Lookup,
      allowed: seq<Item>, notices: seq<Notice>, audit: seq<AuditEntry>)
    requires AgreeOutsideWithheld(items, others, scope)
    ensures IsResponse(items, entityType, scope, lookup, allowed, notices, audit) <==>
            IsResponse(others, entityType, scope, lookup, allowed, notices, audit)
  {
    WithheldContentUnused(items, others, scope, lookup);
  }

  lemma {:induction false} AcknowledgingShowsAll(items: seq<Item>, client: Option<Uuid>, lookup: Lookup)
    ensures Shown(items, Scope(client, true), lookup) == Map(Inject(lookup), items)
  {
    if items != [] {
      var n := |items| - 1;
      AcknowledgingShowsAll(items[..n], client, lookup);
      MapSnoc(Inject(lookup), items[..n], items[n]);
      assert items == items[..n] + [items[n]];
    }
  }

  lemma {:induction false} ShownSnoc(items: seq<Item>, item: Item, scope: Scope, lookup: Lookup)
    ensures Shown(items + [item], scope, lookup) ==
            if IsWithheld(item, scope) then Shown(items, scope, lookup)
            else Shown(items, scope, lookup) + [InjectProvenance(item, lookup)]
  {
    assert (items + [item])[..|items|] == items;
  }

  /** Acknowledging shows every item, and only adds to what was shown without. */
  lemma {:induction false} AcknowledgingOnlyAdds(items: seq<Item>, client: Option<Uuid>, lookup: Lookup)
    ensures Shown(items, Scope(client, true), lookup) == Map(Inject(lookup), items)
    ensures Subsequence(Shown(items, Scope(client, false), lookup), Shown(items, Scope(client, true), lookup))
  {
    AcknowledgingShowsAll(items, client, lookup);
    if items != [] {
      var n := |items| - 1;
      var without, all := Scope(client, false), Scope(client, true);
      AcknowledgingOnlyAdds(items[..n], client, lookup);
      assert items == items[..n] + [items[n]];
      ShownSnoc(items[..n], items[n], without, lookup);
      ShownSnoc(items[..n], items[n], all, lookup);
      SubsequenceGrows(Shown(items[..n], without, lookup), Shown(items[..n], all, lookup), InjectProvenance(items[n], lookup));
    }
  }

  /** A remark on items no caller has: a withheld one without an id would leave no
      trace, neither notice nor audit entry. */
  lemma {:induction false} WithheldWithoutIdIsSilent(items: seq<Item>, item: Item, scope: Scope, lookup: Lookup)
    requires IsWithheld(item, scope)
    ensures Shown(items + [item], scope, lookup) == Shown(items, scope, lookup)
    ensures Audit(items + [item], scope) == Audit(items, scope) <==> item.id.None?
  {
  }

  // ---------- the notices ----------

  /** The items withheld from the caller that belong to this client. */
  function HiddenOf(scope: Scope, owner: Uuid): Item -> bool {
    (item: Item) => !MayShow(item, scope) && item.owner == Some(owner) && item.id.Some?
  }

  /** The notice names the client, when it is known, and counts what was withheld
      of it. */
  predicate Announces(notice: Notice, owner: Uuid, items: seq<Item>, entityType: string, scope: Scope, lookup: Lookup) {
    && notice.entityType == entityType
    && notice.count == |Filter(HiddenOf(scope, owner), items)| > 0
    && (owner in lookup ==> notice.ownerSlug == lookup[owner].0 && notice.ownerName == lookup[owner].1)
    && (owner !in lookup ==> notice.ownerSlug == "unknown" && notice.ownerName == "Unknown")
  }

  lemma {:induction false} OwnedAreHidden(items: seq<Item>, scope: Scope, owner: Uuid)
    ensures |OwnedBy(Audit(items, scope), owner)| == |Filter(HiddenOf(scope, owner), items)|
  {
    if items != [] {
      var n := |items| - 1;
      OwnedAreHidden(items[..n], scope, owner);
      if IsAudited(items[n], scope) {
        OwnedBySnoc(Audit(items[..n], scope),
                    AuditEntry(items[n].id.value, items[n].owner.value, Gate(items[n], scope)), owner);
      }
    }
  }

  /** There is one notice for each client of which an item with an id was withheld,
      and it announces that client's. */
  lemma {:induction false} NoticesAreExact(
      items: seq<Item>, notices: seq<Notice>, owners: seq<Uuid>, entityType: string, scope: Scope, lookup: Lookup)
    requires AreNotices(notices, owners, Audit(items, scope), entityType, lookup)
    ensures |notices| == |owners|
    ensures forall i :: 0 <= i < |notices| ==> Announces(notices[i], owners[i], items, entityType, scope, lookup)
    ensures forall i, j :: 0 <= i < j < |owners| ==> owners[i] != owners[j]
    ensures forall owner :: owner in owners <==> |Filter(HiddenOf(scope, owner), items)| > 0
  {
    forall i | 0 <= i < |notices|
      ensures Announces(notices[i], owners[i], items, entityType, scope, lookup)
    {
      OwnedAreHidden(items, scope, owners[i]);
    }
    forall owner
      ensures owner in owners <==> |Filter(HiddenOf(scope, owner), items)| > 0
    {
      OwnedAreHidden(items, scope, owner);
      OwnedBySome(Audit(items, scope), owner);
    }
  }
}
