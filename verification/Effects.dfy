/** What each operation does to the table, told field by field: in every run each
    difference between the tables before and after a step is one of these, made by
    the step that is entitled to it. */
module Effects {
  import opened Prelude
  import opened Slugs
  import opened Sql
  import opened Callers
  import opened Handoffs
  import opened Coordination
  import opened Ingestion
  import opened Queues
  import opened Bus
  import opened Protocol
  import opened Authority
  import opened Dedupe

  // ---------- one row, before and after ----------

  /** The call may see the row it names. */
  predicate NamesVisible(c: Call, row: Handoff) {
    Target(c.request) == Some(row.id) && CanSee(Party(c.caller), row.fromAgent, row.toAgent)
  }

  /** A pending row gets an acceptor its caller was entitled to record. */
  predicate Accepts(c: Call, now: Time, was: Handoff, row: Handoff) {
    && c.request.Accept? && NamesVisible(c, was) && was.status.Pending?
    && row.acceptedBy.Some? && ValidSlug(row.acceptedBy.value)
    && RecordsAcceptor(c.caller, c.request.agentName, was.toAgent, row.acceptedBy.value)
    && row == was.(status := Accepted, acceptedBy := row.acceptedBy, updatedAt := now)
  }

  /** An open row is completed with the commit given, if any. */
  predicate Completes(c: Call, now: Time, was: Handoff, row: Handoff) {
    && c.request.Complete? && NamesVisible(c, was) && (was.status.Pending? || was.status.Accepted?)
    && row == was.(status := Completed, commitHash := c.request.commitHash, updatedAt := now)
  }

  /** A completed row with a commit to its name is merged. */
  predicate Merges(c: Call, now: Time, was: Handoff, row: Handoff) {
    && c.request.Merge? && NamesVisible(c, was) && was.status.Completed?
    && was.commitHash.Some? && !Blank(was.commitHash.value) && !Blank(c.request.mergeCommit)
    && row == was.(status := Merged, mergeCommit := Some(Trim(c.request.mergeCommit)), mergedAt := Some(now),
                   updatedAt := now)
  }

  predicate Deletes(c: Call, was: Handoff) {
    c.request.Delete? && NamesVisible(c, was)
  }

  /** The same key filed again for the same recipient while the row is open. */
  predicate Bumps(f: Filing, now: Time, was: Handoff, row: Handoff) {
    && was.dedupeKey.Some? && was.toAgent.Some? && AsksFor(f, was.dedupeKey.value, was.toAgent.value)
    && (was.status.Pending? || was.status.Accepted?)
    && row == was.(repeatCount := was.repeatCount + 1, updatedAt := now)
  }

  /** The parent was deleted by this step. */
  predicate Unlinks(rows: Rows, c: Call, now: Time, was: Handoff, row: Handoff) {
    && was.inReplyTo.Some? && was.inReplyTo.value in rows && Deletes(c, rows[was.inReplyTo.value])
    && row == was.(inReplyTo := None, updatedAt := now)
  }

  /** The row changed, and how. */
  ghost predicate ChangedBy(s: State, a: Action, was: Handoff, row: Handoff) {
    match a
    case File(_, f, now, _) => Bumps(f, now, was, row)
    case Embed(id, now) => id == was.id && row == was.(updatedAt := now)
    case Run(cid, now, _) => cid in s.calls && ChangedByCall(s.db.rows, s.calls[cid], now, was, row)
    case Lose(cid, now, _) => cid in s.calls && ChangedByCall(s.db.rows, s.calls[cid], now, was, row)
    case _ => false
  }

  predicate ChangedByCall(rows: Rows, c: Call, now: Time, was: Handoff, row: Handoff) {
    Accepts(c, now, was, row) || Completes(c, now, was, row) || Merges(c, now, was, row) || Unlinks(rows, c, now, was, row)
  }

  // ---------- each statement ----------

  lemma {:induction false} AcceptEffect(rows: Rows, c: Call, now: Time)
    requires RowsOk(rows) && CallOk(rows, c) && c.request.Accept? && !c.at.Seeing?
    ensures var change := AcceptStep(rows, c.caller, c.request, c.at, now).change;
            change.Keep? || (change.Rewrite? && change.row.id in rows && Accepts(c, now, rows[change.row.id], change.row))
  {
    if c.at.Writing? && c.request.id in rows {
      AcceptPlanRecords(c.caller, c.request.agentName, rows[c.request.id].toAgent);
    }
  }

  lemma {:induction false} CompleteEffect(rows: Rows, c: Call, now: Time)
    requires RowsOk(rows) && CallOk(rows, c) && c.request.Complete? && !c.at.Seeing?
    ensures var change := CompleteStep(rows, c.request, c.at, now).change;
            change.Keep? || (change.Rewrite? && change.row.id in rows && Completes(c, now, rows[change.row.id], change.row))
  {
  }

  lemma {:induction false} MergeEffect(rows: Rows, c: Call, now: Time)
    requires RowsOk(rows) && CallOk(rows, c) && c.request.Merge? && !c.at.Seeing?
    ensures var change := MergeStep(rows, c.request, c.at, now).change;
            change.Keep? || (change.Rewrite? && change.row.id in rows && Merges(c, now, rows[change.row.id], change.row))
  {
  }

  lemma {:induction false} RewriteEffect(rows: Rows, c: Call, now: Time, newId: Uuid)
    requires RowsOk(rows) && CallOk(rows, c)
    requires Statement(rows, c.caller, c.request, c.at, now, newId).change.Rewrite?
    ensures var row := Statement(rows, c.caller, c.request, c.at, now, newId).change.row;
            row.id in rows && ChangedByCall(rows, c, now, rows[row.id], row)
  {
    match c.request {
      case Accept(_, _) => AcceptEffect(rows, c, now);
      case Complete(_, _) => CompleteEffect(rows, c, now);
      case Merge(_, _) => MergeEffect(rows, c, now);
      case _ =>
    }
  }

  lemma {:induction false} DropEffect(rows: Rows, c: Call, now: Time, newId: Uuid)
    requires RowsOk(rows) && CallOk(rows, c)
    requires Statement(rows, c.caller, c.request, c.at, now, newId).change.Drop?
    ensures var d := Statement(rows, c.caller, c.request, c.at, now, newId).change;
            d.id in rows && Deletes(c, rows[d.id]) && d.now == now
  {
  }

  lemma {:induction false} FilingEffect(rows: Rows, filer: Filer, f: Filing, now: Time, newId: Uuid)
    requires RowsOk(rows) && FilingRow(filer, f, now, newId).Ok?
    ensures var c := InsertChange(UpsertOutcome(rows, FilingRow(filer, f, now, newId).value, now));
            && !c.Drop?
            && (c.Rewrite? ==> c.row.id in rows && Bumps(f, now, rows[c.row.id], c.row))
  {
    var row := FilingRow(filer, f, now, newId).value;
    FilingsAreBound(filer, f, now, newId);
    if other :| Collides(rows, row, other) {
      HolderIsBumped(rows, row, now, other);
    } else {
      NoHolderKeepsRows(rows, row, now);
    }
  }

  lemma {:induction false} NoHolderKeepsRows(rows: Rows, row: Handoff, now: Time)
    requires forall other :: !Collides(rows, row, other)
    ensures !InsertChange(UpsertOutcome(rows, row, now)).Rewrite? && !InsertChange(UpsertOutcome(rows, row, now)).Drop?
  {
  }

  // ---------- each step ----------

  lemma {:induction false} CallEffect(s: State, cid: nat, now: Time, newId: Uuid, c: Change, id: Uuid)
    requires RowsOk(s.db.rows) && cid in s.calls && CallOk(s.db.rows, s.calls[cid])
    requires c == Statement(s.db.rows, s.calls[cid].caller, s.calls[cid].request, s.calls[cid].at, now, newId).change
    requires id in s.db.rows && (c.Add? ==> c.row.id != id)
    ensures var rows' := Apply(s.db, c).rows;
            if id in rows' then
              rows'[id] == s.db.rows[id] || ChangedByCall(s.db.rows, s.calls[cid], now, s.db.rows[id], rows'[id])
            else
              Deletes(s.calls[cid], s.db.rows[id])
  {
    if c.Rewrite? {
      RewriteEffect(s.db.rows, s.calls[cid], now, newId);
    } else if c.Drop? {
      DropEffect(s.db.rows, s.calls[cid], now, newId);
    }
  }

  lemma {:induction false} UpsertEffect(db: Db, filer: Filer, f: Filing, now: Time, newId: Uuid, id: Uuid)
    requires RowsOk(db.rows) && FilingRow(filer, f, now, newId).Ok? && id in db.rows && newId !in db.rows
    ensures var rows' := Apply(db, InsertChange(UpsertOutcome(db.rows, FilingRow(filer, f, now, newId).value, now))).rows;
            id in rows' && (rows'[id] == db.rows[id] || Bumps(f, now, db.rows[id], rows'[id]))
  {
    FilingEffect(db.rows, filer, f, now, newId);
    AddedIsNew(db.rows, filer, f, now, newId);
  }

  lemma {:induction false} AddedIsNew(rows: Rows, filer: Filer, f: Filing, now: Time, newId: Uuid)
    requires FilingRow(filer, f, now, newId).Ok? && newId !in rows
    ensures var c := InsertChange(UpsertOutcome(rows, FilingRow(filer, f, now, newId).value, now));
            c.Add? ==> c.row.id == newId
  {
  }

  /** The entry an audit keeps of a deleted row. */
  function Obituary(was: Handoff, caller: Caller): Tombstone {
    Tombstone(was.id, if caller.Bound? then Some(caller.binding) else None, was.fromAgent, was.toAgent, was.title, was.status)
  }

  /** This step deleted the row, for a caller that may see it, and put it on record
      under the caller's name. */
  ghost predicate RemovedBy(s: State, a: Action, was: Handoff) {
    exists cid ::
      && RunsCall(a, cid) && cid in s.calls && Deletes(s.calls[cid], was)
      && Next(s, a).db.audit == s.db.audit + [Obituary(was, s.calls[cid].caller)]
  }

  lemma {:induction false} DropIsOnRecord(db: Db, c: Call, now: Time, newId: Uuid, id: Uuid)
    requires RowsOk(db.rows) && CallOk(db.rows, c) && id in db.rows
    requires var d := Statement(db.rows, c.caller, c.request, c.at, now, newId).change; d.Drop? && d.id == id
    ensures var d := Statement(db.rows, c.caller, c.request, c.at, now, newId).change;
            Apply(db, d).audit == db.audit + [Obituary(db.rows[id], c.caller)]
  {
  }

  lemma {:induction false} AuditOnlyRecordsDrops(db: Db, c: Change)
    ensures !c.Drop? ==> Apply(db, c).audit == db.audit
    ensures c.Drop? && c.id in db.rows ==> c.id !in Apply(db, c).rows
  {
  }

  lemma {:induction false} RemovalEffect(s: State, a: Action, cid: nat, id: Uuid)
    requires Inv(s) && Enabled(s, a) && RunsCall(a, cid) && cid in s.calls
    requires id in s.db.rows && id !in Next(s, a).db.rows
    ensures RemovedBy(s, a, s.db.rows[id])
  {
    NextCommits(s, a);
    assert ChangeOf(s, a).Drop? && ChangeOf(s, a).id == id;
    DropEffect(s.db.rows, s.calls[cid], a.now, a.newId);
    DropIsOnRecord(s.db, s.calls[cid], a.now, a.newId, id);
  }

  lemma {:induction false} StepEffect(s: State, a: Action, id: Uuid)
    requires Inv(s) && Enabled(s, a) && id in s.db.rows
    ensures var rows' := Next(s, a).db.rows;
            if id in rows' then rows'[id] == s.db.rows[id] || ChangedBy(s, a, s.db.rows[id], rows'[id])
            else RemovedBy(s, a, s.db.rows[id])
  {
    NextCommits(s, a);
    ChangeIsLegal(s, a);
    match a {
      case Run(cid, now, newId) =>
        CallEffect(s, cid, now, newId, ChangeOf(s, a), id);
        if id !in Next(s, a).db.rows { RemovalEffect(s, a, cid, id); }
      case Lose(cid, now, newId) =>
        CallEffect(s, cid, now, newId, ChangeOf(s, a), id);
        if id !in Next(s, a).db.rows { RemovalEffect(s, a, cid, id); }
      case File(filer, f, now, newId) => UpsertEffect(s.db, filer, f, now, newId, id);
      case _ =>
    }
  }

  // ---------- theorems ----------

  /** Nothing happens to a handoff unaccounted for. In every run a step leaves a
      row as it is, or accepts, completes, merges, unlinks, bumps or re-embeds it,
      changing the fields that operation sets and no other, or deletes it; and a
      row that appears is the one its author asked for. */
  lemma {:induction false} EveryChangeIsAccountedFor(run: seq<Action>, a: Action, id: Uuid)
    ensures var s := Exec(INITIAL, run);
            var rows, rows' := s.db.rows, Next(s, a).db.rows;
            && (id in rows && id in rows' && rows'[id] != rows[id] ==> ChangedBy(s, a, rows[id], rows'[id]))
            && (id in rows && id !in rows' ==> RemovedBy(s, a, rows[id]))
            && (id !in rows && id in rows' ==> CreatedBy(s, a, rows'[id]))
  {
    var s := Exec(INITIAL, run);
    RunsKeepInv(INITIAL, run);
    if id in s.db.rows {
      if Enabled(s, a) {
        StepEffect(s, a, id);
      }
    } else if id in Next(s, a).db.rows {
      SendersAreAuthentic(run, a, id);
    }
  }

  /** The audit records deletions and nothing else: a step that leaves every row in
      the table leaves the audit as it was. */
  lemma {:induction false} AuditRecordsDeletionsOnly(run: seq<Action>, a: Action)
    requires var s := Exec(INITIAL, run); s.db.rows.Keys <= Next(s, a).db.rows.Keys
    ensures var s := Exec(INITIAL, run); Next(s, a).db.audit == s.db.audit
  {
    var s := Exec(INITIAL, run);
    RunsKeepInv(INITIAL, run);
    if Enabled(s, a) {
      NextCommits(s, a);
      ChangeIsLegal(s, a);
      AuditOnlyRecordsDrops(s.db, ChangeOf(s, a));
    }
  }

  /** When the step runs. */
  function TimeOf(a: Action): Option<Time> {
    match a
    case Run(_, now, _) => Some(now)
    case Lose(_, now, _) => Some(now)
    case File(_, _, now, _) => Some(now)
    case Embed(_, now) => Some(now)
    case _ => None
  }

  lemma {:induction false} ChangeIsStamped(s: State, a: Action, was: Handoff, row: Handoff)
    requires ChangedBy(s, a, was, row)
    ensures TimeOf(a) == Some(row.updatedAt)
  {
  }

  lemma {:induction false} CreationIsStamped(s: State, a: Action, row: Handoff)
    requires CreatedBy(s, a, row)
    ensures TimeOf(a) == Some(row.updatedAt)
  {
  }

  /** Whatever changes or adds a row stamps it, so a poll whose cursor is older
      than the step shows it to every agent it waits for: a firing monitor that
      bumps its row wakes its recipient again. */
  lemma {:induction false} ChangedRowsResurface(run: seq<Action>, a: Action, id: Uuid, agent: Text, since: Time)
    requires var s := Exec(INITIAL, run);
             && id in Next(s, a).db.rows && InWakeQueue(Next(s, a).db.rows[id], agent)
             && (id in s.db.rows ==> Next(s, a).db.rows[id] != s.db.rows[id])
    ensures var h := Next(Exec(INITIAL, run), a).db.rows[id];
            && TimeOf(a) == Some(h.updatedAt)
            && (since < h.updatedAt <==> WakeWhere(h, agent, Some(since)) == Yes)
  {
    var s := Exec(INITIAL, run);
    EveryChangeIsAccountedFor(run, a, id);
    if id in s.db.rows {
      ChangeIsStamped(s, a, s.db.rows[id], Next(s, a).db.rows[id]);
    } else {
      CreationIsStamped(s, a, Next(s, a).db.rows[id]);
    }
    CursorNarrowsWakeQueue(Next(s, a).db.rows[id], agent, since);
  }

  /** Storing an embedding stamps its row and changes nothing else. */
  lemma {:induction false} EmbeddingStampsRow(run: seq<Action>, id: Uuid, now: Time)
    ensures var s := Exec(INITIAL, run);
            var s' := Next(s, Embed(id, now));
            && s'.db == (if id in s.db.rows then s.db.(rows := s.db.rows[id := s.db.rows[id].(updatedAt := now)]) else s.db)
            && s'.calls == s.calls && s'.past.log == s.past.log
  {
    RunsKeepInv(INITIAL, run);
    NextCommits(Exec(INITIAL, run), Embed(id, now));
  }
}
