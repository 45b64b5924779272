/** Threads and tombstones: what deletion leaves behind, in every run. */
module Archive {
  import opened Prelude
  import opened Slugs
  import opened Callers
  import opened Handoffs
  import opened Bus
  import opened Protocol

  // ---------- invariants ----------

  ghost predicate AuditOk(db: Db, ever: Rows) {
    && TombstonesTrue(db.audit, db.rows, ever)
    && (forall i, j :: 0 <= i < j < |db.audit| ==> db.audit[i].entityId != db.audit[j].entityId)
    && (forall id :: id in ever && id !in db.rows ==> Buried(db.audit, id))
    && (forall id :: id in ever ==> ever[id].id == id)
  }

  ghost predicate TombstonesTrue(audit: seq<Tombstone>, rows: Rows, ever: Rows) {
    forall i :: 0 <= i < |audit| ==>
      var t := audit[i];
      t.entityId in ever && t.entityId !in rows && t == TombstoneOf(ever[t.entityId], t.actor)
  }

  ghost predicate Buried(audit: seq<Tombstone>, id: Uuid) {
    exists i :: 0 <= i < |audit| && audit[i].entityId == id
  }

  /** Creation numbers are below the number of rows ever created. */
  ghost predicate BornOk(past: History) {
    forall id :: id in past.born ==> past.born[id] < |past.born|
  }

  /** A reply's parent is in the table and was created before it. */
  ghost predicate ThreadsOk(rows: Rows, born: map<Uuid, nat>) {
    forall id :: id in rows && rows[id].inReplyTo.Some? ==>
      var parent := rows[id].inReplyTo.value;
      parent in rows && parent in born && id in born && born[parent] < born[id]
  }

  ghost predicate Attributed(audit: seq<Tombstone>, id: Uuid, actor: Option<Text>) {
    exists k :: 0 <= k < |audit| && audit[k].entityId == id && audit[k].actor == actor
  }

  /** A successful delete left a tombstone naming its caller. */
  ghost predicate DeletesOk(log: seq<Event>, audit: seq<Tombstone>) {
    forall i :: 0 <= i < |log| && DeleteWin(log[i]) ==>
      Attributed(audit, log[i].request.id, BoundAgent(log[i].caller))
  }

  predicate DeleteWin(e: Event) {
    e.Answered? && e.request.Delete? && e.reply.Deleted?
  }

  ghost predicate ArchiveOk(s: State) {
    AuditOk(s.db, s.past.ever) && BornOk(s.past) && ThreadsOk(s.db.rows, s.past.born) && DeletesOk(s.past.log, s.db.audit)
  }

  // ---------- preservation ----------

  lemma {:induction false} BuriedStays(audit: seq<Tombstone>, audit': seq<Tombstone>, id: Uuid)
    requires Buried(audit, id) && audit <= audit'
    ensures Buried(audit', id)
  {
    var i :| 0 <= i < |audit| && audit[i].entityId == id;
    assert audit'[i] == audit[i];
  }

  lemma {:induction false} TombstoneAdded(audit: seq<Tombstone>, rows: Rows, ever: Rows, rows': Rows, id: Uuid, actor: Option<Text>)
    requires TombstonesTrue(audit, rows, ever) && id in rows && id in ever && ever[id].id == id
    requires rows'.Keys == rows.Keys - {id}
    ensures TombstonesTrue(audit + [TombstoneOf(ever[id], actor)], rows', ever + rows')
  {
  }

  /** One more tombstone, for the one row that left. */
  lemma {:induction false} AuditAfterDrop(db: Db, ever: Rows, rows': Rows, id: Uuid, actor: Option<Text>)
    requires AuditOk(db, ever) && id in db.rows
    requires forall k :: k in db.rows ==> k in ever && ever[k] == db.rows[k]
    requires rows'.Keys == db.rows.Keys - {id} && forall k :: k in rows' ==> rows'[k].id == db.rows[k].id
    ensures AuditOk(Db(rows', db.audit + [TombstoneOf(ever[id], actor)]), ever + rows')
  {
    var audit' := db.audit + [TombstoneOf(ever[id], actor)];
    TombstoneAdded(db.audit, db.rows, ever, rows', id, actor);
    forall i | 0 <= i < |db.audit|
      ensures db.audit[i].entityId != id
    {
      assert db.audit[i].entityId !in db.rows;
    }
    forall k | k in ever + rows' && k !in rows'
      ensures Buried(audit', k)
    {
      if k == id {
        assert audit'[|db.audit|].entityId == id;
      } else {
        BuriedStays(db.audit, audit', k);
      }
    }
  }

  lemma {:induction false} ApplyKeepsAudit(db: Db, ever: Rows, c: Change)
    requires AuditOk(db, ever)
    requires forall id :: id in db.rows ==> id in ever && ever[id] == db.rows[id]
    requires c.Add? ==> c.row.id !in ever
    requires c.Rewrite? ==> c.row.id in db.rows
    requires c.Drop? ==> c.id in db.rows
    ensures AuditOk(Apply(db, c), ever + Apply(db, c).rows)
  {
    if c.Drop? {
      AuditAfterDrop(db, ever, Apply(db, c).rows, c.id, c.actor);
    }
  }

  lemma {:induction false} NumbersStayBelow(past: History, past': History, c: Change)
    requires BornOk(past) && (c.Add? ==> c.row.id !in past.born)
    requires past'.born == if c.Add? then past.born[c.row.id := |past.born|] else past.born
    ensures BornOk(past')
  {
  }

  lemma {:induction false} ApplyKeepsThreads(rows: Rows, audit: seq<Tombstone>, born: map<Uuid, nat>, c: Change)
    requires ThreadsOk(rows, born)
    requires forall id :: id in born ==> born[id] < |born|
    requires forall id :: id in rows ==> id in born
    requires c.Add? ==> c.row.id !in born && (c.row.inReplyTo.Some? ==> c.row.inReplyTo.value in rows)
    requires c.Rewrite? ==> c.row.id in rows && c.row.inReplyTo == rows[c.row.id].inReplyTo
    ensures ThreadsOk(Apply(Db(rows, audit), c).rows, if c.Add? then born[c.row.id := |born|] else born)
  {
  }

  /** Only a delete's own write replies that it deleted. */
  lemma {:induction false} DeleteWinDrops(s: State, a: Action)
    requires Enabled(s, a) && |NewsOf(s, a)| == 1 && DeleteWin(NewsOf(s, a)[0])
    ensures var c := ChangeOf(s, a);
            c.Drop? && c.id == NewsOf(s, a)[0].request.id && c.actor == BoundAgent(NewsOf(s, a)[0].caller) && c.id in s.db.rows
  {
    match a {
      case Run(cid, now, newId) =>
        var c := s.calls[cid];
        assert c.request.Delete?;
      case _ =>
    }
  }

  lemma {:induction false} NextKeepsDeletes(s: State, a: Action)
    requires RowsOk(s.db.rows) && DeletesOk(s.past.log, s.db.audit) && Enabled(s, a)
    ensures DeletesOk(Next(s, a).past.log, Next(s, a).db.audit)
  {
    var s' := Next(s, a);
    NextCommits(s, a);
    forall i | 0 <= i < |s'.past.log| && DeleteWin(s'.past.log[i])
      ensures Attributed(s'.db.audit, s'.past.log[i].request.id, BoundAgent(s'.past.log[i].caller))
    {
      if i < |s.past.log| {
        AuditGrows(s.db, ChangeOf(s, a), s.past.log[i].request.id, BoundAgent(s.past.log[i].caller));
      } else {
        assert s'.past.log[i] == NewsOf(s, a)[0];
        DeleteWinDrops(s, a);
        TombstoneIsLast(s.db, ChangeOf(s, a));
      }
    }
  }

  lemma {:induction false} AuditGrows(db: Db, c: Change, id: Uuid, actor: Option<Text>)
    requires Attributed(db.audit, id, actor)
    ensures Attributed(Apply(db, c).audit, id, actor)
  {
    var k :| 0 <= k < |db.audit| && db.audit[k].entityId == id && db.audit[k].actor == actor;
    assert Apply(db, c).audit[k] == db.audit[k];
  }

  lemma {:induction false} TombstoneIsLast(db: Db, c: Change)
    requires c.Drop? && c.id in db.rows && db.rows[c.id].id == c.id
    ensures Attributed(Apply(db, c).audit, c.id, c.actor)
  {
    assert Apply(db, c).audit[|db.audit|] == TombstoneOf(db.rows[c.id], c.actor);
  }

  lemma {:induction false} NextKeepsArchive(s: State, a: Action)
    requires Inv(s) && ArchiveOk(s) && Enabled(s, a)
    ensures ArchiveOk(Next(s, a))
  {
    ChangeIsLegal(s, a);
    NextCommits(s, a);
    var c, news := ChangeOf(s, a), NewsOf(s, a);
    assert Next(s, a).past.ever == s.past.ever + Apply(s.db, c).rows;
    ApplyKeepsAudit(s.db, s.past.ever, c);
    ApplyKeepsThreads(s.db.rows, s.db.audit, s.past.born, c);
    NumbersStayBelow(s.past, Next(s, a).past, c);
    NextKeepsDeletes(s, a);
  }

  lemma {:induction false} RunsKeepArchive(run: seq<Action>)
    ensures ArchiveOk(Exec(INITIAL, run))
    decreases |run|
  {
    if run != [] {
      var s, a := Exec(INITIAL, run[..|run| - 1]), run[|run| - 1];
      RunsKeepArchive(run[..|run| - 1]);
      RunsKeepInv(INITIAL, run[..|run| - 1]);
      if Enabled(s, a) {
        NextKeepsArchive(s, a);
      }
    }
  }

  // ---------- theorems ----------

  /** Every id ever created is either in the table or has exactly one tombstone,
      which holds its sender, recipient and title and the status it died in. */
  lemma {:induction false} PresentOrBuriedOnce(run: seq<Action>, id: Uuid)
    requires id in Exec(INITIAL, run).past.ever
    ensures var s := Exec(INITIAL, run);
            var h := s.past.ever[id];
            if id in s.db.rows then !Buried(s.db.audit, id)
            else exists i :: && 0 <= i < |s.db.audit|
                             && s.db.audit[i] == Tombstone(id, s.db.audit[i].actor, h.fromAgent, h.toAgent, h.title, h.status)
                             && forall j :: 0 <= j < |s.db.audit| && s.db.audit[j].entityId == id ==> j == i
  {
    RunsKeepArchive(run);
    var s := Exec(INITIAL, run);
    if id !in s.db.rows {
      var i :| 0 <= i < |s.db.audit| && s.db.audit[i].entityId == id;
      assert s.db.audit[i] == TombstoneOf(s.past.ever[id], s.db.audit[i].actor);
    }
  }

  /** A delete that reports success is on record under the caller's identity. */
  lemma {:induction false} DeletesAreAttributed(run: seq<Action>, i: nat)
    requires i < |Exec(INITIAL, run).past.log| && DeleteWin(Exec(INITIAL, run).past.log[i])
    ensures var s := Exec(INITIAL, run);
            && s.past.log[i].request.id !in s.db.rows
            && Attributed(s.db.audit, s.past.log[i].request.id, BoundAgent(s.past.log[i].caller))
  {
    RunsKeepArchive(run);
  }

  /** `path` follows `in_reply_to` links upwards. */
  predicate IsThread(rows: Rows, path: seq<Uuid>) {
    && (forall i :: 0 <= i < |path| ==> path[i] in rows)
    && (forall i :: 0 <= i < |path| - 1 ==> rows[path[i]].inReplyTo == Some(path[i + 1]))
  }

  lemma {:induction false} ThreadDescends(s: State, path: seq<Uuid>, i: nat, j: nat)
    requires HistoryOk(s) && ThreadsOk(s.db.rows, s.past.born) && IsThread(s.db.rows, path) && i < j < |path|
    ensures path[i] in s.past.born && path[j] in s.past.born && s.past.born[path[j]] < s.past.born[path[i]]
    decreases j - i
  {
    assert s.db.rows[path[j - 1]].inReplyTo == Some(path[j]);
    if i < j - 1 {
      ThreadDescends(s, path, i, j - 1);
    }
  }

  /** Threads form a forest: links stay inside the table and never cycle. */
  lemma {:induction false} ThreadsFormForest(run: seq<Action>, path: seq<Uuid>, i: nat, j: nat)
    requires IsThread(Exec(INITIAL, run).db.rows, path) && i < j < |path|
    ensures path[i] != path[j]
  {
    RunsKeepArchive(run);
    RunsKeepInv(INITIAL, run);
    ThreadDescends(Exec(INITIAL, run), path, i, j);
  }

  /** The message that started a thread, found by walking up its links. */
  ghost function RootOf(s: State, id: Uuid): (root: Uuid)
    requires ThreadsOk(s.db.rows, s.past.born) && HistoryOk(s) && id in s.db.rows
    ensures root in s.db.rows && s.db.rows[root].inReplyTo.None?
    decreases s.past.born[id]
  {
    if s.db.rows[id].inReplyTo.None? then id else RootOf(s, s.db.rows[id].inReplyTo.value)
  }
}
