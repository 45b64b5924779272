/** The handoffs table, its audit log, and the SQL statements that change them
    (`src/repo/handoff_repo.rs`, `migrations/`). Each statement is atomic. */
module Handoffs {
  import opened Prelude
  import opened Slugs

  /** Microseconds, the resolution of a Postgres timestamp. */
  type Time = int

  datatype Status = Pending | Accepted | Completed | Merged
  datatype Category = Action | Notify
  datatype Priority = Low | Normal | High | Critical
  datatype Origin = FromAgent | FromMachine

  datatype Handoff = Handoff(
    id: Uuid,
    fromAgent: Text,
    toAgent: Option<Text>,
    status: Status,
    acceptedBy: Option<Text>,
    priority: Priority,
    category: Category,
    title: string,
    body: string,
    inReplyTo: Option<Uuid>,
    commitHash: Option<string>,
    mergeCommit: Option<string>,
    mergedAt: Option<Time>,
    origin: Origin,
    dedupeKey: Option<string>,
    repeatCount: nat,
    createdAt: Time,
    updatedAt: Time)

  /** What `delete_handoff` leaves in `audit_log`. */
  datatype Tombstone = Tombstone(
    entityId: Uuid,
    actor: Option<Text>,
    fromAgent: Text,
    toAgent: Option<Text>,
    title: string,
    status: Status)

  type Rows = map<Uuid, Handoff>

  datatype Db = Db(rows: Rows, audit: seq<Tombstone>)

  /** `repeat_count` is a Postgres INTEGER. */
  const MAX_REPEAT := 0x7FFF_FFFF

  predicate Open(h: Handoff) {
    h.status.Pending? || h.status.Accepted?
  }

  function NewRow(id: Uuid, fromAgent: Text, toAgent: Option<Text>, priority: Priority, category: Category,
                  title: string, body: string, inReplyTo: Option<Uuid>, origin: Origin,
                  dedupeKey: Option<string>, now: Time): Handoff {
    Handoff(id, fromAgent, toAgent, Pending, None, priority, category, title, body, inReplyTo,
            None, None, None, origin, dedupeKey, 0, now, now)
  }

  // ---------- conditional updates: the row written, if any ----------

  function AcceptUpdate(rows: Rows, id: Uuid, acceptedBy: Option<Text>, now: Time): Option<Handoff> {
    if id in rows && rows[id].status.Pending? then
      Some(rows[id].(status := Accepted,
                     acceptedBy := if acceptedBy.Some? then acceptedBy else rows[id].toAgent,
                     updatedAt := now))
    else None
  }

  function CompleteUpdate(rows: Rows, id: Uuid, commitHash: Option<string>, now: Time): Option<Handoff> {
    if id in rows && Open(rows[id]) then
      Some(rows[id].(status := Completed,
                     commitHash := if commitHash.Some? then commitHash else rows[id].commitHash,
                     updatedAt := now))
    else None
  }

  function MergeUpdate(rows: Rows, id: Uuid, mergeCommit: string, now: Time): Option<Handoff> {
    if id in rows && rows[id].status.Completed? then
      Some(rows[id].(status := Merged, mergeCommit := Some(mergeCommit), mergedAt := Some(now),
                     updatedAt := now))
    else None
  }

  /** Storing an embedding touches the row, and the update trigger stamps it. */
  function EmbeddingUpdate(rows: Rows, id: Uuid, now: Time): Option<Handoff> {
    if id in rows then Some(rows[id].(updatedAt := now)) else None
  }

  // ---------- inserts ----------

  datatype InsertOutcome =
    | Inserted(row: Handoff)
    | Bumped(row: Handoff)
    | ForeignKeyViolation
    | DuplicateId
    | RepeatOutOfRange

  function CreateOutcome(rows: Rows, row: Handoff): InsertOutcome {
    if row.id in rows then DuplicateId
    else if row.inReplyTo.Some? && row.inReplyTo.value !in rows then ForeignKeyViolation
    else Inserted(row)
  }

  /** The row is in the partial unique index under `(key, LOWER(to))`. */
  predicate HoldsKey(h: Handoff, key: string, to: Text) {
    Open(h) && h.dedupeKey == Some(key) && h.toAgent.Some? && EqFold(h.toAgent.value, to)
  }

  ghost predicate UniqueOpenKeys(rows: Rows) {
    forall a, b, key, to ::
      a in rows && b in rows && HoldsKey(rows[a], key, to) && HoldsKey(rows[b], key, to) ==> a == b
  }

  /** `other` is the open row that an insert of `row` would collide with. */
  predicate Collides(rows: Rows, row: Handoff, other: Uuid) {
    && row.dedupeKey.Some? && row.toAgent.Some?
    && other in rows && HoldsKey(rows[other], row.dedupeKey.value, row.toAgent.value)
  }

  /** INSERT ... ON CONFLICT (dedupe_key, LOWER(to_agent)) DO UPDATE. */
  ghost function UpsertOutcome(rows: Rows, row: Handoff, now: Time): InsertOutcome {
    if exists other :: Collides(rows, row, other) then
      var other :| Collides(rows, row, other);
      if rows[other].repeatCount >= MAX_REPEAT then RepeatOutOfRange
      else Bumped(rows[other].(repeatCount := rows[other].repeatCount + 1, updatedAt := now))
    else
      CreateOutcome(rows, row)
  }

  // ---------- what a statement does to the tables ----------

  datatype Change = Keep | Add(row: Handoff) | Rewrite(row: Handoff) | Drop(id: Uuid, actor: Option<Text>, now: Time)

  function Stored(row: Option<Handoff>): Change {
    if row.Some? then Rewrite(row.value) else Keep
  }

  function InsertChange(o: InsertOutcome): Change {
    match o
    case Inserted(row) => Add(row)
    case Bumped(row) => Rewrite(row)
    case _ => Keep
  }

  /** ON DELETE SET NULL on `in_reply_to`; the update trigger stamps the reply. */
  function Orphaned(h: Handoff, parent: Uuid, now: Time): Handoff {
    if h.inReplyTo == Some(parent) then h.(inReplyTo := None, updatedAt := now) else h
  }

  /** The table without a row: replies to it lose their link. */
  ghost function Unlinked(rows: Rows, id: Uuid, now: Time): (rest: Rows)
    ensures rest.Keys == rows.Keys - {id}
    ensures forall k :: k in rest ==> rest[k] == Orphaned(rows[k], id, now)
    decreases |rows|
  {
    if rows == map[] then map[]
    else
      var k :| k in rows;
      var rest := Unlinked(rows - {k}, id, now);
      if k == id then rest else rest[k := Orphaned(rows[k], id, now)]
  }

  function TombstoneOf(h: Handoff, actor: Option<Text>): Tombstone {
    Tombstone(h.id, actor, h.fromAgent, h.toAgent, h.title, h.status)
  }

  ghost function Apply(db: Db, c: Change): Db {
    match c
    case Keep => db
    case Add(row) => db.(rows := db.rows[row.id := row])
    case Rewrite(row) => db.(rows := db.rows[row.id := row])
    case Drop(id, actor, now) =>
      if id in db.rows then
        Db(Unlinked(db.rows, id, now), db.audit + [TombstoneOf(db.rows[id], actor)])
      else db
  }

  // ---------- the table as the repository functions see it ----------

  method Unlink(rows: Rows, id: Uuid, now: Time) returns (rest: Rows)
    ensures rest == Unlinked(rows, id, now)
  {
    rest := rows - {id};
    var todo := rest.Keys;
    while todo != {}
      invariant todo <= rest.Keys == rows.Keys - {id}
      invariant forall k :: k in rest ==> rest[k] == if k in todo then rows[k] else Orphaned(rows[k], id, now)
    {
      var k :| k in todo;
      rest := rest[k := Orphaned(rest[k], id, now)];
      todo := todo - {k};
    }
  }

  class HandoffTable {
    var rows: Rows
    var audit: seq<Tombstone>

    function Contents(): Db
      reads this
    {
      Db(rows, audit)
    }

    constructor ()
      ensures Contents() == Db(map[], [])
    {
      rows, audit := map[], [];
    }

    method GetHandoff(id: Uuid) returns (h: Option<Handoff>)
      ensures h.Some? <==> id in rows
      ensures h.Some? ==> h.value == rows[id]
    {
      h := if id in rows then Some(rows[id]) else None;
    }

    method Write(row: Handoff)
      requires row.id in rows
      modifies this
      ensures Contents() == Apply(old(Contents()), Rewrite(row))
    {
      rows := rows[row.id := row];
    }

    method AcceptHandoffAs(id: Uuid, acceptedBy: Option<Text>, now: Time) returns (h: Option<Handoff>)
      requires id in rows ==> rows[id].id == id
      modifies this
      ensures h == AcceptUpdate(old(rows), id, acceptedBy, now)
      ensures Contents() == Apply(old(Contents()), Stored(h))
    {
      h := None;
      if id in rows && rows[id].status.Pending? {
        var acceptor := if acceptedBy.Some? then acceptedBy else rows[id].toAgent;
        var row := rows[id].(status := Accepted, acceptedBy := acceptor, updatedAt := now);
        Write(row);
        h := Some(row);
      }
    }

    method CompleteHandoffWithCommit(id: Uuid, commitHash: Option<string>, now: Time) returns (h: Option<Handoff>)
      requires id in rows ==> rows[id].id == id
      modifies this
      ensures h == CompleteUpdate(old(rows), id, commitHash, now)
      ensures Contents() == Apply(old(Contents()), Stored(h))
    {
      h := None;
      if id in rows && (rows[id].status.Pending? || rows[id].status.Accepted?) {
        var commit := if commitHash.Some? then commitHash else rows[id].commitHash;
        var row := rows[id].(status := Completed, commitHash := commit, updatedAt := now);
        Write(row);
        h := Some(row);
      }
    }

    method MarkMerged(id: Uuid, mergeCommit: string, now: Time) returns (h: Option<Handoff>)
      requires id in rows ==> rows[id].id == id
      modifies this
      ensures h == MergeUpdate(old(rows), id, mergeCommit, now)
      ensures Contents() == Apply(old(Contents()), Stored(h))
    {
      h := None;
      if id in rows && rows[id].status.Completed? {
        var row := rows[id].(status := Merged, mergeCommit := Some(mergeCommit), mergedAt := Some(now),
                             updatedAt := now);
        Write(row);
        h := Some(row);
      }
    }

    method CreateHandoff(row: Handoff) returns (o: InsertOutcome)
      modifies this
      ensures o == CreateOutcome(old(rows), row)
      ensures Contents() == Apply(old(Contents()), InsertChange(o))
    {
      if row.id in rows {
        o := DuplicateId;
      } else if row.inReplyTo.Some? && row.inReplyTo.value !in rows {
        o := ForeignKeyViolation;
      } else {
        rows := rows[row.id := row];
        o := Inserted(row);
      }
    }

    /** The upsert. The unique index makes the colliding row the only one. */
    method CreateMachineHandoff(row: Handoff, now: Time) returns (o: InsertOutcome)
      requires UniqueOpenKeys(rows)
      requires forall id :: id in rows ==> rows[id].id == id
      modifies this
      ensures o == UpsertOutcome(old(rows), row, now)
      ensures Contents() == Apply(old(Contents()), InsertChange(o))
    {
      if other: Uuid :| other in rows && Collides(rows, row, other) {
        var bumped := rows[other];
        if bumped.repeatCount >= MAX_REPEAT {
          o := RepeatOutOfRange;
        } else {
          bumped := bumped.(repeatCount := bumped.repeatCount + 1, updatedAt := now);
          Write(bumped);
          o := Bumped(bumped);
        }
      } else {
        o := CreateHandoff(row);
      }
    }

    method DeleteHandoff(id: Uuid, actor: Option<Text>, now: Time) returns (deleted: bool)
      modifies this
      ensures deleted <==> id in old(rows)
      ensures Contents() == Apply(old(Contents()), if deleted then Drop(id, actor, now) else Keep)
    {
      deleted := id in rows;
      if deleted {
        audit := audit + [TombstoneOf(rows[id], actor)];
        rows := Unlink(rows, id, now);
      }
    }

    method StoreEmbedding(id: Uuid, now: Time)
      requires id in rows ==> rows[id].id == id
      modifies this
      ensures Contents() == Apply(old(Contents()), Stored(EmbeddingUpdate(old(rows), id, now)))
    {
      if id in rows {
        Write(rows[id].(updatedAt := now));
      }
    }
  }
}
