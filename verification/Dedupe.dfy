/** Deduplicated filings: nothing filed is lost, however rows are bumped,
    completed and deleted (`create_machine_handoff`, `POST /api/handoff`). */
module Dedupe {
  import opened Prelude
  import opened Slugs
  import opened Handoffs
  import opened Coordination
  import opened Ingestion
  import opened Bus
  import opened Protocol
  import opened Authority

  /** The row was filed under this key for this recipient, open or not. */
  predicate FiledUnder(h: Handoff, key: string, to: Text) {
    h.dedupeKey == Some(key) && h.toAgent.Some? && EqFold(h.toAgent.value, to)
  }

  /** Filings a row stands for: the one that created it and its repeats. */
  function Weight(h: Handoff, key: string, to: Text): nat {
    if FiledUnder(h, key, to) then 1 + h.repeatCount else 0
  }

  ghost function Total(rows: Rows, key: string, to: Text): nat
    decreases |rows|
  {
    if rows == map[] then 0
    else
      var id :| id in rows;
      Weight(rows[id], key, to) + Total(rows - {id}, key, to)
  }

  /** The filing asks for this key and recipient, up to padding and case. */
  predicate AsksFor(f: Filing, key: string, to: Text) {
    && f.dedupeKey == Some(key) && f.toAgent.Some?
    && var given := Trim(f.toAgent.value); IsAscii(given) && EqFold(given, to)
  }

  predicate Counts(e: Event, key: string, to: Text) {
    e.Ingested? && e.receipt.Filed? && AsksFor(e.filing, key, to)
  }

  /** Filings for this key and recipient that reached the table. */
  function Filings(log: seq<Event>, key: string, to: Text): nat {
    if log == [] then 0
    else Filings(log[..|log| - 1], key, to) + (if Counts(log[|log| - 1], key, to) then 1 else 0)
  }

  // ---------- sums over rows ----------

  lemma {:induction false} TotalWithout(rows: Rows, id: Uuid, key: string, to: Text)
    requires id in rows
    ensures Total(rows, key, to) == Weight(rows[id], key, to) + Total(rows - {id}, key, to)
    decreases |rows|
  {
    var first :| first in rows && Total(rows, key, to) == Weight(rows[first], key, to) + Total(rows - {first}, key, to);
    if first != id {
      TotalWithout(rows - {first}, id, key, to);
      TotalWithout(rows - {id}, first, key, to);
      assert rows - {first} - {id} == rows - {id} - {first};
    }
  }

  lemma {:induction false} TotalPut(rows: Rows, row: Handoff, key: string, to: Text)
    ensures Total(rows[row.id := row], key, to) ==
            Total(rows, key, to) + Weight(row, key, to) - (if row.id in rows then Weight(rows[row.id], key, to) else 0)
  {
    var rows' := rows[row.id := row];
    TotalWithout(rows', row.id, key, to);
    if row.id in rows {
      TotalWithout(rows, row.id, key, to);
      assert rows' - {row.id} == rows - {row.id};
    } else {
      assert rows' - {row.id} == rows;
    }
  }

  lemma {:induction false} TotalSame(a: Rows, b: Rows, key: string, to: Text)
    requires a.Keys == b.Keys
    requires forall id :: id in a ==> Weight(a[id], key, to) == Weight(b[id], key, to)
    ensures Total(a, key, to) == Total(b, key, to)
    decreases |a|
  {
    if id :| id in a {
      TotalWithout(a, id, key, to);
      TotalWithout(b, id, key, to);
      TotalSame(a - {id}, b - {id}, key, to);
    } else {
      assert a == map[] && b == map[];
    }
  }

  // ---------- conservation ----------

  /** What a change adds to the filings on record for a key and recipient. */
  function Gain(rows: Rows, c: Change, key: string, to: Text): int {
    match c
    case Add(row) => Weight(row, key, to)
    case Rewrite(row) => if row.id in rows then Weight(row, key, to) - Weight(rows[row.id], key, to) else 0
    case _ => 0
  }

  lemma {:induction false} ChangeGains(db: Db, ever: Rows, c: Change, key: string, to: Text)
    requires forall id :: id in db.rows ==> id in ever && ever[id] == db.rows[id]
    requires c.Add? ==> c.row.id !in ever
    requires c.Rewrite? ==> c.row.id in db.rows
    ensures Total(ever + Apply(db, c).rows, key, to) == Total(ever, key, to) + Gain(db.rows, c, key, to)
  {
    var ever' := ever + Apply(db, c).rows;
    match c {
      case Keep => assert ever' == ever;
      case Add(row) =>
        assert ever' == ever[row.id := row];
        TotalPut(ever, row, key, to);
      case Rewrite(row) =>
        assert ever' == ever[row.id := row];
        TotalPut(ever, row, key, to);
      case Drop(_, _, _) => TotalSame(ever, ever', key, to);
    }
  }

  /** The handlers never touch a filing's counter or file under a key. */
  lemma {:induction false} OnlyFilingsGain(s: State, a: Action, key: string, to: Text)
    requires Enabled(s, a) && !a.File? && RowsOk(s.db.rows)
    ensures Gain(s.db.rows, ChangeOf(s, a), key, to) == 0
  {
    match a {
      case Run(cid, now, newId) => StatementGainsNothing(s, cid, now, newId, key, to);
      case Lose(cid, now, newId) => StatementGainsNothing(s, cid, now, newId, key, to);
      case _ =>
    }
  }

  lemma {:induction false} StatementGainsNothing(s: State, cid: nat, now: Time, newId: Uuid, key: string, to: Text)
    requires Runnable(s, cid, newId) && RowsOk(s.db.rows)
    ensures var c := s.calls[cid];
            Gain(s.db.rows, Statement(s.db.rows, c.caller, c.request, c.at, now, newId).change, key, to) == 0
  {
  }

  lemma {:induction false} FilingGains(rows: Rows, f: Filing, row: Handoff, now: Time, key: string, to: Text)
    requires RowsOk(rows) && row.repeatCount == 0 && row.toAgent.Some?
    requires AsksFor(f, key, to) <==> FiledUnder(row, key, to)
    ensures var o := UpsertOutcome(rows, row, now);
            Gain(rows, InsertChange(o), key, to) == if Counts(Ingested(f, ReplyTo(o)), key, to) then 1 else 0
  {
    if exists other :: Collides(rows, row, other) {
      var other :| Collides(rows, row, other) && UpsertOutcome(rows, row, now) ==
        if rows[other].repeatCount >= MAX_REPEAT then RepeatOutOfRange
        else Bumped(rows[other].(repeatCount := rows[other].repeatCount + 1, updatedAt := now));
      assert HoldsKey(rows[other], row.dedupeKey.value, row.toAgent.value);
    }
  }

  lemma {:induction false} RunsConserveFilings(run: seq<Action>, key: string, to: Text)
    ensures var past := Exec(INITIAL, run).past;
            Filings(past.log, key, to) == Total(past.ever, key, to)
    decreases |run|
  {
    if run != [] {
      var s, a := Exec(INITIAL, run[..|run| - 1]), run[|run| - 1];
      RunsConserveFilings(run[..|run| - 1], key, to);
      RunsKeepInv(INITIAL, run[..|run| - 1]);
      if Enabled(s, a) {
        NextConserves(s, a, key, to);
      }
    }
  }

  /** A step adds to the log exactly the filings it adds to the table. */
  lemma {:induction false} StepBalances(s: State, a: Action, key: string, to: Text)
    requires Inv(s) && Enabled(s, a)
    ensures |NewsOf(s, a)| <= 1
    ensures Gain(s.db.rows, ChangeOf(s, a), key, to) ==
            if |NewsOf(s, a)| == 1 && Counts(NewsOf(s, a)[0], key, to) then 1 else 0
  {
    if a.File? {
      RowAsksFor(a.filer, a.filing, a.now, a.newId, key, to);
      FilingGains(s.db.rows, a.filing, FilingRow(a.filer, a.filing, a.now, a.newId).value, a.now, key, to);
    } else {
      OnlyFilingsGain(s, a, key, to);
      NoFilingNews(s, a, key, to);
    }
  }

  lemma {:induction false} NextConserves(s: State, a: Action, key: string, to: Text)
    requires Inv(s) && Enabled(s, a) && Filings(s.past.log, key, to) == Total(s.past.ever, key, to)
    ensures Filings(Next(s, a).past.log, key, to) == Total(Next(s, a).past.ever, key, to)
  {
    ChangeIsLegal(s, a);
    NextCommits(s, a);
    StepBalances(s, a, key, to);
    ChangeGains(s.db, s.past.ever, ChangeOf(s, a), key, to);
    NewsCounts(s.past.log, NewsOf(s, a), key, to);
  }

  lemma {:induction false} NewsCounts(log: seq<Event>, news: seq<Event>, key: string, to: Text)
    requires |news| <= 1
    ensures Filings(log + news, key, to) ==
            Filings(log, key, to) + (if |news| == 1 && Counts(news[0], key, to) then 1 else 0)
  {
    if |news| == 1 {
      assert (log + news)[..|log|] == log;
    } else {
      assert log + news == log;
    }
  }

  lemma {:induction false} NoFilingNews(s: State, a: Action, key: string, to: Text)
    requires Enabled(s, a) && !a.File?
    ensures |NewsOf(s, a)| == 1 ==> !Counts(NewsOf(s, a)[0], key, to)
  {
  }

  // ---------- theorems ----------

  /** In every reachable state at most one open row holds a key for a recipient,
      and the filings received for the pair are exactly those its rows, deleted
      ones included, account for. */
  lemma {:induction false} FilingsAreConserved(run: seq<Action>, key: string, to: Text)
    ensures var s := Exec(INITIAL, run);
            && Filings(s.past.log, key, to) == Total(s.past.ever, key, to)
            && forall a, b |
                 a in s.db.rows && b in s.db.rows
                 && HoldsKey(s.db.rows[a], key, to) && HoldsKey(s.db.rows[b], key, to) :: a == b
  {
    RunsConserveFilings(run, key, to);
    RunsKeepInv(INITIAL, run);
  }

  /** What the reply to a filing says about the table it leaves. */
  ghost predicate ReportsTruly(rows: Rows, row: Handoff, rows': Rows, reply: FilingReply)
    requires row.toAgent.Some?
  {
    match reply
    case Rejected(_) => rows' == rows
    case Filed(h, deduplicated) =>
      && h.id in rows' && rows'[h.id] == h
      && (deduplicated <==> rows'.Keys == rows.Keys)
      && if deduplicated then
           && row.dedupeKey.Some? && h.id in rows
           && HoldsKey(rows[h.id], row.dedupeKey.value, row.toAgent.value)
           && h.repeatCount == rows[h.id].repeatCount + 1
         else h == row && row.id !in rows
  }

  lemma {:induction false} UpsertReportsTruly(rows: Rows, audit: seq<Tombstone>, row: Handoff, now: Time)
    requires RowsOk(rows) && row.toAgent.Some? && row.repeatCount == 0
    ensures var o := UpsertOutcome(rows, row, now);
            ReportsTruly(rows, row, Apply(Db(rows, audit), InsertChange(o)).rows, ReplyTo(o))
  {
    var o := UpsertOutcome(rows, row, now);
    if o.Bumped? {
      assert exists other :: Collides(rows, row, other);
      assert rows[o.row.id := o.row].Keys == rows.Keys;
    } else if o.Inserted? {
      assert row.id in rows[row.id := row].Keys;
    }
  }

  lemma {:induction false} HolderIsBumped(rows: Rows, row: Handoff, now: Time, id: Uuid)
    requires RowsOk(rows) && id in rows && Collides(rows, row, id)
    ensures var o := UpsertOutcome(rows, row, now);
            if rows[id].repeatCount == MAX_REPEAT then o == RepeatOutOfRange
            else o == Bumped(rows[id].(repeatCount := rows[id].repeatCount + 1, updatedAt := now))
  {
    forall other | Collides(rows, row, other) ensures other == id {
      assert HoldsKey(rows[other], row.dedupeKey.value, row.toAgent.value);
    }
    assert RowOk(rows[id]);
  }

  /** What the step that runs an upsert leaves. */
  lemma {:induction false} FilingStep(s: State, filer: Filer, f: Filing, now: Time, newId: Uuid)
    requires Enabled(s, File(filer, f, now, newId))
    ensures var o := UpsertOutcome(s.db.rows, FilingRow(filer, f, now, newId).value, now);
            var s' := Next(s, File(filer, f, now, newId));
            && s'.db == Apply(s.db, InsertChange(o))
            && s'.past.log == s.past.log + [Ingested(f, ReplyTo(o))]
  {
    NextCommits(s, File(filer, f, now, newId));
  }

  lemma {:induction false} RowAsksFor(filer: Filer, f: Filing, now: Time, newId: Uuid, key: string, to: Text)
    requires FilingRow(filer, f, now, newId).Ok?
    ensures AsksFor(f, key, to) <==> FiledUnder(FilingRow(filer, f, now, newId).value, key, to)
  {
    FilingsAreBound(filer, f, now, newId);
  }

  lemma {:induction false} FoldedHolderCollides(rows: Rows, row: Handoff, key: string, to: Text, id: Uuid)
    requires id in rows && HoldsKey(rows[id], key, to) && FiledUnder(row, key, to)
    ensures Collides(rows, row, id)
  {
  }

  lemma {:induction false} NoHolderInserts(rows: Rows, row: Handoff, now: Time)
    requires row.id !in rows && row.inReplyTo.None? && forall other :: !Collides(rows, row, other)
    ensures UpsertOutcome(rows, row, now) == Inserted(row)
  {
  }

  /** What filing again at `now` does while the row `id` is open. */
  predicate Repeats(db: Db, db': Db, now: Time, id: Uuid, receipt: FilingReply)
    requires id in db.rows
  {
    var h := db.rows[id];
    if h.repeatCount < 2_147_483_647 then
      var bumped := h.(repeatCount := h.repeatCount + 1, updatedAt := now);
      db' == db.(rows := db.rows[id := bumped]) && receipt == Filed(bumped, true)
    else
      db' == db && receipt == Rejected(DatabaseFailure(RepeatOutOfRange))
  }

  lemma {:induction false} HolderRepeats(db: Db, row: Handoff, now: Time, key: string, to: Text, id: Uuid)
    requires RowsOk(db.rows) && id in db.rows && HoldsKey(db.rows[id], key, to) && FiledUnder(row, key, to)
    ensures var o := UpsertOutcome(db.rows, row, now);
            Repeats(db, Apply(db, InsertChange(o)), now, id, ReplyTo(o))
  {
    FoldedHolderCollides(db.rows, row, key, to, id);
    HolderIsBumped(db.rows, row, now, id);
  }

  lemma {:induction false} EnabledFiling(s: State, filer: Filer, f: Filing, now: Time, newId: Uuid)
    requires Inv(s) && Enabled(s, File(filer, f, now, newId))
    ensures FilingRow(filer, f, now, newId).Ok? && newId !in s.db.rows && RowsOk(s.db.rows)
  {
  }

  /** Filing again while the first row is open: in every run an accepted filing
      whose own key and recipient an open row already holds adds no row. It
      raises that row's counter by one and stamps it, and says so, or, with the
      counter at the column's maximum, changes nothing and fails. */
  lemma {:induction false} RepeatedFilingIsBumped(
      run: seq<Action>, filer: Filer, f: Filing, now: Time, newId: Uuid, key: string, to: Text, id: Uuid)
    requires Enabled(Exec(INITIAL, run), File(filer, f, now, newId)) && AsksFor(f, key, to)
    requires id in Exec(INITIAL, run).db.rows && HoldsKey(Exec(INITIAL, run).db.rows[id], key, to)
    ensures var s := Exec(INITIAL, run);
            var s' := Next(s, File(filer, f, now, newId));
            exists receipt ::
              Repeats(s.db, s'.db, now, id, receipt) && s'.past.log == s.past.log + [Ingested(f, receipt)]
  {
    var s := Exec(INITIAL, run);
    RunsKeepInv(INITIAL, run);
    EnabledFiling(s, filer, f, now, newId);
    RowAsksFor(filer, f, now, newId, key, to);
    RepeatedStep(s, filer, f, now, newId, key, to, id);
  }

  lemma {:induction false} RepeatedStep(
      s: State, filer: Filer, f: Filing, now: Time, newId: Uuid, key: string, to: Text, id: Uuid)
    requires Enabled(s, File(filer, f, now, newId)) && RowsOk(s.db.rows)
    requires FiledUnder(FilingRow(filer, f, now, newId).value, key, to)
    requires id in s.db.rows && HoldsKey(s.db.rows[id], key, to)
    ensures var s' := Next(s, File(filer, f, now, newId));
            exists receipt ::
              Repeats(s.db, s'.db, now, id, receipt) && s'.past.log == s.past.log + [Ingested(f, receipt)]
  {
    FilingStep(s, filer, f, now, newId);
    HolderRepeats(s.db, FilingRow(filer, f, now, newId).value, now, key, to, id);
  }

  /** No open row holds the key of the filing for its recipient. */
  ghost predicate NoHolder(rows: Rows, f: Filing) {
    forall key, to, id :: AsksFor(f, key, to) && id in rows ==> !HoldsKey(rows[id], key, to)
  }

  lemma {:induction false} NoHolderNoCollision(rows: Rows, filer: Filer, f: Filing, now: Time, newId: Uuid, other: Uuid)
    requires FilingRow(filer, f, now, newId).Ok? && NoHolder(rows, f)
    ensures !Collides(rows, FilingRow(filer, f, now, newId).value, other)
  {
    var row := FilingRow(filer, f, now, newId).value;
    if Collides(rows, row, other) {
      RowAsksFor(filer, f, now, newId, row.dedupeKey.value, row.toAgent.value);
    }
  }

  /** What a filing does when it is new: its row appears. */
  predicate Inserts(db: Db, db': Db, filer: Filer, f: Filing, now: Time, id: Uuid, receipt: FilingReply) {
    && id !in db.rows && id in db'.rows && db' == db.(rows := db.rows[id := db'.rows[id]])
    && FiledBy(filer, f, db'.rows[id]) && JustMade(db'.rows[id], id, now)
    && receipt == Filed(db'.rows[id], false)
  }

  lemma {:induction false} NewFilingInserts(db: Db, filer: Filer, f: Filing, now: Time, newId: Uuid)
    requires FilingRow(filer, f, now, newId).Ok? && NoHolder(db.rows, f) && newId !in db.rows
    ensures var o := UpsertOutcome(db.rows, FilingRow(filer, f, now, newId).value, now);
            Inserts(db, Apply(db, InsertChange(o)), filer, f, now, newId, ReplyTo(o))
  {
    FilingsAreBound(filer, f, now, newId);
    forall other ensures !Collides(db.rows, FilingRow(filer, f, now, newId).value, other) {
      NoHolderNoCollision(db.rows, filer, f, now, newId, other);
    }
    NoHolderInserts(db.rows, FilingRow(filer, f, now, newId).value, now);
  }

  /** A filing whose key no open row holds for its recipient, or that has no key,
      adds its row and says that it did. */
  lemma {:induction false} NewFilingIsInserted(run: seq<Action>, filer: Filer, f: Filing, now: Time, newId: Uuid)
    requires Enabled(Exec(INITIAL, run), File(filer, f, now, newId)) && NoHolder(Exec(INITIAL, run).db.rows, f)
    ensures var s := Exec(INITIAL, run);
            var s' := Next(s, File(filer, f, now, newId));
            exists receipt ::
              Inserts(s.db, s'.db, filer, f, now, newId, receipt) && s'.past.log == s.past.log + [Ingested(f, receipt)]
  {
    var s := Exec(INITIAL, run);
    RunsKeepInv(INITIAL, run);
    EnabledFiling(s, filer, f, now, newId);
    InsertedStep(s, filer, f, now, newId);
  }

  lemma {:induction false} InsertedStep(s: State, filer: Filer, f: Filing, now: Time, newId: Uuid)
    requires Enabled(s, File(filer, f, now, newId)) && NoHolder(s.db.rows, f) && newId !in s.db.rows
    ensures var s' := Next(s, File(filer, f, now, newId));
            exists receipt ::
              Inserts(s.db, s'.db, filer, f, now, newId, receipt) && s'.past.log == s.past.log + [Ingested(f, receipt)]
  {
    FilingStep(s, filer, f, now, newId);
    NewFilingInserts(s.db, filer, f, now, newId);
  }

  /** After any run the reply says `deduplicated` exactly when the filing created
      no row; then an open row already held the key, and it is the one bumped. */
  lemma {:induction false} DeduplicatedMeansNoNewRow(run: seq<Action>, filer: Filer, f: Filing, now: Time, newId: Uuid)
    requires FilingRow(filer, f, now, newId).Ok?
    ensures var db, row := Exec(INITIAL, run).db, FilingRow(filer, f, now, newId).value;
            var o := UpsertOutcome(db.rows, row, now);
            ReportsTruly(db.rows, row, Apply(db, InsertChange(o)).rows, ReplyTo(o))
  {
    RunsKeepInv(INITIAL, run);
    var db := Exec(INITIAL, run).db;
    UpsertReportsTruly(db.rows, db.audit, FilingRow(filer, f, now, newId).value, now);
  }
}
