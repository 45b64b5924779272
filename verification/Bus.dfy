/** Every run of the message bus: any number of handler calls in flight, each
    advancing one SQL statement at a time in any order, beside REST filings and
    embedding writes. A history records what the tables forget. */
module Bus {
  import opened Prelude
  import opened Callers
  import opened Handoffs
  import opened Coordination
  import opened Ingestion

  datatype Call = Call(caller: Caller, request: Request, at: Point)

  datatype Event =
    | Answered(caller: Caller, request: Request, reply: Reply)
    | Ingested(filing: Filing, receipt: FilingReply)

  /** `ever` holds the last version of every row that was ever in the table,
      `born` numbers rows in creation order, `log` lists the replies sent and
      the filings that reached the table. */
  datatype History = History(ever: Rows, born: map<Uuid, nat>, log: seq<Event>)

  datatype State = State(db: Db, calls: map<nat, Call>, past: History)

  const INITIAL := State(Db(map[], []), map[], History(map[], map[], []))

  datatype Action =
    | Arrive(cid: nat, caller: Caller, request: Request)
    | Run(cid: nat, now: Time, newId: Uuid)            // run the call's next statement
    | Lose(cid: nat, now: Time, newId: Uuid)           // run it, but the caller never sees the outcome
    | Abort(cid: nat)                                  // a database error or a cancelled request
    | File(filer: Filer, filing: Filing, now: Time, newId: Uuid)
    | Embed(id: Uuid, now: Time)

  /** The ids a request names. */
  predicate Names(r: Request, id: Uuid) {
    Target(r) == Some(id)
  }

  /** The UUIDv7 assumption: a generated id was never used, and no call in
      flight is already asking about it. */
  ghost predicate Fresh(s: State, id: Uuid) {
    id !in s.past.ever && forall cid :: cid in s.calls ==> !Names(s.calls[cid].request, id)
  }

  function Remember(past: History, c: Change, rows: Rows, news: seq<Event>): History {
    History(past.ever + rows,
            if c.Add? && c.row.id !in past.born then past.born[c.row.id := |past.born|] else past.born,
            past.log + news)
  }

  /** Applies a change and records it. */
  ghost function Commit(s: State, c: Change, news: seq<Event>): State {
    var db := Apply(s.db, c);
    s.(db := db, past := Remember(s.past, c, db.rows, news))
  }

  ghost function Settle(s: State, cid: nat, caller: Caller, r: Request, step: Step, answered: bool): State {
    match step.progress
    case Waiting(at) =>
      var s' := Commit(s, step.change, []);
      s'.(calls := s'.calls[cid := Call(caller, r, at)])
    case Done(reply) =>
      var s' := Commit(s, step.change, if answered then [Answered(caller, r, reply)] else []);
      s'.(calls := s'.calls - {cid})
  }

  /** A call in the table has been let in by `Begin`, so its next statement
      exists. (Established for every reachable state below.) */
  ghost predicate Runnable(s: State, cid: nat, newId: Uuid) {
    && cid in s.calls
    && var c := s.calls[cid];
    && CanWaitAt(c.caller, c.request, c.at)
    && (c.request.Create? && c.at.Writing? ==> Fresh(s, newId))
  }

  ghost predicate Enabled(s: State, a: Action) {
    match a
    case Arrive(cid, caller, _) => cid !in s.calls && ValidCaller(caller)
    case Run(cid, _, newId) => Runnable(s, cid, newId)
    case Lose(cid, _, newId) => Runnable(s, cid, newId)
    case Abort(cid) => cid in s.calls
    case File(filer, f, now, newId) => FilingRow(filer, f, now, newId).Ok? && Fresh(s, newId)
    case Embed(_, _) => true
  }

  ghost function Perform(s: State, a: Action): State
    requires Enabled(s, a)
  {
    match a
    case Arrive(cid, caller, r) => Settle(s, cid, caller, r, Step(Keep, Begin(caller, r)), true)
    case Run(cid, now, newId) =>
      var c := s.calls[cid];
      Settle(s, cid, c.caller, c.request, Statement(s.db.rows, c.caller, c.request, c.at, now, newId), true)
    case Lose(cid, now, newId) =>
      var c := s.calls[cid];
      var step := Statement(s.db.rows, c.caller, c.request, c.at, now, newId);
      var s' := Commit(s, step.change, []);
      s'.(calls := s'.calls - {cid})
    case Abort(cid) => Commit(s, Keep, []).(calls := s.calls - {cid})
    case File(filer, f, now, newId) =>
      var row := FilingRow(filer, f, now, newId).value;
      var o := UpsertOutcome(s.db.rows, row, now);
      Commit(s, InsertChange(o), [Ingested(f, ReplyTo(o))])
    case Embed(id, now) => Commit(s, Stored(EmbeddingUpdate(s.db.rows, id, now)), [])
  }

  /** Every list of actions is a run: an action that is not enabled is skipped. */
  ghost function Next(s: State, a: Action): State {
    if Enabled(s, a) then Perform(s, a) else s
  }

  ghost function Exec(s: State, run: seq<Action>): State
    decreases |run|
  {
    if run == [] then s else Next(Exec(s, run[..|run| - 1]), run[|run| - 1])
  }
}
