/** The handoff handlers (`src/tools/coordination.rs`) as in-flight calls.

    A handler is a sequence of SQL statements with local computation between
    them; other callers' statements may run at every `await`. `Point` names the
    statement a call will run next, and a step runs exactly that statement
    together with the local computation up to the next one. */
module Coordination {
  import opened Prelude
  import opened Slugs
  import opened Callers
  import opened Handoffs

  /** A `context` value: whether it is a JSON object, its keys and `verdict` if
      so, and its serialized size. */
  datatype Context = Context(isObject: bool, keys: seq<string>, verdict: Option<string>, bytes: nat)

  datatype Request =
    | Accept(id: Uuid, agentName: Option<string>)
    | Complete(id: Uuid, commitHash: Option<string>)
    | Merge(id: Uuid, mergeCommit: string)
    | Delete(id: Uuid)
    | Create(fromAgent: string, toAgent: Option<string>, priority: Priority, category: Category,
             title: string, body: string, context: Option<Context>, parent: Option<Uuid>)

  /** The statement a call runs next: the visibility read, the precondition
      read, the conditional write, or the read that explains a lost write. */
  datatype Point = Seeing | Reading | Writing | Rereading

  datatype Refusal =
    | BadAgentName
    | BadRecipient
    | BadTitle
    | BadBody
    | BadContext
    | IdentityMismatch
    | FamilyNeedsName
    | BroadcastNeedsName
    | EmptyMergeCommit
    | MissingCommitHash
    | AlreadyMergedAs(commit: Option<string>)
    | WrongStatus(status: Status)
    | DatabaseError(outcome: InsertOutcome)

  datatype Reply = Row(row: Handoff) | Deleted | NotFound | Refused(why: Refusal)

  datatype Progress = Waiting(at: Point) | Done(reply: Reply)

  datatype Step = Step(change: Change, progress: Progress)

  // ---------- local computation ----------

  /** The id a request reads or writes; for a create, the parent it replies to. */
  function Target(r: Request): Option<Uuid> {
    if r.Create? then r.parent else Some(r.id)
  }

  /** Who an accept will record, before any row is read: `Ok(None)` leaves it
      to the recipient. */
  function AcceptPlan(caller: Caller, agentName: Option<string>): Result<Option<Text>, Refusal> {
    var supplied := if agentName.Some? then ValidateAgentName(agentName.value) else None;
    if agentName.Some? && supplied.None? then Err(BadAgentName)
    else if supplied.Some? && !MayClaim(caller, supplied.value) then Err(IdentityMismatch)
    else if caller.Bound? && IsFamily(caller.binding) then
      (if supplied.Some? then Ok(supplied) else Err(FamilyNeedsName))
    else if caller.Bound? then Ok(Some(caller.binding))
    else Ok(supplied)
  }

  const MAX_TITLE_BYTES := 200
  const MAX_BODY_BYTES := 100_000
  const MAX_CONTEXT_BYTES := 8_192

  predicate BoundedText(s: string, max: nat) {
    !Blank(s) && ByteLength(s) <= max
  }

  predicate ContextOk(context: Option<Context>) {
    context.Some? ==> context.value.isObject && context.value.bytes <= MAX_CONTEXT_BYTES
  }

  function CreatePlan(caller: Caller, r: Request): Result<(Text, Option<Text>), Refusal>
    requires r.Create?
  {
    if !BoundedText(r.title, MAX_TITLE_BYTES) then Err(BadTitle)
    else if !BoundedText(r.body, MAX_BODY_BYTES) then Err(BadBody)
    else if !ContextOk(r.context) then Err(BadContext)
    else
      var sender := ValidateAgentName(r.fromAgent);
      if sender.None? then Err(BadAgentName)
      else if !MayClaim(caller, sender.value) then Err(IdentityMismatch)
      else if r.toAgent.None? then Ok((sender.value, None))
      else
        var recipient := ValidateAgentName(r.toAgent.value);
        if recipient.None? then Err(BadRecipient) else Ok((sender.value, recipient))
  }

  /** From the start of the handler, or past its visibility read, to the next
      statement. */
  function Proceed(caller: Caller, r: Request): Progress {
    match r
    case Accept(_, name) =>
      var plan := AcceptPlan(caller, name);
      if plan.Err? then Done(Refused(plan.error))
      else if plan.value.None? then Waiting(Reading)
      else Waiting(Writing)
    case Merge(_, commit) => if Blank(commit) then Done(Refused(EmptyMergeCommit)) else Waiting(Reading)
    case _ => Waiting(Writing)
  }

  /** A restricted caller reads the target first; the others go straight on. */
  function Begin(caller: Caller, r: Request): Progress {
    if r.Create? && CreatePlan(caller, r).Err? then Done(Refused(CreatePlan(caller, r).error))
    else if Party(caller).Some? && Target(r).Some? then Waiting(Seeing)
    else Proceed(caller, r)
  }

  // ---------- one statement of each handler ----------

  /** The row is in the table and the caller may see it. */
  predicate Inside(rows: Rows, caller: Caller, id: Uuid) {
    id in rows && CanSee(Party(caller), rows[id].fromAgent, rows[id].toAgent)
  }

  /** `ensure_handoff_visible`. */
  function SeeStep(rows: Rows, caller: Caller, r: Request): Step
    requires Target(r).Some?
  {
    var id := Target(r).value;
    if Inside(rows, caller, id)
    then Step(Keep, Proceed(caller, r))
    else Step(Keep, Done(NotFound))
  }

  function AcceptStep(rows: Rows, caller: Caller, r: Request, at: Point, now: Time): Step
    requires r.Accept? && !at.Seeing? && AcceptPlan(caller, r.agentName).Ok?
  {
    match at
    case Reading =>
      if r.id in rows && rows[r.id].toAgent.None? then Step(Keep, Done(Refused(BroadcastNeedsName)))
      else Step(Keep, Waiting(Writing))
    case Writing =>
      var row := AcceptUpdate(rows, r.id, AcceptPlan(caller, r.agentName).value, now);
      if row.Some? then Step(Rewrite(row.value), Done(Row(row.value))) else Step(Keep, Waiting(Rereading))
    case Rereading =>
      if r.id in rows then Step(Keep, Done(Refused(WrongStatus(rows[r.id].status)))) else Step(Keep, Done(NotFound))
  }

  function CompleteStep(rows: Rows, r: Request, at: Point, now: Time): Step
    requires r.Complete? && (at.Writing? || at.Rereading?)
  {
    if at.Writing? then
      var row := CompleteUpdate(rows, r.id, r.commitHash, now);
      if row.Some? then Step(Rewrite(row.value), Done(Row(row.value))) else Step(Keep, Waiting(Rereading))
    else
      if r.id in rows then Step(Keep, Done(Refused(WrongStatus(rows[r.id].status)))) else Step(Keep, Done(NotFound))
  }

  /** The reply for an already merged row: idempotent on the same commit. */
  function MergedReply(h: Handoff, commit: string): Reply {
    if h.mergeCommit == Some(commit) then Row(h) else Refused(AlreadyMergedAs(h.mergeCommit))
  }

  function MergeStep(rows: Rows, r: Request, at: Point, now: Time): Step
    requires r.Merge? && !at.Seeing?
  {
    var commit := Trim(r.mergeCommit);
    if at.Writing? then
      var row := MergeUpdate(rows, r.id, commit, now);
      if row.Some? then Step(Rewrite(row.value), Done(Row(row.value))) else Step(Keep, Waiting(Rereading))
    else if r.id !in rows then Step(Keep, Done(NotFound))
    else
      var h := rows[r.id];
      if h.status.Merged? then Step(Keep, Done(MergedReply(h, commit)))
      else if at.Rereading? || !h.status.Completed? then Step(Keep, Done(Refused(WrongStatus(h.status))))
      else if h.commitHash.None? || Blank(h.commitHash.value) then Step(Keep, Done(Refused(MissingCommitHash)))
      else Step(Keep, Waiting(Writing))
  }

  function DeleteStep(rows: Rows, caller: Caller, r: Request, now: Time): Step
    requires r.Delete?
  {
    if r.id in rows then Step(Drop(r.id, BoundAgent(caller), now), Done(Deleted)) else Step(Keep, Done(NotFound))
  }

  function CreatedRow(caller: Caller, r: Request, now: Time, newId: Uuid): Handoff
    requires r.Create? && CreatePlan(caller, r).Ok?
  {
    var (sender, recipient) := CreatePlan(caller, r).value;
    NewRow(newId, sender, recipient, r.priority, r.category, r.title, r.body, r.parent, FromAgent, None, now)
  }

  function CreateStep(rows: Rows, caller: Caller, r: Request, now: Time, newId: Uuid): Step
    requires r.Create? && CreatePlan(caller, r).Ok?
  {
    var o := CreateOutcome(rows, CreatedRow(caller, r, now, newId));
    Step(InsertChange(o), Done(if o.Inserted? then Row(o.row) else Refused(DatabaseError(o))))
  }

  /** The points a request can wait at once `Begin` has let it in. Only a
      restricted caller reads its target first. */
  predicate CanWaitAt(caller: Caller, r: Request, at: Point) {
    if at.Seeing? then
      && Party(caller).Some? && Target(r).Some?
      && (r.Create? ==> CreatePlan(caller, r).Ok?)
    else
      match r
      case Accept(_, name) => AcceptPlan(caller, name).Ok?
      case Complete(_, _) => !at.Reading?
      case Merge(_, _) => true
      case Delete(_) => at.Writing?
      case Create(_, _, _, _, _, _, _, _) => CreatePlan(caller, r).Ok? && at.Writing?
  }

  function Statement(rows: Rows, caller: Caller, r: Request, at: Point, now: Time, newId: Uuid): Step
    requires CanWaitAt(caller, r, at)
  {
    if at.Seeing? then SeeStep(rows, caller, r)
    else
      match r
      case Accept(_, _) => AcceptStep(rows, caller, r, at, now)
      case Complete(_, _) => CompleteStep(rows, r, at, now)
      case Merge(_, _) => MergeStep(rows, r, at, now)
      case Delete(_) => DeleteStep(rows, caller, r, now)
      case Create(_, _, _, _, _, _, _, _) => CreateStep(rows, caller, r, now, newId)
  }

  // ---------- the handlers over the shared table ----------

  /** An unrestricted caller passes without a read. */
  method EnsureHandoffVisible(table: HandoffTable, caller: Caller, id: Uuid) returns (visible: bool)
    ensures visible <==>
            || Party(caller).None?
            || Inside(table.rows, caller, id)
  {
    if Party(caller).None? {
      return true;
    }
    var h := table.GetHandoff(id);
    visible := h.Some? && CanSee(Party(caller), h.value.fromAgent, h.value.toAgent);
  }

  method HandleAcceptHandoff(table: HandoffTable, caller: Caller, r: Request, at: Point, now: Time)
    returns (p: Progress)
    requires r.Accept? && !at.Seeing? && AcceptPlan(caller, r.agentName).Ok?
    requires r.id in table.rows ==> table.rows[r.id].id == r.id
    modifies table
    ensures var s := AcceptStep(old(table.rows), caller, r, at, now);
            p == s.progress && table.Contents() == Apply(old(table.Contents()), s.change)
  {
    match at {
      case Reading =>
        var h := table.GetHandoff(r.id);
        if h.Some? && h.value.toAgent.None? {
          return Done(Refused(BroadcastNeedsName));
        }
        p := Waiting(Writing);
      case Writing =>
        var h := table.AcceptHandoffAs(r.id, AcceptPlan(caller, r.agentName).value, now);
        p := if h.Some? then Done(Row(h.value)) else Waiting(Rereading);
      case Rereading =>
        var h := table.GetHandoff(r.id);
        p := Done(if h.Some? then Refused(WrongStatus(h.value.status)) else NotFound);
    }
  }

  method HandleCompleteHandoff(table: HandoffTable, r: Request, at: Point, now: Time) returns (p: Progress)
    requires r.Complete? && (at.Writing? || at.Rereading?)
    requires r.id in table.rows ==> table.rows[r.id].id == r.id
    modifies table
    ensures var s := CompleteStep(old(table.rows), r, at, now);
            p == s.progress && table.Contents() == Apply(old(table.Contents()), s.change)
  {
    if at.Writing? {
      var h := table.CompleteHandoffWithCommit(r.id, r.commitHash, now);
      p := if h.Some? then Done(Row(h.value)) else Waiting(Rereading);
    } else {
      var h := table.GetHandoff(r.id);
      p := Done(if h.Some? then Refused(WrongStatus(h.value.status)) else NotFound);
    }
  }

  method HandleMarkMerged(table: HandoffTable, r: Request, at: Point, now: Time) returns (p: Progress)
    requires r.Merge? && !at.Seeing?
    requires r.id in table.rows ==> table.rows[r.id].id == r.id
    modifies table
    ensures var s := MergeStep(old(table.rows), r, at, now);
            p == s.progress && table.Contents() == Apply(old(table.Contents()), s.change)
  {
    var commit := Trim(r.mergeCommit);
    if at.Writing? {
      var written := table.MarkMerged(r.id, commit, now);
      return if written.Some? then Done(Row(written.value)) else Waiting(Rereading);
    }
    var h := table.GetHandoff(r.id);
    if h.None? {
      return Done(NotFound);
    }
    if h.value.status.Merged? {
      if h.value.mergeCommit == Some(commit) {
        return Done(Row(h.value));
      }
      return Done(Refused(AlreadyMergedAs(h.value.mergeCommit)));
    }
    if at.Rereading? || h.value.status != Completed {
      return Done(Refused(WrongStatus(h.value.status)));
    }
    if h.value.commitHash.None? || Blank(h.value.commitHash.value) {
      return Done(Refused(MissingCommitHash));
    }
    p := Waiting(Writing);
  }

  method HandleDeleteHandoff(table: HandoffTable, caller: Caller, r: Request, now: Time) returns (p: Progress)
    requires r.Delete?
    modifies table
    ensures var s := DeleteStep(old(table.rows), caller, r, now);
            p == s.progress && table.Contents() == Apply(old(table.Contents()), s.change)
  {
    var deleted := table.DeleteHandoff(r.id, BoundAgent(caller), now);
    p := Done(if deleted then Deleted else NotFound);
  }

  method HandleCreateHandoff(table: HandoffTable, caller: Caller, r: Request, now: Time, newId: Uuid)
    returns (p: Progress)
    requires r.Create? && CreatePlan(caller, r).Ok?
    modifies table
    ensures var s := CreateStep(old(table.rows), caller, r, now, newId);
            p == s.progress && table.Contents() == Apply(old(table.Contents()), s.change)
  {
    var o := table.CreateHandoff(CreatedRow(caller, r, now, newId));
    p := Done(if o.Inserted? then Row(o.row) else Refused(DatabaseError(o)));
  }

  /** Runs the next statement of any call. */
  method RunStatement(table: HandoffTable, caller: Caller, r: Request, at: Point, now: Time, newId: Uuid)
    returns (p: Progress)
    requires CanWaitAt(caller, r, at)
    requires forall id :: id in table.rows ==> table.rows[id].id == id
    modifies table
    ensures var s := Statement(old(table.rows), caller, r, at, now, newId);
            p == s.progress && table.Contents() == Apply(old(table.Contents()), s.change)
  {
    if at.Seeing? {
      var visible := EnsureHandoffVisible(table, caller, Target(r).value);
      return if visible then Proceed(caller, r) else Done(NotFound);
    }
    match r {
      case Accept(_, _) => p := HandleAcceptHandoff(table, caller, r, at, now);
      case Complete(_, _) => p := HandleCompleteHandoff(table, r, at, now);
      case Merge(_, _) => p := HandleMarkMerged(table, r, at, now);
      case Delete(_) => p := HandleDeleteHandoff(table, caller, r, now);
      case Create(_, _, _, _, _, _, _, _) => p := HandleCreateHandoff(table, caller, r, now, newId);
    }
  }
}
