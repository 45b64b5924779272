/** What every run of the bus keeps, and what follows about handoffs. */
module Protocol {
  import opened Prelude
  import opened Slugs
  import opened Callers
  import opened Handoffs
  import opened Coordination
  import opened Ingestion
  import opened Bus

  // ---------- rows ----------

  predicate Linked(h: Handoff) {
    (h.status.Completed? || h.status.Merged?) && h.commitHash.Some? && !Blank(h.commitHash.value)
  }

  predicate RowOk(h: Handoff) {
    && (h.toAgent.Some? ==> ValidSlug(h.toAgent.value))
    && (h.status.Pending? ==> h.acceptedBy.None?)
    && (h.status.Accepted? ==> h.acceptedBy.Some?)
    && (h.acceptedBy.Some? ==> ValidSlug(h.acceptedBy.value))
    && (Open(h) ==> h.commitHash.None?)
    && (h.status.Merged? ==> Linked(h))
    && (h.status.Merged? <==> h.mergeCommit.Some?)
    && (h.status.Merged? <==> h.mergedAt.Some?)
    && (h.mergeCommit.Some? ==> h.mergeCommit.value != "" && Trim(h.mergeCommit.value) == h.mergeCommit.value)
    && h.repeatCount <= MAX_REPEAT
    && (h.dedupeKey.Some? ==> h.toAgent.Some?)
  }

  function Rank(s: Status): nat {
    match s
    case Pending => 0
    case Accepted => 1
    case Completed => 2
    case Merged => 3
  }

  /** `b` is a possible later version of the row `a`. */
  predicate Later(a: Handoff, b: Handoff) {
    && (a.id, a.fromAgent, a.toAgent, a.priority, a.category) == (b.id, b.fromAgent, b.toAgent, b.priority, b.category)
    && (a.title, a.body, a.origin, a.dedupeKey, a.createdAt) == (b.title, b.body, b.origin, b.dedupeKey, b.createdAt)
    && (b.inReplyTo == a.inReplyTo || b.inReplyTo.None?)
    && Rank(a.status) <= Rank(b.status)
    && (!a.status.Pending? ==> b.acceptedBy == a.acceptedBy)
    && (!Open(a) ==> b.commitHash == a.commitHash && b.repeatCount == a.repeatCount)
    && (a.status.Merged? ==> b.mergeCommit == a.mergeCommit && b.mergedAt == a.mergedAt)
    && a.repeatCount <= b.repeatCount
  }

  lemma {:induction false} LaterTransitive(a: Handoff, b: Handoff, c: Handoff)
    requires Later(a, b) && Later(b, c)
    ensures Later(a, c)
  {
  }

  // ---------- the invariant ----------

  ghost predicate RowsOk(rows: Rows) {
    && (forall id :: id in rows ==> rows[id].id == id && RowOk(rows[id]))
    && UniqueOpenKeys(rows)
  }

  ghost predicate HistoryOk(s: State) {
    && s.past.born.Keys == s.past.ever.Keys
    && forall id :: id in s.db.rows ==> id in s.past.ever && s.past.ever[id] == s.db.rows[id]
  }

  /** What a call in flight may rely on: facts its earlier reads established and
      no other call can undo. */
  predicate CallOk(rows: Rows, c: Call) {
    && ValidCaller(c.caller)
    && CanWaitAt(c.caller, c.request, c.at)
    && (!c.at.Seeing? && Target(c.request).Some? && Target(c.request).value in rows ==>
          var h := rows[Target(c.request).value];
          && CanSee(Party(c.caller), h.fromAgent, h.toAgent)
          && (c.request.Merge? && c.at.Writing? ==> Linked(h))
          && (c.request.Accept? && c.at.Writing? && AcceptPlan(c.caller, c.request.agentName).value.None? ==>
                h.toAgent.Some?))
    && (c.request.Merge? && !c.at.Seeing? ==> !Blank(c.request.mergeCommit))
  }

  ghost predicate CallsOk(s: State) {
    forall cid :: cid in s.calls ==> CallOk(s.db.rows, s.calls[cid])
  }

  predicate MergeWin(e: Event, id: Uuid) {
    e.Answered? && e.request.Merge? && e.request.id == id && e.reply.Row?
  }

  predicate AcceptWin(e: Event, id: Uuid) {
    e.Answered? && e.request.Accept? && e.request.id == id && e.reply.Row?
  }

  predicate CompleteWin(e: Event, id: Uuid) {
    e.Answered? && e.request.Complete? && e.request.id == id && e.reply.Row?
  }

  /** Both events report that the same transition of the same row was theirs. */
  ghost predicate Rivals(a: Event, b: Event) {
    exists id :: (AcceptWin(a, id) && AcceptWin(b, id)) || (CompleteWin(a, id) && CompleteWin(b, id))
  }

  /** The row was still there for the taking when this event was decided. */
  predicate Won(rows: Rows, e: Event) {
    && (e.Answered? && e.request.Accept? && e.reply.Row? ==>
          e.request.id in rows && rows[e.request.id].status.Pending?)
    && (e.Answered? && e.request.Complete? && e.reply.Row? ==>
          e.request.id in rows && Open(rows[e.request.id]))
  }

  /** The identity an accept by this caller must record, told without the
      handler: a fixed binding is the identity, a family member or an unbound
      caller names itself, and an unnamed unbound caller leaves the recipient. */
  predicate RecordsAcceptor(caller: Caller, agentName: Option<string>, toAgent: Option<Text>, acceptor: Text) {
    if caller.Bound? && !IsFamily(caller.binding) then acceptor == caller.binding
    else if agentName.Some? then acceptor == Trim(agentName.value) && MayClaim(caller, acceptor)
    else caller.Unbound? && toAgent == Some(acceptor)
  }

  predicate EventOk(ever: Rows, e: Event) {
    && (e.Answered? && e.request.Merge? && e.reply.Row? ==>
          && e.request.id in ever
          && ever[e.request.id].status.Merged?
          && ever[e.request.id].mergeCommit == Some(Trim(e.request.mergeCommit)))
    && (e.Answered? && e.request.Complete? && e.reply.Row? ==>
          && e.request.id in ever
          && !Open(ever[e.request.id])
          && ever[e.request.id].commitHash == e.request.commitHash)
    && (e.Answered? && e.request.Accept? && e.reply.Row? ==>
          && e.request.id in ever
          && var h := ever[e.request.id];
          && !h.status.Pending?
          && h.acceptedBy.Some?
          && e.reply.row.acceptedBy == h.acceptedBy
          && RecordsAcceptor(e.caller, e.request.agentName, h.toAgent, h.acceptedBy.value))
  }

  ghost predicate LogOk(past: History) {
    && (forall i :: 0 <= i < |past.log| ==> EventOk(past.ever, past.log[i]))
    && (forall i, j :: 0 <= i < j < |past.log| ==> !Rivals(past.log[i], past.log[j]))
  }

  ghost predicate Inv(s: State) {
    RowsOk(s.db.rows) && HistoryOk(s) && CallsOk(s) && LogOk(s.past)
  }

  // ---------- legal changes ----------

  /** The changes any statement can make. */
  ghost predicate Legal(s: State, c: Change) {
    match c
    case Keep => true
    case Add(row) =>
      && Fresh(s, row.id) && RowOk(row) && row.status.Pending? && row.repeatCount == 0
      && (row.inReplyTo.Some? ==> row.inReplyTo.value in s.db.rows)
      && (forall other :: !Collides(s.db.rows, row, other))
    case Rewrite(row) =>
      && row.id in s.db.rows && RowOk(row) && Later(s.db.rows[row.id], row)
      && row.inReplyTo == s.db.rows[row.id].inReplyTo
    case Drop(id, _, _) => id in s.db.rows
  }

  /** Every surviving row is a later version of itself. */
  ghost predicate Advances(a: Rows, b: Rows) {
    forall id :: id in a && id in b ==> Later(a[id], b[id])
  }

  lemma {:induction false} ApplyAdvances(s: State, c: Change)
    requires Inv(s) && Legal(s, c)
    ensures Advances(s.db.rows, Apply(s.db, c).rows)
    ensures forall id :: id in Apply(s.db, c).rows ==> id in s.db.rows || (c.Add? && id == c.row.id)
  {
  }

  lemma {:induction false} ApplyKeepsUniqueKeys(s: State, c: Change)
    requires Inv(s) && Legal(s, c)
    ensures UniqueOpenKeys(Apply(s.db, c).rows)
  {
    var rows, rows' := s.db.rows, Apply(s.db, c).rows;
    forall a, b, key, to |
      a in rows' && b in rows' && HoldsKey(rows'[a], key, to) && HoldsKey(rows'[b], key, to)
      ensures a == b
    {
      if c.Add? {
        assert !Collides(rows, c.row, a) && !Collides(rows, c.row, b);
      } else {
        assert HoldsKey(rows[a], key, to) && HoldsKey(rows[b], key, to);
      }
    }
  }

  lemma {:induction false} ApplyKeepsRows(s: State, c: Change)
    requires Inv(s) && Legal(s, c)
    ensures RowsOk(Apply(s.db, c).rows)
  {
    ApplyKeepsUniqueKeys(s, c);
  }

  /** The history follows any table that advances and adds only unused ids. */
  lemma {:induction false} RememberFollows(past: History, c: Change, rows: Rows, rows': Rows, news: seq<Event>)
    requires past.born.Keys == past.ever.Keys
    requires forall id :: id in rows ==> id in past.ever && past.ever[id] == rows[id]
    requires Advances(rows, rows')
    requires forall id :: id in rows' ==> id in rows || (c.Add? && id == c.row.id)
    requires c.Add? ==> c.row.id in rows' && c.row.id !in past.ever
    ensures var past' := Remember(past, c, rows', news);
            && past'.born.Keys == past'.ever.Keys
            && (forall id :: id in rows' ==> id in past'.ever && past'.ever[id] == rows'[id])
            && Advances(past.ever, past'.ever)
            && past.ever.Keys <= past'.ever.Keys
  {
    var past' := Remember(past, c, rows', news);
    assert past'.ever.Keys == past.ever.Keys + rows'.Keys;
    forall id | id in past.ever
      ensures Later(past.ever[id], past'.ever[id])
    {
      if id in rows' {
        assert past.ever[id] == rows[id] && past'.ever[id] == rows'[id];
      } else {
        assert past'.ever[id] == past.ever[id];
      }
    }
  }

  lemma {:induction false} CommitKeepsHistory(s: State, c: Change, news: seq<Event>)
    requires Inv(s) && Legal(s, c)
    ensures HistoryOk(Commit(s, c, news))
    ensures Advances(s.past.ever, Commit(s, c, news).past.ever)
    ensures s.past.ever.Keys <= Commit(s, c, news).past.ever.Keys
  {
    ApplyAdvances(s, c);
    RememberFollows(s.past, c, s.db.rows, Apply(s.db, c).rows, news);
  }

  /** A fact a call learned stays true: the rows it names only advance, and no
      new row takes an id it names. */
  lemma {:induction false} CommitKeepsCall(s: State, c: Change, cid: nat)
    requires Inv(s) && Legal(s, c) && cid in s.calls
    ensures CallOk(Apply(s.db, c).rows, s.calls[cid])
  {
    ApplyAdvances(s, c);
    var target := Target(s.calls[cid].request);
    if target.Some? && target.value in Apply(s.db, c).rows {
      assert Names(s.calls[cid].request, target.value);
    }
  }

  /** What the log says about a row stays true of its later versions. */
  lemma {:induction false} EventStays(a: Rows, b: Rows, e: Event)
    requires Advances(a, b) && a.Keys <= b.Keys && EventOk(a, e)
    ensures EventOk(b, e)
  {
  }

  /** Keeping the invariant, for a change that ends or advances one call. */
  lemma {:induction false} CommitKeepsInv(s: State, c: Change, news: seq<Event>, s': State)
    requires Inv(s) && Legal(s, c) && |news| <= 1
    requires s' == Commit(s, c, news).(calls := s'.calls)
    requires forall cid :: cid in s'.calls ==>
               CallOk(s'.db.rows, s'.calls[cid]) || (cid in s.calls && s.calls[cid] == s'.calls[cid])
    requires |news| == 1 ==>
               EventOk(s'.past.ever, news[0]) && Won(s.db.rows, news[0])
    ensures Inv(s')
  {
    ApplyKeepsRows(s, c);
    CommitKeepsHistory(s, c, news);
    forall cid | cid in s'.calls
      ensures CallOk(s'.db.rows, s'.calls[cid])
    {
      if cid in s.calls {
        CommitKeepsCall(s, c, cid);
      }
    }
    LogGrows(s.past, s'.past, s.db.rows, news);
  }

  lemma {:induction false} LogGrows(past: History, past': History, rows: Rows, news: seq<Event>)
    requires LogOk(past) && |news| <= 1 && past'.log == past.log + news
    requires Advances(past.ever, past'.ever) && past.ever.Keys <= past'.ever.Keys
    requires forall id :: id in rows ==> id in past.ever && past.ever[id] == rows[id]
    requires |news| == 1 ==> EventOk(past'.ever, news[0]) && Won(rows, news[0])
    ensures LogOk(past')
  {
    forall i | 0 <= i < |past'.log|
      ensures EventOk(past'.ever, past'.log[i])
    {
      if i < |past.log| {
        EventStays(past.ever, past'.ever, past.log[i]);
      }
    }
    forall i, j | 0 <= i < j < |past'.log|
      ensures !Rivals(past'.log[i], past'.log[j])
    {
      assert EventOk(past.ever, past.log[i]);
    }
  }

  // ---------- the handlers ----------

  /** What one statement of one call guarantees. */
  ghost predicate StepOk(s: State, caller: Caller, r: Request, step: Step) {
    && Legal(s, step.change)
    && (step.progress.Waiting? ==> CallOk(Apply(s.db, step.change).rows, Call(caller, r, step.progress.at)))
    && (step.progress.Done? ==>
          var e := Answered(caller, r, step.progress.reply);
          && EventOk(Commit(s, step.change, []).past.ever, e)
          && Won(s.db.rows, e))
  }

  lemma {:induction false} ProceedIsOk(rows: Rows, caller: Caller, r: Request)
    requires ValidCaller(caller)
    requires r.Create? ==> CreatePlan(caller, r).Ok?
    requires Target(r).Some? && Target(r).value in rows ==>
               CanSee(Party(caller), rows[Target(r).value].fromAgent, rows[Target(r).value].toAgent)
    ensures Proceed(caller, r).Waiting? ==> CallOk(rows, Call(caller, r, Proceed(caller, r).at))
    ensures Proceed(caller, r).Done? ==> Proceed(caller, r).reply.Refused?
  {
  }

  /** The name an accept plan settles on is a slug, and the one the caller owns. */
  lemma {:induction false} AcceptPlanRecords(caller: Caller, name: Option<string>, toAgent: Option<Text>)
    requires ValidCaller(caller) && AcceptPlan(caller, name).Ok?
    requires toAgent.Some? ==> ValidSlug(toAgent.value)
    requires AcceptPlan(caller, name).value.None? ==> toAgent.Some?
    ensures var plan := AcceptPlan(caller, name).value;
            var acceptor := if plan.Some? then plan.value else toAgent.value;
            ValidSlug(acceptor) && RecordsAcceptor(caller, name, toAgent, acceptor)
  {
  }

  /** A won accept writes a legal row that records the planned acceptor. */
  lemma {:induction false} AcceptWriteIsOk(s: State, caller: Caller, r: Request, now: Time)
    requires Inv(s) && r.Accept? && CallOk(s.db.rows, Call(caller, r, Writing))
    requires r.id in s.db.rows && s.db.rows[r.id].status.Pending?
    ensures var row := AcceptUpdate(s.db.rows, r.id, AcceptPlan(caller, r.agentName).value, now).value;
            && Legal(s, Rewrite(row))
            && row.status.Accepted? && row.acceptedBy.Some? && row.toAgent == s.db.rows[r.id].toAgent
            && RecordsAcceptor(caller, r.agentName, row.toAgent, row.acceptedBy.value)
  {
    AcceptPlanRecords(caller, r.agentName, s.db.rows[r.id].toAgent);
  }

  /** A statement that changes nothing only has to be right about what it tells
      its caller or its own next statement. */
  lemma {:induction false} KeepIsOk(s: State, caller: Caller, r: Request, p: Progress)
    requires Inv(s)
    requires p.Waiting? ==> CallOk(s.db.rows, Call(caller, r, p.at))
    requires p.Done? ==> EventOk(s.past.ever, Answered(caller, r, p.reply)) && Won(s.db.rows, Answered(caller, r, p.reply))
    ensures StepOk(s, caller, r, Step(Keep, p))
  {
    assert s.past.ever + s.db.rows == s.past.ever;
  }

  /** A statement that rewrites a row and reports it. */
  lemma {:induction false} RewriteIsOk(s: State, caller: Caller, r: Request, row: Handoff)
    requires Inv(s) && Legal(s, Rewrite(row))
    requires EventOk(s.past.ever[row.id := row], Answered(caller, r, Row(row)))
    requires Won(s.db.rows, Answered(caller, r, Row(row)))
    ensures StepOk(s, caller, r, Step(Rewrite(row), Done(Row(row))))
  {
    assert s.past.ever + s.db.rows[row.id := row] == s.past.ever[row.id := row];
  }

  lemma {:induction false} AcceptStepIsOk(s: State, caller: Caller, r: Request, at: Point, now: Time)
    requires Inv(s) && r.Accept? && !at.Seeing? && CallOk(s.db.rows, Call(caller, r, at))
    ensures StepOk(s, caller, r, AcceptStep(s.db.rows, caller, r, at, now))
  {
    if at.Writing? && r.id in s.db.rows && s.db.rows[r.id].status.Pending? {
      AcceptWriteIsOk(s, caller, r, now);
      RewriteIsOk(s, caller, r, AcceptUpdate(s.db.rows, r.id, AcceptPlan(caller, r.agentName).value, now).value);
    } else {
      KeepIsOk(s, caller, r, AcceptStep(s.db.rows, caller, r, at, now).progress);
    }
  }

  lemma {:induction false} CompleteStepIsOk(s: State, caller: Caller, r: Request, at: Point, now: Time)
    requires Inv(s) && r.Complete? && !at.Seeing? && CallOk(s.db.rows, Call(caller, r, at))
    ensures StepOk(s, caller, r, CompleteStep(s.db.rows, r, at, now))
  {
    if at.Writing? && r.id in s.db.rows && Open(s.db.rows[r.id]) {
      RewriteIsOk(s, caller, r, CompleteUpdate(s.db.rows, r.id, r.commitHash, now).value);
    } else {
      KeepIsOk(s, caller, r, CompleteStep(s.db.rows, r, at, now).progress);
    }
  }

  /** A won merge writes a legal row: its commit hash, read earlier, is still
      there. */
  lemma {:induction false} MergeWriteIsOk(s: State, caller: Caller, r: Request, now: Time)
    requires Inv(s) && r.Merge? && CallOk(s.db.rows, Call(caller, r, Writing))
    requires r.id in s.db.rows && s.db.rows[r.id].status.Completed?
    ensures var row := MergeUpdate(s.db.rows, r.id, Trim(r.mergeCommit), now).value;
            && Legal(s, Rewrite(row))
            && row.status.Merged? && row.mergeCommit == Some(Trim(r.mergeCommit))
  {
    TrimIdempotent(r.mergeCommit);
  }

  /** The reads of a merge: a success reported from them is the row's own merge,
      and a call sent on to write has seen the link to the work. */
  lemma {:induction false} MergeReadIsOk(s: State, caller: Caller, r: Request, at: Point, now: Time)
    requires Inv(s) && r.Merge? && (at.Reading? || at.Rereading?) && CallOk(s.db.rows, Call(caller, r, at))
    ensures StepOk(s, caller, r, MergeStep(s.db.rows, r, at, now))
  {
    KeepIsOk(s, caller, r, MergeStep(s.db.rows, r, at, now).progress);
  }

  lemma {:induction false} MergeStepIsOk(s: State, caller: Caller, r: Request, at: Point, now: Time)
    requires Inv(s) && r.Merge? && !at.Seeing? && CallOk(s.db.rows, Call(caller, r, at))
    ensures StepOk(s, caller, r, MergeStep(s.db.rows, r, at, now))
  {
    if !at.Writing? {
      MergeReadIsOk(s, caller, r, at, now);
    } else if r.id in s.db.rows && s.db.rows[r.id].status.Completed? {
      MergeWriteIsOk(s, caller, r, now);
      RewriteIsOk(s, caller, r, MergeUpdate(s.db.rows, r.id, Trim(r.mergeCommit), now).value);
    } else {
      KeepIsOk(s, caller, r, Waiting(Rereading));
    }
  }

  lemma {:induction false} DeleteStepIsOk(s: State, caller: Caller, r: Request, now: Time)
    requires Inv(s) && r.Delete? && CallOk(s.db.rows, Call(caller, r, Writing))
    ensures StepOk(s, caller, r, DeleteStep(s.db.rows, caller, r, now))
  {
  }

  lemma {:induction false} CreateStepIsOk(s: State, caller: Caller, r: Request, now: Time, newId: Uuid)
    requires Inv(s) && r.Create? && CallOk(s.db.rows, Call(caller, r, Writing)) && Fresh(s, newId)
    ensures StepOk(s, caller, r, CreateStep(s.db.rows, caller, r, now, newId))
  {
  }

  lemma {:induction false} StatementIsOk(s: State, cid: nat, now: Time, newId: Uuid)
    requires Inv(s) && Runnable(s, cid, newId)
    ensures var c := s.calls[cid];
            StepOk(s, c.caller, c.request, Statement(s.db.rows, c.caller, c.request, c.at, now, newId))
  {
    var c := s.calls[cid];
    if c.at.Seeing? {
      if Target(c.request).value in s.db.rows {
        var h := s.db.rows[Target(c.request).value];
        if CanSee(Party(c.caller), h.fromAgent, h.toAgent) {
          ProceedIsOk(s.db.rows, c.caller, c.request);
        }
      }
    } else {
      match c.request {
        case Accept(_, _) => AcceptStepIsOk(s, c.caller, c.request, c.at, now);
        case Complete(_, _) => CompleteStepIsOk(s, c.caller, c.request, c.at, now);
        case Merge(_, _) => MergeStepIsOk(s, c.caller, c.request, c.at, now);
        case Delete(_) => DeleteStepIsOk(s, c.caller, c.request, now);
        case Create(_, _, _, _, _, _, _, _) => CreateStepIsOk(s, c.caller, c.request, now, newId);
      }
    }
  }

  lemma {:induction false} BeginIsOk(s: State, caller: Caller, r: Request)
    requires Inv(s) && ValidCaller(caller)
    ensures StepOk(s, caller, r, Step(Keep, Begin(caller, r)))
  {
    if !(r.Create? && CreatePlan(caller, r).Err?) && !(Party(caller).Some? && Target(r).Some?) {
      ProceedIsOk(s.db.rows, caller, r);
    }
  }

  lemma {:induction false} SettleKeepsInv(s: State, cid: nat, caller: Caller, r: Request, step: Step)
    requires Inv(s) && StepOk(s, caller, r, step)
    ensures Inv(Settle(s, cid, caller, r, step, true))
  {
    var s' := Settle(s, cid, caller, r, step, true);
    var news := if step.progress.Done? then [Answered(caller, r, step.progress.reply)] else [];
    CommitKeepsInv(s, step.change, news, s');
  }

  // ---------- filings and embeddings ----------

  lemma {:induction false} FilingIsLegal(s: State, filer: Filer, f: Filing, now: Time, newId: Uuid)
    requires Inv(s) && Enabled(s, File(filer, f, now, newId))
    ensures Legal(s, InsertChange(UpsertOutcome(s.db.rows, FilingRow(filer, f, now, newId).value, now)))
  {
    var row := FilingRow(filer, f, now, newId).value;
    assert row.id == newId && RowOk(row);
    if other :| Collides(s.db.rows, row, other) {
      assert other in s.db.rows;
    }
  }

  // ---------- every step, every run ----------

  lemma {:induction false} NextKeepsInv(s: State, a: Action)
    requires Inv(s)
    ensures Inv(Next(s, a))
  {
    if Enabled(s, a) {
      match a {
        case Arrive(cid, caller, r) =>
          BeginIsOk(s, caller, r);
          SettleKeepsInv(s, cid, caller, r, Step(Keep, Begin(caller, r)));
        case Run(cid, now, newId) =>
          var c := s.calls[cid];
          StatementIsOk(s, cid, now, newId);
          SettleKeepsInv(s, cid, c.caller, c.request, Statement(s.db.rows, c.caller, c.request, c.at, now, newId));
        case Lose(cid, now, newId) =>
          var c := s.calls[cid];
          StatementIsOk(s, cid, now, newId);
          CommitKeepsInv(s, Statement(s.db.rows, c.caller, c.request, c.at, now, newId).change, [], Next(s, a));
        case Abort(cid) => CommitKeepsInv(s, Keep, [], Next(s, a));
        case File(filer, f, now, newId) =>
          FilingIsLegal(s, filer, f, now, newId);
          var row := FilingRow(filer, f, now, newId).value;
          var o := UpsertOutcome(s.db.rows, row, now);
          CommitKeepsInv(s, InsertChange(o), [Ingested(f, ReplyTo(o))], Next(s, a));
        case Embed(id, now) =>
          CommitKeepsInv(s, Stored(EmbeddingUpdate(s.db.rows, id, now)), [], Next(s, a));
      }
    }
  }

  lemma {:induction false} RunsKeepInv(s: State, run: seq<Action>)
    requires Inv(s)
    ensures Inv(Exec(s, run))
    decreases |run|
  {
    if run != [] {
      RunsKeepInv(s, run[..|run| - 1]);
      NextKeepsInv(Exec(s, run[..|run| - 1]), run[|run| - 1]);
    }
  }

  // ---------- what follows ----------

  /** Whatever the interleaving, all merges of one handoff that report success
      carry the same trimmed commit, and it is the row's while the row exists. */
  lemma {:induction false} MergesAgree(run: seq<Action>, i: nat, j: nat, id: Uuid)
    requires var log := Exec(INITIAL, run).past.log;
             i < |log| && j < |log| && MergeWin(log[i], id) && MergeWin(log[j], id)
    ensures var s := Exec(INITIAL, run);
            var commit := Trim(s.past.log[i].request.mergeCommit);
            && commit == Trim(s.past.log[j].request.mergeCommit)
            && commit != ""
            && (id in s.db.rows ==> s.db.rows[id].status.Merged? && s.db.rows[id].mergeCommit == Some(commit))
  {
    RunsKeepInv(INITIAL, run);
    var s := Exec(INITIAL, run);
    assert EventOk(s.past.ever, s.past.log[i]) && EventOk(s.past.ever, s.past.log[j]);
    EverRowsOk(INITIAL, run);
  }

  /** A merged row carries a non-blank work commit although the merging UPDATE
      tests only the status: what the earlier read saw cannot be undone. */
  lemma {:induction false} MergedRowsAreLinked(run: seq<Action>, id: Uuid)
    requires id in Exec(INITIAL, run).db.rows && Exec(INITIAL, run).db.rows[id].status.Merged?
    ensures var h := Exec(INITIAL, run).db.rows[id];
            && h.commitHash.Some? && !Blank(h.commitHash.value)
            && h.mergeCommit.Some? && !Blank(h.mergeCommit.value)
  {
    RunsKeepInv(INITIAL, run);
  }

  lemma {:induction false} WinnersAreRivals(a: Event, b: Event, id: Uuid)
    requires (AcceptWin(a, id) && AcceptWin(b, id)) || (CompleteWin(a, id) && CompleteWin(b, id))
    ensures Rivals(a, b)
  {
  }

  /** At most one accept and at most one complete of a handoff report success. */
  lemma {:induction false} TransitionsHaveOneWinner(run: seq<Action>, i: nat, j: nat, id: Uuid)
    requires var log := Exec(INITIAL, run).past.log;
             i < |log| && j < |log|
             && ((AcceptWin(log[i], id) && AcceptWin(log[j], id)) || (CompleteWin(log[i], id) && CompleteWin(log[j], id)))
    ensures i == j
  {
    RunsKeepInv(INITIAL, run);
    var log := Exec(INITIAL, run).past.log;
    WinnersAreRivals(log[i], log[j], id);
    WinnersAreRivals(log[j], log[i], id);
  }

  /** The winner of an accept recorded the identity it was entitled to, and the
      row still carries it; the winner of a complete set the work commit. */
  lemma {:induction false} WinnersAreRecorded(run: seq<Action>, i: nat, id: Uuid)
    requires i < |Exec(INITIAL, run).past.log| && id in Exec(INITIAL, run).db.rows
    ensures var s := Exec(INITIAL, run);
            var e, h := s.past.log[i], s.db.rows[id];
            && (AcceptWin(e, id) ==>
                  && h.acceptedBy.Some? && ValidSlug(h.acceptedBy.value)
                  && RecordsAcceptor(e.caller, e.request.agentName, h.toAgent, h.acceptedBy.value))
            && (CompleteWin(e, id) ==> h.commitHash == e.request.commitHash)
  {
    RunsKeepInv(INITIAL, run);
    var s := Exec(INITIAL, run);
    assert EventOk(s.past.ever, s.past.log[i]);
  }

  // ---------- rows only move forward ----------

  ghost predicate EverOk(s: State) {
    forall id :: id in s.past.ever ==> s.past.ever[id].id == id && RowOk(s.past.ever[id])
  }

  lemma {:induction false} NextAdvances(s: State, a: Action)
    requires Inv(s)
    ensures Advances(s.past.ever, Next(s, a).past.ever)
    ensures s.past.ever.Keys <= Next(s, a).past.ever.Keys
    ensures forall id :: id in Next(s, a).db.rows ==> id in s.db.rows || id !in s.past.ever
    ensures forall id :: id in Next(s, a).past.ever ==> id in s.past.ever || id in Next(s, a).db.rows
    ensures forall id :: id in s.past.ever && id !in Next(s, a).db.rows ==> Next(s, a).past.ever[id] == s.past.ever[id]
  {
    if Enabled(s, a) {
      ChangeIsLegal(s, a);
      NextCommits(s, a);
      ApplyAdvances(s, ChangeOf(s, a));
      RememberFollows(s.past, ChangeOf(s, a), s.db.rows, Next(s, a).db.rows, NewsOf(s, a));
    } else {
      AdvancesReflexive(s.past.ever);
    }
  }

  lemma {:induction false} AdvancesReflexive(rows: Rows)
    ensures Advances(rows, rows)
  {
  }

  /** The change an enabled action makes to the tables. */
  ghost function ChangeOf(s: State, a: Action): Change
    requires Enabled(s, a)
  {
    match a
    case Run(cid, now, newId) =>
      var c := s.calls[cid];
      Statement(s.db.rows, c.caller, c.request, c.at, now, newId).change
    case Lose(cid, now, newId) =>
      var c := s.calls[cid];
      Statement(s.db.rows, c.caller, c.request, c.at, now, newId).change
    case File(filer, f, now, newId) =>
      InsertChange(UpsertOutcome(s.db.rows, FilingRow(filer, f, now, newId).value, now))
    case Embed(id, now) => Stored(EmbeddingUpdate(s.db.rows, id, now))
    case _ => Keep
  }

  lemma {:induction false} ChangeIsLegal(s: State, a: Action)
    requires Inv(s) && Enabled(s, a)
    ensures Legal(s, ChangeOf(s, a))
  {
    match a {
      case Run(cid, now, newId) => StatementIsOk(s, cid, now, newId);
      case Lose(cid, now, newId) => StatementIsOk(s, cid, now, newId);
      case File(filer, f, now, newId) => FilingIsLegal(s, filer, f, now, newId);
      case Arrive(_, _, _) =>
      case Abort(_) =>
      case Embed(_, _) =>
    }
  }

  /** The replies and filings an enabled action adds to the log. */
  ghost function NewsOf(s: State, a: Action): seq<Event>
    requires Enabled(s, a)
  {
    match a
    case Arrive(_, caller, r) =>
      var p := Begin(caller, r);
      if p.Done? then [Answered(caller, r, p.reply)] else []
    case Run(cid, now, newId) =>
      var c := s.calls[cid];
      var p := Statement(s.db.rows, c.caller, c.request, c.at, now, newId).progress;
      if p.Done? then [Answered(c.caller, c.request, p.reply)] else []
    case File(filer, f, now, newId) =>
      var row := FilingRow(filer, f, now, newId).value;
      [Ingested(f, ReplyTo(UpsertOutcome(s.db.rows, row, now)))]
    case _ => []
  }

  lemma {:induction false} NextCommits(s: State, a: Action)
    requires Enabled(s, a)
    ensures Next(s, a).db == Apply(s.db, ChangeOf(s, a))
    ensures Next(s, a).past == Remember(s.past, ChangeOf(s, a), Next(s, a).db.rows, NewsOf(s, a))
  {
    match a {
      case Arrive(_, _, _) =>
      case Run(_, _, _) =>
      case Lose(_, _, _) =>
      case Abort(_) =>
      case File(_, _, _, _) =>
      case Embed(_, _) =>
    }
  }

  lemma {:induction false} EverRowsOk(s: State, run: seq<Action>)
    requires Inv(s) && EverOk(s)
    ensures EverOk(Exec(s, run))
    decreases |run|
  {
    if run != [] {
      var mid := Exec(s, run[..|run| - 1]);
      EverRowsOk(s, run[..|run| - 1]);
      RunsKeepInv(s, run[..|run| - 1]);
      NextAdvances(mid, run[|run| - 1]);
      RunsKeepInv(s, run);
    }
  }

  /** Over any run a row only moves forward, even across its deletion: the
      acceptor, the work commit and the merge commit are fixed once set, and a
      deleted id never comes back. */
  lemma {:induction false} RunsOnlyAdvance(s: State, run: seq<Action>)
    requires Inv(s)
    ensures Advances(s.past.ever, Exec(s, run).past.ever)
    ensures s.past.ever.Keys <= Exec(s, run).past.ever.Keys
    ensures forall id :: id in s.past.ever && id !in s.db.rows ==> id !in Exec(s, run).db.rows
    decreases |run|
  {
    if run != [] {
      var mid := Exec(s, run[..|run| - 1]);
      RunsOnlyAdvance(s, run[..|run| - 1]);
      RunsKeepInv(s, run[..|run| - 1]);
      NextAdvances(mid, run[|run| - 1]);
      forall id | id in s.past.ever
        ensures Later(s.past.ever[id], Exec(s, run).past.ever[id])
      {
        LaterTransitive(s.past.ever[id], mid.past.ever[id], Exec(s, run).past.ever[id]);
      }
    }
  }

  lemma {:induction false} AcceptorNeverChanges(before: seq<Action>, after: seq<Action>, id: Uuid)
    requires var s, s' := Exec(INITIAL, before), Exec(Exec(INITIAL, before), after);
             id in s.db.rows && !s.db.rows[id].status.Pending? && id in s'.db.rows
    ensures var s, s' := Exec(INITIAL, before), Exec(Exec(INITIAL, before), after);
            s'.db.rows[id].acceptedBy == s.db.rows[id].acceptedBy
  {
    var s := Exec(INITIAL, before);
    RunsKeepInv(INITIAL, before);
    RunsKeepInv(s, after);
    RunsOnlyAdvance(s, after);
  }
}
