/** What callers are told: a refusal names a fact about the row that was true,
    and explains why the call lost, in every run. */
module Replies {
  import opened Prelude
  import opened Slugs
  import opened Callers
  import opened Handoffs
  import opened Coordination
  import opened Bus
  import opened Protocol

  // ---------- what a refusal claims ----------

  /** The row has been in this status, on its way forward. */
  predicate Reached(ever: Rows, id: Uuid, status: Status) {
    id in ever && Rank(status) <= Rank(ever[id].status)
  }

  /** A refused call is told a status that does refuse it. */
  predicate Refuses(r: Request, status: Status) {
    match r
    case Accept(_, _) => !status.Pending?
    case Complete(_, _) => status.Completed? || status.Merged?
    case Merge(_, _) => status.Pending? || status.Accepted?
    case _ => false
  }

  /** The name a request speaks in, as given. */
  function ClaimedName(r: Request): Option<string> {
    match r
    case Accept(_, name) => name
    case Create(from, _, _, _, _, _, _, _) => Some(from)
    case _ => None
  }

  /** What stays true of a refusal: facts about the request and its caller, or
      about what the row it names has been. */
  predicate Truthful(ever: Rows, caller: Caller, r: Request, why: Refusal) {
    match why
    case BadAgentName =>
      || (r.Accept? && r.agentName.Some? && !ValidSlug(Trim(r.agentName.value)))
      || (r.Create? && !ValidSlug(Trim(r.fromAgent)))
    case BadRecipient => r.Create? && r.toAgent.Some? && !ValidSlug(Trim(r.toAgent.value))
    case BadTitle => r.Create? && (Blank(r.title) || ByteLength(r.title) > MAX_TITLE_BYTES)
    case BadBody => r.Create? && (Blank(r.body) || ByteLength(r.body) > MAX_BODY_BYTES)
    case BadContext =>
      r.Create? && r.context.Some? && (!r.context.value.isObject || r.context.value.bytes > MAX_CONTEXT_BYTES)
    case IdentityMismatch =>
      && ClaimedName(r).Some?
      && var claimed := Trim(ClaimedName(r).value); ValidSlug(claimed) && !MayClaim(caller, claimed)
    case FamilyNeedsName => r.Accept? && r.agentName.None? && caller.Bound? && IsFamily(caller.binding)
    case BroadcastNeedsName =>
      r.Accept? && r.agentName.None? && caller.Unbound? && r.id in ever && ever[r.id].toAgent.None?
    case EmptyMergeCommit => r.Merge? && Blank(r.mergeCommit)
    case MissingCommitHash =>
      && r.Merge? && r.id in ever && !Open(ever[r.id])
      && (ever[r.id].commitHash.Some? ==> Blank(ever[r.id].commitHash.value))
    case AlreadyMergedAs(commit) =>
      && r.Merge? && r.id in ever && ever[r.id].status.Merged?
      && commit.Some? && commit == ever[r.id].mergeCommit && commit.value != Trim(r.mergeCommit)
    case WrongStatus(status) => Refuses(r, status) && !r.Create? && Reached(ever, r.id, status)
    case DatabaseError(outcome) => r.Create? && r.parent.Some? && outcome == ForeignKeyViolation
  }

  predicate EventTruthful(ever: Rows, e: Event) {
    e.Answered? && e.reply.Refused? ==> Truthful(ever, e.caller, e.request, e.reply.why)
  }

  /** After a lost write the row, if it is still there, has moved past what the
      write needed. */
  predicate LostFor(rows: Rows, c: Call) {
    c.at.Rereading? && !c.request.Create? && c.request.id in rows ==>
      var status := rows[c.request.id].status;
      match c.request
      case Accept(_, _) => !status.Pending?
      case Complete(_, _) => status.Completed? || status.Merged?
      case Merge(_, _) => status.Merged?
      case _ => false
  }

  /** Only an unbound accept that names nobody stops to read the recipient. */
  predicate ReadsFor(c: Call) {
    c.at.Reading? && c.request.Accept? ==> c.request.agentName.None? && c.caller.Unbound?
  }

  predicate Told(rows: Rows, c: Call) {
    LostFor(rows, c) && ReadsFor(c)
  }

  ghost predicate RepliesOk(s: State) {
    && (forall cid :: cid in s.calls ==> Told(s.db.rows, s.calls[cid]))
    && (forall i :: 0 <= i < |s.past.log| ==> EventTruthful(s.past.ever, s.past.log[i]))
  }

  // ---------- preservation ----------

  lemma {:induction false} TruthStays(a: Rows, b: Rows, e: Event)
    requires Advances(a, b) && a.Keys <= b.Keys && EventTruthful(a, e)
    requires forall id :: id in b ==> RowOk(b[id])
    ensures EventTruthful(b, e)
  {
    if e.Answered? && !e.request.Create? && e.request.id in a {
      assert Later(a[e.request.id], b[e.request.id]);
    }
  }

  /** A lost write stays lost: rows only move forward and ids are not reused. */
  lemma {:induction false} LossStays(rows: Rows, rows': Rows, c: Call)
    requires Advances(rows, rows') && LostFor(rows, c)
    requires Target(c.request).Some? && Target(c.request).value in rows' ==> Target(c.request).value in rows
    ensures LostFor(rows', c)
  {
    if !c.request.Create? && c.request.id in rows' {
      assert Later(rows[c.request.id], rows'[c.request.id]);
    }
  }

  lemma {:induction false} NamedIdsStayAway(s: State, a: Action, cid: nat)
    requires Inv(s) && Enabled(s, a) && cid in s.calls
    ensures var target := Target(s.calls[cid].request);
            target.Some? && target.value in Next(s, a).db.rows ==> target.value in s.db.rows
    ensures Advances(s.db.rows, Next(s, a).db.rows)
  {
    ChangeIsLegal(s, a);
    NextCommits(s, a);
    ApplyAdvances(s, ChangeOf(s, a));
    var target := Target(s.calls[cid].request);
    if target.Some? {
      assert Names(s.calls[cid].request, target.value);
    }
  }

  /** A statement sends its call on to explain a loss only when it lost. */
  lemma {:induction false} LossIsExplained(s: State, cid: nat, now: Time, newId: Uuid)
    requires Inv(s) && Runnable(s, cid, newId)
    ensures var c := s.calls[cid];
            var step := Statement(s.db.rows, c.caller, c.request, c.at, now, newId);
            step.progress.Waiting? ==> Told(Apply(s.db, step.change).rows, Call(c.caller, c.request, step.progress.at))
  {
    assert CallOk(s.db.rows, s.calls[cid]);
  }

  lemma {:induction false} BeginIsTold(rows: Rows, caller: Caller, r: Request)
    ensures Begin(caller, r).Waiting? ==> Told(rows, Call(caller, r, Begin(caller, r).at))
  {
  }

  lemma {:induction false} NextKeepsTold(s: State, a: Action, cid: nat)
    requires Inv(s) && RepliesOk(s) && Enabled(s, a) && cid in Next(s, a).calls
    ensures Told(Next(s, a).db.rows, Next(s, a).calls[cid])
  {
    if cid in s.calls && s.calls[cid] == Next(s, a).calls[cid] {
      NamedIdsStayAway(s, a, cid);
      LossStays(s.db.rows, Next(s, a).db.rows, s.calls[cid]);
    } else {
      match a {
        case Arrive(_, caller, r) => BeginIsTold(Next(s, a).db.rows, caller, r);
        case Run(_, now, newId) => LossIsExplained(s, cid, now, newId);
        case _ =>
      }
    }
  }

  /** What every statement of a call can count on to answer truthfully. */
  ghost predicate Grounded(rows: Rows, ever: Rows, c: Call) {
    && CallOk(rows, c) && Told(rows, c)
    && (forall id :: id in rows ==> id in ever && ever[id] == rows[id] && RowOk(rows[id]))
  }

  lemma {:induction false} SeeTellsTruth(rows: Rows, ever: Rows, c: Call)
    requires Grounded(rows, ever, c) && c.at.Seeing?
    ensures var p := SeeStep(rows, c.caller, c.request).progress;
            p.Done? ==> EventTruthful(ever, Answered(c.caller, c.request, p.reply))
  {
  }

  lemma {:induction false} AcceptTellsTruth(rows: Rows, ever: Rows, c: Call, now: Time)
    requires Grounded(rows, ever, c) && c.request.Accept? && !c.at.Seeing?
    ensures var p := AcceptStep(rows, c.caller, c.request, c.at, now).progress;
            p.Done? ==> EventTruthful(ever, Answered(c.caller, c.request, p.reply))
  {
  }

  lemma {:induction false} CompleteTellsTruth(rows: Rows, ever: Rows, c: Call, now: Time)
    requires Grounded(rows, ever, c) && c.request.Complete? && !c.at.Seeing?
    ensures var p := CompleteStep(rows, c.request, c.at, now).progress;
            p.Done? ==> EventTruthful(ever, Answered(c.caller, c.request, p.reply))
  {
  }

  lemma {:induction false} MergeTellsTruth(rows: Rows, ever: Rows, c: Call, now: Time)
    requires Grounded(rows, ever, c) && c.request.Merge? && !c.at.Seeing?
    ensures var p := MergeStep(rows, c.request, c.at, now).progress;
            p.Done? ==> EventTruthful(ever, Answered(c.caller, c.request, p.reply))
  {
  }

  lemma {:induction false} CreateTellsTruth(rows: Rows, ever: Rows, c: Call, now: Time, newId: Uuid)
    requires Grounded(rows, ever, c) && c.request.Create? && !c.at.Seeing? && newId !in rows
    ensures var p := CreateStep(rows, c.caller, c.request, now, newId).progress;
            p.Done? ==> EventTruthful(ever, Answered(c.caller, c.request, p.reply))
  {
  }

  lemma {:induction false} StatementTellsTruth(s: State, cid: nat, now: Time, newId: Uuid)
    requires Inv(s) && RepliesOk(s) && Runnable(s, cid, newId)
    ensures var c := s.calls[cid];
            var p := Statement(s.db.rows, c.caller, c.request, c.at, now, newId).progress;
            p.Done? ==> EventTruthful(s.past.ever, Answered(c.caller, c.request, p.reply))
  {
    var rows, ever, c := s.db.rows, s.past.ever, s.calls[cid];
    assert Grounded(rows, ever, c);
    if c.at.Seeing? {
      SeeTellsTruth(rows, ever, c);
    } else {
      match c.request {
        case Accept(_, _) => AcceptTellsTruth(rows, ever, c, now);
        case Complete(_, _) => CompleteTellsTruth(rows, ever, c, now);
        case Merge(_, _) => MergeTellsTruth(rows, ever, c, now);
        case Delete(_) =>
        case Create(_, _, _, _, _, _, _, _) => CreateTellsTruth(rows, ever, c, now, newId);
      }
    }
  }

  lemma {:induction false} BeginTellsTruth(ever: Rows, caller: Caller, r: Request)
    ensures Begin(caller, r).Done? ==> EventTruthful(ever, Answered(caller, r, Begin(caller, r).reply))
  {
  }

  lemma {:induction false} NewsIsTruthful(s: State, a: Action)
    requires Inv(s) && RepliesOk(s) && Enabled(s, a) && NewsOf(s, a) != []
    ensures EventTruthful(s.past.ever, NewsOf(s, a)[0])
  {
    match a {
      case Arrive(_, caller, r) => BeginTellsTruth(s.past.ever, caller, r);
      case Run(cid, now, newId) => StatementTellsTruth(s, cid, now, newId);
      case _ =>
    }
  }

  lemma {:induction false} LogStaysTruthful(log: seq<Event>, news: seq<Event>, ever: Rows, ever': Rows)
    requires Advances(ever, ever') && ever.Keys <= ever'.Keys && |news| <= 1
    requires forall id :: id in ever' ==> RowOk(ever'[id])
    requires forall i :: 0 <= i < |log| ==> EventTruthful(ever, log[i])
    requires |news| == 1 ==> EventTruthful(ever, news[0])
    ensures forall i :: 0 <= i < |log + news| ==> EventTruthful(ever', (log + news)[i])
  {
    forall i | 0 <= i < |log + news| ensures EventTruthful(ever', (log + news)[i]) {
      TruthStays(ever, ever', (log + news)[i]);
    }
  }

  lemma {:induction false} NextLogIsTruthful(s: State, a: Action)
    requires Inv(s) && EverOk(Next(s, a)) && RepliesOk(s) && Enabled(s, a)
    ensures forall i :: 0 <= i < |Next(s, a).past.log| ==> EventTruthful(Next(s, a).past.ever, Next(s, a).past.log[i])
  {
    var news := NewsOf(s, a);
    NextCommits(s, a);
    NextAdvances(s, a);
    if news != [] { NewsIsTruthful(s, a); }
    LogStaysTruthful(s.past.log, news, s.past.ever, Next(s, a).past.ever);
  }

  lemma {:induction false} NextKeepsReplies(s: State, a: Action)
    requires Inv(s) && EverOk(Next(s, a)) && RepliesOk(s)
    ensures RepliesOk(Next(s, a))
  {
    if Enabled(s, a) {
      forall cid | cid in Next(s, a).calls ensures Told(Next(s, a).db.rows, Next(s, a).calls[cid]) {
        NextKeepsTold(s, a, cid);
      }
      NextLogIsTruthful(s, a);
    }
  }

  lemma {:induction false} RunsKeepReplies(run: seq<Action>)
    ensures RepliesOk(Exec(INITIAL, run))
    decreases |run|
  {
    if run != [] {
      var before := run[..|run| - 1];
      RunsKeepReplies(before);
      RunsKeepInv(INITIAL, before);
      EverRowsOk(INITIAL, run);
      NextKeepsReplies(Exec(INITIAL, before), run[|run| - 1]);
    }
  }

  // ---------- theorems ----------

  /** Whatever ran in between, every refusal sent is true, each reason in its own
      sense: a status named was reached and does refuse the call, a merge refused
      for another commit names the one on the row, a merge refused for lack of a
      link hit a row that has none for good, a name refused is not the caller's. */
  lemma {:induction false} RefusalsAreTruthful(run: seq<Action>, i: nat)
    requires i < |Exec(INITIAL, run).past.log|
    ensures EventTruthful(Exec(INITIAL, run).past.ever, Exec(INITIAL, run).past.log[i])
  {
    RunsKeepReplies(run);
  }

  /** What a reply says about the table it was computed on and the one it left.
      The other refusals speak of the request alone; `Truthful` says what. */
  predicate AnswersFor(rows: Rows, rows': Rows, caller: Caller, r: Request, reply: Reply) {
    match reply
    case Row(h) => h.id in rows' && rows'[h.id] == h && (if r.Create? then h.id !in rows else h.id == r.id)
    case Deleted => r.Delete? && r.id in rows && r.id !in rows'
    case NotFound => Target(r).Some? && !Inside(rows, caller, Target(r).value) && rows' == rows
    case Refused(why) =>
      && rows' == rows
      && match why
         case WrongStatus(status) => !r.Create? && r.id in rows && rows[r.id].status == status
         case AlreadyMergedAs(commit) => !r.Create? && r.id in rows && rows[r.id].mergeCommit == commit
         case BroadcastNeedsName => !r.Create? && r.id in rows && rows[r.id].toAgent.None?
         case MissingCommitHash =>
           && !r.Create? && r.id in rows && rows[r.id].status.Completed?
           && (rows[r.id].commitHash.Some? ==> Blank(rows[r.id].commitHash.value))
         case DatabaseError(_) => r.Create? && r.parent.Some? && r.parent.value !in rows
         case _ => true
  }

  lemma {:induction false} AcceptAnswersFor(db: Db, ever: Rows, c: Call, now: Time)
    requires Grounded(db.rows, ever, c) && c.request.Accept? && !c.at.Seeing? && RowsOk(db.rows)
    ensures var step := AcceptStep(db.rows, c.caller, c.request, c.at, now);
            step.progress.Done? ==> AnswersFor(db.rows, Apply(db, step.change).rows, c.caller, c.request, step.progress.reply)
  {
  }

  lemma {:induction false} MergeAnswersFor(db: Db, ever: Rows, c: Call, now: Time)
    requires Grounded(db.rows, ever, c) && c.request.Merge? && !c.at.Seeing? && RowsOk(db.rows)
    ensures var step := MergeStep(db.rows, c.request, c.at, now);
            step.progress.Done? ==> AnswersFor(db.rows, Apply(db, step.change).rows, c.caller, c.request, step.progress.reply)
  {
  }

  lemma {:induction false} CompleteAnswersFor(db: Db, ever: Rows, c: Call, now: Time)
    requires Grounded(db.rows, ever, c) && c.request.Complete? && !c.at.Seeing? && RowsOk(db.rows)
    ensures var step := CompleteStep(db.rows, c.request, c.at, now);
            step.progress.Done? ==> AnswersFor(db.rows, Apply(db, step.change).rows, c.caller, c.request, step.progress.reply)
  {
  }

  lemma {:induction false} CreateAnswersFor(db: Db, ever: Rows, c: Call, now: Time, newId: Uuid)
    requires Grounded(db.rows, ever, c) && c.request.Create? && !c.at.Seeing? && newId !in db.rows
    ensures var step := CreateStep(db.rows, c.caller, c.request, now, newId);
            step.progress.Done? ==> AnswersFor(db.rows, Apply(db, step.change).rows, c.caller, c.request, step.progress.reply)
  {
  }

  lemma {:induction false} StatementAnswersFor(s: State, cid: nat, now: Time, newId: Uuid)
    requires Inv(s) && RepliesOk(s) && Runnable(s, cid, newId)
    ensures var c := s.calls[cid];
            var step := Statement(s.db.rows, c.caller, c.request, c.at, now, newId);
            step.progress.Done? ==>
              AnswersFor(s.db.rows, Apply(s.db, step.change).rows, c.caller, c.request, step.progress.reply)
  {
    var db, ever, c := s.db, s.past.ever, s.calls[cid];
    assert Grounded(db.rows, ever, c);
    if c.at.Seeing? {
      assert Target(c.request).Some?;
    } else {
      match c.request {
        case Accept(_, _) => AcceptAnswersFor(db, ever, c, now);
        case Complete(_, _) => CompleteAnswersFor(db, ever, c, now);
        case Merge(_, _) => MergeAnswersFor(db, ever, c, now);
        case Delete(_) =>
        case Create(_, _, _, _, _, _, _, _) => CreateAnswersFor(db, ever, c, now, newId);
      }
    }
  }

  lemma {:induction false} BeginAnswersFor(rows: Rows, caller: Caller, r: Request)
    ensures Begin(caller, r).Done? ==> AnswersFor(rows, rows, caller, r, Begin(caller, r).reply)
  {
  }

  /** In every run each reply is true of the moment it is computed: a row shown is
      the row as it then stands, a deletion has happened, "not found" means absent
      or hidden from this caller, a refusal changes nothing and names the status,
      the commit or the missing parent that is really there. */
  lemma {:induction false} RepliesAreTrueWhenSent(run: seq<Action>, a: Action)
    requires var s := Exec(INITIAL, run);
             Enabled(s, a) && |NewsOf(s, a)| == 1 && NewsOf(s, a)[0].Answered?
    ensures var s := Exec(INITIAL, run);
            var e := NewsOf(s, a)[0];
            && Next(s, a).past.log == s.past.log + [e]
            && AnswersFor(s.db.rows, Next(s, a).db.rows, e.caller, e.request, e.reply)
  {
    var s := Exec(INITIAL, run);
    RunsKeepInv(INITIAL, run);
    RunsKeepReplies(run);
    NextCommits(s, a);
    match a {
      case Arrive(_, caller, r) => BeginAnswersFor(s.db.rows, caller, r);
      case Run(cid, now, newId) => StatementAnswersFor(s, cid, now, newId);
      case _ =>
    }
  }
}
