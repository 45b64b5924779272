/** Who may write what: every row on the bus was filed under an identity its
    filer was entitled to, and a restricted caller changes only what it can see. */
module Authority {
  import opened Prelude
  import opened Slugs
  import opened Callers
  import opened Handoffs
  import opened Coordination
  import opened Ingestion
  import opened Bus
  import opened Protocol

  // ---------- filings ----------

  /** What every row starts as, whoever makes it. */
  predicate JustMade(row: Handoff, id: Uuid, now: Time) {
    && row.id == id && row.status.Pending? && row.acceptedBy.None?
    && row.commitHash.None? && row.mergeCommit.None? && row.mergedAt.None?
    && row.repeatCount == 0 && row.createdAt == row.updatedAt == now
  }

  /** A filing that reaches the table says what was filed, and carries the
      identity and the recipient the filer is entitled to: a machine its own name
      and an allowed agent, the operator the valid names given. */
  predicate FiledBy(filer: Filer, f: Filing, row: Handoff) {
    && (row.dedupeKey, row.title, row.body, row.priority, row.category)
       == (f.dedupeKey, f.title, f.body, f.priority, f.category)
    && row.origin.FromMachine? && row.inReplyTo.None?
    && row.toAgent.Some? && f.toAgent.Some? && row.toAgent.value == Trim(f.toAgent.value)
    && ValidSlug(row.toAgent.value)
    && match filer
       case Machine(name, agents) =>
         && row.fromAgent == name
         && (f.fromAgent.Some? ==> IsAscii(f.fromAgent.value) && EqFold(f.fromAgent.value, name))
         && AllowsAgent(agents, row.toAgent.value)
       case Operator =>
         f.fromAgent.Some? && row.fromAgent == Trim(f.fromAgent.value) && ValidSlug(row.fromAgent)
       case AgentToken => false
  }

  lemma {:induction false} FilingsAreBound(filer: Filer, f: Filing, now: Time, newId: Uuid)
    requires FilingRow(filer, f, now, newId).Ok?
    ensures FiledBy(filer, f, FilingRow(filer, f, now, newId).value)
    ensures JustMade(FilingRow(filer, f, now, newId).value, newId, now)
  {
  }

  // ---------- creations ----------

  /** The call whose statement this action runs. */
  predicate RunsCall(a: Action, cid: nat) {
    (a.Run? || a.Lose?) && a.cid == cid
  }

  predicate TextFits(s: string, max: nat) {
    Trim(s) != "" && ByteLength(s) <= max
  }

  predicate ContextFits(context: Option<Coordination.Context>) {
    context.Some? ==> context.value.isObject && context.value.bytes <= 8192
  }

  /** The row says what the request said, under the name and to the recipient it
      gave, a broadcast when it gave none. */
  predicate Requested(r: Request, row: Handoff) {
    && r.Create?
    && (row.title, row.body, row.priority, row.category, row.inReplyTo)
       == (r.title, r.body, r.priority, r.category, r.parent)
    && TextFits(r.title, 200) && TextFits(r.body, 100_000) && ContextFits(r.context)
    && row.origin.FromAgent? && row.dedupeKey.None?
    && row.fromAgent == Trim(r.fromAgent) && ValidSlug(row.fromAgent)
    && (row.toAgent.Some? <==> r.toAgent.Some?)
    && (row.toAgent.Some? ==> row.toAgent.value == Trim(r.toAgent.value) && ValidSlug(row.toAgent.value))
  }

  /** The row was created by this action as its author asked, under an identity
      the author holds. */
  ghost predicate CreatedBy(s: State, a: Action, row: Handoff) {
    if a.File? then FiledBy(a.filer, a.filing, row) && JustMade(row, a.newId, a.now)
    else
      exists cid ::
        && RunsCall(a, cid) && cid in s.calls && Requested(s.calls[cid].request, row)
        && JustMade(row, a.newId, a.now)
        && MayClaim(s.calls[cid].caller, row.fromAgent)
        && (row.inReplyTo.Some? ==> Inside(s.db.rows, s.calls[cid].caller, row.inReplyTo.value))
  }

  lemma {:induction false} CreationIsAuthentic(s: State, cid: nat, now: Time, newId: Uuid)
    requires Inv(s) && Runnable(s, cid, newId)
    requires Statement(s.db.rows, s.calls[cid].caller, s.calls[cid].request, s.calls[cid].at, now, newId).change.Add?
    ensures var c := s.calls[cid];
            var row := Statement(s.db.rows, c.caller, c.request, c.at, now, newId).change.row;
            && Requested(c.request, row) && JustMade(row, newId, now) && MayClaim(c.caller, row.fromAgent)
            && (row.inReplyTo.Some? ==> Inside(s.db.rows, c.caller, row.inReplyTo.value))
  {
    assert CallOk(s.db.rows, s.calls[cid]);
  }

  lemma {:induction false} AddedRowsAreAuthentic(s: State, a: Action)
    requires Inv(s) && Enabled(s, a) && ChangeOf(s, a).Add?
    ensures CreatedBy(s, a, ChangeOf(s, a).row)
  {
    match a {
      case Run(cid, now, newId) =>
        CreationIsAuthentic(s, cid, now, newId);
        assert RunsCall(a, cid);
      case Lose(cid, now, newId) =>
        CreationIsAuthentic(s, cid, now, newId);
        assert RunsCall(a, cid);
      case File(filer, f, now, newId) =>
        FilingsAreBound(filer, f, now, newId);
      case _ =>
    }
  }

  /** In every run, whoever makes a handoff appear holds the identity it is filed
      under, the row is what was asked for, and a reply's parent was there for its
      author to see. */
  lemma {:induction false} SendersAreAuthentic(run: seq<Action>, a: Action, id: Uuid)
    requires var s := Exec(INITIAL, run); id in Next(s, a).db.rows && id !in s.db.rows
    ensures var s := Exec(INITIAL, run);
            Enabled(s, a) && CreatedBy(s, a, Next(s, a).db.rows[id])
  {
    var s := Exec(INITIAL, run);
    RunsKeepInv(INITIAL, run);
    NextCommits(s, a);
    ChangeIsLegal(s, a);
    ApplyAdvances(s, ChangeOf(s, a));
    AddedRowsAreAuthentic(s, a);
  }

  // ---------- writes ----------

  /** The row is as it was, but for an unlinked parent and the time stamp. */
  predicate Untouched(before: Handoff, after: Handoff) {
    after == before.(inReplyTo := after.inReplyTo, updatedAt := after.updatedAt)
    && (after.inReplyTo == before.inReplyTo || after.inReplyTo.None?)
  }

  lemma {:induction false} OtherRowsUntouched(db: Db, c: Change, id: Uuid)
    requires id in db.rows
    requires c.Add? || c.Rewrite? ==> c.row.id != id
    requires c.Drop? ==> c.id != id
    ensures id in Apply(db, c).rows && Untouched(db.rows[id], Apply(db, c).rows[id])
  {
  }

  lemma {:induction false} StatementWritesInside(s: State, cid: nat, now: Time, newId: Uuid)
    requires Inv(s) && Runnable(s, cid, newId)
    ensures var c := s.calls[cid];
            var change := Statement(s.db.rows, c.caller, c.request, c.at, now, newId).change;
            && (change.Rewrite? ==> Inside(s.db.rows, c.caller, change.row.id))
            && (change.Drop? ==> Inside(s.db.rows, c.caller, change.id))
  {
    assert CallOk(s.db.rows, s.calls[cid]);
  }

  lemma {:induction false} StepWritesInside(s: State, a: Action, cid: nat, id: Uuid)
    requires Inv(s) && RunsCall(a, cid) && Enabled(s, a)
    requires id in s.db.rows && !Inside(s.db.rows, s.calls[cid].caller, id)
    ensures id in Next(s, a).db.rows && Untouched(s.db.rows[id], Next(s, a).db.rows[id])
  {
    NextCommits(s, a);
    ChangeIsLegal(s, a);
    StatementWritesInside(s, cid, a.now, a.newId);
    OtherRowsUntouched(s.db, ChangeOf(s, a), id);
  }

  /** The visibility read happens before the write, other callers' statements in
      between; still no run lets a call change or delete a row outside what its
      caller may see. */
  lemma {:induction false} WritesStayInside(run: seq<Action>, a: Action, cid: nat, id: Uuid)
    requires var s := Exec(INITIAL, run);
             RunsCall(a, cid) && Enabled(s, a) && id in s.db.rows && !Inside(s.db.rows, s.calls[cid].caller, id)
    ensures var s := Exec(INITIAL, run);
            id in Next(s, a).db.rows && Untouched(s.db.rows[id], Next(s, a).db.rows[id])
  {
    RunsKeepInv(INITIAL, run);
    StepWritesInside(Exec(INITIAL, run), a, cid, id);
  }

  // ---------- acceptances ----------

  /** This action ran the accept of a caller that may see the row and is entitled
      to the acceptor recorded. */
  ghost predicate AcceptedBy(s: State, a: Action, row: Handoff) {
    exists cid ::
      && RunsCall(a, cid) && cid in s.calls
      && s.calls[cid].request.Accept? && s.calls[cid].request.id == row.id
      && CanSee(Party(s.calls[cid].caller), row.fromAgent, row.toAgent)
      && row.acceptedBy.Some? && ValidSlug(row.acceptedBy.value)
      && RecordsAcceptor(s.calls[cid].caller, s.calls[cid].request.agentName, row.toAgent, row.acceptedBy.value)
  }

  lemma {:induction false} AcceptanceIsAuthentic(s: State, cid: nat, now: Time, newId: Uuid, id: Uuid)
    requires Inv(s) && Runnable(s, cid, newId) && id in s.db.rows && s.db.rows[id].status.Pending?
    requires var c := s.calls[cid];
             var change := Statement(s.db.rows, c.caller, c.request, c.at, now, newId).change;
             change.Rewrite? && change.row.id == id && change.row.acceptedBy.Some?
    ensures var c := s.calls[cid];
            var row := Statement(s.db.rows, c.caller, c.request, c.at, now, newId).change.row;
            && c.request.Accept? && c.request.id == id && ValidSlug(row.acceptedBy.value)
            && CanSee(Party(c.caller), row.fromAgent, row.toAgent)
            && RecordsAcceptor(c.caller, c.request.agentName, row.toAgent, row.acceptedBy.value)
  {
    var c := s.calls[cid];
    assert CallOk(s.db.rows, c);
    if c.request.Accept? && c.at.Writing? {
      AcceptWriteIsOk(s, c.caller, c.request, now);
    }
  }

  lemma {:induction false} StepAcceptsAuthentically(s: State, a: Action, id: Uuid)
    requires Inv(s) && Enabled(s, a) && id in s.db.rows && s.db.rows[id].status.Pending?
    requires ChangeOf(s, a).Rewrite? && ChangeOf(s, a).row.id == id && ChangeOf(s, a).row.acceptedBy.Some?
    ensures AcceptedBy(s, a, ChangeOf(s, a).row)
  {
    match a {
      case Run(cid, now, newId) =>
        AcceptanceIsAuthentic(s, cid, now, newId, id);
        assert RunsCall(a, cid);
      case Lose(cid, now, newId) =>
        AcceptanceIsAuthentic(s, cid, now, newId, id);
        assert RunsCall(a, cid);
      case _ =>
    }
  }

  lemma {:induction false} OnlyRewritesAccept(db: Db, c: Change, id: Uuid)
    requires id in db.rows && db.rows[id].acceptedBy.None?
    requires id in Apply(db, c).rows && Apply(db, c).rows[id].acceptedBy.Some?
    requires c.Add? ==> c.row.id !in db.rows
    ensures c.Rewrite? && c.row.id == id && c.row == Apply(db, c).rows[id]
  {
  }

  /** An acceptor cannot be forged: in every run, whatever step gives a pending
      row an acceptor, its reply delivered or lost, is an accept whose caller was
      entitled to the name it leaves, a fixed binding, a named family member, the
      supplied name or the recipient. */
  lemma {:induction false} AcceptorsAreAuthentic(run: seq<Action>, a: Action, id: Uuid)
    requires var s := Exec(INITIAL, run);
             && id in s.db.rows && s.db.rows[id].status.Pending?
             && id in Next(s, a).db.rows && Next(s, a).db.rows[id].acceptedBy.Some?
    ensures var s := Exec(INITIAL, run);
            Enabled(s, a) && AcceptedBy(s, a, Next(s, a).db.rows[id])
  {
    var s := Exec(INITIAL, run);
    RunsKeepInv(INITIAL, run);
    NextCommits(s, a);
    ChangeIsLegal(s, a);
    OnlyRewritesAccept(s.db, ChangeOf(s, a), id);
    StepAcceptsAuthentically(s, a, id);
  }

  /** The step of the run at position `n` gave the row its acceptor. */
  ghost predicate AcceptedAt(run: seq<Action>, n: nat, row: Handoff) {
    n < |run| && AcceptedBy(Exec(INITIAL, run[..n]), run[n], row)
  }

  lemma {:induction false} AcceptedEarlier(run: seq<Action>, a: Action, n: nat, before: Handoff, after: Handoff)
    requires AcceptedAt(run, n, before)
    requires (before.id, before.fromAgent, before.toAgent, before.acceptedBy)
             == (after.id, after.fromAgent, after.toAgent, after.acceptedBy)
    ensures AcceptedAt(run + [a], n, after)
  {
    assert (run + [a])[..n] == run[..n];
  }

  /** A row without an acceptor that gets one in a step was pending. */
  lemma {:induction false} AcceptorAppearsOrStays(run: seq<Action>, a: Action, id: Uuid)
    requires id in Next(Exec(INITIAL, run), a).db.rows && Next(Exec(INITIAL, run), a).db.rows[id].acceptedBy.Some?
    ensures var rows, rows' := Exec(INITIAL, run).db.rows, Next(Exec(INITIAL, run), a).db.rows;
            && id in rows && rows[id].id == rows'[id].id
            && rows[id].fromAgent == rows'[id].fromAgent && rows[id].toAgent == rows'[id].toAgent
            && (rows[id].status.Pending? || rows[id].acceptedBy == rows'[id].acceptedBy)
  {
    var s := Exec(INITIAL, run);
    RunsKeepInv(INITIAL, run);
    if Enabled(s, a) {
      NextCommits(s, a);
      ChangeIsLegal(s, a);
      ApplyAdvances(s, ChangeOf(s, a));
    }
  }

  /** In every reachable state each row with an acceptor, accepted, completed or
      merged, got it from an accept of the run whose caller was entitled to it. */
  lemma {:induction false} AcceptorsHaveAuthors(run: seq<Action>, id: Uuid)
    requires id in Exec(INITIAL, run).db.rows && Exec(INITIAL, run).db.rows[id].acceptedBy.Some?
    ensures exists n: nat :: AcceptedAt(run, n, Exec(INITIAL, run).db.rows[id])
    decreases |run|
  {
    var n := |run| - 1;
    var before, a := run[..n], run[n];
    assert run == before + [a];
    var row := Exec(INITIAL, run).db.rows[id];
    AcceptorAppearsOrStays(before, a, id);
    var was := Exec(INITIAL, before).db.rows[id];
    if was.status.Pending? {
      AcceptorsAreAuthentic(before, a, id);
      assert AcceptedAt(run, n, row);
    } else {
      AcceptorsHaveAuthors(before, id);
      var k: nat :| AcceptedAt(before, k, was);
      AcceptedEarlier(before, a, k, was, row);
    }
  }

  /** Every accepted row of every reachable state names a valid slug that the
      caller of the accept was entitled to record. */
  lemma {:induction false} AcceptedRowsHaveAcceptor(run: seq<Action>, id: Uuid)
    requires id in Exec(INITIAL, run).db.rows && Exec(INITIAL, run).db.rows[id].status.Accepted?
    ensures var h := Exec(INITIAL, run).db.rows[id];
            && h.acceptedBy.Some? && ValidSlug(h.acceptedBy.value)
            && exists n: nat :: AcceptedAt(run, n, h)
  {
    RunsKeepInv(INITIAL, run);
    AcceptorsHaveAuthors(run, id);
  }

  // ---------- which filings are taken ----------

  /** The filer may speak for the sender it names, or need name none. */
  predicate SenderAllowed(filer: Filer, claimed: Option<string>) {
    match filer
    case Machine(name, _) => claimed.Some? ==> IsAscii(claimed.value) && EqFold(claimed.value, name)
    case Operator => claimed.Some? && ValidSlug(Trim(claimed.value))
    case AgentToken => false
  }

  predicate RecipientAllowed(filer: Filer, to: Option<string>) {
    && to.Some? && ValidSlug(Trim(to.value))
    && (filer.Machine? ==> exists a :: a in filer.agents && EqFold(a, Trim(to.value)))
  }

  predicate KeyFits(key: Option<string>) {
    key.Some? ==>
      && 1 <= |key.value| <= 200
      && forall c :: c in key.value ==>
           'a' <= c <= 'z' || 'A' <= c <= 'Z' || '0' <= c <= '9' || c in "-_./"
  }

  lemma {:induction false} KeyFitsExactly(key: string)
    ensures KeyFits(Some(key)) <==> ValidDedupeKey(key)
  {
    forall i | 0 <= i < |key|
      ensures key[i] in key
    {
    }
    assert forall c :: c in "-_./" <==> c == '-' || c == '_' || c == '.' || c == '/';
  }

  /** A filing is taken exactly when its sender and recipient are allowed and its
      text, key and context fit. */
  lemma {:induction false} FilingsAreTakenExactly(filer: Filer, f: Filing, now: Time, newId: Uuid)
    ensures FilingRow(filer, f, now, newId).Ok? <==>
            && SenderAllowed(filer, f.fromAgent) && RecipientAllowed(filer, f.toAgent)
            && TextFits(f.title, 200) && TextFits(f.body, 100_000)
            && KeyFits(f.dedupeKey) && ContextFits(f.context)
  {
    if f.dedupeKey.Some? {
      KeyFitsExactly(f.dedupeKey.value);
    }
  }

  /** What is wrong with a filing that is turned away for this reason. */
  predicate Faulty(filer: Filer, f: Filing, why: Rejection) {
    match why
    case SenderMismatch =>
      filer.Machine? && f.fromAgent.Some? && !(IsAscii(f.fromAgent.value) && EqFold(f.fromAgent.value, filer.fromAgent))
    case SenderRequired => filer.Operator? && f.fromAgent.None?
    case BadSender => filer.Operator? && f.fromAgent.Some? && !ValidSlug(Trim(f.fromAgent.value))
    case Forbidden => filer.AgentToken?
    case RecipientRequired => f.toAgent.None?
    case BadRecipient => f.toAgent.Some? && !ValidSlug(Trim(f.toAgent.value))
    case RecipientNotAllowed =>
      && filer.Machine? && f.toAgent.Some? && ValidSlug(Trim(f.toAgent.value))
      && !(exists a :: a in filer.agents && EqFold(a, Trim(f.toAgent.value)))
    case BadTitle => !TextFits(f.title, 200)
    case BadBody => !TextFits(f.body, 100_000)
    case BadDedupeKey => !KeyFits(f.dedupeKey)
    case BadContext => !ContextFits(f.context)
    case DatabaseFailure(_) => false
  }

  /** A rejection names something that is wrong with the filing. */
  lemma {:induction false} RejectionsAreTruthful(filer: Filer, f: Filing, now: Time, newId: Uuid)
    requires FilingRow(filer, f, now, newId).Err?
    ensures Faulty(filer, f, FilingRow(filer, f, now, newId).error)
  {
    if f.dedupeKey.Some? {
      KeyFitsExactly(f.dedupeKey.value);
    }
  }
}
