/** When the queues disagree: a broadcast held by an agent whose token keeps it
    out of that agent's own sight. */
module Ownership {
  import opened Prelude
  import opened Slugs
  import opened Callers
  import opened Handoffs
  import opened Coordination
  import opened Queues
  import opened Bus
  import opened Authority

  /** The step of the run at position `n` is the accept of the row by a caller not
      restricted to `party`. */
  ghost predicate AcceptedByAnother(run: seq<Action>, n: nat, row: Handoff, party: Text) {
    && n < |run|
    && exists cid ::
         && RunsCall(run[n], cid) && cid in Exec(INITIAL, run[..n]).calls
         && var c := Exec(INITIAL, run[..n]).calls[cid];
            c.request.Accept? && c.request.id == row.id && Party(c.caller) != Some(party)
  }

  /** No restricted caller puts a broadcast out of its own reach: in every run a
      row it holds and cannot see was given to it by somebody else's accept. */
  lemma {:induction false} OutOfReachIsOthersDoing(run: seq<Action>, id: Uuid, party: Text)
    requires id in Exec(INITIAL, run).db.rows
    requires var h := Exec(INITIAL, run).db.rows[id]; h.acceptedBy.Some? && OutOfReach(h, Some(party))
    ensures exists n: nat :: AcceptedByAnother(run, n, Exec(INITIAL, run).db.rows[id], party)
  {
    AcceptorsHaveAuthors(run, id);
    var h := Exec(INITIAL, run).db.rows[id];
    var n: nat :| AcceptedAt(run, n, h);
    assert AcceptedByAnother(run, n, h, party);
  }

  lemma {:induction false} ExecSnoc(run: seq<Action>, a: Action)
    ensures Exec(INITIAL, run + [a]) == Next(Exec(INITIAL, run), a)
  {
    assert (run + [a])[..|run|] == run;
  }

  /** What an arrival does when its handler goes on to a statement. */
  lemma {:induction false} ArriveWaits(s: State, cid: nat, caller: Caller, r: Request)
    requires cid !in s.calls && ValidCaller(caller) && Begin(caller, r).Waiting?
    ensures var s' := Next(s, Arrive(cid, caller, r));
            && s'.db == s.db && s'.calls == s.calls[cid := Call(caller, r, Begin(caller, r).at)]
            && s'.past.ever == s.past.ever + s.db.rows
  {
  }

  /** What a call's last statement does. */
  lemma {:induction false} RunFinishes(s: State, cid: nat, now: Time, newId: Uuid)
    requires Runnable(s, cid, newId)
    requires var c := s.calls[cid]; Statement(s.db.rows, c.caller, c.request, c.at, now, newId).progress.Done?
    ensures var c, s' := s.calls[cid], Next(s, Run(cid, now, newId));
            && s'.db == Apply(s.db, Statement(s.db.rows, c.caller, c.request, c.at, now, newId).change)
            && s'.calls == s.calls - {cid}
            && s'.past.ever == s.past.ever + s'.db.rows
  {
  }

  // ---------- it happens ----------

  /** A broadcast is created and then accepted in the name of `agent`, both by the
      unbound caller. */
  function Stranding(create: Request, agent: string): seq<Action> {
    [Arrive(0, Unbound, create), Run(0, 0, 0), Arrive(1, Unbound, Accept(0, Some(agent))), Run(1, 0, 0)]
  }

  predicate IsBroadcast(create: Request, sender: Text) {
    && create.Create? && create.parent.None? && create.category.Action?
    && CreatePlan(Unbound, create) == Ok((sender, None))
  }

  function BroadcastRow(create: Request, sender: Text): Handoff
    requires create.Create?
  {
    NewRow(0, sender, None, create.priority, create.category, create.title, create.body, None, FromAgent, None, 0)
  }

  lemma {:induction false} BroadcastIsCreated(create: Request, sender: Text)
    requires IsBroadcast(create, sender)
    ensures var s := Next(Next(INITIAL, Arrive(0, Unbound, create)), Run(0, 0, 0));
            && s.db.rows == map[0 := BroadcastRow(create, sender)]
            && s.calls == map[] && s.past.ever == s.db.rows
  {
    ArriveWaits(INITIAL, 0, Unbound, create);
    var mid := Next(INITIAL, Arrive(0, Unbound, create));
    var row := BroadcastRow(create, sender);
    assert mid.past.ever == map[] && mid.calls == map[0 := Call(Unbound, create, Writing)];
    assert CreateStep(map[], Unbound, create, 0, 0) == Step(Add(row), Done(Row(row)));
    RunFinishes(mid, 0, 0, 0);
  }

  function Held(row: Handoff, agent: Text): Handoff {
    row.(status := Accepted, acceptedBy := Some(agent), updatedAt := 0)
  }

  lemma {:induction false} ClaimStep(row: Handoff, agent: Text)
    requires row.status.Pending? && row.id == 0 && AcceptPlan(Unbound, Some(agent)) == Ok(Some(agent))
    ensures var h := Held(row, agent);
            AcceptStep(map[0 := row], Unbound, Accept(0, Some(agent)), Writing, 0) == Step(Rewrite(h), Done(Row(h)))
  {
  }

  lemma {:induction false} ClaimWaits(s: State, agent: Text)
    requires s.calls == map[] && AcceptPlan(Unbound, Some(agent)) == Ok(Some(agent))
    ensures var claim := Accept(0, Some(agent));
            var mid := Next(s, Arrive(1, Unbound, claim));
            mid.db == s.db && mid.calls == map[1 := Call(Unbound, claim, Writing)]
  {
    ArriveWaits(s, 1, Unbound, Accept(0, Some(agent)));
  }

  lemma {:induction false} ClaimIsRun(mid: State, row: Handoff, agent: Text)
    requires mid.db.rows == map[0 := row] && mid.calls == map[1 := Call(Unbound, Accept(0, Some(agent)), Writing)]
    requires row.status.Pending? && row.id == 0 && AcceptPlan(Unbound, Some(agent)) == Ok(Some(agent))
    ensures Next(mid, Run(1, 0, 0)).db.rows == map[0 := Held(row, agent)]
  {
    ClaimStep(row, agent);
    RunFinishes(mid, 1, 0, 0);
    assert map[0 := row][0 := Held(row, agent)] == map[0 := Held(row, agent)];
  }

  lemma {:induction false} ExecFour(a: Action, b: Action, c: Action, d: Action)
    ensures Exec(INITIAL, [a, b, c, d]) == Next(Next(Next(Next(INITIAL, a), b), c), d)
  {
    assert [] + [a] == [a] && [a] + [b] == [a, b] && [a, b] + [c] == [a, b, c] && [a, b, c] + [d] == [a, b, c, d];
    ExecSnoc([], a);
    ExecSnoc([a], b);
    ExecSnoc([a, b], c);
    ExecSnoc([a, b, c], d);
  }

  lemma {:induction false} ClaimOfBroadcast(s: State, row: Handoff, agent: Text)
    requires s.db.rows == map[0 := row] && s.calls == map[] && row.status.Pending? && row.id == 0 && ValidSlug(agent)
    ensures Next(Next(s, Arrive(1, Unbound, Accept(0, Some(agent)))), Run(1, 0, 0)).db.rows == map[0 := Held(row, agent)]
  {
    ValidSlugIsTrimmed(agent);
    ClaimWaits(s, agent);
    ClaimIsRun(Next(s, Arrive(1, Unbound, Accept(0, Some(agent)))), row, agent);
  }

  lemma {:induction false} StrandingRuns(create: Request, sender: Text, agent: Text)
    requires IsBroadcast(create, sender) && ValidSlug(agent)
    ensures Exec(INITIAL, Stranding(create, agent)).db.rows == map[0 := Held(BroadcastRow(create, sender), agent)]
  {
    var created := Next(Next(INITIAL, Arrive(0, Unbound, create)), Run(0, 0, 0));
    BroadcastIsCreated(create, sender);
    ClaimOfBroadcast(created, BroadcastRow(create, sender), agent);
    ExecFour(Arrive(0, Unbound, create), Run(0, 0, 0), Arrive(1, Unbound, Accept(0, Some(agent))), Run(1, 0, 0));
  }

  /** The operator can accept any broadcast in the name of any agent whose token
      keeps the sender out of its sight. The agent then owns the row and is woken
      for it, but its own check-in does not list it and it cannot see it. */
  lemma {:induction false} HeldBroadcastCanBeOutOfReach(create: Request, sender: Text, agent: Text, party: Text, now: Time)
    requires IsBroadcast(create, sender) && ValidSlug(agent)
    requires MayQuery(Some(party), agent) && !SlugMatches(party, sender)
    ensures var rows := Exec(INITIAL, Stranding(create, agent)).db.rows;
            && 0 in rows && rows[0].status.Accepted? && rows[0].category.Action?
            && OwnedBy(rows[0], agent, now) && InWakeQueue(rows[0], agent)
            && OutOfReach(rows[0], Some(party)) && !CanSee(Some(party), rows[0].fromAgent, rows[0].toAgent)
            && !InCheckIn(rows[0], agent, Some(party), now) && !CountedAsSelfClaim(rows[0], agent)
  {
    StrandingRuns(create, sender, agent);
    AcceptedRowIsOwned(Exec(INITIAL, Stranding(create, agent)).db.rows[0], now);
    assert EqFold(agent, agent);
  }

  /** For one: X's broadcast accepted for R. */
  lemma {:induction false} StrandedExample(now: Time)
    ensures var create := Create("X", None, Normal, Action, "t", "b", None, None);
            var h := Exec(INITIAL, Stranding(create, "R")).db.rows;
            0 in h && OwnedBy(h[0], "R", now) && InWakeQueue(h[0], "R") && !InCheckIn(h[0], "R", Some("R"), now)
  {
    assert Lower("X")[0] == 'x' && Lower("R")[0] == 'r';
    ExampleIsBroadcast();
    HeldBroadcastCanBeOutOfReach(Create("X", None, Normal, Action, "t", "b", None, None), "X", "R", "R", now);
  }

  lemma {:induction false} ExampleIsBroadcast()
    ensures IsBroadcast(Create("X", None, Normal, Action, "t", "b", None, None), "X")
  {
    ValidSlugIsTrimmed("X");
    ValidSlugIsTrimmed("t");
    ValidSlugIsTrimmed("b");
  }
}
