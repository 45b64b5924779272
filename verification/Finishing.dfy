/** Calls come to an end: no handler loops, whatever runs in between, and every
    one that is not lost is answered. */
module Finishing {
  import opened Prelude
  import opened Callers
  import opened Handoffs
  import opened Coordination
  import opened Bus
  import opened Protocol
  import opened Authority

  /** Statements a call may still run after this one. */
  function Stage(at: Point): nat {
    match at
    case Seeing => 3
    case Reading => 2
    case Writing => 1
    case Rereading => 0
  }

  lemma {:induction false} StatementMovesOn(rows: Rows, caller: Caller, r: Request, at: Point, now: Time, newId: Uuid)
    requires CanWaitAt(caller, r, at)
    ensures var p := Statement(rows, caller, r, at, now, newId).progress;
            p.Waiting? ==> Stage(p.at) < Stage(at)
  {
  }

  /** A step of another call leaves this one as it is. */
  lemma {:induction false} StepMovesOn(s: State, a: Action, cid: nat)
    requires cid in s.calls && cid in Next(s, a).calls
    ensures Enabled(s, a) && RunsCall(a, cid) ==> Stage(Next(s, a).calls[cid].at) < Stage(s.calls[cid].at)
    ensures !(Enabled(s, a) && RunsCall(a, cid)) ==> Next(s, a).calls[cid] == s.calls[cid]
  {
    match a {
      case Run(other, now, newId) =>
        if Enabled(s, a) {
          var c := s.calls[other];
          StatementMovesOn(s.db.rows, c.caller, c.request, c.at, now, newId);
        }
      case _ =>
    }
  }

  /** Statements of the call that the run has carried out. */
  ghost function OwnSteps(s: State, run: seq<Action>, cid: nat): nat
    decreases |run|
  {
    if run == [] then 0
    else
      var n := |run| - 1;
      OwnSteps(s, run[..n], cid) + (if Enabled(Exec(s, run[..n]), run[n]) && RunsCall(run[n], cid) then 1 else 0)
  }

  /** The call is in flight at every point of the run. */
  ghost predicate InFlight(s: State, run: seq<Action>, cid: nat)
    decreases |run|
  {
    cid in Exec(s, run).calls && (run != [] ==> InFlight(s, run[..|run| - 1], cid))
  }

  lemma {:induction false} StagesFall(s: State, run: seq<Action>, cid: nat)
    requires InFlight(s, run, cid)
    ensures cid in s.calls
    ensures OwnSteps(s, run, cid) + Stage(Exec(s, run).calls[cid].at) <= Stage(s.calls[cid].at)
    decreases |run|
  {
    if run != [] {
      var n := |run| - 1;
      StagesFall(s, run[..n], cid);
      StepMovesOn(Exec(s, run[..n]), run[n], cid);
    }
  }

  /** No call outlives four statements of its own, however many steps of others
      come between them. */
  lemma {:induction false} CallsFinish(before: seq<Action>, after: seq<Action>, cid: nat)
    requires OwnSteps(Exec(INITIAL, before), after, cid) >= 4
    ensures !InFlight(Exec(INITIAL, before), after, cid)
  {
    if InFlight(Exec(INITIAL, before), after, cid) {
      StagesFall(Exec(INITIAL, before), after, cid);
    }
  }

  /** Every call in flight can run its next statement, for any unused id. */
  lemma {:induction false} CallsAreNeverStuck(run: seq<Action>, cid: nat, now: Time, newId: Uuid)
    requires cid in Exec(INITIAL, run).calls && Fresh(Exec(INITIAL, run), newId)
    ensures Enabled(Exec(INITIAL, run), Run(cid, now, newId))
  {
    RunsKeepInv(INITIAL, run);
    assert CallOk(Exec(INITIAL, run).db.rows, Exec(INITIAL, run).calls[cid]);
  }

  /** The reply is the last entry of the log, to the caller and its request. */
  ghost predicate Replied(s: State, s': State, caller: Caller, r: Request) {
    exists reply :: s'.past.log == s.past.log + [Answered(caller, r, reply)]
  }

  /** A call that ends has been answered, unless its outcome was lost or it was
      aborted. */
  lemma {:induction false} EndedCallsAreAnswered(s: State, a: Action, cid: nat)
    requires cid in s.calls && cid !in Next(s, a).calls
    ensures (a.Run? || a.Lose? || a.Abort?) && a.cid == cid
    ensures a.Run? ==> Replied(s, Next(s, a), s.calls[cid].caller, s.calls[cid].request)
  {
    match a {
      case Run(other, now, newId) => RunEnds(s, other, now, newId);
      case _ =>
    }
  }

  lemma {:induction false} RunEnds(s: State, cid: nat, now: Time, newId: Uuid)
    requires Enabled(s, Run(cid, now, newId))
    ensures var s' := Next(s, Run(cid, now, newId));
            && s'.calls.Keys + {cid} == s.calls.Keys
            && (cid !in s'.calls ==> Replied(s, s', s.calls[cid].caller, s.calls[cid].request))
  {
    var c, a := s.calls[cid], Run(cid, now, newId);
    NextCommits(s, a);
    var p := Statement(s.db.rows, c.caller, c.request, c.at, now, newId).progress;
    if p.Done? {
      assert NewsOf(s, a) == [Answered(c.caller, c.request, p.reply)];
    }
  }

  /** A request that arrives is either answered at once or in flight. */
  lemma {:induction false} ArrivalsAreTakenUp(s: State, cid: nat, caller: Caller, r: Request)
    requires Enabled(s, Arrive(cid, caller, r))
    ensures var s' := Next(s, Arrive(cid, caller, r));
            && s'.db == s.db
            && if cid in s'.calls then s'.calls[cid].caller == caller && s'.calls[cid].request == r
               else Replied(s, s', caller, r)
  {
    NextCommits(s, Arrive(cid, caller, r));
    if Begin(caller, r).Done? {
      assert NewsOf(s, Arrive(cid, caller, r)) == [Answered(caller, r, Begin(caller, r).reply)];
    }
  }
}
