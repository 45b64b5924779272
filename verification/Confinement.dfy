/** The boundary of a restricted caller over whole runs: whatever happens outside
    it, unseen, its own calls are answered alike. */
module Confinement {
  import opened Prelude
  import opened Slugs
  import opened Callers
  import opened Handoffs
  import opened Coordination
  import opened Bus
  import opened Protocol
  import opened Pagination
  import opened Queries
  import opened Boundary

  // ---------- what a party has to do with a state ----------

  predicate IsOwnCall(c: Call, party: Text) {
    Party(c.caller) == Some(party)
  }

  /** The party's calls in flight. */
  function OwnCalls(calls: map<nat, Call>, party: Text): map<nat, Call> {
    calls - (set cid | cid in calls && !IsOwnCall(calls[cid], party))
  }

  function OwnEvent(party: Text): Event -> bool {
    (e: Event) => e.Answered? && Party(e.caller) == Some(party)
  }

  /** The replies the party was sent. */
  function OwnLog(log: seq<Event>, party: Text): seq<Event> {
    Filter(OwnEvent(party), log)
  }

  /** The two states are alike to the party. */
  ghost predicate Alike(party: Text, s: State, t: State) {
    && Inv(s) && Inv(t)
    && SameView(party, s.db.rows, t.db.rows)
    && OwnCalls(s.calls, party) == OwnCalls(t.calls, party)
    && OwnLog(s.past.log, party) == OwnLog(t.past.log, party)
  }

  predicate IsOwnAction(calls: map<nat, Call>, a: Action, party: Text) {
    match a
    case Arrive(_, caller, _) => Party(caller) == Some(party)
    case Run(cid, _, _) => cid in calls && IsOwnCall(calls[cid], party)
    case Lose(cid, _, _) => cid in calls && IsOwnCall(calls[cid], party)
    case Abort(cid) => cid in calls && IsOwnCall(calls[cid], party)
    case _ => false
  }

  /** Either both states take the same step of the party's own, or each takes any
      step that is not the party's and leaves the tables looking alike to it. */
  ghost predicate Paired(party: Text, s: State, a: Action, t: State, b: Action) {
    || (a == b && IsOwnAction(s.calls, a, party) && Enabled(s, a) && Enabled(t, a))
    || (&& !IsOwnAction(s.calls, a, party) && !IsOwnAction(t.calls, b, party)
        && SameView(party, Next(s, a).db.rows, Next(t, b).db.rows))
  }

  // ---------- steps ----------

  lemma {:induction false} OwnLogGrows(log: seq<Event>, news: seq<Event>, party: Text)
    requires |news| <= 1
    ensures OwnLog(log + news, party) ==
            if |news| == 1 && OwnEvent(party)(news[0]) then OwnLog(log, party) + news else OwnLog(log, party)
  {
    if |news| == 1 {
      assert (log + news)[..|log|] == log;
    } else {
      assert log + news == log;
    }
  }

  /** What a step does to the calls in flight. */
  ghost function CallsAfter(s: State, a: Action): map<nat, Call>
    requires Enabled(s, a)
  {
    match a
    case Arrive(cid, caller, r) =>
      (match Begin(caller, r)
       case Waiting(at) => s.calls[cid := Call(caller, r, at)]
       case Done(_) => s.calls - {cid})
    case Run(cid, now, newId) =>
      var c := s.calls[cid];
      (match Statement(s.db.rows, c.caller, c.request, c.at, now, newId).progress
       case Waiting(at) => s.calls[cid := Call(c.caller, c.request, at)]
       case Done(_) => s.calls - {cid})
    case Lose(cid, _, _) => s.calls - {cid}
    case Abort(cid) => s.calls - {cid}
    case _ => s.calls
  }

  lemma {:induction false} NextCalls(s: State, a: Action)
    requires Enabled(s, a)
    ensures Next(s, a).calls == CallsAfter(s, a)
  {
    match a {
      case Arrive(_, _, _) =>
      case Run(_, _, _) =>
      case Lose(_, _, _) =>
      case Abort(_) =>
      case File(_, _, _, _) =>
      case Embed(_, _) =>
    }
  }

  lemma {:induction false} NewsIsShort(s: State, a: Action)
    requires Enabled(s, a)
    ensures |NewsOf(s, a)| <= 1
  {
  }

  lemma {:induction false} OwnPut(calls: map<nat, Call>, cid: nat, c: Call, party: Text)
    ensures IsOwnCall(c, party) ==> OwnCalls(calls[cid := c], party) == OwnCalls(calls, party)[cid := c]
    ensures !IsOwnCall(c, party) && (cid in calls ==> !IsOwnCall(calls[cid], party)) ==>
              OwnCalls(calls[cid := c], party) == OwnCalls(calls, party)
  {
  }

  lemma {:induction false} OwnDrop(calls: map<nat, Call>, cid: nat, party: Text)
    ensures OwnCalls(calls - {cid}, party) == OwnCalls(calls, party) - {cid}
    ensures (cid in calls ==> !IsOwnCall(calls[cid], party)) ==> OwnCalls(calls - {cid}, party) == OwnCalls(calls, party)
  {
  }

  /** A step that is not the party's touches neither its calls nor its replies. */
  lemma {:induction false} ForeignStep(party: Text, s: State, a: Action)
    requires !IsOwnAction(s.calls, a, party)
    ensures OwnCalls(Next(s, a).calls, party) == OwnCalls(s.calls, party)
    ensures OwnLog(Next(s, a).past.log, party) == OwnLog(s.past.log, party)
  {
    if Enabled(s, a) {
      NextCalls(s, a);
      NextCommits(s, a);
      NewsIsShort(s, a);
      OwnLogGrows(s.past.log, NewsOf(s, a), party);
      ForeignCalls(party, s, a);
      if NewsOf(s, a) != [] {
        ForeignNews(party, s, a);
      }
    }
  }

  lemma {:induction false} ForeignNews(party: Text, s: State, a: Action)
    requires Enabled(s, a) && !IsOwnAction(s.calls, a, party) && |NewsOf(s, a)| == 1
    ensures !OwnEvent(party)(NewsOf(s, a)[0])
  {
  }

  lemma {:induction false} ForeignCalls(party: Text, s: State, a: Action)
    requires Enabled(s, a) && !IsOwnAction(s.calls, a, party)
    ensures OwnCalls(CallsAfter(s, a), party) == OwnCalls(s.calls, party)
  {
    match a {
      case Arrive(cid, caller, r) =>
        OwnDrop(s.calls, cid, party);
        if Begin(caller, r).Waiting? {
          OwnPut(s.calls, cid, Call(caller, r, Begin(caller, r).at), party);
        }
      case Run(cid, now, newId) =>
        var c := s.calls[cid];
        OwnDrop(s.calls, cid, party);
        var p := Statement(s.db.rows, c.caller, c.request, c.at, now, newId).progress;
        if p.Waiting? {
          OwnPut(s.calls, cid, Call(c.caller, c.request, p.at), party);
        }
      case Lose(cid, _, _) => OwnDrop(s.calls, cid, party);
      case Abort(cid) => OwnDrop(s.calls, cid, party);
      case _ =>
    }
  }

  lemma {:induction false} SameCall(party: Text, a: map<nat, Call>, b: map<nat, Call>, cid: nat)
    requires OwnCalls(a, party) == OwnCalls(b, party) && cid in a && IsOwnCall(a[cid], party)
    ensures cid in b && b[cid] == a[cid]
  {
    assert cid in OwnCalls(a, party);
    assert OwnCalls(b, party)[cid] == a[cid];
  }

  /** A statement of the party's own: the same step in both states. */
  lemma {:induction false} OwnStatement(party: Text, s: State, t: State, cid: nat, now: Time, newId: Uuid)
    requires Alike(party, s, t) && Runnable(s, cid, newId) && Runnable(t, cid, newId) && IsOwnCall(s.calls[cid], party)
    ensures s.calls[cid] == t.calls[cid]
    ensures var c := s.calls[cid];
            var step := Statement(s.db.rows, c.caller, c.request, c.at, now, newId);
            && step == Statement(t.db.rows, c.caller, c.request, c.at, now, newId)
            && SameView(party, Apply(s.db, step.change).rows, Apply(t.db, step.change).rows)
  {
    SameCall(party, s.calls, t.calls, cid);
    RestrictedStepSeesOnlyVisible(party, s.db, t.db, s.calls[cid], now, newId);
  }

  lemma {:induction false} OwnStepRows(party: Text, s: State, t: State, a: Action)
    requires Alike(party, s, t) && IsOwnAction(s.calls, a, party) && Enabled(s, a) && Enabled(t, a)
    ensures SameView(party, Next(s, a).db.rows, Next(t, a).db.rows)
    ensures NewsOf(s, a) == NewsOf(t, a)
  {
    NextCommits(s, a);
    NextCommits(t, a);
    match a {
      case Run(cid, now, newId) => OwnStatement(party, s, t, cid, now, newId);
      case Lose(cid, now, newId) => OwnStatement(party, s, t, cid, now, newId);
      case _ =>
    }
  }

  lemma {:induction false} OwnStepCalls(party: Text, s: State, t: State, a: Action)
    requires Alike(party, s, t) && IsOwnAction(s.calls, a, party) && Enabled(s, a) && Enabled(t, a)
    ensures OwnCalls(CallsAfter(s, a), party) == OwnCalls(CallsAfter(t, a), party)
  {
    OwnDrop(s.calls, a.cid, party);
    OwnDrop(t.calls, a.cid, party);
    match a {
      case Arrive(cid, caller, r) =>
        if Begin(caller, r).Waiting? {
          OwnPut(s.calls, cid, Call(caller, r, Begin(caller, r).at), party);
          OwnPut(t.calls, cid, Call(caller, r, Begin(caller, r).at), party);
        }
      case Run(cid, now, newId) =>
        OwnStatement(party, s, t, cid, now, newId);
        var c := s.calls[cid];
        var p := Statement(s.db.rows, c.caller, c.request, c.at, now, newId).progress;
        if p.Waiting? {
          OwnPut(s.calls, cid, Call(c.caller, c.request, p.at), party);
          OwnPut(t.calls, cid, Call(c.caller, c.request, p.at), party);
        }
      case _ =>
    }
  }

  lemma {:induction false} OwnStep(party: Text, s: State, t: State, a: Action)
    requires Alike(party, s, t) && IsOwnAction(s.calls, a, party) && Enabled(s, a) && Enabled(t, a)
    ensures Alike(party, Next(s, a), Next(t, a))
  {
    NextKeepsInv(s, a);
    NextKeepsInv(t, a);
    OwnStepRows(party, s, t, a);
    OwnStepCalls(party, s, t, a);
    NextCalls(s, a);
    NextCalls(t, a);
    NextCommits(s, a);
    NextCommits(t, a);
    NewsIsShort(s, a);
    OwnLogGrows(s.past.log, NewsOf(s, a), party);
    OwnLogGrows(t.past.log, NewsOf(t, a), party);
  }

  lemma {:induction false} PairedStep(party: Text, s: State, a: Action, t: State, b: Action)
    requires Alike(party, s, t) && Paired(party, s, a, t, b)
    ensures Alike(party, Next(s, a), Next(t, b))
  {
    if IsOwnAction(s.calls, a, party) {
      OwnStep(party, s, t, a);
    } else {
      ForeignStep(party, s, a);
      ForeignStep(party, t, b);
      NextKeepsInv(s, a);
      NextKeepsInv(t, b);
    }
  }

  // ---------- runs ----------

  /** Two runs in which the party makes the same calls and they run at the same
      points, while everybody else does whatever leaves the tables looking alike
      to it. */
  ghost predicate PairedRuns(party: Text, left: seq<Action>, right: seq<Action>)
    decreases |left|
  {
    && |left| == |right|
    && (left != [] ==>
          var n := |left| - 1;
          && PairedRuns(party, left[..n], right[..n])
          && Paired(party, Exec(INITIAL, left[..n]), left[n], Exec(INITIAL, right[..n]), right[n]))
  }

  lemma {:induction false} PairedRunsStayAlike(party: Text, left: seq<Action>, right: seq<Action>)
    requires PairedRuns(party, left, right)
    ensures Alike(party, Exec(INITIAL, left), Exec(INITIAL, right))
    decreases |left|
  {
    if left != [] {
      var n := |left| - 1;
      PairedRunsStayAlike(party, left[..n], right[..n]);
      PairedStep(party, Exec(INITIAL, left[..n]), left[n], Exec(INITIAL, right[..n]), right[n]);
    }
  }

  /** A restricted caller cannot tell two such runs apart: every reply it was sent
      is the same, in the same order, and so is whatever it reads next. */
  lemma {:induction false} ConfinedRepliesAgree(party: Text, left: seq<Action>, right: seq<Action>, now: Time)
    requires PairedRuns(party, left, right)
    ensures OwnLog(Exec(INITIAL, left).past.log, party) == OwnLog(Exec(INITIAL, right).past.log, party)
    ensures var a, b := Exec(INITIAL, left).db.rows, Exec(INITIAL, right).db.rows;
            && SameView(party, a, b)
            && (forall id :: GetReply(a, Some(party), id) == GetReply(b, Some(party), id))
            && (forall agent, reply ::
                  IsCheckIn(a, a, a, Some(party), agent, now, reply) <==>
                  IsCheckIn(b, b, b, Some(party), agent, now, reply))
            && (forall f: ListFilter, page: PageRequest, l | f.party == Some(party) && page.limit >= 1 ::
                  IsListing(Matching(a, f, now), page, l) <==> IsListing(Matching(b, f, now), page, l))
            && (forall agent, since, page: PageRequest, reply | page.limit >= 1 ::
                  IsReplies(a, Some(party), agent, since, page, reply) <==>
                  IsReplies(b, Some(party), agent, since, page, reply))
  {
    PairedRunsStayAlike(party, left, right);
    var a, b := Exec(INITIAL, left).db.rows, Exec(INITIAL, right).db.rows;
    RestrictedReadsSeeOnlyVisible(party, a, b, a, b, a, b, now);
  }
}
