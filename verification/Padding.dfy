/** Names a machine token is configured with are checked trimmed and kept as
    given. What that means for senders and for allowlists, exactly. */
module Padding {
  import opened Prelude
  import opened Slugs
  import opened Handoffs
  import opened Ingestion
  import opened Credentials
  import opened Bus
  import opened Protocol
  import opened Authority

  // ---------- senders ----------

  /** The step inserts a filing under a machine name that is no slug. */
  ghost predicate FilesPadded(s: State, a: Action) {
    && Enabled(s, a) && a.File? && a.filer.Machine? && !ValidSlug(a.filer.fromAgent)
    && ChangeOf(s, a).Add?
  }

  lemma {:induction false} AddedSenderIsSlugUnlessPadded(s: State, a: Action)
    requires Inv(s) && Enabled(s, a) && ChangeOf(s, a).Add?
    ensures ValidSlug(ChangeOf(s, a).row.fromAgent) <==> !FilesPadded(s, a)
  {
    AddedRowsAreAuthentic(s, a);
  }

  ghost predicate AllSlugs(rows: Rows) {
    forall id :: id in rows ==> ValidSlug(rows[id].fromAgent)
  }

  lemma {:induction false} StepSenders(s: State, a: Action)
    requires Inv(s)
    ensures AllSlugs(Next(s, a).past.ever) <==> AllSlugs(s.past.ever) && !FilesPadded(s, a)
  {
    NextAdvances(s, a);
    if Enabled(s, a) {
      NextCommits(s, a);
      ChangeIsLegal(s, a);
      ApplyAdvances(s, ChangeOf(s, a));
      if ChangeOf(s, a).Add? {
        AddedSenderIsSlugUnlessPadded(s, a);
      }
    }
    StepSendersOf(s.past.ever, Next(s, a).past.ever, s, a);
  }

  lemma {:induction false} StepSendersOf(ever: Rows, ever': Rows, s: State, a: Action)
    requires Advances(ever, ever') && ever.Keys <= ever'.Keys
    requires forall id :: id in ever' && id !in ever ==>
               Enabled(s, a) && ChangeOf(s, a).Add? && ever'[id].fromAgent == ChangeOf(s, a).row.fromAgent
    requires Enabled(s, a) && ChangeOf(s, a).Add? ==>
               && (ValidSlug(ChangeOf(s, a).row.fromAgent) <==> !FilesPadded(s, a))
               && ChangeOf(s, a).row.id in ever' && ChangeOf(s, a).row.id !in ever
    ensures AllSlugs(ever') <==> AllSlugs(ever) && !FilesPadded(s, a)
  {
    if AllSlugs(ever') {
      forall id | id in ever ensures ValidSlug(ever[id].fromAgent) {
        assert Later(ever[id], ever'[id]);
      }
    }
  }

  /** The step of the run at position `n` is such an insert. */
  ghost predicate FilesPaddedAt(run: seq<Action>, n: nat) {
    n < |run| && FilesPadded(Exec(INITIAL, run[..n]), run[n])
  }

  ghost predicate NeverPads(run: seq<Action>)
    decreases |run|
  {
    run == [] || (NeverPads(run[..|run| - 1]) && !FilesPadded(Exec(INITIAL, run[..|run| - 1]), run[|run| - 1]))
  }

  lemma {:induction false} PaddedAtPrefix(run: seq<Action>, n: nat)
    requires run != [] && n < |run| - 1
    ensures FilesPaddedAt(run, n) <==> FilesPaddedAt(run[..|run| - 1], n)
  {
    assert run[..|run| - 1][..n] == run[..n];
  }

  lemma {:induction false} NeverPadsExactly(run: seq<Action>)
    ensures NeverPads(run) <==> forall n: nat :: !FilesPaddedAt(run, n)
    decreases |run|
  {
    if run != [] {
      var m := |run| - 1;
      NeverPadsExactly(run[..m]);
      forall n: nat | n < m
        ensures FilesPaddedAt(run, n) <==> FilesPaddedAt(run[..m], n)
      {
        PaddedAtPrefix(run, n);
      }
      assert FilesPaddedAt(run, m) <==> FilesPadded(Exec(INITIAL, run[..m]), run[m]);
    }
  }

  lemma {:induction false} SendersFollowRun(run: seq<Action>)
    ensures AllSlugs(Exec(INITIAL, run).past.ever) <==> NeverPads(run)
    decreases |run|
  {
    if run != [] {
      var m := |run| - 1;
      SendersFollowRun(run[..m]);
      RunsKeepInv(INITIAL, run[..m]);
      StepSenders(Exec(INITIAL, run[..m]), run[m]);
    }
  }

  /** Over any run every sender there ever was is a valid slug exactly when no step
      of the run inserted a filing under a padded machine name. */
  lemma {:induction false} SendersAreSlugsExactly(run: seq<Action>)
    ensures AllSlugs(Exec(INITIAL, run).past.ever) <==> forall n: nat :: !FilesPaddedAt(run, n)
  {
    SendersFollowRun(run);
    NeverPadsExactly(run);
  }

  /** With unpadded machine names every row of every reachable state has a valid
      slug as its sender. */
  lemma {:induction false} UnpaddedSendersAreSlugs(run: seq<Action>)
    requires forall i :: 0 <= i < |run| && run[i].File? && run[i].filer.Machine? ==> ValidSlug(run[i].filer.fromAgent)
    ensures AllSlugs(Exec(INITIAL, run).db.rows)
  {
    SendersAreSlugsExactly(run);
    RunsKeepInv(INITIAL, run);
  }

  /** The filer a machine token makes, its names as configured. */
  function FilerOf(t: MachineToken): Filer
    requires IsAscii(t.fromAgent) && forall a :: a in t.agents ==> IsAscii(a)
  {
    Filer.Machine(t.fromAgent, t.agents)
  }

  function PaddedToken(secret: Secret): MachineToken {
    MachineToken(secret, PADDED_SENDER, None, ["ops"], ["create"])
  }

  const SHORT_FILING := Filing(None, Some("ops"), Normal, Action, "t", "b", None, None)

  lemma {:induction false} ShortFilingIsTaken(secret: Secret)
    ensures FilingRow(FilerOf(PaddedToken(secret)), SHORT_FILING, 0, 0).Ok?
    ensures FilingRow(FilerOf(PaddedToken(secret)), SHORT_FILING, 0, 0).value.fromAgent == PADDED_SENDER
  {
    ValidSlugIsTrimmed("ops");
    ValidSlugIsTrimmed("t");
    ValidSlugIsTrimmed("b");
    assert "ops" in ["ops"] && EqFold("ops", "ops");
  }

  lemma {:induction false} UpsertIntoEmpty(row: Handoff, now: Time)
    requires row.inReplyTo.None?
    ensures UpsertOutcome(map[], row, now) == Inserted(row)
  {
  }

  lemma {:induction false} FirstFilingLands(filer: Filer, f: Filing)
    requires FilingRow(filer, f, 0, 0).Ok?
    ensures Exec(INITIAL, [File(filer, f, 0, 0)]).db.rows == map[0 := FilingRow(filer, f, 0, 0).value]
  {
    var run, row := [File(filer, f, 0, 0)], FilingRow(filer, f, 0, 0).value;
    assert row.id == 0 && row.inReplyTo.None?;
    UpsertIntoEmpty(row, 0);
    assert run[..0] == [];
    assert Exec(INITIAL, run) == Next(INITIAL, run[0]);
    NextCommits(INITIAL, run[0]);
    assert ChangeOf(INITIAL, run[0]) == Add(row);
  }

  /** The sender of a padded machine token reaches the table as configured, on a
      server that starts: a row's sender need not be a slug. */
  lemma {:induction false} PaddedSenderReachesTable(secret: Secret, main: Secret)
    requires |secret| == MIN_TOKEN_LEN && main != secret
    ensures Loadable(Some(main), Listed([PaddedToken(secret)]), Unset)
    ensures var s := Exec(INITIAL, [File(FilerOf(PaddedToken(secret)), SHORT_FILING, 0, 0)]);
            0 in s.db.rows && s.db.rows[0].fromAgent == PADDED_SENDER && !ValidSlug(s.db.rows[0].fromAgent)
  {
    PaddedMachineSenderIsAccepted(secret, main);
    ShortFilingIsTaken(secret);
    FirstFilingLands(FilerOf(PaddedToken(secret)), SHORT_FILING);
  }

  lemma {:induction false} PlainFilingIsTaken(name: Text, agents: seq<Text>, entry: Text)
    requires entry in agents && ValidSlug(entry)
    ensures FilingRow(Filer.Machine(name, agents), SHORT_FILING.(toAgent := Some(entry)), 0, 0).Ok?
  {
    ValidSlugIsTrimmed(entry);
    ValidSlugIsTrimmed("t");
    ValidSlugIsTrimmed("b");
  }

  /** A machine token with a checked allowlist can file to somebody exactly when
      some entry of the list was not padded. */
  lemma {:induction false} MachineCanFileExactly(name: Text, agents: seq<Text>)
    requires forall a :: a in agents ==> ValidSlug(Trim(a))
    ensures (exists f, now, newId :: FilingRow(Filer.Machine(name, agents), f, now, newId).Ok?) <==>
            exists entry :: entry in agents && Trim(entry) == entry
  {
    forall f, now, newId | FilingRow(Filer.Machine(name, agents), f, now, newId).Ok?
      ensures exists entry :: entry in agents && Trim(entry) == entry
    {
      FilingsAreBound(Filer.Machine(name, agents), f, now, newId);
      var recipient := FilingRow(Filer.Machine(name, agents), f, now, newId).value.toAgent.value;
      var entry :| entry in agents && EqFold(entry, recipient);
      PaddedAllowlistEntryAllowsNobody(entry);
    }
    if entry :| entry in agents && Trim(entry) == entry {
      PlainFilingIsTaken(name, agents, entry);
    }
  }

  /** A startable configuration whose token has every filing turned away. */
  lemma {:induction false} PaddedAllowlistFilesNothing(secret: Secret, main: Secret, f: Filing, now: Time, newId: Uuid)
    requires |secret| == MIN_TOKEN_LEN && main != secret
    ensures var t := MachineToken(secret, "cron", None, [PADDED_ENTRY], ["create"]);
            && Loadable(Some(main), Listed([t]), Unset)
            && FilingRow(FilerOf(t), f, now, newId).Err?
  {
    PaddedAllowlistIsAccepted(secret, main);
    PaddedEntryTrims();
    MachineCanFileExactly("cron", [PADDED_ENTRY]);
  }
}
