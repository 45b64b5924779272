# ops-brain: a verified model of the message bus

ops-brain is a small message bus for AI agents: agents file *handoffs* for each
other, accept, complete and merge them, reply in threads, and an operator reads
a briefing of what is open. This project models the parts of it where
correctness spans several functions or several callers, and proves what they
keep.

`dafny verify dfyconfig.toml` checks everything.

## How the model is built

* **The bus as a state machine** (`Handoffs`, `Coordination`, `Ingestion`,
  `Bus`). Every MCP handler is a call in flight with a program counter
  (`Point`), and one step runs exactly one SQL statement together with the
  local computation up to the next one. Any number of calls, REST filings and
  embedding writes interleave freely; a call may also be aborted at any
  statement, or run one whose outcome nobody sees. A history keeps the last
  version of every row that ever existed, the order of creation and the
  replies sent. `Bus.Exec(INITIAL, run)` over all lists of actions is the set of
  reachable states, and the theorems of `Protocol`, `Replies`, `Authority`,
  `Archive`, `Dedupe`, `Effects`, `Finishing`, `Queues`, `Ownership`, `Padding`
  and `Confinement` quantify over it. The table itself is a class whose methods are the
  repository's statements; each is proved against the specification function
  the state machine uses, and `Coordination.RunStatement` ties the imperative
  handlers to the machine's step. Maps are cut down by set difference or by
  recursion, never by a map comprehension: in Dafny 4.11 two empty map
  comprehensions with different bodies contradict each other.
* **Reading** (`Sql`, `Queries`, `Queues`, `Boundary`, `Listings`, `Search`). WHERE clauses
  are evaluated in three-valued logic; the listing query is built as conditions
  and parameters, in two passes, as the code builds it. `Boundary` states what a
  caller restricted to its own traffic can learn from one call, `Confinement`
  what it can learn over whole runs.
* **The briefing** (`Briefings`) is the triage loops over an unbounded open set;
  `BriefingFacts` says what comes of them in terms of the table alone.
* **Credentials** (`Credentials`, `OAuthBindings`, `Jwks`) are the
  configuration checks, the classification of a request and the key cache.
* **Search and text** (`Fusion`, `Pagination`, `CrossClient`, `Embeddings`,
  `Utf8`).

Assumptions: a generated id was never used before and no call in flight names
it; a SQL statement is atomic; the monotonic clock of the key cache does not run
backwards. Texts in agent columns are ASCII, which validation guarantees except
where noted below. Wall-clock times are arbitrary inputs.

## Where the code does not do what its documentation says

* `src/api.rs:66-67` calls `to_agent` optional for the main bearer; the handler
  rejects its absence (`src/api.rs:271-275`). The model follows the handler:
  `Authority.FilingsAreBound` shows that every accepted filing has a recipient.
* A machine token's `from_agent` is validated after trimming but kept as given
  (`src/auth.rs:110-111`), while an agent token's is stored trimmed
  (`src/auth.rs:261-276`). `Credentials.MachineSenderIsKeptAsGiven` says exactly
  when the stored sender is a valid slug, and `Padding.PaddedSenderReachesTable`
  gives a configuration that starts and a run that ends in a row whose sender is
  not one. `Padding.SendersAreSlugsExactly` says for every run when all senders
  are slugs. The `agents` of the token are kept as given too: an entry allows
  its agent exactly when it is not padded
  (`Credentials.PaddedAllowlistEntryAllowsNobody`), a token can file at all
  exactly when some entry is not (`Padding.MachineCanFileExactly`), and
  `Padding.PaddedAllowlistFilesNothing` gives a startable token that cannot.
* A claimed broadcast stays with the agent that accepted it
  (`src/repo/handoff_repo.rs:315-316`), and that agent is woken for it. But
  `check_in` passes a restricted caller's binding to its query
  (`src/tools/check_in.rs:61-77`) and its comment says that this drops
  broadcasts (`src/tools/check_in.rs:46-48`). The two meet when an unrestricted
  caller accepts a broadcast in such an agent's name: unless its binding covers
  the sender, the agent neither lists the row nor can read or complete it. `Queues.AcceptedRowSitsWithRecipient`
  is the exact condition, `Ownership.HeldBroadcastCanBeOutOfReach` the family of
  runs that end so, and `Ownership.OutOfReachIsOthersDoing` shows that the agent
  never gets there by an accept of its own.

## A limit of rank fusion

No document promises that a row found by both legs beats a row found by one, but
it is what fusing ranks is for. It holds exactly while the candidate depth is at
most 61, that is for page limits up to 60 of the 200 allowed
(`Fusion.BothBeatsOneExactly`, `Fusion.BothBeatsOneUpToPageOf60`).

## Model

| member | source | states |
|---|---|---|
| Protocol.MergesAgree | src/tools/coordination.rs:493-562 | In every interleaving all merges of one handoff that report success carry the same trimmed, non-empty commit, and it is the row's merge commit while the row exists |
| Protocol.MergedRowsAreLinked | src/tools/coordination.rs:510-540 | Every reachable merged row has a non-blank work commit although the merging UPDATE tests only the status |
| Protocol.TransitionsHaveOneWinner | src/repo/handoff_repo.rs:157-197 | Over any run at most one accept and at most one complete of a handoff report success |
| Protocol.WinnersAreRecorded | src/tools/coordination.rs:386-400 | A caller told that its accept succeeded finds in the row, now and for as long as it exists, the identity it was entitled to record; one told that its complete succeeded finds its commit |
| Protocol.AcceptorNeverChanges | src/repo/handoff_repo.rs:157-172 | Once a row has left pending, no later run changes who accepted it |
| Protocol.RunsOnlyAdvance | src/repo/handoff_repo.rs:157-225 | Over any run rows only move forward: sender, recipient and text never change, status never falls back, commits are fixed once set, a deleted id never returns |
| Protocol.RunsKeepInv | src/tools/coordination.rs:145-678 | Every run keeps the invariant: rows well formed, one open row per dedupe key, every call in flight still right about what its earlier reads established, the log true |
| Protocol.CommitKeepsCall | src/tools/coordination.rs:125-143 | What a call learned from an earlier read (visibility, a linked commit, a recipient) survives every statement any other call can run |
| Protocol.AcceptPlanRecords | src/tools/coordination.rs:356-386 | The name an accept settles on is a slug: the fixed binding, the named family member, the supplied name, or the recipient |
| Protocol.MergeWriteIsOk | src/repo/handoff_repo.rs:207-225 | A merging UPDATE that finds a completed row writes a legal row: the linkage read before is still there |
| Protocol.StatementIsOk | src/tools/coordination.rs:342-678 | Each statement of each handler makes only legal changes, leaves its own call in a state its next statement can rely on, and reports only what it did |
| Protocol.FilingIsLegal | src/repo/handoff_repo.rs:71-104 | A REST filing inserts a fresh well-formed row or advances the colliding one |
| Replies.RefusalsAreTruthful | src/tools/coordination.rs:145-562 | Over any run every refusal sent is true, each reason in its own sense: a status it names was reached and does refuse the call, a merge refused for another commit names the row's own, a merge refused for a missing link hit a row without one for good, a name refused is not the caller's, a text refused is blank or too long |
| Replies.RepliesAreTrueWhenSent | src/tools/coordination.rs:125-678 | In every run each reply is true of the moment it is computed: a row shown is the row as it stands, "not found" means absent or hidden from this caller, a refusal changes nothing and names the status, commit or missing parent really there |
| Replies.NextKeepsTold | src/tools/coordination.rs:383-400 | A call on its way to explain a lost write finds, whatever runs in between, the row gone or past the status it needed |
| Effects.EveryChangeIsAccountedFor | src/repo/handoff_repo.rs:31-225 | In every run each step leaves a row as it was, or is the accept, complete, merge, bump, unlink, embedding or delete that changes exactly the fields that operation sets, by a call that may see the row and under the conditions the handler promises; a row that appears is the one its author asked for, field by field |
| Effects.AuditRecordsDeletionsOnly | src/repo/handoff_repo.rs:615-639 | A step that deletes nothing leaves the audit trail as it was |
| Effects.EmbeddingStampsRow | src/repo/embedding_repo.rs:26-38 | Storing an embedding stamps its row, if present, and changes nothing else |
| Effects.ChangedRowsResurface | src/repo/handoff_repo.rs:106-146 | Whatever adds or changes a row stamps it with the time of the step, so a wake poll with an older cursor, and no other, shows it again |
| Finishing.CallsFinish | src/tools/coordination.rs:342-678 | No call outlives four statements of its own, whatever runs in between |
| Finishing.CallsAreNeverStuck | src/tools/coordination.rs:342-678 | In every reachable state each call in flight can run its next statement |
| Finishing.EndedCallsAreAnswered | src/tools/coordination.rs:342-678 | A call that ends has been answered with a reply to its own request, unless it was aborted or its outcome lost |
| Finishing.ArrivalsAreTakenUp | src/tools/coordination.rs:342-678 | A request that arrives is answered at once, changing nothing, or is in flight as it was made |
| Authority.SendersAreAuthentic | src/auth.rs:318-327 | In every run whoever makes a handoff appear holds the identity it is filed under; the row is pending and stamped, and holds the sender, recipient or none, title, body, priority, category, parent and dedupe key that were asked for, within the text limits; a reply's parent was there for its author to see |
| Authority.AcceptorsAreAuthentic | src/tools/coordination.rs:356-400 | In every run whatever step gives a pending row an acceptor, its reply delivered or lost, is an accept whose caller was entitled to that name: its fixed binding, a named family member, the supplied name, or the recipient |
| Authority.AcceptorsHaveAuthors | src/repo/handoff_repo.rs:157-172 | In every reachable state each row with an acceptor, accepted or since completed or merged, got it from such an accept of the run |
| Authority.AcceptedRowsHaveAcceptor | src/repo/handoff_repo.rs:157-172 | Every reachable accepted row names a valid slug, recorded by an accept entitled to it |
| Authority.WritesStayInside | src/tools/coordination.rs:125-143 | The visibility check before a write is no race: no run lets a call change or delete a row its caller may not see |
| Authority.FilingsAreBound | src/api.rs:207-289 | An accepted filing is stored as filed, key, text and class included, under a machine's own name for an allowed agent, or the operator's valid names; agent tokens file nothing |
| Authority.FilingsAreTakenExactly | src/api.rs:207-320 | A filing is accepted exactly when its sender and recipient are allowed and its title, body, key and context fit |
| Authority.RejectionsAreTruthful | src/api.rs:207-320 | Each rejection names something that is wrong with the filing |
| Padding.PaddedSenderReachesTable | src/auth.rs:110-111 | A server with a padded machine sender starts, and a filing puts that sender, which is no slug, in the table |
| Padding.SendersAreSlugsExactly | src/api.rs:218-230 | After any run every sender there ever was is a valid slug exactly when no step inserted a filing under a padded machine name |
| Padding.UnpaddedSendersAreSlugs | src/auth.rs:110-111 | When every machine name that files is a valid slug, so is every sender in every reachable state |
| Padding.MachineCanFileExactly | src/api.rs:250-270 | A token with a checked allowlist has some filing accepted exactly when some entry is not padded |
| Padding.PaddedAllowlistFilesNothing | src/auth.rs:112-124 | A startable configuration whose machine token has every filing rejected |
| Archive.PresentOrBuriedOnce | src/repo/handoff_repo.rs:615-639 | Every id ever created is in the table or has exactly one tombstone, holding its sender, recipient, title and last status |
| Archive.DeletesAreAttributed | src/tools/coordination.rs:659-678 | A delete that reports success has removed the row for good and is on record under its caller's identity |
| Archive.ThreadsFormForest | migrations/20260512000001_handoff_threading_and_commit_linkage.sql:16-22 | In every reachable state following reply links never revisits a row |
| Archive.RootOf | src/models/handoff.rs:20-22 | Walking up the links ends, inside the table, at a row that replies to nothing |
| Archive.RunsKeepArchive | src/repo/handoff_repo.rs:31-59 | Every run keeps: links point to rows present and created earlier, tombstones match the rows they bury |
| Dedupe.FilingsAreConserved | src/repo/handoff_repo.rs:61-104 | After any run the accepted filings that asked for a (key, recipient) equal the sum of 1 + repeat_count over all rows ever filed under it, and at most one open row holds the pair |
| Dedupe.UpsertReportsTruly | src/repo/handoff_repo.rs:71-104 | The upsert's reply tells whether a row was created, and if not, which open row was bumped by one |
| Dedupe.DeduplicatedMeansNoNewRow | src/api.rs:321-324 | After any run `deduplicated` is reported exactly when the filing created no row |
| Dedupe.RepeatedFilingIsBumped | src/repo/handoff_repo.rs:71-104 | In every run an accepted filing whose own key and recipient an open row holds adds no row: it raises that row's counter by one, stamps it and says `deduplicated`, or at the counter's maximum changes nothing and fails |
| Dedupe.NewFilingIsInserted | src/repo/handoff_repo.rs:71-104 | In every run an accepted filing whose key no open row holds, or that has none, adds its row as filed and says so |
| Handoffs.HandoffTable.AcceptHandoffAs | src/repo/handoff_repo.rs:157-172 | Writes the acceptor, or the recipient when none is given, only on a pending row |
| Handoffs.HandoffTable.CompleteHandoffWithCommit | src/repo/handoff_repo.rs:180-197 | Completes an open row, keeping an earlier commit when none is given |
| Handoffs.HandoffTable.MarkMerged | src/repo/handoff_repo.rs:207-225 | Merges only a completed row |
| Handoffs.HandoffTable.CreateHandoff | src/repo/handoff_repo.rs:31-59 | Inserts, or reports a missing parent |
| Handoffs.HandoffTable.CreateMachineHandoff | src/repo/handoff_repo.rs:61-104 | Inserts, or bumps the one open row under the same key and recipient |
| Handoffs.HandoffTable.DeleteHandoff | src/repo/handoff_repo.rs:615-639 | Removes the row, unlinks its replies and leaves a tombstone in one statement |
| Handoffs.HandoffTable.StoreEmbedding | src/repo/embedding_repo.rs:26-38 | Touches the row and nothing else |
| Coordination.EnsureHandoffVisible | src/tools/coordination.rs:125-143 | Passes an unrestricted caller without a read, and a restricted one exactly when the row exists and it may see it |
| Coordination.HandleAcceptHandoff | src/tools/coordination.rs:342-401 | Each statement of an accept replies and changes the tables as the protocol step says |
| Coordination.HandleCompleteHandoff | src/tools/coordination.rs:403-438 | The same for a complete |
| Coordination.HandleMarkMerged | src/tools/coordination.rs:493-562 | The same for a merge, idempotent on the same commit |
| Coordination.HandleDeleteHandoff | src/tools/coordination.rs:659-678 | The same for a delete |
| Coordination.HandleCreateHandoff | src/tools/coordination.rs:145-277 | The same for a create |
| Coordination.RunStatement | src/tools/coordination.rs:125-678 | Running any handler's next statement on the table is one step of the state machine |
| Ingestion.CreateHandoff | src/api.rs:207-352 | A filing is rejected without a trace, or upserted under the resolved sender and recipient |
| Ingestion.CheckContext | src/api.rs:177-199 | A context is refused unless it is an object within the size limit; otherwise each unknown key and an unknown verdict draw one warning, in order |
| Ingestion.WarningsAreExact | src/api.rs:177-199 | The filer is warned of exactly the keys and the verdict the convention does not know |
| Sql.PartyMatchIsSlugMatches | src/repo/mod.rs:48-64 | For every ASCII binding and slug the SQL text filter is two-valued and is the Rust match |
| Sql.PartyMatchNullColumn | src/repo/mod.rs:48-64 | A NULL column is never selected |
| Queries.PartyClauseIsCanSee | src/auth.rs:434-442 | `party_clause` is TRUE exactly when `can_see_handoff` holds |
| Slugs.FamilyCoversBaseAndMembers | src/auth.rs:295-306 | A `<base>-*` binding covers the base and every `<base>-<suffix>` with a non-empty suffix, and nothing else |
| Slugs.SlugMatchesFolds | src/auth.rs:295-306 | The match depends on the slug only up to case |
| Slugs.NamesAreTakenExactly | src/validation.rs:125-146 | An agent name is taken exactly when, trimmed, it is 1 to 80 letters, digits, dashes, underscores and dots, and is kept trimmed |
| Slugs.FoldsExactly | src/auth.rs:295-306 | Two names fold together exactly when they differ only in the case of letters |
| Callers.ClaimsAreExact | src/auth.rs:318-327 | A caller bound to a slug may claim that slug alone, one bound to a family its base and members, an unbound one any |
| Callers.SightIsExact | src/auth.rs:434-442 | Callers whose token does not exclude client data see everything; the others what their own names sent or were sent, and nobody else's broadcasts |
| Callers.QueriesAreExact | src/auth.rs:443-455 | A restricted caller may ask about the queues of its own names only |
| Queries.BuildListQuery | src/repo/handoff_repo.rs:287-385 | The conditions built with running placeholder numbers and the parameters bound in a second pass agree: the query selects exactly the rows the filter means, and its last placeholder is the limit |
| Queries.FetchNewest | src/repo/handoff_repo.rs:361-385 | The newest rows up to the limit, newest first |
| Queues.WakeIsCheckInWithoutBroadcasts | src/repo/handoff_repo.rs:111-146 | For every caller that may ask, the check-in action queue minus pending broadcasts is the wake queue minus broadcasts from outside a restricted caller's boundary, which the wake poll does not know |
| Queues.AcceptedRowSitsWithRecipient | src/tools/check_in.rs:61-93 | For every caller that may ask, an accepted action row with a recipient or an acceptor is in the agent's check-in queue or self-claim count, never both, exactly when the briefing names that agent and the row is not a broadcast outside a restricted caller's boundary |
| Queues.AcceptedActionHasOneOwner | src/repo/handoff_repo.rs:315-358 | In every reachable state each accepted action row has one owner, a valid slug: the briefing names it, the wake poll and the self-claim count give the row to it and to nobody else up to case, and so does check_in, for restricted callers just when the row is not a broadcast outside their boundary |
| Queues.OpenActionsAreNeverLost | src/tools/check_in.rs:50-93 | In every reachable state each open action row is in the unrestricted check-in queue or the self-claim count of some valid agent |
| Queues.PendingBroadcastIsOffered | src/repo/handoff_repo.rs:315-358 | A pending broadcast is in the unrestricted check-in queue of everyone but its sender, wakes nobody and is nobody's |
| Ownership.HeldBroadcastCanBeOutOfReach | src/tools/check_in.rs:61-77 | For any broadcast and any agent whose binding does not cover the sender, creating it and accepting it in the agent's name makes the agent its owner and wakes it, while its own check_in does not list the row and it may not see it |
| Ownership.StrandedExample | src/tools/check_in.rs:61-77 | One such run with its names filled in |
| Ownership.OutOfReachIsOthersDoing | src/tools/coordination.rs:342-401 | Over any run a row held out of its acceptor's boundary was accepted by a caller not restricted to that boundary |
| Queues.OperatorColumnIsRecipient | src/repo/handoff_repo.rs:541-562 | The SQL `is_operator` column says what the Rust `recipient` says |
| Boundary.RestrictedReadsSeeOnlyVisible | src/auth.rs:434-455 | Tables that agree on the rows a restricted caller sent or received answer its get, list, check_in and replies alike, has_more, self-claim count and refusals included |
| Boundary.RestrictedStepSeesOnlyVisible | src/tools/coordination.rs:125-143 | Each statement of a restricted caller's writes replies alike on such tables and keeps them alike |
| Confinement.ConfinedRepliesAgree | src/auth.rs:434-455 | Two runs in which a restricted party makes the same calls at the same points, while others do anything that leaves the tables looking alike to it, send it the same replies in the same order and answer its next get, list, check_in and replies alike |
| Confinement.PairedRunsStayAlike | src/tools/coordination.rs:125-143 | At every point of two such runs the party's calls in flight have learned the same and its view of the table is the same |
| Search.SearchSeesOnlyVisible | src/repo/embedding_repo.rs:124-200 | A restricted search admits the same pages on tables that look the same to its caller, fused, text-only and with the OR fallback: hidden rows take no rank and no place |
| Search.FoundRowsAreVisible | src/repo/embedding_repo.rs:131-156 | Every row a restricted hybrid search returns is one the caller may see |
| Search.TextPagesFallBackOnlyWhenEmpty | src/repo/embedding_repo.rs:157-200 | A restricted text search shows the best visible matches of the query as typed, best first, as many as the limit allows, and those of the looser query only when none of the caller's rows matches as typed |
| Search.BetterMatchesComeFirst | src/repo/embedding_repo.rs:131-156 | When neither leg is cut, a row that matches better in text and in meaning than another stands before it |
| Search.SearchPagesAreHonest | src/repo/embedding_repo.rs:124-156 | For every requested limit a party-filtered page is as full as the caller's matching or embedded rows allow, and has_more is exact |
| Boundary.HandleListHandoffs | src/tools/coordination.rs:564-657 | Refused for a filter name that is no slug, otherwise a trimmed page of the matching rows with an honest has_more; in compact form, the default, with every body cut at a character boundary |
| Boundary.HandleGetHandoff | src/tools/coordination.rs:320-340 | Shows the row exactly when it exists and, for a restricted caller, the binding covers its sender or recipient; otherwise not found |
| Listings.ListingsShowLatest | src/pagination.rs:23-33 | A listing holds the newest matching rows, newest first, as many as the page takes, and says exactly whether there are more; the wake poll likewise by last change |
| Listings.CheckInQueuesExactly | src/tools/check_in.rs:50-120 | The rows of both check_in pages, field by field: open, of the category, addressed to the agent, claimed by it or claimable, inside the boundary, notifications under a week old, no accepted action sent to itself |
| Listings.ListsExactly | src/repo/handoff_repo.rs:287-415 | The rows list_handoffs matches, field by field, names up to padding and case |
| Listings.RepliesListExactly | src/repo/handoff_repo.rs:230-260 | The replies list_replies_to_me matches: present, newer than the cursor, inside the boundary, to a present row the agent sent |
| Listings.ClaimsCountExactly | src/repo/handoff_repo.rs:457-473 | The rows the self-claim count counts, field by field |
| Listings.CheckInCountsExactly | src/tools/check_in.rs:124-134 | The two counts are the pending and the accepted rows of the page, the pages hold up to twenty and five rows, and the claims held are counted with the creation time of the oldest |
| Listings.ListPending | src/api.rs:392-450 | The poll is refused for a bad name or an agent not on a machine's list, and is otherwise a page of the wake queue by last change |
| Listings.PollQueuesExactly | src/repo/handoff_repo.rs:111-146 | The rows the poll matches, field by field |
| Boundary.CompactBodies | src/tools/coordination.rs:611-631 | Each body as it is when within 200 bytes, otherwise its longest valid prefix and an ellipsis |
| Boundary.HandleListRepliesToMe | src/tools/coordination.rs:440-491 | A trimmed page of the replies to the agent's own handoffs that the caller may see, or a refusal |
| Boundary.HandleCheckIn | src/tools/check_in.rs:35-145 | The queue with its counts by status, the self-claim count with the oldest claim or unknown when that query fails, and the notifications; or a refusal for another agent's queue |
| Boundary.CheckInCountsAddUp | src/tools/check_in.rs:129-140 | The pending and accepted counts of a check-in add up to its page |
| Boundary.OldestClaim | src/repo/handoff_repo.rs:457-473 | The count and the earliest creation time of the claims held |
| Boundary.ClaimsSeeOnlyVisible | src/repo/handoff_repo.rs:457-473 | The self-claim count, which has no party filter, still counts only visible rows |
| Boundary.RepliesSeeOnlyVisible | src/repo/handoff_repo.rs:230-260 | The reply query matches the same rows on tables that look the same |
| Briefings.TriageStuck | src/tools/briefings.rs:335-377 | Total counts all stuck rows, truncated exactly above fifty, and the groups split the first fifty by recipient |
| Briefings.StuckRowIsShownOnce | src/tools/briefings.rs:352-372 | Each of the first fifty stuck rows is shown, in the only group of its recipient |
| Briefings.StuckIsOldestFirst | src/tools/briefings.rs:357-377 | In the briefing of a table the stuck groups are in order of their oldest items, and no two stand for one recipient up to case |
| Briefings.TallyRecipients | src/tools/briefings.rs:379-422 | One count per recipient up to case, each its true number of rows, summing to all of them, busiest first and then by name |
| Briefings.TriageBuckets | src/tools/briefings.rs:379-416 | The self-addressed and machine buckets count their rows, the repeating ones and the age of the first |
| Briefings.Triage | src/tools/briefings.rs:291-433 | The whole briefing over the uncapped open set |
| Briefings.BucketAgeIsMaximum | src/tools/briefings.rs:403-416 | On oldest-first rows a bucket's age is the true maximum over its rows |
| Briefings.TitledAtMostOnce | src/tools/briefings.rs:297-377 | No handoff is titled in two of waiting, failing and stuck |
| Briefings.OperatorEntryIsWaitingTotal | src/tools/briefings.rs:297-312 | The operator's entry in the recipient counts is the waiting-on-you total, present exactly when that is positive |
| Briefings.BriefingIsConsistent | src/repo/handoff_repo.rs:485-562 | On one snapshot the recipient counts sum to the open count, which is pending plus accepted, and the operator's entry agrees with the SQL column |
| Briefings.IsOperatorSeen | src/tools/briefings.rs:184-196 | Seen when some listed row is the operator's, the lookup fails, or some handoff names it as sender or recipient |
| Briefings.UnseenOperatorIsUnknown | src/repo/handoff_repo.rs:564-585 | On one snapshot the operator is reported unseen exactly when no handoff has its name on it, claimed broadcasts included, and then nothing waits on it |
| BriefingFacts.BriefingTotalsExactly | src/tools/briefings.rs:291-433 | Each total of a briefing is the number of handoffs of its class in the table: on the operator's books, failing, overdue with somebody else by four or eight days, self-addressed, machine-filed, repeating |
| BriefingFacts.SectionsTitleOldest | src/tools/briefings.rs:297-330 | The two titled sections show the fifty oldest of their class, oldest first, every field as in the row and the age in whole days |
| BriefingFacts.StuckGroupsTell | src/tools/briefings.rs:335-377 | Every item of a stuck group is an overdue handoff, told as its row stands, on the books of the agent the group names |
| BriefingFacts.RecipientCountsExactly | src/tools/briefings.rs:379-422 | Each entry is the number of handoffs on that agent's books, or of unclaimed broadcasts for the entry without a name |
| BriefingFacts.CountsAreBusiestFirst | src/tools/briefings.rs:417-422 | The entries come busiest first, and by name where equally busy |
| BriefingFacts.BucketsTellOldest | src/tools/briefings.rs:403-416 | The two buckets give the age of their oldest handoff |
| BriefingFacts.HeaderCountsExactly | src/repo/handoff_repo.rs:485-520 | The header counts the open, the pending and the accepted action handoffs |
| Credentials.ValidatesExactly | src/auth.rs:10-20 | The constant-time fold accepts exactly the configured secret, and nothing when that is blank |
| Credentials.CheckMachineToken | src/auth.rs:95-137 | One machine entry is accepted exactly when its secret is long and not the main one, its names are valid, and its lists are non-empty with known scopes |
| Credentials.ParseMachineTokens | src/auth.rs:84-151 | A machine list is accepted whole exactly when every entry is good and no two share a secret; a refusal names an offender |
| Credentials.CheckAgentToken | src/auth.rs:233-276 | One agent entry is accepted exactly when its secret is new and its binding normalises |
| Credentials.ParseAgentTokens | src/auth.rs:221-290 | An agent list is accepted whole exactly when every entry is good against the main and machine secrets and no two share one; bindings are normalised in place |
| Credentials.BindingOf | src/auth.rs:261-276 | A normalised binding is a slug or a slug family |
| Credentials.NormalisingIsIdempotent | src/auth.rs:257-276 | A stored binding is already normal |
| Credentials.MachineSenderIsKeptAsGiven | src/auth.rs:110-111 | The sender a machine token stamps is a valid slug exactly when it was configured without padding |
| Credentials.PaddedMachineSenderIsAccepted | src/auth.rs:110-111 | A padded sender passes the check of a server with a main token |
| Credentials.PaddedAllowlistEntryAllowsNobody | src/auth.rs:68-70 | An accepted allowlist entry matches some valid recipient exactly when it was configured without padding |
| Credentials.PaddedAllowlistIsAccepted | src/auth.rs:112-124 | A token whose only allowlist entry is padded passes the check of a server with a main token |
| Credentials.LoadAuth | src/main.rs:174-234 | Startup succeeds exactly on lists that are good, cross-checked, and beside a main token when not empty; it yields the machine list as given and the agent list normalised |
| Credentials.SecretNamesOneCredential | src/auth.rs:523-596 | A presented secret matches at most one configured credential |
| Credentials.OrderIsImmaterial | src/auth.rs:523-596 | Rearranging either token list never changes how a request is classified |
| Credentials.ClassesAreExact | src/auth.rs:472-596 | Each caller class is reached by exactly its own secret and only on its own endpoints |
| Credentials.RefusalsAreExact | src/auth.rs:523-596 | Each refusal is given exactly when its check fails: no bearer token, a secret nobody holds, a machine off its endpoints or without their scope, an agent off the tool endpoint |
| Credentials.OnlyProbesArePublic | src/auth.rs:493-523 | `/health` and `/ready`, and no other path, pass without a credential being looked at |
| Credentials.MachineStartsExactly | src/auth.rs:84-151 | A server with one machine token starts exactly when its secret is long and its own, its names are slugs once trimmed, its allowlist is not empty and its scopes are known and not empty |
| Credentials.AgentStartsExactly | src/auth.rs:221-290 | A server with one agent token starts exactly when its secret is long and its own and its name gives a binding |
| Credentials.BindingIsConfiguredName | src/auth.rs:257-276 | A binding is the configured name trimmed, or its trimmed base with the same `-*`, and exists exactly when that name or base is a slug |
| Credentials.OpenServersAskNothing | src/main.rs:174-234 | A server without a main token has no other credentials and asks for none |
| Credentials.AgentsAreValidCallers | src/auth.rs:566-590 | Every agent that reaches the tools carries a valid binding |
| OAuthBindings.OverlapIsSharedPrincipal | src/oauth.rs:212-222 | The pairwise test holds exactly when some principal matches both bindings |
| OAuthBindings.CheckOverlap | src/oauth.rs:212-222 | A binding list is accepted exactly when no principal matches two bindings |
| OAuthBindings.ParseBindings | src/oauth.rs:194-222 | A configuration is accepted exactly when it is non-empty, well formed and unambiguous; agent names come out trimmed |
| OAuthBindings.LookupIsExact | src/oauth.rs:268-272 | On an accepted list the lookup finds the principal's one binding |
| OAuthBindings.LookupIgnoresOrder | src/oauth.rs:268-272 | Rearranging an accepted list changes no lookup |
| OAuthBindings.StaticIsRecognised | src/oauth.rs:594-614 | The dispatcher's scan and `bearer_auth` agree on which tokens are static |
| OAuthBindings.OAuthChangesExactly | src/oauth.rs:541-639 | Turning OAuth on changes the response, its challenge header included, to exactly: metadata requests, and, probes apart, every request on a server without an operator secret, every request with two credentials, and every request to the tool endpoint without a known static credential |
| OAuthBindings.OAuthOnlyAdmitsBoundAgents | src/oauth.rs:572-639 | With OAuth on, full access needs the operator's secret; a principal gets only the name, client and restriction of its binding, with the required scopes, on the tool endpoint |
| OAuthBindings.OAuthAdmitsExactly | src/oauth.rs:344-388 | A credential for OAuth is admitted exactly when it is verified, its principal bound and its scopes complete, and then as the agent of the binding, name, client and client-data restriction included; otherwise the reply tells which of the three is missing |
| Jwks.ParseKeys | src/oauth.rs:473-539 | A key set is accepted exactly when within bounds, every candidate is well formed, ids are distinct and one is usable; then it is its candidates in order |
| Jwks.AcceptedKeysAreBound | src/oauth.rs:473-539 | Every key of an accepted set comes from an entry fit for its algorithm alone, an RSA key for RS256 or a P-256 key for ES256, under that entry's id, and every such entry is there |
| Jwks.KeySetsAreTakenExactly | src/oauth.rs:473-539 | A key set is taken exactly when it is within the byte and entry limits, some entry is usable, and every usable entry has a short id of its own and a key that decodes |
| Jwks.JwksCache.KeyWithFetch | src/oauth.rs:390-432 | One locked lookup answers and changes the cache as specified, failed and cancelled refreshes included |
| Jwks.FetchesAreRateLimited | src/oauth.rs:416-424 | A window of length T sees at most T/30s + 1 fetch attempts however many callers queue |
| Jwks.ServedKeysAreFresh | src/oauth.rs:400-432 | Every key handed out matches the request and comes from a set fetched under 300 s earlier or by this lookup |
| Jwks.CachedMatchIsUnique | src/oauth.rs:405-411 | A key id names at most one cached key |
| Jwks.KeysChangeOnlyBySuccess | src/oauth.rs:413-432 | However many refreshes fail or are cancelled, the keys and their age stay what they were until one succeeds |
| Jwks.CacheHasSource | src/oauth.rs:425-428 | What the cache holds came whole from one successful refresh |
| Jwks.LastSuccessIsHeld | src/oauth.rs:424-428 | The cache holds the set of the last successful refresh, dated by its arrival, whatever failed since |
| Jwks.RefreshesExactly | src/oauth.rs:400-423 | A lookup fetches exactly when the last set fetched is 300 s old or lacks the key and no refresh began in the last 30 s |
| Jwks.LookupsAnswerExactly | src/oauth.rs:390-432 | Over any run a lookup gets a key exactly when the last set fetched still counts and holds it, or it may refresh and what arrives holds it; no answer exactly when its own refresh is cancelled |
| Fusion.BothBeatsOneExactly | src/repo/embedding_repo.rs:57-81 | A row in both legs outscores every row in one, whatever the ranks, exactly when the candidate depth is at most 61 |
| Fusion.BothBeatsOneUpToPageOf60 | src/pagination.rs:12-25 | In terms of pages: exactly up to a page limit of 60, for every requested limit |
| Fusion.BothLegsComeFirst | src/repo/embedding_repo.rs:131-156 | With such a page every row in both legs stands before every row in one |
| Fusion.DominationScoresHigher | src/repo/embedding_repo.rs:75-79 | At any depth a row ranked no worse in both legs and better in one scores strictly higher |
| Fusion.DominatingRowComesFirst | src/repo/embedding_repo.rs:75-81 | And stands earlier on the page |
| Fusion.FusedPageExists | src/repo/embedding_repo.rs:75-81 | Whatever the legs, some page is the answer of ORDER BY score DESC LIMIT over their full outer join, so the results about pages are about something |
| Fusion.CutLegsStillFillPage | src/repo/embedding_repo.rs:54-81 | Cutting both legs never makes the fused result shorter than the union of matches and embedded rows allows |
| Fusion.HybridPagesAreHonest | src/pagination.rs:23-33 | For every requested limit the page is full when it can be and has_more is true exactly when rows were left behind |
| Pagination.TrimPage | src/pagination.rs:27-33 | Cuts the caller's vector to the page and reports the probe row |
| Pagination.PageIsFullAndHonest | src/pagination.rs:12-33 | For every requested limit: clamped to 1..200, full when it can be, has_more exact |
| CrossClient.FilterCrossClient | src/tools/helpers.rs:133-239 | Shows exactly the items that are not another client's, are marked safe or are acknowledged, in order and tagged with their owner; audits every foreign item as released safe, released or withheld; one notice per owner with its count |
| CrossClient.WithheldExactly | src/tools/helpers.rs:124-132 | An item is withheld exactly when a client asks, the item is another client's, is not marked safe and is not acknowledged |
| CrossClient.AuditIsExact | src/tools/helpers.rs:188-209 | The audit tells of every foreign item with an id, in order: safe ones released as safe, others released when acknowledged and withheld when not |
| CrossClient.NoticesAreExact | src/tools/helpers.rs:214-232 | One notice for each client of which an item was withheld, under its name or as unknown, with the number withheld |
| CrossClient.ItemsAreClearedOrHidden | src/tools/helpers.rs:176-211 | Every item is shown or withheld, never both, never lost |
| CrossClient.ShownInInputOrder | src/tools/helpers.rs:242-274 | Shown items keep their order and change only in provenance |
| CrossClient.WithheldItemsAreAudited | src/tools/helpers.rs:203-209 | For items with ids, which every caller passes, the withheld audit entries are the withheld items under their owners, one for one and in order |
| CrossClient.NoticesAccountForWithheld | src/tools/helpers.rs:214-232 | The notice counts add up to the withheld audit entries |
| CrossClient.WithheldContentStaysHidden | src/tools/helpers.rs:124-132 | The whole response, notices included, depends on a withheld item only through its id and owner |
| CrossClient.AcknowledgingOnlyAdds | src/tools/helpers.rs:195-202 | Acknowledging shows every item, and what was shown without it is a subsequence |
| Embeddings.EmbedTexts | src/embeddings.rs:73-89 | A response is accepted exactly when its indices are a permutation of the input positions, and output i is the vector labelled i |
| Embeddings.InPlaceMeansPermutation | src/embeddings.rs:85-87 | After sorting, index equals position throughout exactly when the indices were a permutation |
| Embeddings.Backfill | src/tools/search.rs:22-56 | A bad response changes nothing; otherwise every row still present gets the vector of its own text, in whatever order the service answered |
| Utf8.BoundaryIffValidPrefix | src/tools/helpers.rs:51-55 | In valid text the character boundaries are exactly the lengths of valid prefixes |
| Utf8.WalkBack | src/embeddings.rs:107-111 | The backward walk ends at the longest valid prefix, at most three bytes below the limit |
| Utf8.TruncateStr | src/tools/helpers.rs:56-65 | The longest valid prefix within the limit, the text itself when it fits |
| Utf8.Compact | src/tools/coordination.rs:617-624 | The compact form of a body is valid UTF-8: the body, or its longest valid prefix of 200 bytes and an ellipsis |
| Utf8.TruncationKeepsWholeCharacters | src/tools/helpers.rs:51-65 | Truncation keeps whole characters and one more would not have fitted |
| Utf8.ValidTextIsEncoded | src/tools/helpers.rs:51-55 | Every text of the byte syntax is the encoding of a sequence of scalar values (RFC 3629 sections 3 and 4) |
| Utf8.EncodingsAreValid | src/tools/helpers.rs:51-55 | And every such encoding satisfies the byte syntax |
| Utf8.EncodingsDecode | src/tools/helpers.rs:51-55 | Decoding an encoding gives the scalar values back |
| Utf8.TruncateForEmbedding | src/embeddings.rs:103-115 | The text, or its longest valid prefix of 6000 bytes and the mark; always valid UTF-8 |
| Utf8.PrepareText | src/embeddings.rs:122-124 | Title twice and body, within the budget and valid |
| Utf8.EmbeddedTextIsUnique | src/embeddings.rs:117-124 | The text prepared before a row exists is the one embedded for it afterwards |

## Left out

- Postgres, sqlx, axum, rmcp and TLS. A statement is one atomic step with the
  meaning of its WHERE, ON CONFLICT and RETURNING; other database errors and
  cancelled requests are the actions `Abort` and `Lose`.
- Operator SQL, rows from before the acceptor column existed and the legacy
  `accept_handoff` without an identity: not steps of the machine, so the
  theorems about acceptors do not speak of them.
- The stored `context` JSON itself (its checks and warnings are modelled), the
  warning about a recipient nobody has seen, parsing of ids and timestamps, JSON shapes, error wording, trigram suggestions, logging,
  markdown rendering, start-up and the scripts.
- Status, category and priority in other letter case: they are enums here. The
  MCP create stores the text as given, REST lower-cases it.
- Non-ASCII padding around a machine token's `from_agent`, which is stored as
  given: agent columns are ASCII in the model.
- Embedding writes through the class `HandoffTable` only touch `updated_at`, by
  the update trigger, as does unlinking a reply; the vectors themselves are in
  `Embeddings`, where the rows fetched and the rows stored are one batch: edits
  of a row's text between the two are not modelled.
- Text search ranking, cosine distance, Postgres numeric rounding, the JWT
  checks, the HTTP fetch and the embedding endpoint: uninterpreted inputs.
  Scores are exact reals.
- Fusion.BothBeatsOneExactly: assumes the full-text leg keeps its best-ranked
  rows, which its unordered LIMIT does not promise. The paging results do not
  assume it.
- Vector-only search, similar entries and the knowledge side of hybrid search.
  How the OR query is built is not modelled: `Search` takes its ranks as an
  input.
- Rows equal in the sort key come in any order (`ORDER BY created_at` alone).
- Briefings.Triage: the single loop over recipients and buckets is two loops
  here, and the loops that build titled sections are one filter each.
- The legacy title lists and the briefing's markdown: easy members beside the
  triage.
- The briefing endpoint itself, and the body-free item shape of the REST poll.
- Boundary.HiddenReadsAsMissing, Jwks.FailedRefreshKeepsKeys and
  CrossClient.WithheldWithoutIdIsSilent: remarks that read one branch of a
  definition, so they have no row above.
- Cursor completeness of `since` polling: it depends on clock assumptions the
  code does not state.
- The knowledge tools: their boundary is a column test (`client_id IS NULL`).
