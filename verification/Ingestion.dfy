/** `POST /api/handoff`: identity and routing of machine-filed handoffs, and the
    deduplicating insert (`src/api.rs`). */
module Ingestion {
  import opened Prelude
  import opened Slugs
  import opened Handoffs
  import Coordination

  /** Who reached the REST endpoint. */
  datatype Filer = Operator | Machine(fromAgent: Text, agents: seq<Text>) | AgentToken

  datatype Filing = Filing(
    fromAgent: Option<string>,
    toAgent: Option<string>,
    priority: Priority,
    category: Category,
    title: string,
    body: string,
    dedupeKey: Option<string>,
    context: Option<Coordination.Context>)

  datatype Rejection =
    | SenderMismatch
    | SenderRequired
    | BadSender
    | Forbidden
    | RecipientRequired
    | BadRecipient
    | RecipientNotAllowed
    | BadTitle
    | BadBody
    | BadDedupeKey
    | BadContext
    | DatabaseFailure(outcome: InsertOutcome)

  datatype FilingReply = Filed(row: Handoff, deduplicated: bool) | Rejected(why: Rejection)

  function ResolveSender(filer: Filer, claimed: Option<string>): Result<Text, Rejection> {
    match filer
    case Machine(bound, _) =>
      if claimed.Some? && !(IsAscii(claimed.value) && EqFold(claimed.value, bound)) then Err(SenderMismatch)
      else Ok(bound)
    case Operator =>
      if claimed.None? then Err(SenderRequired)
      else
        var slug := ValidateAgentName(claimed.value);
        if slug.None? then Err(BadSender) else Ok(slug.value)
    case AgentToken => Err(Forbidden)
  }

  predicate AllowsAgent(agents: seq<Text>, agent: Text) {
    exists a :: a in agents && EqFold(a, agent)
  }

  function ResolveRecipient(filer: Filer, to: Option<string>): Result<Text, Rejection> {
    if filer.AgentToken? then Err(Forbidden)
    else if to.None? then Err(RecipientRequired)
    else
      var slug := ValidateAgentName(to.value);
      if slug.None? then Err(BadRecipient)
      else if filer.Machine? && !AllowsAgent(filer.agents, slug.value) then Err(RecipientNotAllowed)
      else Ok(slug.value)
  }

  const MAX_DEDUPE_KEY := 200

  predicate ValidDedupeKey(key: string) {
    && 1 <= |key| <= MAX_DEDUPE_KEY
    && forall i :: 0 <= i < |key| ==> SlugChar(key[i]) || key[i] == '/'
  }

  /** The row a filing asks to insert, or why it is turned away. */
  function FilingRow(filer: Filer, f: Filing, now: Time, newId: Uuid): Result<Handoff, Rejection> {
    var sender := ResolveSender(filer, f.fromAgent);
    if sender.Err? then Err(sender.error)
    else
      var recipient := ResolveRecipient(filer, f.toAgent);
      if recipient.Err? then Err(recipient.error)
      else if !Coordination.BoundedText(f.title, Coordination.MAX_TITLE_BYTES) then Err(BadTitle)
      else if !Coordination.BoundedText(f.body, Coordination.MAX_BODY_BYTES) then Err(BadBody)
      else if f.dedupeKey.Some? && !ValidDedupeKey(f.dedupeKey.value) then Err(BadDedupeKey)
      else if !Coordination.ContextOk(f.context) then Err(BadContext)
      else Ok(NewRow(newId, sender.value, Some(recipient.value), f.priority, f.category, f.title, f.body,
                     None, FromMachine, f.dedupeKey, now))
  }

  /** `deduplicated` is read off the returned row's counter. */
  function ReplyTo(o: InsertOutcome): FilingReply {
    match o
    case Inserted(row) => Filed(row, row.repeatCount > 0)
    case Bumped(row) => Filed(row, row.repeatCount > 0)
    case _ => Rejected(DatabaseFailure(o))
  }

  // ---------- context convention ----------

  /** What the filer is told about a context that is kept all the same. */
  datatype Warning = UnknownKey(key: string) | UnknownVerdict(verdict: string)

  const CONTEXT_V1_KEYS := ["v", "source", "check", "verdict", "observed_at", "evidence_ref", "metrics"]
  const CONTEXT_VERDICTS := ["PASS", "WARN", "FAIL", "UNKNOWN"]

  predicate IsUnknownKey(key: string) {
    key !in CONTEXT_V1_KEYS
  }

  function WarnOfKey(key: string): Warning {
    UnknownKey(key)
  }

  /** A warning for each unknown key, in order, and one for an unknown verdict. */
  function ContextWarnings(context: Option<Coordination.Context>): seq<Warning> {
    if context.None? then []
    else
      Map(WarnOfKey, Filter(IsUnknownKey, context.value.keys))
      + if context.value.verdict.Some? && context.value.verdict.value !in CONTEXT_VERDICTS
        then [UnknownVerdict(context.value.verdict.value)] else []
  }

  method CheckContext(context: Coordination.Context) returns (warnings: Option<seq<Warning>>)
    ensures warnings.Some? <==> Coordination.ContextOk(Some(context))
    ensures warnings.Some? ==> warnings.value == ContextWarnings(Some(context))
  {
    if !context.isObject || context.bytes > Coordination.MAX_CONTEXT_BYTES {
      return None;
    }
    var told: seq<Warning> := [];
    for n := 0 to |context.keys|
      invariant told == Map(WarnOfKey, Filter(IsUnknownKey, context.keys[..n]))
    {
      FilterPrefix(IsUnknownKey, context.keys, n);
      MapSnoc(WarnOfKey, Filter(IsUnknownKey, context.keys[..n]), context.keys[n]);
      if context.keys[n] !in CONTEXT_V1_KEYS {
        told := told + [UnknownKey(context.keys[n])];
      }
    }
    assert context.keys[..|context.keys|] == context.keys;
    if context.verdict.Some? && context.verdict.value !in CONTEXT_VERDICTS {
      told := told + [UnknownVerdict(context.verdict.value)];
    }
    return Some(told);
  }

  method CreateHandoff(table: HandoffTable, filer: Filer, f: Filing, now: Time, newId: Uuid)
    returns (reply: FilingReply, warnings: seq<Warning>)
    requires UniqueOpenKeys(table.rows)
    requires forall id :: id in table.rows ==> table.rows[id].id == id
    modifies table
    ensures var row := FilingRow(filer, f, now, newId);
            if row.Err? then reply == Rejected(row.error) && table.Contents() == old(table.Contents())
            else var o := UpsertOutcome(old(table.rows), row.value, now);
              reply == ReplyTo(o) && table.Contents() == Apply(old(table.Contents()), InsertChange(o))
    ensures reply.Filed? ==> warnings == ContextWarnings(f.context)
  {
    warnings := [];
    var row := FilingRow(filer, f, now, newId);
    if row.Err? {
      return Rejected(row.error), [];
    }
    if f.context.Some? {
      var told := CheckContext(f.context.value);
      warnings := told.value;
    }
    var o := table.CreateMachineHandoff(row.value, now);
    reply := ReplyTo(o);
  }

  /** The filer is warned of exactly the keys and the verdict the convention does
      not know. */
  lemma {:induction false} WarningsAreExact(context: Coordination.Context, text: string)
    ensures UnknownKey(text) in ContextWarnings(Some(context)) <==> text in context.keys && text !in CONTEXT_V1_KEYS
    ensures UnknownVerdict(text) in ContextWarnings(Some(context)) <==>
            context.verdict == Some(text) && text !in ["PASS", "WARN", "FAIL", "UNKNOWN"]
  {
    FilterMembers(IsUnknownKey, context.keys);
    var unknown := Filter(IsUnknownKey, context.keys);
    var told := Map(WarnOfKey, unknown);
    if text in unknown {
      var i :| 0 <= i < |unknown| && unknown[i] == text;
      assert told[i] == UnknownKey(text);
    }
    assert forall w :: w in told ==> w.UnknownKey? && w.key in unknown;
  }
}
