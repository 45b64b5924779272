/** Searching the handoffs (`hybrid_search_handoffs`): both legs and both text
    queries are cut to the caller's boundary before they are ranked. */
module Search {
  import opened Prelude
  import opened Slugs
  import opened Sql
  import opened Handoffs
  import opened Pagination
  import opened Queries
  import opened Boundary
  import opened Fusion

  /** A search: the text rank of a row under the query as typed and under the
      looser OR query, and the distance of its embedding; `None` for rows that do
      not match or have no embedding. Ranking functions are not interpreted. */
  datatype Query = Query(
    text: Handoff -> Option<real>,
    loose: Handoff -> Option<real>,
    closeness: Handoff -> Option<real>)

  predicate InScope(h: Handoff, party: Option<Text>) {
    PartyClause(party, Some(h.fromAgent), h.toAgent) == Yes
  }

  /** The rows a leg ranks. */
  function Hits(rows: Rows, party: Option<Text>, score: Handoff -> Option<real>): Rows {
    rows - (set id | id in rows && !(score(rows[id]).Some? && InScope(rows[id], party)))
  }

  /** `ranked` orders the hits, best first; equal scores fall either way. */
  ghost predicate IsRanking(ranked: seq<Uuid>, hits: Rows, score: Handoff -> Option<real>) {
    && Distinct(ranked) && Members(ranked) == hits.Keys
    && (forall id :: id in hits ==> score(hits[id]).Some?)
    && forall i, j :: 0 <= i < j < |ranked| ==>
         ranked[i] in hits && ranked[j] in hits
         && score(hits[ranked[i]]).Some? && score(hits[ranked[j]]).Some?
         && score(hits[ranked[i]]).value >= score(hits[ranked[j]]).value
  }

  /** With an embedding of the query: the two legs fused. */
  ghost predicate IsHybridPage(rows: Rows, party: Option<Text>, q: Query, limit: nat, page: seq<Uuid>) {
    exists byText: seq<Uuid>, byVector: seq<Uuid>, fts, vec ::
      && IsRanking(byText, Hits(rows, party, q.text), q.text)
      && IsRanking(byVector, Hits(rows, party, q.closeness), q.closeness)
      && IsLeg(fts, byText, CandidateDepth(limit)) && IsTopLeg(vec, byVector, CandidateDepth(limit))
      && IsFused(fts, vec, limit, page)
  }

  /** Without one: the best text matches, or those of the looser query when the
      query as typed matches nothing. */
  ghost predicate IsTextPage(rows: Rows, party: Option<Text>, q: Query, limit: nat, page: seq<Uuid>) {
    exists ranked: seq<Uuid> ::
      && (if Hits(rows, party, q.text) != map[]
          then IsRanking(ranked, Hits(rows, party, q.text), q.text)
          else IsRanking(ranked, Hits(rows, party, q.loose), q.loose))
      && page == Take(ranked, limit)
  }

  lemma {:induction false} HitsSeeOnlyVisible(party: Text, a: Rows, b: Rows, score: Handoff -> Option<real>)
    requires SameView(party, a, b)
    ensures Hits(a, Some(party), score) == Hits(b, Some(party), score)
  {
    forall id
      ensures id in Hits(a, Some(party), score) ==> id in Hits(b, Some(party), score) && a[id] == b[id]
      ensures id in Hits(b, Some(party), score) ==> id in Hits(a, Some(party), score) && a[id] == b[id]
    {
      if id in Hits(a, Some(party), score) {
        PartyClauseIsCanSee(Some(party), a[id].fromAgent, a[id].toAgent);
        SameViewRow(party, a, b, id);
      }
      if id in Hits(b, Some(party), score) {
        PartyClauseIsCanSee(Some(party), b[id].fromAgent, b[id].toAgent);
        SameViewRow(party, b, a, id);
      }
    }
  }

  /** A restricted search answers alike on tables that look the same to the caller:
      hidden rows take up no rank and no place on the page. */
  lemma {:induction false} SearchSeesOnlyVisible(party: Text, a: Rows, b: Rows, q: Query, limit: nat, page: seq<Uuid>)
    requires SameView(party, a, b)
    ensures IsHybridPage(a, Some(party), q, limit, page) <==> IsHybridPage(b, Some(party), q, limit, page)
    ensures IsTextPage(a, Some(party), q, limit, page) <==> IsTextPage(b, Some(party), q, limit, page)
  {
    HitsSeeOnlyVisible(party, a, b, q.text);
    HitsSeeOnlyVisible(party, a, b, q.loose);
    HitsSeeOnlyVisible(party, a, b, q.closeness);
  }

  /** Filtering inside the legs keeps restricted pages full: for every requested
      limit the page holds as many of the caller's matching or embedded rows as
      asked for, and "more" is true exactly when some were left behind. */
  lemma {:induction false} SearchPagesAreHonest(
      rows: Rows, party: Option<Text>, q: Query, requested: Option<int>, default: int, fetched: seq<Uuid>)
    requires IsHybridPage(rows, party, q, FetchLimit(NewPage(requested, default)), fetched)
    ensures var page := NewPage(requested, default);
            var total := |Hits(rows, party, q.text).Keys + Hits(rows, party, q.closeness).Keys|;
            && |Take(fetched, page.limit)| == Min(page.limit, total)
            && (|fetched| > page.limit <==> total > page.limit)
  {
    var limit := FetchLimit(NewPage(requested, default));
    var byText, byVector, fts, vec :|
      && IsRanking(byText, Hits(rows, party, q.text), q.text)
      && IsRanking(byVector, Hits(rows, party, q.closeness), q.closeness)
      && IsLeg(fts, byText, CandidateDepth(limit)) && IsTopLeg(vec, byVector, CandidateDepth(limit))
      && IsFused(fts, vec, limit, fetched);
    HybridPagesAreHonest(byText, byVector, fts, vec, requested, default, fetched);
  }

  lemma {:induction false} CandidateIsHit(fts: Leg, vec: Leg, byText: seq<Uuid>, byVector: seq<Uuid>, id: Uuid)
    requires RanksAs(fts, byText) && RanksAs(vec, byVector) && id in Candidates(fts, vec)
    ensures id in Members(byText) || id in Members(byVector)
  {
    if id in fts {
      assert byText[fts[id] - 1] == id;
    } else {
      assert byVector[vec[id] - 1] == id;
    }
  }

  /** Every row found is one the caller may see. */
  lemma {:induction false} FoundRowsAreVisible(
      rows: Rows, party: Text, q: Query, limit: nat, page: seq<Uuid>, id: Uuid)
    requires IsHybridPage(rows, Some(party), q, limit, page) && id in page
    ensures id in VisibleTo(party, rows)
  {
    var byText: seq<Uuid>, byVector: seq<Uuid>, fts, vec :|
      && IsRanking(byText, Hits(rows, Some(party), q.text), q.text)
      && IsRanking(byVector, Hits(rows, Some(party), q.closeness), q.closeness)
      && IsLeg(fts, byText, CandidateDepth(limit)) && IsTopLeg(vec, byVector, CandidateDepth(limit))
      && IsFused(fts, vec, limit, page);
    CandidateIsHit(fts, vec, byText, byVector, id);
    HitIsVisible(rows, party, q.text, id);
    HitIsVisible(rows, party, q.closeness, id);
  }

  lemma {:induction false} HitIsVisible(rows: Rows, party: Text, score: Handoff -> Option<real>, id: Uuid)
    ensures id in Hits(rows, Some(party), score) ==> id in VisibleTo(party, rows)
  {
    if id in Hits(rows, Some(party), score) {
      PartyClauseIsCanSee(Some(party), rows[id].fromAgent, rows[id].toAgent);
    }
  }

  function ScoreOf(rows: Rows, score: Handoff -> Option<real>, id: Uuid): real {
    if id in rows && score(rows[id]).Some? then score(rows[id]).value else 0.0
  }

  predicate AllScored(rows: Rows, party: Text, score: Handoff -> Option<real>, page: seq<Uuid>) {
    forall id :: id in page ==> id in VisibleTo(party, rows) && score(rows[id]).Some?
  }

  predicate Falls(rows: Rows, score: Handoff -> Option<real>, page: seq<Uuid>) {
    forall i, j :: 0 <= i < j < |page| ==>
      page[i] != page[j] && ScoreOf(rows, score, page[i]) >= ScoreOf(rows, score, page[j])
  }

  predicate NoneBetter(rows: Rows, party: Text, score: Handoff -> Option<real>, page: seq<Uuid>) {
    forall id, i :: id in VisibleTo(party, rows) && score(rows[id]).Some? && id !in page && 0 <= i < |page| ==>
      ScoreOf(rows, score, page[i]) >= ScoreOf(rows, score, id)
  }

  /** The page shows visible rows that have a score, the best there are, best
      first. */
  predicate BestFirst(rows: Rows, party: Text, score: Handoff -> Option<real>, page: seq<Uuid>) {
    AllScored(rows, party, score, page) && Falls(rows, score, page) && NoneBetter(rows, party, score, page)
  }

  /** A text-only search shows rows the caller may see: the best matches of the
      query as typed, as many as the limit allows, and matches of the looser query only when no
      row of the caller's matches as typed. */
  lemma {:induction false} TextPagesFallBackOnlyWhenEmpty(
      rows: Rows, party: Text, q: Query, limit: nat, page: seq<Uuid>)
    requires IsTextPage(rows, Some(party), q, limit, page)
    ensures forall id :: id in page ==> id in VisibleTo(party, rows)
    ensures if exists id :: id in VisibleTo(party, rows) && q.text(rows[id]).Some? then
              |page| == Min(limit, |Hits(rows, Some(party), q.text)|) && BestFirst(rows, party, q.text, page)
            else
              |page| == Min(limit, |Hits(rows, Some(party), q.loose)|) && BestFirst(rows, party, q.loose, page)
  {
    HitsExactly(rows, party, q.text);
    if Hits(rows, Some(party), q.text) != map[] {
      var ranked: seq<Uuid> :| IsRanking(ranked, Hits(rows, Some(party), q.text), q.text) && page == Take(ranked, limit);
      RankedPage(rows, party, q.text, ranked, limit);
      assert exists id :: id in Hits(rows, Some(party), q.text);
    } else {
      var ranked: seq<Uuid> :| IsRanking(ranked, Hits(rows, Some(party), q.loose), q.loose) && page == Take(ranked, limit);
      RankedPage(rows, party, q.loose, ranked, limit);
    }
  }

  lemma {:induction false} RankingFalls(
      rows: Rows, party: Option<Text>, score: Handoff -> Option<real>, ranked: seq<Uuid>, i: nat, j: nat)
    requires IsRanking(ranked, Hits(rows, party, score), score) && i < j < |ranked|
    ensures ranked[i] != ranked[j] && ScoreOf(rows, score, ranked[i]) >= ScoreOf(rows, score, ranked[j])
  {
  }

  lemma {:induction false} RankingIsOfHits(
      rows: Rows, party: Text, score: Handoff -> Option<real>, ranked: seq<Uuid>, id: Uuid)
    requires IsRanking(ranked, Hits(rows, Some(party), score), score)
    ensures id in ranked <==> id in VisibleTo(party, rows) && score(rows[id]).Some?
  {
    HitsExactly(rows, party, score);
    assert id in ranked <==> id in Members(ranked);
  }

  lemma {:induction false} RankedPage(
      rows: Rows, party: Text, score: Handoff -> Option<real>, ranked: seq<Uuid>, limit: nat)
    requires IsRanking(ranked, Hits(rows, Some(party), score), score)
    ensures |Take(ranked, limit)| == Min(limit, |Hits(rows, Some(party), score)|)
    ensures BestFirst(rows, party, score, Take(ranked, limit))
  {
    RankingSize(ranked, Hits(rows, Some(party), score), score);
    forall id ensures id in ranked <==> id in VisibleTo(party, rows) && score(rows[id]).Some? {
      RankingIsOfHits(rows, party, score, ranked, id);
    }
    forall i, j | 0 <= i < j < |ranked|
      ensures ranked[i] != ranked[j] && ScoreOf(rows, score, ranked[i]) >= ScoreOf(rows, score, ranked[j])
    {
      RankingFalls(rows, Some(party), score, ranked, i, j);
    }
    CutRanking(rows, party, score, ranked, limit);
  }

  lemma {:induction false} CutRanking(
      rows: Rows, party: Text, score: Handoff -> Option<real>, ranked: seq<Uuid>, limit: nat)
    requires forall id :: id in ranked <==> id in VisibleTo(party, rows) && score(rows[id]).Some?
    requires Falls(rows, score, ranked)
    ensures BestFirst(rows, party, score, Take(ranked, limit))
  {
    var page := Take(ranked, limit);
    forall id, i | id in VisibleTo(party, rows) && score(rows[id]).Some? && id !in page && 0 <= i < |page|
      ensures ScoreOf(rows, score, page[i]) >= ScoreOf(rows, score, id)
    {
      var k :| 0 <= k < |ranked| && ranked[k] == id;
      UntakenComesLater(ranked, limit, k);
    }
  }

  lemma {:induction false} UntakenComesLater(ranked: seq<Uuid>, limit: nat, k: nat)
    requires k < |ranked| && ranked[k] !in Take(ranked, limit)
    ensures k >= limit
  {
    forall i | 0 <= i < |ranked| && i < limit ensures ranked[i] in Take(ranked, limit) {
      assert Take(ranked, limit)[i] == ranked[i];
    }
  }

  /** A leg ranks exactly the rows the caller may see that have a score. */
  lemma {:induction false} HitsExactly(rows: Rows, party: Text, score: Handoff -> Option<real>)
    ensures forall id :: id in Hits(rows, Some(party), score) <==> id in VisibleTo(party, rows) && score(rows[id]).Some?
  {
    forall id | id in rows
      ensures InScope(rows[id], Some(party)) <==> id in VisibleTo(party, rows)
    {
      PartyClauseIsCanSee(Some(party), rows[id].fromAgent, rows[id].toAgent);
    }
  }

  lemma {:induction false} BetterRankedEarlier(
      rows: Rows, party: Option<Text>, score: Handoff -> Option<real>, ranked: seq<Uuid>, leg: Leg, better: Uuid, worse: Uuid)
    requires IsRanking(ranked, Hits(rows, party, score), score) && RanksAs(leg, ranked)
    requires better in leg && worse in leg && ScoreOf(rows, score, better) > ScoreOf(rows, score, worse)
    ensures leg[better] < leg[worse]
  {
    var a, b := leg[better] - 1, leg[worse] - 1;
    assert ranked[a] == better && ranked[b] == worse;
    assert ranked[a] in Members(ranked) && ranked[b] in Members(ranked);
    forall i, j | 0 <= i < j < |ranked|
      ensures ScoreOf(rows, score, ranked[i]) >= ScoreOf(rows, score, ranked[j])
    {
      RankingFalls(rows, party, score, ranked, i, j);
    }
  }

  lemma {:induction false} UncutLegIsWhole(ranked: seq<Uuid>, leg: Leg, depth: nat, id: Uuid)
    requires Distinct(ranked) && IsLeg(leg, ranked, depth) && |ranked| <= depth && id in Members(ranked)
    ensures id in leg
  {
    DistinctCount(ranked);
    LegIsWholeOrDeep(leg, ranked, depth);
    SubsetSize(leg.Keys, Members(ranked));
    assert |leg| == |leg.Keys|;
  }

  /** When neither leg is cut, a row that matches the text better and is closer in
      meaning than another stands before it on the page. */
  lemma {:induction false} BetterMatchesComeFirst(
      rows: Rows, party: Option<Text>, q: Query, limit: nat, page: seq<Uuid>, better: Uuid, k: nat)
    requires IsHybridPage(rows, party, q, limit, page) && k < |page|
    requires |Hits(rows, party, q.text)| <= CandidateDepth(limit) && |Hits(rows, party, q.closeness)| <= CandidateDepth(limit)
    requires better in Hits(rows, party, q.text) && page[k] in Hits(rows, party, q.text)
    requires better in Hits(rows, party, q.closeness) && page[k] in Hits(rows, party, q.closeness)
    requires ScoreOf(rows, q.text, better) > ScoreOf(rows, q.text, page[k])
    requires ScoreOf(rows, q.closeness, better) > ScoreOf(rows, q.closeness, page[k])
    ensures better in page[..k]
  {
    var byText: seq<Uuid>, byVector: seq<Uuid>, fts, vec :|
      && IsRanking(byText, Hits(rows, party, q.text), q.text)
      && IsRanking(byVector, Hits(rows, party, q.closeness), q.closeness)
      && IsLeg(fts, byText, CandidateDepth(limit)) && IsTopLeg(vec, byVector, CandidateDepth(limit))
      && IsFused(fts, vec, limit, page);
    RankingSize(byText, Hits(rows, party, q.text), q.text);
    RankingSize(byVector, Hits(rows, party, q.closeness), q.closeness);
    UncutLegIsWhole(byText, fts, CandidateDepth(limit), better);
    UncutLegIsWhole(byText, fts, CandidateDepth(limit), page[k]);
    UncutLegIsWhole(byVector, vec, CandidateDepth(limit), better);
    UncutLegIsWhole(byVector, vec, CandidateDepth(limit), page[k]);
    BetterRankedEarlier(rows, party, q.text, byText, fts, better, page[k]);
    BetterRankedEarlier(rows, party, q.closeness, byVector, vec, better, page[k]);
    DominatingRowComesFirst(fts, vec, limit, page, better, k);
  }

  lemma {:induction false} RankingSize(ranked: seq<Uuid>, hits: Rows, score: Handoff -> Option<real>)
    requires IsRanking(ranked, hits, score)
    ensures |ranked| == |hits|
  {
    DistinctCount(ranked);
    assert |hits| == |hits.Keys|;
  }
}
