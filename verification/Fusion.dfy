/** Hybrid search: Reciprocal Rank Fusion of a full-text leg and a vector leg,
    each cut to a candidate depth (`src/repo/embedding_repo.rs`). Scores are
    exact reals. */
module Fusion {
  import opened Prelude
  import opened Pagination

  const MIN_HYBRID_CANDIDATES := 50

  /** The rows a leg passes on, with the rank each holds in its whole ranking. */
  type Leg = map<Uuid, nat>

  predicate Distinct(ids: seq<Uuid>) {
    forall i, j :: 0 <= i < j < |ids| ==> ids[i] != ids[j]
  }

  function Members(ids: seq<Uuid>): set<Uuid> {
    set id | id in ids
  }

  predicate RanksAs(leg: Leg, ranked: seq<Uuid>) {
    forall id :: id in leg ==> 1 <= leg[id] <= |ranked| && ranked[leg[id] - 1] == id
  }

  /** A leg cut to `depth` rows, whichever the limit kept: the full-text leg has
      no outer ordering. */
  predicate IsLeg(leg: Leg, ranked: seq<Uuid>, depth: nat) {
    RanksAs(leg, ranked) && |leg| == Min(depth, |ranked|)
  }

  /** A leg whose limit kept the best-ranked rows. */
  predicate IsTopLeg(leg: Leg, ranked: seq<Uuid>, depth: nat) {
    IsLeg(leg, ranked, depth) && forall id :: id in leg ==> leg[id] <= depth
  }

  function CandidateDepth(limit: nat): nat {
    Max(limit, MIN_HYBRID_CANDIDATES)
  }

  // ---------- scores ----------

  function Share(rank: nat): real {
    1.0 / (60 + rank) as real
  }

  function LegScore(leg: Leg, id: Uuid): real {
    if id in leg then Share(leg[id]) else 0.0
  }

  function Score(fts: Leg, vec: Leg, id: Uuid): real {
    LegScore(fts, id) + LegScore(vec, id)
  }

  lemma {:induction false} ShareFalls(a: nat, b: nat)
    ensures Share(a) > 0.0
    ensures a < b ==> Share(a) > Share(b)
  {
  }

  /** Two shares at rank `depth` beat one share at rank 1 exactly up to 61. */
  lemma {:induction false} TwoSharesAgainstOne(depth: nat)
    ensures Share(depth) + Share(depth) > Share(1) <==> depth <= 61
  {
  }

  // ---------- ordering ----------

  predicate InBoth(fts: Leg, vec: Leg, id: Uuid) {
    id in fts && id in vec
  }

  predicate InOne(fts: Leg, vec: Leg, id: Uuid) {
    (id in fts) != (id in vec)
  }

  /** A search: two rankings and the legs cut from them. */
  datatype Search = Search(byText: seq<Uuid>, byVector: seq<Uuid>, fts: Leg, vec: Leg)

  predicate IsSearch(s: Search, depth: nat) {
    Distinct(s.byText) && Distinct(s.byVector) && IsTopLeg(s.fts, s.byText, depth) && IsTopLeg(s.vec, s.byVector, depth)
  }

  ghost predicate BothBeatsOne(depth: nat) {
    forall s: Search, both, one ::
      IsSearch(s, depth) && InBoth(s.fts, s.vec, both) && InOne(s.fts, s.vec, one) ==>
        Score(s.fts, s.vec, both) > Score(s.fts, s.vec, one)
  }

  lemma {:induction false} BothBeatsOneUpTo61(s: Search, depth: nat, both: Uuid, one: Uuid)
    requires IsSearch(s, depth) && depth <= 61
    requires InBoth(s.fts, s.vec, both) && InOne(s.fts, s.vec, one)
    ensures Score(s.fts, s.vec, both) > Score(s.fts, s.vec, one)
  {
    TwoSharesAgainstOne(depth);
    ShareFalls(s.fts[both], depth);
    ShareFalls(s.vec[both], depth);
    ShareFalls(1, if one in s.fts then s.fts[one] else s.vec[one]);
  }

  /** The leg that passes on a whole ranking. */
  function WholeLeg(ranked: seq<Uuid>): Leg {
    if ranked == [] then map[]
    else
      var n := |ranked| - 1;
      WholeLeg(ranked[..n])[ranked[n] := n + 1]
  }

  lemma {:induction false} DistinctCount(ids: seq<Uuid>)
    requires Distinct(ids)
    ensures |Members(ids)| == |ids|
  {
    if ids != [] {
      var n := |ids| - 1;
      DistinctCount(ids[..n]);
      assert ids == ids[..n] + [ids[n]];
      assert Members(ids) == Members(ids[..n]) + {ids[n]};
    }
  }

  lemma {:induction false} WholeLegRanks(ranked: seq<Uuid>)
    requires Distinct(ranked)
    ensures WholeLeg(ranked).Keys == Members(ranked)
    ensures forall k :: 0 <= k < |ranked| ==> ranked[k] in WholeLeg(ranked) && WholeLeg(ranked)[ranked[k]] == k + 1
  {
    if ranked != [] {
      var n := |ranked| - 1;
      WholeLegRanks(ranked[..n]);
      assert ranked == ranked[..n] + [ranked[n]];
      assert forall k :: 0 <= k < n ==> ranked[..n][k] == ranked[k];
    }
  }

  lemma {:induction false} WholeLegIsTop(ranked: seq<Uuid>)
    requires Distinct(ranked)
    ensures IsTopLeg(WholeLeg(ranked), ranked, |ranked|)
  {
    DistinctCount(ranked);
    WholeLegRanks(ranked);
    forall id | id in WholeLeg(ranked)
      ensures 1 <= WholeLeg(ranked)[id] <= |ranked| && ranked[WholeLeg(ranked)[id] - 1] == id
    {
      var k :| 0 <= k < |ranked| && ranked[k] == id;
    }
    assert |WholeLeg(ranked)| == |WholeLeg(ranked).Keys|;
  }

  /** `head`, then rows counted from `first`, then `last`. */
  function Framed(head: Uuid, first: Uuid, count: nat, last: Uuid): seq<Uuid> {
    seq(count + 2, i requires 0 <= i < count + 2 => if i == 0 then head else if i <= count then first + i else last)
  }

  lemma {:induction false} FramedIsDistinct(head: Uuid, first: Uuid, count: nat, last: Uuid)
    requires head != last && head <= first && last <= first
    ensures Distinct(Framed(head, first, count, last))
  {
  }

  /** A row ranked last in both legs, against the first row of one of them. */
  lemma {:induction false} LastInBoth(depth: nat, byText: seq<Uuid>, byVector: seq<Uuid>, both: Uuid, one: Uuid)
    requires Distinct(byText) && Distinct(byVector) && |byText| == |byVector| == depth >= 2
    requires byText[0] == one && byText[depth - 1] == byVector[depth - 1] == both && one !in byVector
    ensures var s := Search(byText, byVector, WholeLeg(byText), WholeLeg(byVector));
            && IsSearch(s, depth) && InBoth(s.fts, s.vec, both) && InOne(s.fts, s.vec, one)
            && Score(s.fts, s.vec, both) == Share(depth) + Share(depth)
            && Score(s.fts, s.vec, one) == Share(1)
  {
    WholeLegIsTop(byText);
    WholeLegIsTop(byVector);
    RankHolds(byText, 0, one);
    RankHolds(byText, depth - 1, both);
    RankHolds(byVector, depth - 1, both);
  }

  lemma {:induction false} LosingSearch(depth: nat) returns (s: Search)
    requires depth >= 62
    ensures IsSearch(s, depth) && InBoth(s.fts, s.vec, 1) && InOne(s.fts, s.vec, 0)
    ensures Score(s.fts, s.vec, 1) <= Score(s.fts, s.vec, 0)
  {
    var byText, byVector := Framed(0, 2, depth - 2, 1), Framed(2, 2, depth - 2, 1);
    FramedIsDistinct(0, 2, depth - 2, 1);
    FramedIsDistinct(2, 2, depth - 2, 1);
    LastInBoth(depth, byText, byVector, 1, 0);
    TwoSharesAgainstOne(depth);
    s := Search(byText, byVector, WholeLeg(byText), WholeLeg(byVector));
  }

  lemma {:induction false} RankHolds(ranked: seq<Uuid>, k: nat, id: Uuid)
    requires Distinct(ranked) && k < |ranked| && ranked[k] == id
    ensures id in WholeLeg(ranked) && WholeLeg(ranked)[id] == k + 1
  {
    WholeLegRanks(ranked);
  }

  /** Being found by both legs beats being found by one, whatever the ranks,
      exactly when the candidate depth is at most 61. */
  lemma {:induction false} BothBeatsOneExactly(depth: nat)
    ensures BothBeatsOne(depth) <==> depth <= 61
  {
    if depth <= 61 {
      forall s: Search, both, one |
        IsSearch(s, depth) && InBoth(s.fts, s.vec, both) && InOne(s.fts, s.vec, one)
        ensures Score(s.fts, s.vec, both) > Score(s.fts, s.vec, one)
      {
        BothBeatsOneUpTo61(s, depth, both, one);
      }
    } else {
      var s := LosingSearch(depth);
    }
  }

  /** In terms of the page: the guarantee holds up to a page limit of 60. */
  lemma {:induction false} BothBeatsOneUpToPageOf60(requested: Option<int>, default: int)
    ensures var page := NewPage(requested, default);
            BothBeatsOne(CandidateDepth(FetchLimit(page))) <==> page.limit <= 60
  {
    BothBeatsOneExactly(CandidateDepth(FetchLimit(NewPage(requested, default))));
  }

  predicate Dominates(fts: Leg, vec: Leg, better: Uuid, worse: Uuid) {
    && InBoth(fts, vec, better) && InBoth(fts, vec, worse)
    && fts[better] <= fts[worse] && vec[better] <= vec[worse]
    && (fts[better] < fts[worse] || vec[better] < vec[worse])
  }

  /** At any depth a row ranked no worse in both legs and better in one scores
      strictly higher. */
  lemma {:induction false} DominationScoresHigher(fts: Leg, vec: Leg, better: Uuid, worse: Uuid)
    requires Dominates(fts, vec, better, worse)
    ensures Score(fts, vec, better) > Score(fts, vec, worse)
  {
    ShareFalls(fts[better], fts[worse]);
    ShareFalls(vec[better], vec[worse]);
  }

  // ---------- the fused page ----------

  function Candidates(fts: Leg, vec: Leg): set<Uuid> {
    fts.Keys + vec.Keys
  }

  /** `ORDER BY score DESC LIMIT limit` over the full outer join; ties fall as
      the database likes. */
  ghost predicate IsFused(fts: Leg, vec: Leg, limit: nat, page: seq<Uuid>) {
    && Distinct(page)
    && (forall id :: id in page ==> id in Candidates(fts, vec))
    && |page| == Min(limit, |Candidates(fts, vec)|)
    && (forall i, j :: 0 <= i < j < |page| ==> Score(fts, vec, page[i]) >= Score(fts, vec, page[j]))
    && (forall i, id :: 0 <= i < |page| && id in Candidates(fts, vec) && id !in page ==>
          Score(fts, vec, page[i]) >= Score(fts, vec, id))
  }

  /** A page shorter than the candidates leaves some of them out. */
  lemma {:induction false} SomeLeft(page: seq<Uuid>, all: set<Uuid>)
    requires Distinct(page) && |page| < |all|
    ensures all - Members(page) != {}
  {
    DistinctCount(page);
    if all <= Members(page) {
      SubsetSize(all, Members(page));
    } else {
      var id :| id in all && id !in Members(page);
      assert id in all - Members(page);
    }
  }

  lemma {:induction false} BestOf(fts: Leg, vec: Leg, rest: set<Uuid>) returns (best: Uuid)
    requires rest != {}
    ensures best in rest && forall id :: id in rest ==> Score(fts, vec, best) >= Score(fts, vec, id)
  {
    best :| best in rest;
    var others := rest - {best};
    assert rest == others + {best};
    if others != {} {
      var next := BestOf(fts, vec, others);
      if Score(fts, vec, next) > Score(fts, vec, best) {
        best := next;
      }
    }
  }

  lemma {:induction false} BestExtendsPage(fts: Leg, vec: Leg, page: seq<Uuid>, best: Uuid)
    requires IsFused(fts, vec, |page|, page) && best in Candidates(fts, vec) && best !in page
    requires forall id :: id in Candidates(fts, vec) && id !in page ==> Score(fts, vec, best) >= Score(fts, vec, id)
    requires |page| < |Candidates(fts, vec)|
    ensures IsFused(fts, vec, |page| + 1, page + [best])
  {
  }

  /** Every pair of legs has such a page. */
  lemma {:induction false} FusedPageExists(fts: Leg, vec: Leg, limit: nat) returns (page: seq<Uuid>)
    ensures IsFused(fts, vec, limit, page)
  {
    page := [];
    if limit > 0 {
      page := FusedPageExists(fts, vec, limit - 1);
      if |page| < |Candidates(fts, vec)| {
        SomeLeft(page, Candidates(fts, vec));
        var best := BestOf(fts, vec, Candidates(fts, vec) - Members(page));
        BestExtendsPage(fts, vec, page, best);
        page := page + [best];
      }
    }
  }

  /** A strictly better scored candidate comes earlier on the page. */
  lemma {:induction false} BetterComesFirst(fts: Leg, vec: Leg, limit: nat, page: seq<Uuid>, better: Uuid, k: nat)
    requires IsFused(fts, vec, limit, page) && k < |page| && better in Candidates(fts, vec)
    requires Score(fts, vec, better) > Score(fts, vec, page[k])
    ensures better in page[..k]
  {
    assert better in page;
    var i :| 0 <= i < |page| && page[i] == better;
    assert i < k;
    assert page[..k][i] == better;
  }

  /** With a page limit of at most 60, every row found by both legs stands
      before every row found by one. */
  lemma {:induction false} BothLegsComeFirst(
      s: Search, requested: Option<int>, default: int, page: seq<Uuid>, both: Uuid, k: nat)
    requires var p := NewPage(requested, default);
             && p.limit <= 60
             && IsSearch(s, CandidateDepth(FetchLimit(p)))
             && IsFused(s.fts, s.vec, FetchLimit(p), page)
    requires k < |page| && InOne(s.fts, s.vec, page[k]) && InBoth(s.fts, s.vec, both)
    ensures both in page[..k]
  {
    var limit := FetchLimit(NewPage(requested, default));
    BothBeatsOneUpTo61(s, CandidateDepth(limit), both, page[k]);
    BetterComesFirst(s.fts, s.vec, limit, page, both, k);
  }

  lemma {:induction false} DominatingRowComesFirst(fts: Leg, vec: Leg, limit: nat, page: seq<Uuid>, better: Uuid, k: nat)
    requires IsFused(fts, vec, limit, page) && k < |page| && Dominates(fts, vec, better, page[k])
    ensures better in page[..k]
  {
    DominationScoresHigher(fts, vec, better, page[k]);
    BetterComesFirst(fts, vec, limit, page, better, k);
  }

  // ---------- paging ----------

  lemma {:induction false} SubsetSize(a: set<Uuid>, b: set<Uuid>)
    requires a <= b
    ensures |a| <= |b|
    ensures |a| == |b| ==> a == b
  {
    assert b == a + (b - a);
    assert |b| == |a| + |b - a|;
  }

  /** A leg passes on rows of its ranking: all of them, or `depth` of them. */
  lemma {:induction false} LegIsWholeOrDeep(leg: Leg, ranked: seq<Uuid>, depth: nat)
    requires Distinct(ranked) && IsLeg(leg, ranked, depth)
    ensures leg.Keys <= Members(ranked)
    ensures leg.Keys == Members(ranked) || |leg.Keys| == depth
  {
    DistinctCount(ranked);
    SubsetSize(leg.Keys, Members(ranked));
    assert |leg| == |leg.Keys|;
  }

  /** Cutting both legs never shortens the page: the candidates fill it whenever
      the matching and embedded rows together would. */
  lemma {:induction false} CutLegsStillFillPage(byText: seq<Uuid>, byVector: seq<Uuid>, fts: Leg, vec: Leg, limit: nat)
    requires Distinct(byText) && Distinct(byVector)
    requires IsLeg(fts, byText, CandidateDepth(limit)) && IsLeg(vec, byVector, CandidateDepth(limit))
    ensures Min(limit, |Candidates(fts, vec)|) == Min(limit, |Members(byText) + Members(byVector)|)
  {
    var depth := CandidateDepth(limit);
    LegIsWholeOrDeep(fts, byText, depth);
    LegIsWholeOrDeep(vec, byVector, depth);
    SubsetSize(Candidates(fts, vec), Members(byText) + Members(byVector));
    SubsetSize(fts.Keys, Candidates(fts, vec));
    SubsetSize(vec.Keys, Candidates(fts, vec));
  }

  /** Hybrid paging, for every requested limit: the page holds as many rows as
      asked for when that many match or are embedded, and "more" is reported
      exactly when rows were left behind. */
  lemma {:induction false} HybridPagesAreHonest(
      byText: seq<Uuid>, byVector: seq<Uuid>, fts: Leg, vec: Leg, requested: Option<int>, default: int, fetched: seq<Uuid>)
    requires var limit := FetchLimit(NewPage(requested, default));
             && IsLeg(fts, byText, CandidateDepth(limit)) && IsLeg(vec, byVector, CandidateDepth(limit))
             && IsFused(fts, vec, limit, fetched)
    requires Distinct(byText) && Distinct(byVector)
    ensures var page, total := NewPage(requested, default), |Members(byText) + Members(byVector)|;
            && |Take(fetched, page.limit)| == Min(page.limit, total)
            && (|fetched| > page.limit <==> total > page.limit)
  {
    CutLegsStillFillPage(byText, byVector, fts, vec, FetchLimit(NewPage(requested, default)));
  }
}
