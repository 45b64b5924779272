/** Bounded pages (`src/pagination.rs`). */
module Pagination {
  import opened Prelude

  const MAX_PAGE_LIMIT := 200

  datatype PageRequest = PageRequest(limit: int, limitClamped: bool)

  /** A vector the caller hands over to be changed in place. */
  class Vec<T> {
    var items: seq<T>

    constructor (items: seq<T>)
      ensures this.items == items
    {
      this.items := items;
    }
  }

  function NewPage(requested: Option<int>, default: int): PageRequest {
    var wanted := if requested.Some? then requested.value else default;
    var limit := if wanted < 1 then 1 else if wanted > MAX_PAGE_LIMIT then MAX_PAGE_LIMIT else wanted;
    PageRequest(limit, wanted != limit)
  }

  /** One row past the page, to see whether more exist. */
  function FetchLimit(page: PageRequest): int {
    page.limit + 1
  }

  method TrimPage<T>(page: PageRequest, v: Vec<T>) returns (hasMore: bool)
    requires page.limit >= 1
    modifies v
    ensures v.items == Take(old(v.items), page.limit)
    ensures hasMore <==> |old(v.items)| > page.limit
  {
    hasMore := |v.items| > page.limit;
    if hasMore {
      v.items := v.items[..page.limit];
    }
  }

  /** Fetching one row past the page and trimming it off shows a full page and
      tells exactly whether rows were left behind, whatever limit was asked. */
  lemma {:induction false} PageIsFullAndHonest(requested: Option<int>, default: int, total: nat, fetched: nat)
    requires var page := NewPage(requested, default);
             fetched == Min(FetchLimit(page), total)
    ensures var page := NewPage(requested, default);
            && 1 <= page.limit <= MAX_PAGE_LIMIT
            && Min(fetched, page.limit) == Min(total, page.limit)
            && (fetched > page.limit <==> total > page.limit)
            && var wanted := if requested.Some? then requested.value else default;
            && (page.limitClamped <==> wanted < 1 || wanted > 200)
            && page.limit == (if wanted < 1 then 1 else if wanted > 200 then 200 else wanted)
  {
  }
}
