/** Which page of search results the proxy asks for.

    Without randomisation the proxy always fetches page 1. With it, a scout
    request learns how many results the query has, and the proxy draws a page
    uniformly from 1 up to the number of 80-item pages, capped at 200. Any
    failure of the scout, or a non-positive total, leaves the page at 1. */
module PageSelection {
  import opened PexelsData

  /** The page size the proxy assumes when it turns a total into a page count. */
  const ItemsPerPage: int := 80

  /** The highest page index the proxy will ever request. */
  const MaxPage: int := 200

  /** What the scout request produced: it failed (any exception, including a
      non-success status), or it decoded a body whose `total_results` key may
      be missing. */
  datatype ScoutOutcome = ScoutFailed | ScoutSucceeded(totalResults: Option<int>)

  /** `scout_data.get("total_results", 0)`: a missing total reads as 0. */
  function TotalOf(scout: ScoutOutcome): (total: int)
    requires scout.ScoutSucceeded?
    ensures scout.totalResults.None? ==> total == 0
    ensures scout.totalResults.Some? ==> total == scout.totalResults.value
  {
    match scout.totalResults
    case None => 0
    case Some(t) => t
  }

  /** The number of pages of `ItemsPerPage` results needed to hold `total`
      results, i.e. the ceiling of total / 80, computed exactly. */
  function PageCount(total: int): (pages: int)
    requires total > 0
    ensures pages >= 1
    ensures (pages - 1) * ItemsPerPage < total <= pages * ItemsPerPage
  {
    (total + ItemsPerPage - 1) / ItemsPerPage
  }

  /** The page count capped at `MaxPage`: the largest page the draw may pick. */
  function PageLimit(total: int): (limit: int)
    requires total > 0
    ensures 1 <= limit <= MaxPage
    ensures limit < MaxPage ==> (limit - 1) * ItemsPerPage < total <= limit * ItemsPerPage
    ensures limit == MaxPage ==> total > (MaxPage - 1) * ItemsPerPage
  {
    var pages := PageCount(total);
    if pages < MaxPage then pages else MaxPage
  }

  /** The contract of `PageLimit` leaves it no freedom: any value meeting it is
      min(ceil(total / 80), 200). */
  lemma PageLimitUnique(total: int, limit: int)
    requires total > 0 && 1 <= limit <= MaxPage
    requires limit < MaxPage ==> (limit - 1) * ItemsPerPage < total <= limit * ItemsPerPage
    requires limit == MaxPage ==> total > (MaxPage - 1) * ItemsPerPage
    ensures limit == PageLimit(total)
  {
  }

  /** The top of the range the page is drawn from: 1 unless randomisation is
      asked for, the scout succeeded with a positive total, and that total
      spans more than one page. */
  function DrawBound(randomize: bool, scout: ScoutOutcome): (top: int)
    ensures 1 <= top <= MaxPage
    ensures top > 1 <==> randomize && scout.ScoutSucceeded? && TotalOf(scout) > 0 && PageLimit(TotalOf(scout)) > 1
    ensures top > 1 ==> top == PageLimit(TotalOf(scout))
  {
    if randomize && scout.ScoutSucceeded? && TotalOf(scout) > 0 then PageLimit(TotalOf(scout)) else 1
  }

  /** The page-selection block of the search: starts from page 1 and, when
      randomisation applies, replaces it by a draw from [1, limit]. The draw
      (`random.randint`) is a nondeterministic choice from that range.
      `scouted` says whether the scout request was made: only under
      `randomize`. */
  method ResolvePage(randomize: bool, scout: ScoutOutcome) returns (page: int, scouted: bool)
    ensures scouted == randomize
    ensures 1 <= page <= DrawBound(randomize, scout)
    ensures page <= MaxPage
    ensures !randomize ==> page == 1
    ensures scout.ScoutFailed? ==> page == 1
    ensures scout.ScoutSucceeded? && TotalOf(scout) <= 0 ==> page == 1
    ensures scout.ScoutSucceeded? && TotalOf(scout) > 0 ==> page <= PageLimit(TotalOf(scout))
  {
    page, scouted := 1, false;
    if randomize {
      scouted := true;
      match scout {
        case ScoutFailed =>
          // the exception handler: silently keep the first page
          page := 1;
        case ScoutSucceeded(_) =>
          var total := TotalOf(scout);
          if total > 0 {
            var limit := PageLimit(total);
            if limit > 1 {
              page :| 1 <= page <= limit;
            }
          }
      }
    }
  }
}
