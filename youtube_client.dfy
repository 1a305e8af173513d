/**
 * The query cycle around the ranker and the selector: search for video ids,
 * fetch the details of those videos, then rank their tags or select the most
 * viewed. The platform's replies are parameters (what the search would return,
 * what the details endpoint would return), and every request the client would
 * send is reported in `sent`, so that "no request is made" can be stated.
 */
module YouTubeClient {
  import opened Wrappers
  import opened Records
  import opened StableSort
  import opened TagRanking
  import opened ViralVideos
  import opened TagRankingProperties

  /** A request to the platform: a search, or a batch-details lookup. */
  datatype Request =
    | SearchRequest(query: string, maxResults: int, order: string)
    | DetailsRequest(ids: seq<string>, maxResults: int)

  /** The `maxResults` the details request always carries. */
  const DetailsMaxResults: int := 50

  /** The search order the viral selector asks for. */
  const ByViewCount: string := "viewCount"

  /** `if not YOUTUBE_API_KEY` fails exactly for an unset or empty key. */
  predicate HasApiKey(apiKey: Option<string>) {
    apiKey.Some? && apiKey.value != ""
  }

  /** `search_video_ids`: the ids the search returns, after checking the key. */
  method SearchVideoIds(apiKey: Option<string>, query: string, maxResults: int, order: string,
                        reply: Result<seq<string>, Error>)
    returns (r: Result<seq<string>, Error>, sent: seq<Request>)
    ensures !HasApiKey(apiKey) ==> r == Err(MissingApiKey) && sent == []
    ensures HasApiKey(apiKey) ==> r == reply && sent == [SearchRequest(query, maxResults, order)]
  {
    if !HasApiKey(apiKey) {
      return Err(MissingApiKey), [];
    }
    return reply, [SearchRequest(query, maxResults, order)];
  }

  /** `fetch_video_details`: the records of `ids`, after checking the key; no ids, no request. */
  method FetchVideoDetails(apiKey: Option<string>, ids: seq<string>, reply: Result<seq<Video>, Error>)
    returns (r: Result<seq<Video>, Error>, sent: seq<Request>)
    ensures !HasApiKey(apiKey) ==> r == Err(MissingApiKey) && sent == []
    ensures HasApiKey(apiKey) && ids == [] ==> r == Ok([]) && sent == []
    ensures HasApiKey(apiKey) && ids != [] ==> r == reply && sent == [DetailsRequest(ids, DetailsMaxResults)]
  {
    if !HasApiKey(apiKey) {
      return Err(MissingApiKey), [];
    }
    if ids == [] {
      return Ok([]), [];
    }
    return reply, [DetailsRequest(ids, DetailsMaxResults)];
  }

  /** The videos a query cycle ends up with, given the two replies (no key check). */
  function Fetched(searchReply: Result<seq<string>, Error>, detailsReply: Result<seq<Video>, Error>)
    : Result<seq<Video>, Error>
  {
    match searchReply
    case Err(e) => Err(e)
    case Ok(ids) => if ids == [] then Ok([]) else detailsReply
  }

  /** The requests a query cycle with a key sends, given the search reply. */
  function Requests(query: string, maxResults: int, order: string, searchReply: Result<seq<string>, Error>)
    : seq<Request>
  {
    [SearchRequest(query, maxResults, order)]
    + match searchReply
      case Ok(ids) => if ids == [] then [] else [DetailsRequest(ids, DetailsMaxResults)]
      case Err(_) => []
  }

  /** Runs the search and the details fetch in order, as both entry points do. */
  method FetchForQuery(apiKey: Option<string>, query: string, maxResults: int, order: string,
                       searchReply: Result<seq<string>, Error>, detailsReply: Result<seq<Video>, Error>)
    returns (r: Result<seq<Video>, Error>, sent: seq<Request>)
    ensures !HasApiKey(apiKey) ==> r == Err(MissingApiKey) && sent == []
    ensures HasApiKey(apiKey) ==>
              r == Fetched(searchReply, detailsReply) && sent == Requests(query, maxResults, order, searchReply)
  {
    var ids, searched := SearchVideoIds(apiKey, query, maxResults, order, searchReply);
    if ids.Err? {
      return Err(ids.error), searched;
    }
    var videos, fetched := FetchVideoDetails(apiKey, ids.value, detailsReply);
    return videos, searched + fetched;
  }

  /** `rank_tags_from_query`: the tag ranking of the videos a query finds. */
  method RankTagsFromQuery(apiKey: Option<string>, query: string, maxResults: int, order: string,
                           searchReply: Result<seq<string>, Error>, detailsReply: Result<seq<Video>, Error>)
    returns (r: Result<seq<RankedTag>, Error>, sent: seq<Request>)
    ensures !HasApiKey(apiKey) ==> r == Err(MissingApiKey) && sent == []
    ensures HasApiKey(apiKey) ==>
              && sent == Requests(query, maxResults, order, searchReply)
              && match Fetched(searchReply, detailsReply)
                 case Err(e) => r == Err(e)
                 case Ok(videos) =>
                   match Occurrences(videos)
                   case Err(e) => r == Err(e)
                   case Ok(occ) => r.Ok? && IsRanking(occ, r.value)
  {
    var videos;
    videos, sent := FetchForQuery(apiKey, query, maxResults, order, searchReply, detailsReply);
    if videos.Err? {
      return Err(videos.error), sent;
    }
    r := RankTags(videos.value);
  }

  /** `get_viral_videos`: the videos a view-ordered search finds, most viewed first. */
  method GetViralVideos(apiKey: Option<string>, query: string, maxResults: int,
                        searchReply: Result<seq<string>, Error>, detailsReply: Result<seq<Video>, Error>)
    returns (r: Result<seq<ViralVideo>, Error>, sent: seq<Request>)
    ensures !HasApiKey(apiKey) ==> r == Err(MissingApiKey) && sent == []
    ensures HasApiKey(apiKey) ==>
              && sent == Requests(query, maxResults, ByViewCount, searchReply)
              && match Fetched(searchReply, detailsReply)
                 case Err(e) => r == Err(e)
                 case Ok(videos) =>
                   match Projections(videos)
                   case Err(e) => r == Err(e)
                   case Ok(ps) => r.Ok? && IsStableSortDesc(r.value, ps, ViewsKey)
  {
    var videos;
    videos, sent := FetchForQuery(apiKey, query, maxResults, ByViewCount, searchReply, detailsReply);
    if videos.Err? {
      return Err(videos.error), sent;
    }
    r := SelectViral(videos.value);
  }

  // ---------------------------------------------------------------------------
  // Properties of the query cycle
  // ---------------------------------------------------------------------------

  /** The details endpoint is asked only for a non-empty id list, and only after the search. */
  lemma RequestsShape(query: string, maxResults: int, order: string, searchReply: Result<seq<string>, Error>)
    ensures var sent := Requests(query, maxResults, order, searchReply);
            && 1 <= |sent| <= 2
            && sent[0] == SearchRequest(query, maxResults, order)
            && (|sent| == 2 <==> searchReply.Ok? && searchReply.value != [])
            && (|sent| == 2 ==> sent[1] == DetailsRequest(searchReply.value, DetailsMaxResults) && sent[1].ids != [])
  {
  }

  /**
   * A search that finds nothing sends no details request and, whatever the
   * details endpoint would say, leads to an empty ranking and an empty selection.
   */
  lemma EmptySearch(query: string, maxResults: int, order: string, detailsReply: Result<seq<Video>, Error>)
    ensures Fetched(Ok([]), detailsReply) == Ok([])
    ensures Requests(query, maxResults, order, Ok([])) == [SearchRequest(query, maxResults, order)]
    ensures Occurrences([]) == Ok([]) && forall out :: IsRanking([], out) ==> out == []
    ensures Projections([]) == Ok([]) && forall out :: IsStableSortDesc(out, [], ViewsKey) ==> out == []
  {
    forall out | IsRanking([], out)
      ensures out == []
    {
      EmptyRanking([], out);
    }
    forall out | IsStableSortDesc(out, [], ViewsKey)
      ensures out == []
    {
      StableSortPermutes(out, [], ViewsKey);
    }
  }
}
