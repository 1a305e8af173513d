/**
 * The video records returned by the platform's batch-details endpoint, reduced
 * to the fields the tag ranker and the viral selector read, and the errors the
 * query cycle can raise.
 */
module Records {
  import opened Wrappers
  import opened Text

  /**
   * One item of the details response. Every field may be missing: `id` at the
   * top level, `title`, `channelTitle` and `tags` under `snippet`, and
   * `viewCount` (a decimal string) under `statistics`.
   */
  datatype Video = Video(
    id: Option<string>,
    title: Option<string>,
    channelTitle: Option<string>,
    tags: Option<seq<string>>,
    viewCount: Option<string>)

  datatype Error =
    | MissingApiKey                 // the API key is unset or empty
    | HttpError(status: nat)        // a request came back with an error status
    | InvalidViewCount(text: string) // `int()` refused a `viewCount` string

  /** The video's tag list; a missing list reads as empty. */
  function TagsOf(v: Video): seq<string> {
    match v.tags
    case None => []
    case Some(tags) => tags
  }

  /** `int(stats.get("viewCount", "0"))`: a missing count is 0, a malformed one an error. */
  function ViewCount(v: Video): (r: Result<nat, Error>)
    ensures v.viewCount.None? ==> r == Ok(0)
    ensures v.viewCount.Some? ==> (r.Ok? <==> IsDigitString(v.viewCount.value))
    ensures v.viewCount.Some? && r.Ok? ==> r == Ok(ParseNat(v.viewCount.value).value)
    ensures v.viewCount.Some? && r.Err? ==> r == Err(InvalidViewCount(v.viewCount.value))
  {
    match v.viewCount
    case None => Ok(0)
    case Some(text) =>
      match ParseNat(text)
      case None => Err(InvalidViewCount(text))
      case Some(n) => Ok(n)
  }
}
