/**
 * The viral-video selector (`get_viral_videos` once the videos are fetched):
 * each video becomes a `{title, channel, views, url}` entry, with defaults for
 * a missing title or channel, a watch URL only when the video has an id, and
 * the view count parsed as `int()` does; the entries are then sorted stably
 * by views, largest first.
 */
module ViralVideos {
  import opened Wrappers
  import opened Text
  import opened Records
  import opened StableSort

  /** One entry of the result. */
  datatype ViralVideo = ViralVideo(title: string, channel: string, views: nat, url: Option<string>)

  const NoTitle: string := "No title"
  const UnknownChannel: string := "Unknown channel"
  const WatchPrefix: string := "https://www.youtube.com/watch?v="

  /** The watch page of a video id. */
  function WatchUrl(id: string): string {
    WatchPrefix + id
  }

  /** The video id a watch URL points at, if it is one. */
  function WatchId(url: string): (id: Option<string>)
    ensures id.Some? ==> |id.value| < |url|
  {
    if |url| > |WatchPrefix| && url[..|WatchPrefix|] == WatchPrefix then Some(url[|WatchPrefix|..]) else None
  }

  /**
   * `url` is present exactly when `v.get("id")` is truthy: a present, non-empty
   * id. The URL then leads back to that id.
   */
  function UrlOf(v: Video): (url: Option<string>)
    ensures url.Some? <==> v.id.Some? && v.id.value != ""
    ensures url.Some? ==> WatchId(url.value) == v.id
  {
    match v.id
    case Some(id) =>
      if id != "" then
        WatchUrlRoundTrip(id);
        Some(WatchUrl(id))
      else None
    case None => None
  }

  /**
   * The entry for one video: its title and channel or their defaults, its
   * parsed views and its URL; an error carrying the text when its view count
   * is malformed.
   */
  function Project(v: Video): (r: Result<ViralVideo, Error>)
    ensures r.Err? <==> v.viewCount.Some? && !IsDigitString(v.viewCount.value)
    ensures r.Err? ==> r.error == InvalidViewCount(v.viewCount.value)
    ensures r.Ok? ==>
              && (v.title.Some? ==> r.value.title == v.title.value)
              && (v.title.None? ==> r.value.title == "No title")
              && (v.channelTitle.Some? ==> r.value.channel == v.channelTitle.value)
              && (v.channelTitle.None? ==> r.value.channel == "Unknown channel")
              && r.value.views == ViewCount(v).value
              && (r.value.url.Some? <==> v.id.Some? && v.id.value != "")
              && (r.value.url.Some? ==> WatchId(r.value.url.value) == v.id)
  {
    match ViewCount(v)
    case Err(e) => Err(e)
    case Ok(n) =>
      Ok(ViralVideo(
        match v.title case Some(t) => t case None => NoTitle,
        match v.channelTitle case Some(c) => c case None => UnknownChannel,
        n,
        UrlOf(v)))
  }

  /**
   * The entries of a batch in batch order, one per video, or the error of its
   * first malformed view count.
   */
  function Projections(videos: seq<Video>): (r: Result<seq<ViralVideo>, Error>)
    ensures r.Ok? ==> |r.value| == |videos|
    ensures r.Err? ==> r.error.InvalidViewCount?
  {
    if videos == [] then Ok([])
    else
      match Projections(videos[..|videos| - 1])
      case Err(e) => Err(e)
      case Ok(ps) =>
        match Project(videos[|videos| - 1])
        case Err(e) => Err(e)
        case Ok(p) => Ok(ps + [p])
  }

  /** The sort key: the view count alone. */
  function ViewsKey(v: ViralVideo): Key {
    (v.views, 0)
  }

  // ---------------------------------------------------------------------------
  // Properties of the entries
  // ---------------------------------------------------------------------------

  /** The id can be read back from the URL built for it. */
  lemma WatchUrlRoundTrip(id: string)
    requires id != ""
    ensures WatchId(WatchUrl(id)) == Some(id)
  {
    assert WatchUrl(id)[..|WatchPrefix|] == WatchPrefix;
    assert WatchUrl(id)[|WatchPrefix|..] == id;
  }

  /**
   * The entries line up with the videos one for one when every view count
   * parses; otherwise the result is the error of the first video whose count
   * does not.
   */
  lemma {:induction false} ProjectionsAt(videos: seq<Video>)
    ensures Projections(videos).Ok? <==> forall i :: 0 <= i < |videos| ==> Project(videos[i]).Ok?
    ensures Projections(videos).Ok? ==>
              && |Projections(videos).value| == |videos|
              && forall i :: 0 <= i < |videos| ==> Projections(videos).value[i] == Project(videos[i]).value
    ensures Projections(videos).Err? ==>
              exists i :: 0 <= i < |videos| && Project(videos[i]) == Err(Projections(videos).error)
                && forall k :: 0 <= k < i ==> Project(videos[k]).Ok?
  {
    if videos != [] {
      var prefix, last := videos[..|videos| - 1], videos[|videos| - 1];
      ProjectionsAt(prefix);
      assert forall i :: 0 <= i < |prefix| ==> prefix[i] == videos[i];
      if Projections(prefix).Ok? && Project(last).Err? {
        assert Project(videos[|videos| - 1]) == Err(Projections(videos).error);
      }
    }
  }

  // ---------------------------------------------------------------------------
  // The selector
  // ---------------------------------------------------------------------------

  /** Builds the entries video by video (the loop of `get_viral_videos`), stopping at the first malformed view count. */
  method ProjectVideos(videos: seq<Video>) returns (r: Result<seq<ViralVideo>, Error>)
    ensures r == Projections(videos)
  {
    var results: seq<ViralVideo> := [];
    var i := 0;
    while i < |videos|
      invariant 0 <= i <= |videos|
      invariant Projections(videos[..i]) == Ok(results)
    {
      assert videos[..i + 1][..i] == videos[..i] && videos[..i + 1][i] == videos[i];
      var entry := Project(videos[i]);
      if entry.Err? {
        ProjectionsErrorStays(videos, i + 1);
        return Err(entry.error);
      }
      results := results + [entry.value];
      i := i + 1;
    }
    assert videos[..|videos|] == videos;
    return Ok(results);
  }

  lemma {:induction false} ProjectionsErrorStays(videos: seq<Video>, n: nat)
    requires n <= |videos| && Projections(videos[..n]).Err?
    ensures Projections(videos) == Projections(videos[..n])
    decreases |videos| - n
  {
    if n < |videos| {
      assert videos[..n + 1][..n] == videos[..n];
      ProjectionsErrorStays(videos, n + 1);
    } else {
      assert videos[..n] == videos;
    }
  }

  /** The entries of a fetched batch, sorted stably by views, largest first. */
  method SelectViral(videos: seq<Video>) returns (r: Result<seq<ViralVideo>, Error>)
    ensures match Projections(videos)
            case Err(e) => r == Err(e)
            case Ok(ps) => r.Ok? && IsStableSortDesc(r.value, ps, ViewsKey)
  {
    var results := ProjectVideos(videos);
    if results.Err? {
      return Err(results.error);
    }
    var sorted := SortDesc(results.value, ViewsKey);
    return Ok(sorted);
  }

  // ---------------------------------------------------------------------------
  // Properties of the selection
  // ---------------------------------------------------------------------------

  /**
   * A selection is the entries of the batch, each exactly once, in
   * non-increasing order of views, entries with equal views keeping their
   * batch order.
   */
  lemma ViralOrder(ps: seq<ViralVideo>, out: seq<ViralVideo>, i: nat, j: nat)
    requires IsStableSortDesc(out, ps, ViewsKey) && i < j < |out|
    ensures out[i].views >= out[j].views
    ensures out[i].views == out[j].views ==> Before(ps, out[i], out[j])
  {
    assert AtLeast(ViewsKey(out[i]), ViewsKey(out[j]));
    if out[i].views == out[j].views {
      StableTies(out, ps, ViewsKey, i, j);
    }
  }

  /** The selection holds the entries of the batch, each as often as the batch does. */
  lemma ViralContents(videos: seq<Video>, ps: seq<ViralVideo>, out: seq<ViralVideo>)
    requires Projections(videos) == Ok(ps) && IsStableSortDesc(out, ps, ViewsKey)
    ensures |out| == |videos|
    ensures multiset(out) == multiset(ps)
    ensures forall k :: 0 <= k < |out| ==> out[k] in ps
  {
    ProjectionsAt(videos);
    StableSortPermutes(out, ps, ViewsKey);
    forall k | 0 <= k < |out|
      ensures out[k] in ps
    {
      assert out[k] in multiset(out);
    }
  }
}
