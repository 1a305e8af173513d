/**
 * The tag ranker (`rank_tags_from_query` once the videos are fetched): every
 * tag of every video is normalised, empty results are dropped, and for each
 * remaining tag the ranker counts its occurrences and sums the view counts of
 * the videos carrying them. The tags are then sorted by (total views,
 * frequency), largest first, and numbered from 1.
 *
 * The specification side describes the tag occurrences of a batch of videos
 * as one flat sequence (Occurrences) and defines frequency, total views and
 * first-appearance order over it; the methods build the same figures the way
 * `rank_tags_from_query` in yt_tags.py does, with a counter, a view-score
 * dictionary and loops.
 */
module TagRanking {
  import opened Wrappers
  import opened Text
  import opened Records
  import opened StableSort

  /** One tag occurrence that survives normalisation, with its video's view count. */
  datatype Occurrence = Occurrence(tag: string, views: nat)

  /** The aggregated figures of one tag, in the order `rank_tags_from_query` builds its tuples. */
  datatype TagStat = TagStat(tag: string, frequency: nat, totalViews: nat)

  /** One entry of the result: `{rank, tag, frequency, total_views}`. */
  datatype RankedTag = RankedTag(rank: nat, tag: string, frequency: nat, totalViews: nat)

  // ---------------------------------------------------------------------------
  // Specification
  // ---------------------------------------------------------------------------

  /** What one tag contributes: its normal form with the video's view count, or nothing when that form is empty. */
  function TagOccurrence(tag: string, views: nat): (occ: seq<Occurrence>)
    ensures |occ| <= 1
    ensures forall i :: 0 <= i < |occ| ==> occ[i] == Occurrence(Normalise(tag), views) && occ[i].tag != ""
  {
    var t := Normalise(tag);
    if t == "" then [] else [Occurrence(t, views)]
  }

  /** The non-empty normalised tags of one video, each paired with the video's view count. */
  function VideoOccurrences(tags: seq<string>, views: nat): (occ: seq<Occurrence>)
    ensures |occ| <= |tags|
    ensures forall i :: 0 <= i < |occ| ==> occ[i].tag != "" && occ[i].views == views
  {
    if tags == [] then []
    else VideoOccurrences(tags[..|tags| - 1], views) + TagOccurrence(tags[|tags| - 1], views)
  }

  /**
   * The tag occurrences of a batch, video after video. The first video (in
   * batch order) whose view count `int()` refuses makes the whole batch an error.
   */
  function Occurrences(videos: seq<Video>): (r: Result<seq<Occurrence>, Error>)
    ensures r.Err? ==> r.error.InvalidViewCount?
  {
    if videos == [] then Ok([])
    else
      match Occurrences(videos[..|videos| - 1])
      case Err(e) => Err(e)
      case Ok(occ) =>
        var last := videos[|videos| - 1];
        match ViewCount(last)
        case Err(e) => Err(e)
        case Ok(n) => Ok(occ + VideoOccurrences(TagsOf(last), n))
  }

  /** How many occurrences carry tag `t`. */
  function Frequency(occ: seq<Occurrence>, t: string): nat {
    if occ == [] then 0
    else Frequency(occ[..|occ| - 1], t) + (if occ[|occ| - 1].tag == t then 1 else 0)
  }

  /** The view counts of the occurrences carrying tag `t`, summed. */
  function TotalViews(occ: seq<Occurrence>, t: string): nat {
    if occ == [] then 0
    else TotalViews(occ[..|occ| - 1], t) + (if occ[|occ| - 1].tag == t then occ[|occ| - 1].views else 0)
  }

  /** The distinct tags of `occ`, in the order of their first occurrence. */
  function FirstSeen(occ: seq<Occurrence>): (seen: seq<string>)
    ensures forall i, j :: 0 <= i < j < |seen| ==> seen[i] != seen[j]
    ensures forall t :: t in seen <==> Frequency(occ, t) > 0
  {
    if occ == [] then []
    else
      var prev := FirstSeen(occ[..|occ| - 1]);
      var t := occ[|occ| - 1].tag;
      if t in prev then prev else prev + [t]
  }

  /** The position of the first occurrence of `t`, or `|occ|` when there is none. */
  function FirstIndex(occ: seq<Occurrence>, t: string): (r: nat)
    ensures r <= |occ|
    ensures r < |occ| ==> occ[r].tag == t
    ensures forall i :: 0 <= i < r && i < |occ| ==> occ[i].tag != t
  {
    if occ == [] then 0
    else
      var f := FirstIndex(occ[..|occ| - 1], t);
      if f < |occ| - 1 then f
      else if occ[|occ| - 1].tag == t then |occ| - 1
      else |occ|
  }

  function Stat(occ: seq<Occurrence>, t: string): TagStat {
    TagStat(t, Frequency(occ, t), TotalViews(occ, t))
  }

  /** One TagStat per distinct tag, in first-appearance order: the list `rank_tags_from_query` sorts. */
  function TagStats(occ: seq<Occurrence>): seq<TagStat> {
    var seen := FirstSeen(occ);
    seq(|seen|, i requires 0 <= i < |seen| => Stat(occ, seen[i]))
  }

  /** The sort key `(total_views, frequency)`. */
  function StatKey(s: TagStat): Key {
    (s.totalViews, s.frequency)
  }

  function Unrank(out: seq<RankedTag>): seq<TagStat> {
    seq(|out|, i requires 0 <= i < |out| => TagStat(out[i].tag, out[i].frequency, out[i].totalViews))
  }

  /**
   * `out` is a correct result for the occurrences `occ`: the TagStats of `occ`
   * sorted stably by (total views, frequency), largest first, and ranked 1..N.
   */
  ghost predicate IsRanking(occ: seq<Occurrence>, out: seq<RankedTag>) {
    && (forall i :: 0 <= i < |out| ==> out[i].rank == i + 1)
    && IsStableSortDesc(Unrank(out), TagStats(occ), StatKey)
  }

  // ---------------------------------------------------------------------------
  // The ranker
  // ---------------------------------------------------------------------------

  /**
   * The aggregation state: the counter's keys in insertion order, the counter
   * `tag_frequency` and the dictionary `tag_view_score`.
   */
  datatype Tally = Tally(order: seq<string>, frequency: map<string, nat>, viewScore: map<string, nat>)

  /** `t` holds the figures of the occurrences `occ`. */
  ghost predicate Tallies(t: Tally, occ: seq<Occurrence>) {
    && t.order == FirstSeen(occ)
    && (forall tag :: tag in t.frequency <==> tag in t.order)
    && (forall tag :: tag in t.viewScore <==> tag in t.order)
    && (forall tag :: tag in t.frequency ==> t.frequency[tag] == Frequency(occ, tag))
    && (forall tag :: tag in t.viewScore ==> t.viewScore[tag] == TotalViews(occ, tag))
  }

  lemma {:induction false} UnseenHasNoViews(occ: seq<Occurrence>, t: string)
    requires Frequency(occ, t) == 0
    ensures TotalViews(occ, t) == 0
  {
    if occ != [] {
      UnseenHasNoViews(occ[..|occ| - 1], t);
    }
  }

  /** `tag_frequency[tag] += 1; tag_view_score[tag] += views`, the key joining the order when it is new. */
  function Count(t: Tally, o: Occurrence): Tally {
    Tally(
      if o.tag in t.frequency then t.order else t.order + [o.tag],
      t.frequency[o.tag := (if o.tag in t.frequency then t.frequency[o.tag] else 0) + 1],
      t.viewScore[o.tag := (if o.tag in t.viewScore then t.viewScore[o.tag] else 0) + o.views])
  }

  /** The tally the loops of `rank_tags_from_query` build from the occurrences `occ`, counted one after another. */
  function TallyOf(occ: seq<Occurrence>): Tally {
    if occ == [] then Tally([], map[], map[])
    else Count(TallyOf(occ[..|occ| - 1]), occ[|occ| - 1])
  }

  /** A counting step appends the tag to the key order exactly when it is new. */
  lemma CountKeepsOrder(t: Tally, occ: seq<Occurrence>, o: Occurrence)
    requires t.order == FirstSeen(occ)
    requires forall tag :: tag in t.frequency <==> tag in t.order
    ensures Count(t, o).order == FirstSeen(occ + [o])
  {
    assert (occ + [o])[..|occ|] == occ;
  }

  /** A counting step adds one to the counter of the occurrence's tag only. */
  lemma CountKeepsFrequency(t: Tally, occ: seq<Occurrence>, o: Occurrence)
    requires forall tag :: tag in t.frequency ==> t.frequency[tag] == Frequency(occ, tag)
    requires forall tag :: tag !in t.frequency ==> Frequency(occ, tag) == 0
    ensures forall u :: u in Count(t, o).frequency ==> Count(t, o).frequency[u] == Frequency(occ + [o], u)
  {
    var occ' := occ + [o];
    assert occ'[..|occ|] == occ;
    forall u | u in Count(t, o).frequency ensures Count(t, o).frequency[u] == Frequency(occ', u) {
      assert Frequency(occ', u) == Frequency(occ, u) + (if o.tag == u then 1 else 0);
    }
  }

  /** A counting step adds the occurrence's views to the score of its tag only. */
  lemma CountKeepsViews(t: Tally, occ: seq<Occurrence>, o: Occurrence)
    requires forall tag :: tag in t.viewScore ==> t.viewScore[tag] == TotalViews(occ, tag)
    requires forall tag :: tag !in t.viewScore ==> Frequency(occ, tag) == 0
    ensures forall u :: u in Count(t, o).viewScore ==> Count(t, o).viewScore[u] == TotalViews(occ + [o], u)
  {
    var occ' := occ + [o];
    assert occ'[..|occ|] == occ;
    forall u | u in Count(t, o).viewScore ensures Count(t, o).viewScore[u] == TotalViews(occ', u) {
      if u !in t.viewScore {
        UnseenHasNoViews(occ, u);
      }
      assert TotalViews(occ', u) == TotalViews(occ, u) + (if o.tag == u then o.views else 0);
    }
  }

  /** One counting step keeps the tally exact. */
  lemma CountKeepsTallies(t: Tally, occ: seq<Occurrence>, o: Occurrence)
    requires Tallies(t, occ)
    ensures Tallies(Count(t, o), occ + [o])
  {
    CountKeepsOrder(t, occ, o);
    CountKeepsFrequency(t, occ, o);
    CountKeepsViews(t, occ, o);
  }

  /** Counting the occurrences one by one yields, per tag, exactly its frequency and its total views, keys in first-appearance order. */
  lemma {:induction false} TallyOfTallies(occ: seq<Occurrence>)
    ensures Tallies(TallyOf(occ), occ)
  {
    if occ != [] {
      var prefix := occ[..|occ| - 1];
      TallyOfTallies(prefix);
      CountKeepsTallies(TallyOf(prefix), prefix, occ[|occ| - 1]);
      assert prefix + [occ[|occ| - 1]] == occ;
    }
  }

  /**
   * A batch has occurrences exactly when every view count parses; otherwise
   * its error is that of the first video whose count `int()` refuses.
   */
  lemma {:induction false} OccurrencesAt(videos: seq<Video>)
    ensures Occurrences(videos).Ok? <==> forall i :: 0 <= i < |videos| ==> ViewCount(videos[i]).Ok?
    ensures Occurrences(videos).Err? ==>
              exists i :: 0 <= i < |videos| && ViewCount(videos[i]) == Err(Occurrences(videos).error)
                && forall k :: 0 <= k < i ==> ViewCount(videos[k]).Ok?
  {
    if videos != [] {
      var prefix, last := videos[..|videos| - 1], videos[|videos| - 1];
      OccurrencesAt(prefix);
      assert forall i :: 0 <= i < |prefix| ==> prefix[i] == videos[i];
      if Occurrences(prefix).Ok? && ViewCount(last).Err? {
        assert ViewCount(videos[|videos| - 1]) == Err(Occurrences(videos).error);
      }
    }
  }

  lemma {:induction false} OccurrencesErrorStays(videos: seq<Video>, n: nat)
    requires n <= |videos| && Occurrences(videos[..n]).Err?
    ensures Occurrences(videos) == Occurrences(videos[..n])
    decreases |videos| - n
  {
    if n < |videos| {
      assert videos[..n + 1][..n] == videos[..n];
      OccurrencesErrorStays(videos, n + 1);
    } else {
      assert videos[..n] == videos;
    }
  }

  lemma VideoOccurrencesStep(tags: seq<string>, j: nat, views: nat)
    requires j < |tags|
    ensures VideoOccurrences(tags[..j + 1], views) == VideoOccurrences(tags[..j], views) + TagOccurrence(tags[j], views)
  {
    assert tags[..j + 1][..j] == tags[..j];
  }

  /** Counts one tag (the body of the inner loop of `rank_tags_from_query`). */
  method TallyTag(t: Tally, tag: string, views: nat, ghost occ: seq<Occurrence>) returns (t': Tally)
    requires t == TallyOf(occ)
    ensures t' == TallyOf(occ + TagOccurrence(tag, views))
  {
    var normalised := Normalise(tag);
    if normalised == "" {
      assert occ + TagOccurrence(tag, views) == occ;
      return t;
    }
    assert (occ + TagOccurrence(tag, views))[..|occ|] == occ;
    var order: seq<string>, frequency: map<string, nat>, viewScore: map<string, nat> := t.order, t.frequency, t.viewScore;
    if normalised !in frequency {
      order := order + [normalised];
    }
    frequency := frequency[normalised := (if normalised in frequency then frequency[normalised] else 0) + 1];
    viewScore := viewScore[normalised := (if normalised in viewScore then viewScore[normalised] else 0) + views];
    t' := Tally(order, frequency, viewScore);
  }

  /** Counts the normalised tags of one video (the inner loop of `rank_tags_from_query`, over a video's tags). */
  method TallyVideo(t: Tally, tags: seq<string>, views: nat, ghost occ: seq<Occurrence>) returns (t': Tally)
    requires t == TallyOf(occ)
    ensures t' == TallyOf(occ + VideoOccurrences(tags, views))
  {
    t' := t;
    var j := 0;
    assert occ + VideoOccurrences(tags[..j], views) == occ;
    while j < |tags|
      invariant 0 <= j <= |tags|
      invariant t' == TallyOf(occ + VideoOccurrences(tags[..j], views))
    {
      ghost var done := occ + VideoOccurrences(tags[..j], views);
      t' := TallyTag(t', tags[j], views, done);
      VideoOccurrencesStep(tags, j, views);
      assert done + TagOccurrence(tags[j], views) == occ + VideoOccurrences(tags[..j + 1], views);
      j := j + 1;
    }
    assert tags[..|tags|] == tags;
  }

  /** Counts the normalised tags of the batch (the outer loop of `rank_tags_from_query`, over the videos). */
  method AggregateTags(videos: seq<Video>) returns (r: Result<Tally, Error>)
    ensures match Occurrences(videos)
            case Err(e) => r == Err(e)
            case Ok(occ) => r == Ok(TallyOf(occ))
  {
    var tally := Tally([], map[], map[]);
    ghost var occ: seq<Occurrence> := [];
    var i := 0;
    while i < |videos|
      invariant 0 <= i <= |videos|
      invariant Occurrences(videos[..i]) == Ok(occ)
      invariant tally == TallyOf(occ)
    {
      var video := videos[i];
      assert videos[..i + 1][..i] == videos[..i] && videos[..i + 1][i] == video;
      var parsed := ViewCount(video);
      if parsed.Err? {
        OccurrencesErrorStays(videos, i + 1);
        return Err(parsed.error);
      }
      tally := TallyVideo(tally, TagsOf(video), parsed.value, occ);
      occ := occ + VideoOccurrences(TagsOf(video), parsed.value);
      i := i + 1;
    }
    assert videos[..|videos|] == videos;
    return Ok(tally);
  }

  /** The `(tag, freq, total_views)` list, one entry per counter key in insertion order. */
  method CollectStats(t: Tally, ghost occ: seq<Occurrence>) returns (stats: seq<TagStat>)
    requires Tallies(t, occ)
    ensures stats == TagStats(occ)
  {
    stats := [];
    var i := 0;
    while i < |t.order|
      invariant 0 <= i <= |t.order|
      invariant |stats| == i
      invariant forall k :: 0 <= k < i ==> stats[k] == Stat(occ, t.order[k])
    {
      var tag := t.order[i];
      var views := if tag in t.viewScore then t.viewScore[tag] else 0;
      stats := stats + [TagStat(tag, t.frequency[tag], views)];
      i := i + 1;
    }
  }

  /** Numbers the sorted entries 1, 2, ... in order. */
  method AssignRanks(sorted: seq<TagStat>) returns (out: seq<RankedTag>)
    ensures Unrank(out) == sorted
    ensures forall i :: 0 <= i < |out| ==> out[i].rank == i + 1
  {
    out := [];
    var i := 0;
    while i < |sorted|
      invariant 0 <= i <= |sorted|
      invariant |out| == i
      invariant forall k :: 0 <= k < i ==> out[k] == RankedTag(k + 1, sorted[k].tag, sorted[k].frequency, sorted[k].totalViews)
    {
      var s := sorted[i];
      out := out + [RankedTag(i + 1, s.tag, s.frequency, s.totalViews)];
      i := i + 1;
    }
  }

  /** The tag ranking of a fetched batch of videos. */
  method RankTags(videos: seq<Video>) returns (r: Result<seq<RankedTag>, Error>)
    ensures match Occurrences(videos)
            case Err(e) => r == Err(e)
            case Ok(occ) => r.Ok? && IsRanking(occ, r.value)
  {
    var aggregated := AggregateTags(videos);
    if aggregated.Err? {
      return Err(aggregated.error);
    }
    var tally := aggregated.value;
    ghost var occ := Occurrences(videos).value;
    TallyOfTallies(occ);
    if tally.frequency == map[] {
      return Ok([]);
    }
    var stats := CollectStats(tally, occ);
    var sorted := SortDesc(stats, StatKey);
    var out := AssignRanks(sorted);
    return Ok(out);
  }
}
