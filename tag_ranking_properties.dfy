/**
 * What a tag ranking promises, proved from the IsRanking characterisation that
 * TagRanking.RankTags establishes: which tags appear, with which figures, in
 * which order and under which ranks; that the result does not depend on how
 * the input tags were cased or padded; and what an untagged batch yields.
 */
module TagRankingProperties {
  import opened Wrappers
  import opened Text
  import opened Records
  import opened StableSort
  import opened TagRanking

  // ---------------------------------------------------------------------------
  // Reference figures computed directly from the videos
  // ---------------------------------------------------------------------------

  /** How many entries of `tags` normalise to `t`; a video listing "Fun" and "fun" counts 2 for "fun". */
  function CountInTags(tags: seq<string>, t: string): nat {
    if tags == [] then 0
    else CountInTags(tags[..|tags| - 1], t) + (if Normalise(tags[|tags| - 1]) == t then 1 else 0)
  }

  /** The views `tags` credit to `t`: the video's `views` once for every entry that normalises to `t`. */
  function ViewsInTags(tags: seq<string>, views: nat, t: string): nat {
    if tags == [] then 0
    else ViewsInTags(tags[..|tags| - 1], views, t) + (if Normalise(tags[|tags| - 1]) == t then views else 0)
  }

  /** The view count of a video, 0 where it is malformed (used only where none is). */
  function ViewsOrZero(v: Video): nat {
    match ViewCount(v)
    case Ok(n) => n
    case Err(_) => 0
  }

  /** Over the whole batch, how many tags normalise to `t`. */
  function TagCount(videos: seq<Video>, t: string): nat {
    if videos == [] then 0
    else TagCount(videos[..|videos| - 1], t) + CountInTags(TagsOf(videos[|videos| - 1]), t)
  }

  /** Over the whole batch, the views of each tag that normalises to `t`, summed. */
  function TagViews(videos: seq<Video>, t: string): nat {
    if videos == [] then 0
    else
      var v := videos[|videos| - 1];
      TagViews(videos[..|videos| - 1], t) + ViewsInTags(TagsOf(v), ViewsOrZero(v), t)
  }

  /** Some entry of `tags` normalises to `t`. */
  ghost predicate InTags(tags: seq<string>, t: string) {
    exists j :: 0 <= j < |tags| && Normalise(tags[j]) == t
  }

  /** Some tag of some video normalises to `t`. */
  ghost predicate IsInputTag(videos: seq<Video>, t: string) {
    exists i :: 0 <= i < |videos| && InTags(TagsOf(videos[i]), t)
  }

  // ---------------------------------------------------------------------------
  // Occurrences against the reference figures
  // ---------------------------------------------------------------------------

  lemma {:induction false} FrequencyAppend(a: seq<Occurrence>, b: seq<Occurrence>, t: string)
    ensures Frequency(a + b, t) == Frequency(a, t) + Frequency(b, t)
    ensures TotalViews(a + b, t) == TotalViews(a, t) + TotalViews(b, t)
  {
    if b == [] {
      assert a + b == a;
    } else {
      var b' := b[..|b| - 1];
      assert (a + b)[..|a + b| - 1] == a + b';
      FrequencyAppend(a, b', t);
    }
  }

  /** The one step of non-linear arithmetic ViewsInTagsProduct needs, proved apart from its context. */
  lemma MulSucc(c: nat, v: nat)
    ensures (c + 1) * v == c * v + v
  {
  }

  /** A video credits each tag its views times the number of its entries that normalise to it. */
  lemma {:induction false} ViewsInTagsProduct(tags: seq<string>, views: nat, t: string)
    ensures ViewsInTags(tags, views, t) == CountInTags(tags, t) * views
  {
    if tags != [] {
      ViewsInTagsProduct(tags[..|tags| - 1], views, t);
      MulSucc(CountInTags(tags[..|tags| - 1], t), views);
    }
  }

  /** One tag adds one occurrence of `t`, with the video's views, exactly when it normalises to `t`. */
  lemma TagFigures(tag: string, views: nat, t: string)
    requires t != ""
    ensures Frequency(TagOccurrence(tag, views), t) == (if Normalise(tag) == t then 1 else 0)
    ensures TotalViews(TagOccurrence(tag, views), t) == (if Normalise(tag) == t then views else 0)
  {
    var extra := TagOccurrence(tag, views);
    if extra != [] {
      assert extra[..0] == [];
    }
  }

  lemma {:induction false} VideoFigures(tags: seq<string>, views: nat, t: string)
    requires t != ""
    ensures Frequency(VideoOccurrences(tags, views), t) == CountInTags(tags, t)
    ensures TotalViews(VideoOccurrences(tags, views), t) == ViewsInTags(tags, views, t)
  {
    if tags != [] {
      var tags', last := tags[..|tags| - 1], tags[|tags| - 1];
      VideoFigures(tags', views, t);
      FrequencyAppend(VideoOccurrences(tags', views), TagOccurrence(last, views), t);
      TagFigures(last, views, t);
    }
  }

  /** The occurrences count exactly the input tags that normalise to each non-empty tag. */
  lemma {:induction false} OccurrenceFigures(videos: seq<Video>, occ: seq<Occurrence>, t: string)
    requires Occurrences(videos) == Ok(occ)
    ensures Frequency(occ, "") == 0
    ensures t != "" ==> Frequency(occ, t) == TagCount(videos, t) && TotalViews(occ, t) == TagViews(videos, t)
  {
    if videos != [] {
      var prefix, v := videos[..|videos| - 1], videos[|videos| - 1];
      var occ' := Occurrences(prefix).value;
      OccurrenceFigures(prefix, occ', t);
      var n := ViewCount(v).value;
      FrequencyAppend(occ', VideoOccurrences(TagsOf(v), n), t);
      FrequencyAppend(occ', VideoOccurrences(TagsOf(v), n), "");
      NoEmptyTag(VideoOccurrences(TagsOf(v), n));
      if t != "" {
        VideoFigures(TagsOf(v), n, t);
      }
    }
  }

  lemma {:induction false} NoEmptyTag(occ: seq<Occurrence>)
    requires forall i :: 0 <= i < |occ| ==> occ[i].tag != ""
    ensures Frequency(occ, "") == 0
  {
    if occ != [] {
      NoEmptyTag(occ[..|occ| - 1]);
    }
  }

  /** Something holds of an element of a non-empty sequence exactly when it holds before the last one or of the last one. */
  lemma SomeSplit<T>(s: seq<T>, prefix: seq<T>, p: T -> bool)
    requires s != [] && prefix == s[..|s| - 1]
    ensures (exists i :: 0 <= i < |s| && p(s[i])) <==> (exists i :: 0 <= i < |prefix| && p(prefix[i])) || p(s[|s| - 1])
  {
    if exists i :: 0 <= i < |s| && p(s[i]) {
      var i :| 0 <= i < |s| && p(s[i]);
      if i < |prefix| {
        assert prefix[i] == s[i];
      }
    }
    if exists i :: 0 <= i < |prefix| && p(prefix[i]) {
      var i :| 0 <= i < |prefix| && p(prefix[i]);
      assert prefix[i] == s[i];
    }
  }

  lemma {:induction false} CountInTagsPositive(tags: seq<string>, t: string)
    ensures CountInTags(tags, t) > 0 <==> InTags(tags, t)
  {
    if tags != [] {
      CountInTagsPositive(tags[..|tags| - 1], t);
      SomeSplit(tags, tags[..|tags| - 1], tag => Normalise(tag) == t);
    }
  }

  lemma InputTagSplit(videos: seq<Video>, t: string)
    requires videos != []
    ensures IsInputTag(videos, t) <==> IsInputTag(videos[..|videos| - 1], t) || InTags(TagsOf(videos[|videos| - 1]), t)
  {
    SomeSplit(videos, videos[..|videos| - 1], v => InTags(TagsOf(v), t));
  }

  lemma {:induction false} TagCountPositive(videos: seq<Video>, t: string)
    ensures TagCount(videos, t) > 0 <==> IsInputTag(videos, t)
  {
    if videos != [] {
      TagCountPositive(videos[..|videos| - 1], t);
      CountInTagsPositive(TagsOf(videos[|videos| - 1]), t);
      InputTagSplit(videos, t);
    }
  }

  // ---------------------------------------------------------------------------
  // First-appearance order
  // ---------------------------------------------------------------------------

  lemma {:induction false} FirstIndexFound(occ: seq<Occurrence>, t: string)
    ensures FirstIndex(occ, t) < |occ| <==> Frequency(occ, t) > 0
  {
    if occ != [] {
      FirstIndexFound(occ[..|occ| - 1], t);
    }
  }

  /** FirstSeen lists the tags in the order of their first occurrences. */
  lemma {:induction false} FirstSeenInOrder(occ: seq<Occurrence>, p: nat, q: nat)
    requires p < q < |FirstSeen(occ)|
    ensures FirstIndex(occ, FirstSeen(occ)[p]) < FirstIndex(occ, FirstSeen(occ)[q])
  {
    var occ', o := occ[..|occ| - 1], occ[|occ| - 1];
    var seen, seen' := FirstSeen(occ), FirstSeen(occ');
    var x, y := seen[p], seen[q];
    if q < |seen'| {
      assert x == seen'[p] && y == seen'[q];
      FirstSeenInOrder(occ', p, q);
      FirstIndexFound(occ', x);
      FirstIndexFound(occ', y);
    } else {
      assert y == o.tag && y !in seen' && x == seen'[p];
      FirstIndexFound(occ', x);
      FirstIndexFound(occ', y);
    }
  }

  // ---------------------------------------------------------------------------
  // Multiset helpers
  // ---------------------------------------------------------------------------

  lemma {:induction false} DistinctAtMostOnce<T>(b: seq<T>, x: T)
    requires forall i, j :: 0 <= i < j < |b| ==> b[i] != b[j]
    ensures multiset(b)[x] <= 1
  {
    if b != [] {
      var b' := b[..|b| - 1];
      assert b == b' + [b[|b| - 1]];
      DistinctAtMostOnce(b', x);
      if b[|b| - 1] == x {
        assert x !in b';
      }
    }
  }

  lemma RepeatedTwice<T>(a: seq<T>, i: nat, j: nat)
    requires i < j < |a| && a[i] == a[j]
    ensures multiset(a)[a[i]] >= 2
  {
    assert a == a[..j] + [a[j]] + a[j + 1..];
    assert a[..j][i] == a[i];
    assert a[i] in multiset(a[..j]);
  }

  // ---------------------------------------------------------------------------
  // Properties of a ranking
  // ---------------------------------------------------------------------------

  /** Every entry is a tag that occurs, with exactly its frequency and total views. */
  lemma RankingFigures(occ: seq<Occurrence>, out: seq<RankedTag>)
    requires IsRanking(occ, out)
    ensures forall i :: 0 <= i < |out| ==>
              && Frequency(occ, out[i].tag) > 0
              && out[i].frequency == Frequency(occ, out[i].tag)
              && out[i].totalViews == TotalViews(occ, out[i].tag)
  {
    var u, stats := Unrank(out), TagStats(occ);
    StableSortPermutes(u, stats, StatKey);
    forall i | 0 <= i < |out|
      ensures Frequency(occ, out[i].tag) > 0
      ensures out[i].frequency == Frequency(occ, out[i].tag) && out[i].totalViews == TotalViews(occ, out[i].tag)
    {
      assert u[i] in multiset(stats);
      var p :| 0 <= p < |stats| && stats[p] == u[i];
      assert FirstSeen(occ)[p] in FirstSeen(occ);
    }
  }

  /** Every tag that occurs has an entry. */
  lemma RankingCovers(occ: seq<Occurrence>, out: seq<RankedTag>)
    requires IsRanking(occ, out)
    ensures forall t :: Frequency(occ, t) > 0 ==> exists i :: 0 <= i < |out| && out[i].tag == t
  {
    var u, stats := Unrank(out), TagStats(occ);
    StableSortPermutes(u, stats, StatKey);
    forall t | Frequency(occ, t) > 0
      ensures exists i :: 0 <= i < |out| && out[i].tag == t
    {
      var p :| 0 <= p < |FirstSeen(occ)| && FirstSeen(occ)[p] == t;
      assert stats[p] in multiset(u);
      var i :| 0 <= i < |u| && u[i] == stats[p];
      assert out[i].tag == t;
    }
  }

  /** No tag has two entries. */
  lemma RankingDistinct(occ: seq<Occurrence>, out: seq<RankedTag>)
    requires IsRanking(occ, out)
    ensures forall i, j :: 0 <= i < j < |out| ==> out[i].tag != out[j].tag
  {
    var u, stats := Unrank(out), TagStats(occ);
    StableSortPermutes(u, stats, StatKey);
    RankingFigures(occ, out);
    forall i, j | 0 <= i < j < |out|
      ensures out[i].tag != out[j].tag
    {
      if out[i].tag == out[j].tag {
        assert u[i] == u[j];
        RepeatedTwice(u, i, j);
        DistinctAtMostOnce(stats, u[i]);
        assert false;
      }
    }
  }

  /** Entries are in non-increasing (total views, frequency) order; ties keep first appearance. */
  lemma RankingOrder(occ: seq<Occurrence>, out: seq<RankedTag>, i: nat, j: nat)
    requires IsRanking(occ, out) && i < j < |out|
    ensures out[i].totalViews > out[j].totalViews
         || (out[i].totalViews == out[j].totalViews && out[i].frequency >= out[j].frequency)
    ensures out[i].totalViews == out[j].totalViews && out[i].frequency == out[j].frequency
            ==> FirstIndex(occ, out[i].tag) < FirstIndex(occ, out[j].tag)
  {
    var u, stats := Unrank(out), TagStats(occ);
    assert AtLeast(StatKey(u[i]), StatKey(u[j]));
    if StatKey(u[i]) == StatKey(u[j]) {
      StableTies(u, stats, StatKey, i, j);
      var p, q :| 0 <= p < q < |stats| && stats[p] == u[i] && stats[q] == u[j];
      FirstSeenInOrder(occ, p, q);
    }
  }

  /** Ranks run 1, 2, ..., N, where N is the number of distinct tags. */
  lemma RankingRanks(occ: seq<Occurrence>, out: seq<RankedTag>)
    requires IsRanking(occ, out)
    ensures |out| == |FirstSeen(occ)|
    ensures forall i :: 0 <= i < |out| ==> out[i].rank == i + 1
  {
    StableSortPermutes(Unrank(out), TagStats(occ), StatKey);
  }

  /** There is exactly one ranking of a given set of occurrences. */
  lemma RankingIsUnique(occ: seq<Occurrence>, a: seq<RankedTag>, b: seq<RankedTag>)
    requires IsRanking(occ, a) && IsRanking(occ, b)
    ensures a == b
  {
    SortIsUnique(Unrank(a), Unrank(b), TagStats(occ), StatKey);
    assert |a| == |Unrank(a)| == |Unrank(b)| == |b|;
    forall i | 0 <= i < |a|
      ensures a[i] == b[i]
    {
      assert Unrank(a)[i] == Unrank(b)[i];
    }
  }

  /** Without a single non-empty normalised tag the ranking is empty. */
  lemma EmptyRanking(occ: seq<Occurrence>, out: seq<RankedTag>)
    requires IsRanking(occ, out) && occ == []
    ensures out == []
  {
    RankingRanks(occ, out);
  }

  /** A video without tags adds no occurrence (its view count is still parsed). */
  lemma UntaggedVideo(videos: seq<Video>, v: Video)
    requires TagsOf(v) == []
    ensures Occurrences(videos + [v])
         == match ViewCount(v)
            case Err(e) => (if Occurrences(videos).Err? then Occurrences(videos) else Err(e))
            case Ok(_) => Occurrences(videos)
  {
    var all := videos + [v];
    assert all[..|all| - 1] == videos;
    if Occurrences(videos).Ok? && ViewCount(v).Ok? {
      assert Occurrences(videos).value + VideoOccurrences([], ViewCount(v).value) == Occurrences(videos).value;
    }
  }

  // ---------------------------------------------------------------------------
  // Rankings against the input videos
  // ---------------------------------------------------------------------------

  /**
   * Every entry's tag is a non-empty normal form of some input tag, its
   * frequency is the number of input tags normalising to it and its total the
   * views of those tags' videos; every such tag has an entry.
   */
  lemma RankingOfVideos(videos: seq<Video>, occ: seq<Occurrence>, out: seq<RankedTag>)
    requires Occurrences(videos) == Ok(occ) && IsRanking(occ, out)
    ensures forall i :: 0 <= i < |out| ==>
              && out[i].tag != ""
              && IsNormalised(out[i].tag)
              && IsInputTag(videos, out[i].tag)
              && out[i].frequency == TagCount(videos, out[i].tag)
              && out[i].totalViews == TagViews(videos, out[i].tag)
    ensures forall t :: t != "" && IsInputTag(videos, t) ==> exists i :: 0 <= i < |out| && out[i].tag == t
  {
    RankingFigures(occ, out);
    RankingCovers(occ, out);
    forall i | 0 <= i < |out|
      ensures out[i].tag != "" && IsNormalised(out[i].tag) && IsInputTag(videos, out[i].tag)
      ensures out[i].frequency == TagCount(videos, out[i].tag) && out[i].totalViews == TagViews(videos, out[i].tag)
    {
      var t := out[i].tag;
      OccurrenceFigures(videos, occ, t);
      TagCountPositive(videos, t);
      var a :| 0 <= a < |videos| && InTags(TagsOf(videos[a]), t);
      var j :| 0 <= j < |TagsOf(videos[a])| && Normalise(TagsOf(videos[a])[j]) == t;
    }
    forall t | t != "" && IsInputTag(videos, t)
      ensures exists i :: 0 <= i < |out| && out[i].tag == t
    {
      OccurrenceFigures(videos, occ, t);
      TagCountPositive(videos, t);
    }
  }

  // ---------------------------------------------------------------------------
  // Idempotence of normalisation
  // ---------------------------------------------------------------------------

  function NormaliseAll(tags: seq<string>): (r: seq<string>)
    ensures |r| == |tags| && forall j :: 0 <= j < |tags| ==> r[j] == Normalise(tags[j])
  {
    if tags == [] then [] else NormaliseAll(tags[..|tags| - 1]) + [Normalise(tags[|tags| - 1])]
  }

  /** The video with every tag replaced by its normal form. */
  function RenormaliseVideo(v: Video): Video {
    match v.tags
    case None => v
    case Some(tags) => v.(tags := Some(NormaliseAll(tags)))
  }

  /** The batch with every tag replaced by its normal form. */
  function Renormalised(videos: seq<Video>): (r: seq<Video>)
    ensures |r| == |videos| && forall i :: 0 <= i < |videos| ==> r[i] == RenormaliseVideo(videos[i])
  {
    seq(|videos|, i requires 0 <= i < |videos| => RenormaliseVideo(videos[i]))
  }

  lemma {:induction false} RenormalisedTags(tags: seq<string>, views: nat)
    ensures VideoOccurrences(NormaliseAll(tags), views) == VideoOccurrences(tags, views)
  {
    if tags != [] {
      var tags' := tags[..|tags| - 1];
      RenormalisedTags(tags', views);
      NormaliseIdempotent(tags[|tags| - 1]);
      assert NormaliseAll(tags)[..|tags| - 1] == NormaliseAll(tags');
    }
  }

  /** A renormalised video keeps its view count and its tag occurrences. */
  lemma RenormalisedVideo(v: Video)
    ensures ViewCount(RenormaliseVideo(v)) == ViewCount(v)
    ensures ViewCount(v).Ok? ==>
              VideoOccurrences(TagsOf(RenormaliseVideo(v)), ViewCount(v).value) == VideoOccurrences(TagsOf(v), ViewCount(v).value)
  {
    if v.tags.Some? && ViewCount(v).Ok? {
      RenormalisedTags(v.tags.value, ViewCount(v).value);
    }
  }

  lemma {:induction false} RenormalisedOccurrences(videos: seq<Video>)
    ensures Occurrences(Renormalised(videos)) == Occurrences(videos)
  {
    if videos != [] {
      var prefix, v := videos[..|videos| - 1], videos[|videos| - 1];
      RenormalisedOccurrences(prefix);
      var r := Renormalised(videos);
      assert r[..|r| - 1] == Renormalised(prefix);
      assert r[|r| - 1] == RenormaliseVideo(v);
      RenormalisedVideo(v);
    }
  }

  /** Feeding the normalised tags back in gives the same ranking. */
  lemma RankingIdempotent(videos: seq<Video>, occ: seq<Occurrence>, occ': seq<Occurrence>, a: seq<RankedTag>, b: seq<RankedTag>)
    requires Occurrences(videos) == Ok(occ) && IsRanking(occ, a)
    requires Occurrences(Renormalised(videos)) == Ok(occ') && IsRanking(occ', b)
    ensures a == b
  {
    RenormalisedOccurrences(videos);
    RankingIsUnique(occ, a, b);
  }
}
