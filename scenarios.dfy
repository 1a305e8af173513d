/**
 * Worked batches: two tagged videos whose tags differ only in case and
 * padding, and two untitled or unnamed videos to be ordered by views.
 */
module Scenarios {
  import opened Wrappers
  import opened Text
  import opened Records
  import opened StableSort
  import opened TagRanking
  import opened TagRankingProperties
  import opened ViralVideos

  /** 100 views, tagged "Fun" and "cats". */
  const A: Video := Video(Some("a"), None, None, Some(["Fun", "cats"]), Some("100"))
  /** 10 views, tagged " fun". */
  const B: Video := Video(Some("b"), None, None, Some([" fun"]), Some("10"))

  lemma NormaliseExamples()
    ensures Normalise("Fun") == "fun" && Normalise("cats") == "cats" && Normalise(" fun") == "fun"
  {
    assert SkipSpaces("Fun", 0) == 0 && SkipSpacesBack("Fun", 0, 3) == 3;
    assert Trim("Fun") == "Fun";
    assert "Fun"[1..] == "un" && "un"[1..] == "n" && "n"[1..] == [];
    assert Lower("Fun") == "fun";
    assert SkipSpaces("cats", 0) == 0 && SkipSpacesBack("cats", 0, 4) == 4;
    assert Trim("cats") == "cats";
    LowerFixed("cats");
    assert SkipSpaces(" fun", 1) == 1 && SkipSpaces(" fun", 0) == 1 && SkipSpacesBack(" fun", 1, 4) == 4;
    assert Trim(" fun") == "fun";
    LowerFixed("fun");
  }

  lemma ViewCountExamples()
    ensures ViewCount(A) == Ok(100) && ViewCount(B) == Ok(10)
  {
    assert "100"[..2] == "10" && "10"[..1] == "1";
  }

  lemma OccurrencesExample()
    ensures Occurrences([A, B]) == Ok(Occ)
  {
    NormaliseExamples();
    ViewCountExamples();
    assert ["Fun", "cats"][..1] == ["Fun"];
    assert VideoOccurrences(["Fun", "cats"], 100) == [Occurrence("fun", 100), Occurrence("cats", 100)];
    assert VideoOccurrences([" fun"], 10) == [Occurrence("fun", 10)];
    assert [A, B][..1] == [A] && [A][..0] == [];
    assert TagsOf(A) == ["Fun", "cats"] && TagsOf(B) == [" fun"];
    assert Occurrences([A][..0]) == Ok([]);
    var first: seq<Occurrence> := [Occurrence("fun", 100), Occurrence("cats", 100)];
    assert [] + first == first;
    assert Occurrences([A]) == Ok(first);
    assert [A, B][|[A, B]| - 1] == B;
    assert first + [Occurrence("fun", 10)] == [Occurrence("fun", 100), Occurrence("cats", 100), Occurrence("fun", 10)];
  }

  /** The occurrences of [A, B]. */
  const Occ: seq<Occurrence> := [Occurrence("fun", 100), Occurrence("cats", 100), Occurrence("fun", 10)]

  /** "Fun" and " fun" count as one tag, seen twice, with the views of both videos. */
  lemma FunCountsTwice()
    ensures TagStats(Occ) == [TagStat("fun", 2, 110), TagStat("cats", 1, 100)]
  {
    OccTags();
    OccFigures();
  }

  lemma OccTags()
    ensures FirstSeen(Occ) == ["fun", "cats"]
  {
    var occ1, occ2 := Occ[..1], Occ[..2];
    assert occ2[..1] == occ1 && occ1[..0] == [];
    assert FirstSeen(occ1) == ["fun"];
    assert FirstSeen(occ2) == ["fun", "cats"];
  }

  lemma OccFigures()
    ensures Frequency(Occ, "fun") == 2 && TotalViews(Occ, "fun") == 110
    ensures Frequency(Occ, "cats") == 1 && TotalViews(Occ, "cats") == 100
  {
    var occ1, occ2 := Occ[..1], Occ[..2];
    assert occ2[..1] == occ1 && occ1[..0] == [];
    assert Frequency(occ1, "fun") == 1 && TotalViews(occ1, "fun") == 100;
    assert Frequency(occ2, "fun") == 1 && TotalViews(occ2, "fun") == 100;
    assert Frequency(occ1, "cats") == 0 && TotalViews(occ1, "cats") == 0;
  }

  /** The only ranking of the batch [A, B]. */
  lemma RankingExample(out: seq<RankedTag>)
    requires Occurrences([A, B]).Ok? && IsRanking(Occurrences([A, B]).value, out)
    ensures out == [RankedTag(1, "fun", 2, 110), RankedTag(2, "cats", 1, 100)]
  {
    OccurrencesExample();
    RankingOfOcc(out);
  }

  lemma RankingOfOcc(out: seq<RankedTag>)
    requires IsRanking(Occ, out)
    ensures out == [RankedTag(1, "fun", 2, 110), RankedTag(2, "cats", 1, 100)]
  {
    FunCountsTwice();
    var expected := [RankedTag(1, "fun", 2, 110), RankedTag(2, "cats", 1, 100)];
    assert TagStats(Occ) == Unrank(expected);
    assert IsRanking(Occ, expected);
    RankingIsUnique(Occ, out, expected);
  }

  /** 50 views, no id and no channel. */
  const Quiet: Video := Video(None, Some("quiet"), None, None, Some("50"))
  /** 100 views, no title. */
  const Loud: Video := Video(Some("L"), None, Some("chan"), None, Some("100"))

  /** The entry of Quiet, with both defaults. */
  const QuietEntry: ViralVideo := ViralVideo("quiet", "Unknown channel", 50, None)
  /** The entry of Loud, with the default title and a watch URL. */
  const LoudEntry: ViralVideo := ViralVideo("No title", "chan", 100, Some("https://www.youtube.com/watch?v=L"))

  lemma ProjectionsExample()
    ensures Projections([Quiet, Loud]) == Ok([QuietEntry, LoudEntry])
  {
    assert "50"[..1] == "5" && "100"[..2] == "10" && "10"[..1] == "1";
    assert Project(Quiet) == Ok(QuietEntry);
    assert WatchUrl("L") == "https://www.youtube.com/watch?v=L";
    assert UrlOf(Loud) == Some("https://www.youtube.com/watch?v=L");
    assert Project(Loud) == Ok(LoudEntry);
    assert [Quiet, Loud][..1] == [Quiet] && [Quiet][..0] == [];
    assert Projections([Quiet]) == Ok([] + [QuietEntry]);
    assert [] + [QuietEntry] == [QuietEntry];
    assert Projections([Quiet, Loud][..1]) == Ok([QuietEntry]);
    assert [QuietEntry] + [LoudEntry] == [QuietEntry, LoudEntry];
    assert [Quiet, Loud][|[Quiet, Loud]| - 1] == Loud;
  }

  /** The louder entry goes first. */
  lemma SortExample(out: seq<ViralVideo>)
    requires IsStableSortDesc(out, [QuietEntry, LoudEntry], ViewsKey)
    ensures out == [LoudEntry, QuietEntry]
  {
    var ps, expected := [QuietEntry, LoudEntry], [LoudEntry, QuietEntry];
    forall k
      ensures WithKey(expected, ViewsKey, k) == WithKey(ps, ViewsKey, k)
    {
      assert expected[..1] == [LoudEntry] && ps[..1] == [QuietEntry] && [LoudEntry][..0] == [] && [QuietEntry][..0] == [];
    }
    SortIsUnique(out, expected, ps, ViewsKey);
  }

  /** The only selection of [Quiet, Loud]: the louder first, defaults filled in, a URL only where there is an id. */
  lemma ViralExample(out: seq<ViralVideo>)
    requires Projections([Quiet, Loud]).Ok? && IsStableSortDesc(out, Projections([Quiet, Loud]).value, ViewsKey)
    ensures out == [
      ViralVideo("No title", "chan", 100, Some("https://www.youtube.com/watch?v=L")),
      ViralVideo("quiet", "Unknown channel", 50, None)]
  {
    ProjectionsExample();
    SortExample(out);
  }
}
