# yt_tags in Dafny

This project models the logic of `yt_tags.py`, a small YouTube helper with two entry points.

- **`rank_tags_from_query`** searches for videos, fetches their details and ranks their tags.
  - Each tag is trimmed and lower-cased.
  - Tags that end up empty are dropped.
  - For each remaining tag it counts the occurrences and sums the views of the videos carrying them.
  - The tags are then sorted by (total views, frequency), largest first, and numbered from 1.
- **`get_viral_videos`** searches by view count and fetches the details.
  - Each video becomes a `{title, channel, views, url}` entry, with defaults for missing fields.
  - The entries are sorted again by views, largest first.

Both entry points refuse to run without an API key. The details fetch sends no request for an empty id list.

Modules (one file each):

- `Wrappers`: `Option`, `Result`.
- `Text`: `str.strip()`/`str.lower()` over ASCII, and `int()` over digit strings with its inverse.
- `Records`: the video record, the errors, and view-count parsing.
- `StableSort`: a stable, descending insertion sort over sequences, specified by what any stable sort must produce.
- `TagRanking`: the ranker.
  - A specification: the flat list of tag occurrences and the figures over it.
  - The imperative counting, collecting, sorting and numbering steps, proved against it.
- `TagRankingProperties`: what a ranking promises, stated against the input videos.
- `ViralVideos`: the viral selector.
- `YouTubeClient`: the key guard, the empty-id short-circuit and the two entry points.
  - The platform's replies are parameters.
  - The requests the client would send are returned as a log.
- `Scenarios`: two worked batches.

Where the code and its surrounding documentation disagree, the model follows the code.

- **Frequency counts tag occurrences, not distinct videos.** A video tagged both "Fun" and "fun" adds 2 to `fun`'s frequency and adds its views twice (`yt_tags.py:79-84`).
- **A malformed `viewCount` is an error, not 0.** `int()` raises on it (`yt_tags.py:77`, `125`). Only a missing count defaults to `"0"`.

## Model

| member | source | states |
|---|---|---|
| Text.Normalise | yt_tags.py:80 | `tag.strip().lower()` has no surrounding whitespace and no upper-case letter |
| Text.NormalisedIsFixed | yt_tags.py:80 | a string already in normal form is left unchanged by normalisation |
| Text.NormaliseIdempotent | yt_tags.py:80 | normalising twice is normalising once |
| Text.NormaliseEmptyIff | yt_tags.py:80-82 | a tag normalises to "" (and is skipped) exactly when it is all whitespace |
| Text.Trim | yt_tags.py:80 | `strip()` never lengthens its string and leaves no whitespace at either end |
| Text.TrimFacts | yt_tags.py:80 | `strip()` cuts only whitespace, and all of it, from both ends: the result is the untouched middle of the string |
| Text.Lower | yt_tags.py:80 | `lower()` keeps the length of its string |
| Text.LowerAt | yt_tags.py:80 | each character of the lower-cased string is the lower-cased character at the same place |
| Text.LowerCharFacts | yt_tags.py:80 | `lower()` on one character maps A-Z to a-z, keeps whitespace and changes nothing else |
| Text.LowerHasNoUpper | yt_tags.py:80 | the lower-cased string has no upper-case letter |
| Text.LowerFixed | yt_tags.py:80 | a string without upper-case letters is its own lower-case form |
| Text.SkipSpacesFacts | yt_tags.py:80 | every character skipped at the front is whitespace and the first one kept is not |
| Text.SkipSpacesBackFacts | yt_tags.py:80 | every character dropped at the back is whitespace and the last one kept is not |
| Text.ParseNat | yt_tags.py:77 | `int()` succeeds exactly on non-empty strings of decimal digits |
| Text.DecimalString | yt_tags.py:77 | a number's decimal rendering is a digit string without a leading zero |
| Text.ParseDecimalString | yt_tags.py:77 | parsing the rendering of `n` gives `n` back |
| Text.DecimalStringOfParse | yt_tags.py:77 | a digit string without a leading zero is the rendering of the number it parses to |
| Text.ParseNatPositive | yt_tags.py:77 | a digit string starting with a non-zero digit parses to a positive number |
| Records.ViewCount | yt_tags.py:75-77 | a missing `viewCount` is 0; a present one parses iff it is a digit string, to its value, else the error carries the text |
| TagRanking.TagOccurrence | yt_tags.py:79-82 | a tag contributes at most one occurrence: its normal form with the video's views, never an empty tag |
| TagRanking.VideoOccurrences | yt_tags.py:79-84 | a video contributes at most one occurrence per tag, each non-empty and carrying the video's views |
| TagRanking.Occurrences | yt_tags.py:73-84 | the only way a batch of videos fails is a malformed view count |
| TagRanking.OccurrencesAt | yt_tags.py:73-77 | a batch has occurrences iff every view count parses; otherwise its error is that of the first video whose count does not, tagged or not |
| TagRanking.FirstSeen | yt_tags.py:83-90 | the counter's keys are distinct, and a tag is a key exactly when it occurs |
| TagRanking.FirstIndex | yt_tags.py:83-90 | the first position at which a tag occurs, with no earlier occurrence |
| TagRanking.UnseenHasNoViews | yt_tags.py:83-84 | a tag never counted has no views |
| TagRanking.CountKeepsOrder | yt_tags.py:83-90 | a counting step appends a tag to the counter's key order exactly when it is new, keeping first-appearance order |
| TagRanking.CountKeepsFrequency | yt_tags.py:83 | `tag_frequency[normalized] += 1` keeps every count equal to the tag's number of occurrences |
| TagRanking.CountKeepsViews | yt_tags.py:84 | `tag_view_score[normalized] += view_count` keeps every score equal to the tag's summed views |
| TagRanking.CountKeepsTallies | yt_tags.py:83-84 | one `+= 1` / `+= view_count` step keeps the counter and the view score exact and the key order first-appearance |
| TagRanking.TallyOfTallies | yt_tags.py:70-84 | counting all occurrences one by one gives each tag its frequency and total views, keys in first-appearance order |
| TagRanking.OccurrencesErrorStays | yt_tags.py:73-77 | once a video's `int()` has raised, later videos do not change the outcome |
| TagRanking.TallyTag | yt_tags.py:80-84 | one pass of the inner loop body leaves the counting state equal to the reference tally of the occurrences so far |
| TagRanking.TallyVideo | yt_tags.py:79-84 | the inner loop leaves the reference tally of the occurrences so far plus this video's |
| TagRanking.AggregateTags | yt_tags.py:70-84 | the outer loop yields the first malformed view count's error, or the reference tally of all occurrences |
| TagRanking.CollectStats | yt_tags.py:89-92 | the `(tag, freq, total_views)` list holds one entry per distinct tag, in first-appearance order, with its exact figures |
| TagRanking.AssignRanks | yt_tags.py:97-106 | entry `i` gets rank `i + 1` and keeps its tag and figures |
| TagRanking.RankTags | yt_tags.py:70-107 | the view-count error, or a ranking: the per-tag stats stably sorted by (total views, frequency) descending and numbered 1..N |
| StableSort.SortDesc | yt_tags.py:95 | the result is sorted non-increasingly by key, and each key's elements keep their input order |
| StableSort.InsertDesc | yt_tags.py:95 | inserting into a sorted list after all elements with a key at least as large keeps it sorted and stable |
| StableSort.StableSortPermutes | yt_tags.py:95 | a stable sort's result is a permutation of its input |
| StableSort.SortIsUnique | yt_tags.py:95 | every stable descending sort gives the same result, so the insertion sort agrees with Python's `list.sort` |
| StableSort.StableTies | yt_tags.py:95 | elements with equal keys come out in their input order |
| TagRankingProperties.VideoFigures | yt_tags.py:79-84 | within one video, a tag's count is the number of its tags normalising to it, and its views are the video's views once per such tag |
| TagRankingProperties.ViewsInTagsProduct | yt_tags.py:84 | a video's contribution to a tag's views is its views times the number of its tags normalising to it |
| TagRankingProperties.TagFigures | yt_tags.py:80-84 | a single tag adds one occurrence, with the video's views, exactly when it normalises to the tag |
| TagRankingProperties.OccurrenceFigures | yt_tags.py:73-84 | over the batch, each non-empty tag's frequency and total views equal the reference counts from the videos; "" is never counted |
| TagRankingProperties.TagCountPositive | yt_tags.py:79-83 | a tag is counted iff some input tag normalises to it |
| TagRankingProperties.CountInTagsPositive | yt_tags.py:79-83 | within one video, a tag is counted iff one of its tags normalises to it |
| TagRankingProperties.FirstSeenInOrder | yt_tags.py:83-90 | the counter's keys are listed in the order of their first occurrences |
| TagRankingProperties.FirstIndexFound | yt_tags.py:83 | a tag has a first occurrence iff it occurs |
| TagRankingProperties.RankingFigures | yt_tags.py:89-106 | every entry is a tag that occurs, with exactly its frequency and total views |
| TagRankingProperties.RankingCovers | yt_tags.py:89-106 | every tag that occurs has an entry |
| TagRankingProperties.RankingDistinct | yt_tags.py:89-106 | no tag has two entries |
| TagRankingProperties.RankingOrder | yt_tags.py:95 | entries are non-increasing by (total views, frequency), and ties keep first-appearance order |
| TagRankingProperties.RankingRanks | yt_tags.py:97-106 | ranks are 1, 2, ..., N in output order, N being the number of distinct non-empty tags |
| TagRankingProperties.RankingIsUnique | yt_tags.py:89-106 | a batch has exactly one ranking |
| TagRankingProperties.EmptyRanking | yt_tags.py:86-87 | without any non-empty tag the result is the empty list, not an error |
| TagRankingProperties.UntaggedVideo | yt_tags.py:76-77 | a video without tags adds nothing, though a malformed view count still raises |
| TagRankingProperties.RankingOfVideos | yt_tags.py:70-106 | every entry's tag is a non-empty normal form of an input tag, its frequency is the number of input tags normalising to it and its total the views over those tags; every such tag has an entry |
| TagRankingProperties.RenormalisedVideo | yt_tags.py:76-84 | a video with normalised tags keeps its view count and its tag occurrences |
| TagRankingProperties.RenormalisedOccurrences | yt_tags.py:80 | feeding normalised tags back in yields the same occurrences |
| TagRankingProperties.RankingIdempotent | yt_tags.py:80 | feeding normalised tags back in yields the same ranking |
| ViralVideos.WatchUrlRoundTrip | yt_tags.py:127 | the id can be read back from the watch URL built for it |
| ViralVideos.UrlOf | yt_tags.py:126-127 | a URL is present iff the id is present and non-empty, and it leads back to that id |
| ViralVideos.Project | yt_tags.py:121-134 | an entry fails exactly when its view count is present and not a digit string, with that text; otherwise title and channel or "No title"/"Unknown channel", the parsed views, a URL iff the id is non-empty and pointing back to it |
| ViralVideos.Projections | yt_tags.py:119-136 | one entry per video, or the error of a malformed view count |
| ViralVideos.ProjectionsAt | yt_tags.py:119-136 | the entries line up one for one with the videos when all counts parse; otherwise the error is the first failing video's |
| ViralVideos.ProjectionsErrorStays | yt_tags.py:120-125 | once a video's `int()` has raised, later videos do not change the outcome |
| ViralVideos.ProjectVideos | yt_tags.py:119-136 | the loop builds the entries in batch order, or stops at the first malformed view count |
| ViralVideos.SelectViral | yt_tags.py:119-140 | the view-count error, or the entries stably sorted by views, largest first |
| ViralVideos.ViralOrder | yt_tags.py:139 | views are non-increasing in the result, and entries with equal views keep batch order |
| ViralVideos.ViralContents | yt_tags.py:139 | the result is a permutation of the entries, one per video |
| YouTubeClient.SearchVideoIds | yt_tags.py:19-35 | without a key, an error and no request; otherwise exactly one search request and its reply |
| YouTubeClient.FetchVideoDetails | yt_tags.py:42-57 | without a key, an error and no request; no ids, `[]` and no request; otherwise one details request for the ids |
| YouTubeClient.FetchForQuery | yt_tags.py:67-68 | search then fetch: the fetched videos and the requests sent, or the first error |
| YouTubeClient.RankTagsFromQuery | yt_tags.py:60-107 | missing key: error before any request; otherwise the requests sent and the ranking of the fetched videos or the first error |
| YouTubeClient.GetViralVideos | yt_tags.py:110-140 | as above with order "viewCount", yielding the stably view-sorted entries |
| YouTubeClient.RequestsShape | yt_tags.py:42-57 | a cycle sends the search first, then a details request only for a non-empty id list |
| YouTubeClient.EmptySearch | yt_tags.py:45-46 | a search finding nothing sends no details request and gives an empty ranking and selection |
| Scenarios.RankingExample | yt_tags.py:70-107 | tags "Fun"/"cats" (100 views) and " fun" (10 views) rank as fun (2, 110) then cats (1, 100) |
| Scenarios.FunCountsTwice | yt_tags.py:83-84 | "Fun" and " fun" are one tag, counted twice |
| Scenarios.ViralExample | yt_tags.py:119-140 | a 100-view and a 50-view video come out loudest first, with defaults and the URL filled in |

## Left out

- HTTP (`requests.get`, `raise_for_status`) and JSON decoding. The search and details replies are parameters: the id list or the records, or an error.
- `HttpError` stands for any failure of a request. Its status is not derived from a response.
- The request parameters beyond the query, `maxResults`, order and ids are not modelled. These include `part`, `type`, the key and the comma-joining of the ids.
- The `item["id"]["videoId"]` extraction of search results (`yt_tags.py:34`) is not modelled. The search reply is already the id list.
- `load_dotenv()` and `os.getenv`. The API key is an `Option<string>` parameter.
- Python's default arguments (`max_results=25`, `order="relevance"`, `max_results=5`). The callers pass them explicitly.
- JSON `null` is not told apart from a missing key. In the source, a `null` title would be kept as `None` rather than defaulted, and a `null` view count would raise.
- Text.Normalise: Unicode `strip()`/`lower()` are not modelled. Only ASCII whitespace (as `str.isspace` sees it) and A-Z are handled.
- Text.ParseNat: the rest of `int()`'s grammar is not modelled. Signs, underscores and surrounding whitespace make it return None, where Python would accept them.
- The in-place `list.sort` is modelled as a function from the old list to a new sequence, an insertion sort proved to coincide with any stable sort. Aliasing of the list is not captured.
- `app.py` (the web form and rendering) and `test.py` (an ad hoc script) are not part of this model.
