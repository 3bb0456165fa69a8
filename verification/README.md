# combine-rss-feeds, modelled in Dafny

combine-rss-feeds is a GitHub Action. It reads a list of RSS 2.0 and Atom feed URLs, downloads
each feed and normalises every entry into one item shape. It merges the items of all feeds,
sorts them newest first, and writes a single RSS 2.0 document. This project models that core
as pure functions and proves what each step promises:

- `results.dfy` (`Results`): the `Option` and `Result` types.
- `seqs.dfy` (`Seqs`): general facts about sequence concatenation and the multiset of a sequence,
  shared by the other modules.
- `search.dfy` (`Search`): first-match search over an ordered table. The date layout loop and
  the Atom link loop both have this shape.
- `text.dfy` (`Text`): the Go library string functions the core relies on:
  - `strings.TrimSpace`, with Go's `unicode.IsSpace` set;
  - `strings.ToLower`;
  - `strings.Split` on a one-character separator;
  - `strconv.Atoi`.
- `dates.dfy` (`Dates`): `parseDate` and its ordered table of ten layouts.
- `urls.dfy` (`Urls`): `hostname`.
- `feeds.dfy` (`Feeds`):
  - `parseFeed`, the root-name dispatch;
  - `parseAtom` and `parseRSS`, with the title tag, the link choice, the description fallback and
    the per-feed limit.
- `sorting.dfy` (`Sorting`): `sortItems`.
- `builder.dfy` (`Builder`): `buildRSS`.
- `config.dfy` (`Config`): the `INPUT_*` settings that `main` reads.
- `pipeline.dfy` (`Pipeline`): one run of `main`:
  1. parse every fetched feed;
  2. skip failed feeds;
  3. merge, sort and build.
- `examples.dfy` (`Examples`): the scenarios of the repository's tests, restated over the model.

The repository holds the same core twice, with identical logic:

- `main.go`;
- `internal/feed/parser.go` (`Parse`, `parseAtom`, `parseRSS`, `parseDate`, `hostname`);
- `internal/builder/build.go` (`RSS`, `SortItems`).

The table below cites `main.go`.

Library calls whose inner workings are outside the model are parameters:

- `time.Parse` for one layout is a `Dates.LayoutParser`.
- `url.Parse` is a `Urls.UrlParser`.
- `Time.UTC().Format(time.RFC1123Z)` is a `Builder.Formatter`.

An instant is an integer count of nanoseconds from Go's zero time. `Dates.Zero` (0) is
`time.Time{}`, which is what `IsZero` tests for.

Four points of the code's behaviour are easy to miss; the model follows the code in each:

- **Case of the root name.** The root name is lower-cased only to choose a parser (main.go:165).
  The structs it then decodes into are tagged `feed` (main.go:63) and `rss` (main.go:43), and
  `encoding/xml` compares those tags case-sensitively. So a root named `Feed` reaches `parseAtom`
  and fails there with a decode error. `Feeds.Parse` and `Examples.RootNames` state this.
- **Sort stability.** `sortItems` calls `sort.Slice` (main.go:260), which is not stable: items with
  equal dates may come out in any order. The model promises a newest-first rearrangement, and
  `Sorting.SortedDatesDetermined` proves that every such rearrangement has the same sequence of
  dates. When no two dates are equal, `Sorting.SortedDistinctDetermined` proves the order itself
  is fixed.
- **Items without a date.** The comparison is `After` on the instants (main.go:261). The zero time
  an undated item carries is only the smallest of the instants from year 1 onward. An item dated
  before year 1 (for example "0000-06-01", which the `2006-01-02` layout accepts) sorts after the
  undated items. `Sorting.SortItems` promises only that undated items follow every item dated
  after the zero time.
- **Only a per-feed limit.** `main` appends every item each feed returns (main.go:304-310); the
  limit is applied inside `parseAtom` and `parseRSS`, per feed. `Pipeline.Run` keeps every merged
  item.

## Model

| member | source | states |
|---|---|---|
| Search.FirstSome | main.go:110-115 | The result is absent exactly when no table entry hits. Otherwise it is the hit of an entry with no hit before it. |
| Search.FirstSomeAt | main.go:110-115 | Whichever entry hits first decides the result. |
| Search.FirstSomeAppend | main.go:110-115 | Entries after a table are consulted only when the table has no hit. |
| Search.FirstSomeDropRepeat | main.go:95-106 | An entry that repeats an earlier entry can be removed without changing any search result. |
| Text.TrimSpace | main.go:109 | The result has no white space at either end. It is a slice of the input with only white space cut from each end. |
| Text.TrimSpaceUnique | main.go:109 | For any split of the input into white space, a trimmed middle and white space, `TrimSpace` returns that middle. |
| Text.TrimSpacePadding | main.go:284 | Extra white space around the text never changes the trimmed result. |
| Text.TrimSpaceIdempotent | main.go:291 | Trimming twice is the same as trimming once. |
| Text.TrimmedFixed | main.go:291 | Text with no white space at either end is returned unchanged. |
| Text.TrimLeftCuts | main.go:109 | The leading cut removes only white space and stops at the first other character. |
| Text.TrimRightCuts | main.go:109 | The trailing cut removes only white space and stops at the last other character. |
| Text.ToLower | main.go:165 | Same length; each character is lower-cased independently. |
| Text.IndexOf | main.go:290 | The result holds the character, and no earlier position does. |
| Text.Split | main.go:290 | At least one piece; no piece contains the separator; joining the pieces with the separator gives the input back. |
| Text.SplitJoin | main.go:290 | Splitting undoes joining pieces that contain no separator. |
| Text.SplitAt | main.go:290 | A separator in the input splits the list of pieces into the pieces before it followed by the pieces after it. |
| Text.Atoi | main.go:284 | A value is produced exactly when the text is an optional sign followed by at least one decimal digit and nothing else, and the signed value fits `int64`; the value is that signed decimal value. |
| Text.AtoiShowNat | main.go:284 | Every in-range decimal numeral reads back as its value: unsigned, with `+`, and negated with `-`. |
| Text.DigitsValueShowNat | main.go:284 | Reading the decimal digits of `n` gives `n`. |
| Text.ShowNatTrimmed | main.go:284 | A decimal numeral has no surrounding white space. |
| Dates.ParseDate | main.go:108-116 | The date is the one from the first layout that accepts the trimmed text. It is the zero time when no layout accepts it. |
| Dates.ParseDateNonZero | main.go:108-116 | A date other than the zero time always comes from the first accepting layout. |
| Dates.ParseDateIgnoresPadding | main.go:109 | White space around the date text never changes the result. |
| Dates.DropRepeatedLayouts | main.go:95-106 | Entries 4 and 6 of the layout table repeat entries 0 and 1. Removing them leaves the eight distinct layouts. |
| Dates.RepeatedLayoutsRedundant | main.go:95-115 | For every layout parser and every input, the eight distinct layouts give the same date as the ten-entry table. |
| Urls.Hostname | main.go:118-124 | The result is the parsed host when URL parsing succeeds with a non-empty host, and the raw text otherwise. It is empty only for empty input. |
| Feeds.UntagTagTitle | main.go:197 | A `[host] title` label can be read back into host and title whenever the host contains no `]`. |
| Feeds.Describe | main.go:193-196 | The summary or description when it is non-empty; the content otherwise. |
| Feeds.SelectLink | main.go:186-192 | The href of the first link whose relation is `alternate` or empty; "" when no link qualifies. |
| Feeds.SelectLinkAppend | main.go:187-191 | Links after the first qualifying one are never consulted. Non-qualifying links are skipped. |
| Feeds.FromRss | main.go:219-229 | The title is `[host] ` followed by the item title (and host and title can be recovered from it when the host has no `]`); the link and the parsed `pubDate` are carried over; the description falls back to the content when empty. |
| Feeds.FromAtom | main.go:186-203 | The title is `[host] ` followed by the entry title (recoverable when the host has no `]`); the link is the selected one; the date is the parsed `updated`; the summary falls back to the content when empty. |
| Feeds.Collect | main.go:182-185 | The loop with its `limit > 0 && i >= limit` break keeps `min(limit, n)` entries for a positive limit and all `n` otherwise. Each kept entry is mapped from the entry at the same position. |
| Feeds.NormalizeRss | main.go:214-231 | A positive limit keeps the first `limit` entries, or all if fewer. A non-positive limit keeps every entry. Item `k` is entry `k` mapped. |
| Feeds.NormalizeAtom | main.go:181-205 | The same truncation and order for Atom entries. |
| Feeds.NormalizeRssPrefix | main.go:215-218 | The items kept under a limit are a prefix of those kept under any larger limit, and of those kept with no limit. |
| Feeds.Decode | main.go:177-179 | Decoding succeeds exactly when the root name equals the struct tag, with exact case, and the body decodes. A wrong root reports the expected and found names. |
| Feeds.ParseRss | main.go:208-232 | Succeeds exactly for an `rss` root with a decodable body, returning the normalised RSS items. |
| Feeds.ParseAtom | main.go:175-206 | Succeeds exactly for a `feed` root with a decodable body, returning the normalised Atom entries. |
| Feeds.Parse | main.go:153-173 | Defines the probe failure, the unknown-root error naming the root, and the decode error for roots that differ from `feed`/`rss` only in case. Success happens exactly for `feed`/`rss` roots whose body decodes. The items are normalised with the URL's host label. |
| Sorting.Insert | main.go:259-263 | Inserting into a newest-first sequence keeps it newest first, and adds exactly the new item. |
| Sorting.SortItems | main.go:259-263 | The result is a permutation of the input in which dates never increase. Undated items come after every item dated after the zero time. |
| Sorting.DatesPermutation | main.go:259-263 | Rearranging items rearranges their dates. |
| Sorting.DescendingUnique | main.go:259-263 | Two non-increasing sequences with the same values are equal. |
| Sorting.SortedDatesDetermined | main.go:259-263 | Every newest-first rearrangement of the input has the same date sequence as `SortItems`, whatever order the unstable sort picks for equal dates. |
| Sorting.SortedDistinctDetermined | main.go:259-263 | When no two items share a date, the only newest-first rearrangement is the one `SortItems` returns. |
| Builder.Rss | main.go:234-257 | Version "2.0" and empty channel link. Title and description are copied. One record per item, in order, with title, link and description copied. Date is "" for the zero time and the formatted instant otherwise. |
| Builder.PubDateEmptyIffZero | main.go:237-240 | For a formatter that always renders text, an output date is empty exactly when the item has the zero time. |
| Builder.RssRecoversItems | main.go:241-246 | Each input item can be rebuilt from its output record and its date, so nothing but the date is transformed. |
| Builder.RssAppend | main.go:235-247 | The records for `a + b` are the records for `a` followed by those for `b`. |
| Config.ParseLimit | main.go:282-287 | The limit is always positive. It is the trimmed text's integer value when that is a valid positive `int64`, and 10 otherwise. |
| Config.ParseLimitReadsDecimal | main.go:282-287 | Every positive `int64` written in decimal, with any surrounding white space, is read back as the limit. |
| Config.KeepUrls | main.go:290-295 | Never more URLs than lines; every URL is non-empty and trimmed. |
| Config.KeepUrlsAppend | main.go:290-295 | The URLs of concatenated line lists are the concatenated URLs. |
| Config.FeedUrls | main.go:289-295 | Every URL is non-empty and trimmed. |
| Config.FeedUrlsOneLine | main.go:290-295 | A single line gives its trimmed text, or nothing when that is empty. |
| Config.FeedUrlsSplit | main.go:290-295 | A newline separates the URLs of the text before it from those after it. |
| Config.FeedUrlsSkipsBlankLines | main.go:290-295 | Blank lines, padding and a final newline are dropped; the two URLs come back in order. |
| Config.Configure | main.go:266-287 | An empty output file, title or description takes its default ("combined_feed.xml", "Combined RSS Feed", "Merged feed generated by combine-rss-feeds action"). A non-empty value is kept. The limit and URL list are parsed as above. |
| Pipeline.Merge | main.go:302-310 | Every merged item comes from a successful feed, and every item of a successful feed is merged. |
| Pipeline.MergeAppend | main.go:303-310 | Merging is feed after feed: the merge of `a + b` is the merge of `a` followed by that of `b`. |
| Pipeline.MergeSkipsFailure | main.go:304-308 | A failed feed is skipped and changes nothing about the others' items. |
| Pipeline.MergeOne | main.go:304-310 | A single feed contributes exactly its items, in its own order, or nothing when it failed; with `MergeAppend`, the merge is the successful feeds' item lists concatenated in feed order, duplicates kept. |
| Pipeline.FeedResult | main.go:126-151 | A failed download is `FetchFailed`. A downloaded document succeeds exactly when `parseFeed` succeeds, with its items; a parse error `e` is `ParseFailed(e)`. Success needs an `rss` or `feed` root. |
| Pipeline.FeedResults | main.go:302-304 | One result per configured URL, in order: result k is `fetchFeed` of URL k with the configured limit. |
| Pipeline.Run | main.go:297-315 | Fails exactly when no URL is configured. Otherwise it builds the document from a newest-first permutation of all merged items, with one record per item. |
| Examples.SortThreeByDate | main_test.go:50-68 | Old, Newest, Middle sort to Newest, Middle, Old. |
| Examples.SortThenKeepThree | internal/feed/builder_test.go:48-77 | Items dated January 5, 3, 6, 2 and 4 sort to B1, A1, C1, A2, B2, so the first three are B1, A1, C1. |
| Examples.AtoiTrailingLetter | main.go:284 | "1x" is not a number, so it cannot be read as 1. |
| Examples.TestParseDate | internal/parser/parse_test.go:7-29 | The RFC 1123 date and the two RFC 3339 dates of the test parse to non-zero instants; "" and "not-a-date" give the zero time. |
| Examples.SampleRssDated | internal/parser/parse_test.go:48-57 | The first sample RSS item carries its January 1, 2024 date. |
| Examples.SampleAtomDated | internal/parser/parse_test.go:73-81 | The first sample Atom entry carries its March 1, 2024 date. |
| Examples.HostnameOfTestUrls | internal/parser/parse_test.go:31-46 | zenn.dev and qiita.com URLs give their hosts; "not-a-url" gives itself. |
| Examples.ParseSampleRss | internal/parser/parse_test.go:90-114 | Three RSS items at limit 10 with tagged titles and links; two at limit 2. |
| Examples.ParseSampleAtom | internal/parser/parse_test.go:116-130 | Two Atom entries with tagged titles; the alternate link and the relation-less link are chosen. |
| Examples.SelectLinkSkipsSelf | main.go:186-192 | A `self` link is skipped and a relation-less link before the alternate one wins. |
| Examples.RootNames | main.go:165-172 | Root `foo` is an unknown format named `foo`. Root `Feed` fails decoding against `feed`. |
| Examples.BuildTwoItems | main_test.go:12-30 | Version 2.0, channel title copied, two records; the item dated January 1, 2024 gets its RFC 1123 date and the zero-time item an empty one. |
| Examples.LimitEmpty | main.go:282-283 | An unset limit is 10. |
| Examples.LimitZero | main.go:284-286 | A zero limit falls back to 10. |
| Examples.LimitNegative | main.go:284-286 | A negative limit falls back to 10. |
| Examples.LimitWord | main.go:284-286 | A limit that is not a number falls back to 10. |

## Left out

- HTTP fetching (`fetchFeed`, main.go:126-151, and the `fetcher` packages) is network I/O with a
  timeout. `Pipeline.Run` takes each feed's downloaded document, or `None` for a failed download.
- Writing the output file, creating its directory, `xml.MarshalIndent`, the XML header and the exit
  codes (main.go:317-339) are file and process I/O.
- `encoding/xml` decoding is modelled only by its outcome: `Feeds.XmlDoc` gives the root's local
  name and the decoded records, or `None` when the body does not decode. The probe failure is
  `MalformedDocument`.
- Text.ToLower: lower-cases ASCII letters only. Go's `strings.ToLower` also maps other letters.
  The two agree on whether a name lower-cases to `feed` or `rss`, which is the only use.
- Dates.ParseDate: layout matching inside `time.Parse` is a parameter, so "a valid RFC 1123 date
  parses to a non-zero instant" is not derivable. The model proves the ordering and the fallback.
- Builder.Rss: the RFC 1123 rendering is a parameter. `Builder.PubDateEmptyIffZero` assumes only
  that it is never empty.
- Urls.Hostname: URL syntax is a parameter. The examples use a stand-in that answers the way
  `url.Parse` does for the test URLs.
- Sorting.SortItems: does not fix the order of equal-dated items, because `sort.Slice` does not.
- Error message texts (`fmt.Errorf`, the warnings on standard error) are reduced to the error
  values `FeedError` and `FeedFailure`.
- Several places in the repository do not fit together, and none is modelled:
  - internal/feed/fetcher.go calls `Parse` with two arguments;
  - main_test.go imports a package that is not in the repository;
  - internal/parser/parse_test.go tests a `Feed` function that mirrors `Parse`.
