/** One run of `main` after configuration: parse each fetched feed, keep the
    items of the feeds that succeeded (a failed feed is only a warning),
    sort them newest first and build the output document. */
module Pipeline {
  import opened Results
  import Dates
  import Urls
  import opened Feeds
  import Sorting
  import Builder
  import Config

  /** The library calls the program makes and this model leaves abstract. */
  datatype Library = Library(parseLayout: Dates.LayoutParser, parseUrl: Urls.UrlParser, format: Builder.Formatter)

  /** Why one feed contributed no items. */
  datatype FeedFailure = FetchFailed | ParseFailed(error: FeedError)

  /** Why a whole run stops: `INPUT_FEEDS` names no URL. */
  datatype RunError = NoFeedUrls

  /** `fetchFeed` after the download: `None` is a failed download. A
      downloaded document succeeds exactly when `parseFeed` does, with its
      items; a parse error is reported as such. */
  function FeedResult(doc: Option<XmlDoc>, url: string, limit: int, lib: Library): (r: Result<seq<Item>, FeedFailure>)
    ensures doc.None? ==> r == Failure(FetchFailed)
    ensures doc.Some? ==> (r.Success? <==> Parse(doc.value, url, limit, lib.parseLayout, lib.parseUrl).Success?)
    ensures doc.Some? && r.Success? ==> r.value == Parse(doc.value, url, limit, lib.parseLayout, lib.parseUrl).value
    ensures doc.Some? && r.Failure? ==> r.error == ParseFailed(Parse(doc.value, url, limit, lib.parseLayout, lib.parseUrl).error)
    ensures r.Success? ==> doc.Some? && doc.value.Element? && (doc.value.root == "feed" || doc.value.root == "rss")
  {
    match doc
    case None => Failure(FetchFailed)
    case Some(d) =>
      match Parse(d, url, limit, lib.parseLayout, lib.parseUrl)
      case Success(items) => Success(items)
      case Failure(e) => Failure(ParseFailed(e))
  }

  /** The items of the successful feeds, feed after feed, each in its own order. */
  function Merge(results: seq<Result<seq<Item>, FeedFailure>>): (items: seq<Item>)
    ensures forall x :: x in items ==> exists k :: 0 <= k < |results| && results[k].Success? && x in results[k].value
    ensures forall k, x :: 0 <= k < |results| && results[k].Success? && x in results[k].value ==> x in items
  {
    if |results| == 0 then []
    else
      var rest := Merge(results[1..]);
      assert forall k :: 1 <= k < |results| ==> results[k] == results[1..][k - 1];
      assert forall x :: x in rest ==> exists k :: 1 <= k < |results| && results[k].Success? && x in results[k].value by {
        forall x | x in rest ensures exists k :: 1 <= k < |results| && results[k].Success? && x in results[k].value {
          var k :| 0 <= k < |results[1..]| && results[1..][k].Success? && x in results[1..][k].value;
          assert results[k + 1] == results[1..][k];
        }
      }
      (if results[0].Success? then results[0].value else []) + rest
  }

  lemma {:induction false} MergeAppend(a: seq<Result<seq<Item>, FeedFailure>>, b: seq<Result<seq<Item>, FeedFailure>>)
    ensures Merge(a + b) == Merge(a) + Merge(b)
    decreases |a|
  {
    if |a| == 0 {
      assert a + b == b;
    } else {
      assert (a + b)[0] == a[0];
      assert (a + b)[1..] == a[1..] + b;
      MergeAppend(a[1..], b);
    }
  }

  /** One feed alone: its items exactly, in its own order, or nothing when it failed. */
  lemma MergeOne(r: Result<seq<Item>, FeedFailure>)
    ensures Merge([r]) == if r.Success? then r.value else []
  {
    assert [r][1..] == [];
  }

  /** A failing feed changes nothing about the other feeds' items. */
  lemma MergeSkipsFailure(a: seq<Result<seq<Item>, FeedFailure>>, e: FeedFailure, b: seq<Result<seq<Item>, FeedFailure>>)
    ensures Merge(a + [Failure(e)] + b) == Merge(a + b)
  {
    var failed: seq<Result<seq<Item>, FeedFailure>> := [Failure(e)];
    MergeAppend(a + failed, b);
    MergeAppend(a, failed);
    MergeAppend(a, b);
    assert Merge(failed) == [] by {
      assert failed[1..] == [];
    }
  }

  function FeedResults(settings: Config.Settings, fetched: seq<Option<XmlDoc>>, lib: Library): (rs: seq<Result<seq<Item>, FeedFailure>>)
    requires |fetched| == |settings.feedUrls|
    ensures |rs| == |fetched|
    ensures forall k :: 0 <= k < |rs| ==> rs[k] == FeedResult(fetched[k], settings.feedUrls[k], settings.limit, lib)
  {
    seq(|fetched|, k requires 0 <= k < |fetched| => FeedResult(fetched[k], settings.feedUrls[k], settings.limit, lib))
  }

  /** A run: an error when no URL is configured, and otherwise the document
      built from a newest-first rearrangement of every successful feed's
      items — whichever rearrangement the unstable sort happens to choose. */
  function Run(settings: Config.Settings, fetched: seq<Option<XmlDoc>>, lib: Library): (r: Result<Builder.RssFeed, RunError>)
    requires |fetched| == |settings.feedUrls|
    ensures r.Failure? <==> |settings.feedUrls| == 0
    ensures r.Success? ==> |r.value.channel.items| == |Merge(FeedResults(settings, fetched, lib))|
    ensures r.Success? ==>
              exists sorted :: && multiset(sorted) == multiset(Merge(FeedResults(settings, fetched, lib)))
                               && Sorting.NewestFirst(sorted)
                               && r.value == Builder.Rss(settings.title, settings.description, sorted, lib.format)
  {
    if |settings.feedUrls| == 0 then Failure(NoFeedUrls)
    else
      var all := Merge(FeedResults(settings, fetched, lib));
      var sorted := Sorting.SortItems(all);
      Success(Builder.Rss(settings.title, settings.description, sorted, lib.format))
  }
}
