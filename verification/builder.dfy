/** The RSS 2.0 output document (`buildRSS` / `RSS`): one output record per
    normalised item, in order, with the date rendered as RFC 1123 text with
    a numeric zone, or left empty for the zero time. */
module Builder {
  import Dates
  import opened Feeds

  datatype RssItem = RssItem(title: string, link: string, pubDate: string, description: string)

  datatype RssChannel = RssChannel(title: string, link: string, description: string, items: seq<RssItem>)

  datatype RssFeed = RssFeed(version: string, channel: RssChannel)

  /** `t.UTC().Format(time.RFC1123Z)`; the rendering itself is a library
      call outside this model. */
  type Formatter = Dates.Instant -> string

  /** Every rendering has some text, as every RFC 1123 date does. */
  ghost predicate RendersText(format: Formatter)
  {
    forall t :: format(t) != ""
  }

  function PubDateText(t: Dates.Instant, format: Formatter): string
  {
    if t == Dates.Zero then "" else format(t)
  }

  function OutItem(it: Item, format: Formatter): RssItem
  {
    RssItem(it.title, it.link, PubDateText(it.pubDate, format), it.description)
  }

  /** The output document for a channel title, description and items. */
  function Rss(title: string, description: string, items: seq<Item>, format: Formatter): (f: RssFeed)
    ensures f.version == "2.0"
    ensures f.channel.title == title && f.channel.description == description && f.channel.link == ""
    ensures |f.channel.items| == |items|
    ensures forall i :: 0 <= i < |items| ==>
              && f.channel.items[i].title == items[i].title
              && f.channel.items[i].link == items[i].link
              && f.channel.items[i].description == items[i].description
    ensures forall i :: 0 <= i < |items| && items[i].pubDate == Dates.Zero ==> f.channel.items[i].pubDate == ""
    ensures forall i :: 0 <= i < |items| && items[i].pubDate != Dates.Zero ==>
              f.channel.items[i].pubDate == format(items[i].pubDate)
  {
    RssFeed("2.0", RssChannel(title, "", description, seq(|items|, i requires 0 <= i < |items| => OutItem(items[i], format))))
  }

  /** With a formatter that always renders some text, an output date is
      empty exactly when the item's date is the zero time. */
  lemma PubDateEmptyIffZero(title: string, description: string, items: seq<Item>, format: Formatter)
    requires RendersText(format)
    ensures forall i :: 0 <= i < |items| ==>
              (Rss(title, description, items, format).channel.items[i].pubDate == "" <==> items[i].pubDate == Dates.Zero)
  {
  }

  /** Nothing but the date is transformed: each input item is the output
      record's title, link and description with the input date put back. */
  lemma RssRecoversItems(title: string, description: string, items: seq<Item>, format: Formatter)
    ensures var out := Rss(title, description, items, format).channel.items;
            forall i :: 0 <= i < |items| ==>
              Item(out[i].title, out[i].link, items[i].pubDate, out[i].description) == items[i]
  {
  }

  /** The records for `a + b` are the records for `a` followed by those for `b`. */
  lemma RssAppend(title: string, description: string, a: seq<Item>, b: seq<Item>, format: Formatter)
    ensures Rss(title, description, a + b, format).channel.items ==
            Rss(title, description, a, format).channel.items + Rss(title, description, b, format).channel.items
  {
  }
}
