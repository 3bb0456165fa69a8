/** Feed normalisation (`parseFeed` / `Parse`, `parseAtom`, `parseRSS`):
    dispatch on the document's root element, then map each RSS item or Atom
    entry, in document order and up to the per-feed limit, to one normalised
    `Item` whose title carries the feed's host label. */
module Feeds {
  import opened Results
  import Text
  import Search
  import Dates
  import Urls

  // Decoded input records (the fields `encoding/xml` fills in).

  datatype RssInItem = RssInItem(title: string, link: string, pubDate: string, description: string, content: string)

  datatype AtomLink = AtomLink(href: string, rel: string)

  datatype AtomEntry = AtomEntry(title: string, links: seq<AtomLink>, updated: string, summary: string, content: string)

  /** The normalised entry shared by both formats. */
  datatype Item = Item(title: string, link: string, pubDate: Dates.Instant, description: string)

  /** A feed document as the XML decoder sees it: either not well-formed, or
      a root element with its local name, together with what decoding the
      body into the RSS records and into the Atom records yields (`None`
      when the body does not decode into that shape). */
  datatype XmlDoc =
    | NotXml
    | Element(root: string, asRss: Option<seq<RssInItem>>, asAtom: Option<seq<AtomEntry>>)

  datatype DecodeFailure =
    | RootMismatch(expected: string, found: string)  // "expected element type <feed> but have <Feed>"
    | BodyMismatch

  datatype FeedError =
    | MalformedDocument                  // the root-name probe failed
    | UnknownFormat(root: string)        // "unknown feed root element: <root>"
    | DecodeError(failure: DecodeFailure)

  // Titles

  /** `fmt.Sprintf("[%s] %s", host, title)`. */
  function TagTitle(host: string, title: string): string
  {
    "[" + host + "] " + title
  }

  /** Reads a tagged title back into host label and original title: the
      label runs up to the first `]`, which must be followed by a space. */
  function UntagTitle(t: string): Option<(string, string)>
  {
    if |t| >= 1 && t[0] == '[' && ']' in t[1..] then
      var i := 1 + Text.IndexOf(t[1..], ']');
      if i + 1 < |t| && t[i + 1] == ' ' then Some((t[1..i], t[i + 2..])) else None
    else None
  }

  /** The host label is recoverable from every tagged title whose label
      contains no `]`. */
  lemma UntagTagTitle(host: string, title: string)
    ensures ']' !in host ==> UntagTitle(TagTitle(host, title)) == Some((host, title))
  {
    if ']' in host { return; }
    var t := TagTitle(host, title);
    var n := |host|;
    assert t[1..] == host + "] " + title;
    assert (host + "] " + title)[n] == ']';
    assert (host + "] " + title)[..n] == host;
    var k := Text.IndexOf(t[1..], ']');
    assert k == n by {
      assert forall m :: 0 <= m < n ==> t[1..][m] == host[m];
      assert forall m :: 0 <= m < k ==> t[1..][m] == t[1..][..k][m];
    }
    assert t[1..n + 1] == host;
    assert t[n + 3..] == title;
  }

  // Descriptions

  /** The primary text, or the fallback when the primary is empty. */
  function Describe(primary: string, fallback: string): (d: string)
    ensures primary != "" ==> d == primary
    ensures primary == "" ==> d == fallback
  {
    if primary == "" then fallback else primary
  }

  // Atom links

  /** A link qualifies when its relation is "alternate" or absent, the
      default relation of section 4.2.7.2 of RFC 4287. */
  predicate IsAlternate(l: AtomLink)
  {
    l.rel == "alternate" || l.rel == ""
  }

  function AlternateHref(l: AtomLink): Option<string>
  {
    if IsAlternate(l) then Some(l.href) else None
  }

  /** `links[i]` is the first qualifying link. */
  ghost predicate FirstAlternateAt(links: seq<AtomLink>, i: int)
  {
    0 <= i < |links| && IsAlternate(links[i]) && forall j :: 0 <= j < i ==> !IsAlternate(links[j])
  }

  /** The `href` of the first qualifying link, or "" when none qualifies. */
  function SelectLink(links: seq<AtomLink>): (href: string)
    ensures (forall i :: 0 <= i < |links| ==> !IsAlternate(links[i])) ==> href == ""
    ensures forall i :: FirstAlternateAt(links, i) ==> href == links[i].href
  {
    var hit := Search.FirstSome(links, AlternateHref);
    assert forall i :: FirstAlternateAt(links, i) ==> hit == Some(links[i].href) by {
      forall i | FirstAlternateAt(links, i) ensures hit == Some(links[i].href) {
        Search.FirstSomeAt(links, AlternateHref, i);
      }
    }
    hit.GetOr("")
  }

  /** Once a qualifying link has been seen, later links are never looked at;
      before that, non-qualifying links are skipped. */
  lemma SelectLinkAppend(links: seq<AtomLink>, more: seq<AtomLink>)
    ensures (exists i :: 0 <= i < |links| && IsAlternate(links[i])) ==> SelectLink(links + more) == SelectLink(links)
    ensures (forall i :: 0 <= i < |links| ==> !IsAlternate(links[i])) ==> SelectLink(links + more) == SelectLink(more)
  {
    Search.FirstSomeAppend(links, more, AlternateHref);
    if exists i :: 0 <= i < |links| && IsAlternate(links[i]) {
      var i :| 0 <= i < |links| && IsAlternate(links[i]);
      assert AlternateHref(links[i]).Some?;
    }
  }

  // Per-entry mapping

  function FromRss(host: string, it: RssInItem, parse: Dates.LayoutParser): (item: Item)
    ensures item.title == "[" + host + "] " + it.title
    ensures ']' !in host ==> UntagTitle(item.title) == Some((host, it.title))
    ensures item.link == it.link
    ensures item.pubDate == Dates.ParseDate(parse, it.pubDate)
    ensures it.description != "" ==> item.description == it.description
    ensures it.description == "" ==> item.description == it.content
  {
    UntagTagTitle(host, it.title);
    Item(TagTitle(host, it.title), it.link, Dates.ParseDate(parse, it.pubDate), Describe(it.description, it.content))
  }

  function FromAtom(host: string, e: AtomEntry, parse: Dates.LayoutParser): (item: Item)
    ensures item.title == "[" + host + "] " + e.title
    ensures ']' !in host ==> UntagTitle(item.title) == Some((host, e.title))
    ensures item.link == SelectLink(e.links)
    ensures item.pubDate == Dates.ParseDate(parse, e.updated)
    ensures e.summary != "" ==> item.description == e.summary
    ensures e.summary == "" ==> item.description == e.content
  {
    UntagTagTitle(host, e.title);
    Item(TagTitle(host, e.title), SelectLink(e.links), Dates.ParseDate(parse, e.updated), Describe(e.summary, e.content))
  }

  // Truncation

  /** How many of `n` entries survive the per-feed limit; a non-positive
      limit keeps them all. */
  function Kept(n: nat, limit: int): nat
  {
    if limit > 0 && limit < n then limit else n
  }

  /** The loop over entries from index `i` on: stop at the end or once
      `limit > 0 && i >= limit`, otherwise map the entry and continue. */
  function Collect<A, B>(xs: seq<A>, i: nat, limit: int, f: A -> B): (r: seq<B>)
    requires i <= |xs|
    ensures |r| == if i <= Kept(|xs|, limit) then Kept(|xs|, limit) - i else 0
    ensures forall k :: 0 <= k < |r| ==> r[k] == f(xs[i + k])
    decreases |xs| - i
  {
    if i == |xs| || (limit > 0 && i >= limit) then []
    else [f(xs[i])] + Collect(xs, i + 1, limit, f)
  }

  /** The items of an RSS channel: the first `limit` entries (all of them
      when `limit <= 0`), each mapped in document order. */
  function NormalizeRss(host: string, entries: seq<RssInItem>, limit: int, parse: Dates.LayoutParser): (items: seq<Item>)
    ensures limit > 0 ==> |items| == if limit < |entries| then limit else |entries|
    ensures limit <= 0 ==> |items| == |entries|
    ensures forall k :: 0 <= k < |items| ==> items[k] == FromRss(host, entries[k], parse)
  {
    Collect(entries, 0, limit, it => FromRss(host, it, parse))
  }

  /** The items of an Atom feed, truncated and ordered as for RSS. */
  function NormalizeAtom(host: string, entries: seq<AtomEntry>, limit: int, parse: Dates.LayoutParser): (items: seq<Item>)
    ensures limit > 0 ==> |items| == if limit < |entries| then limit else |entries|
    ensures limit <= 0 ==> |items| == |entries|
    ensures forall k :: 0 <= k < |items| ==> items[k] == FromAtom(host, entries[k], parse)
  {
    Collect(entries, 0, limit, e => FromAtom(host, e, parse))
  }

  /** A larger limit only appends: the items kept under `limit` are a prefix
      of those kept under any larger limit, and of those kept with no limit. */
  lemma NormalizeRssPrefix(host: string, entries: seq<RssInItem>, limit: int, larger: int, parse: Dates.LayoutParser)
    requires 0 < limit <= larger || larger <= 0
    ensures NormalizeRss(host, entries, limit, parse) <= NormalizeRss(host, entries, larger, parse)
  {
  }

  // Decoding and dispatch

  /** Unmarshalling into a struct tagged with root name `expected` checks the
      root's local name exactly (case-sensitively) before decoding the body. */
  function Decode<T>(expected: string, root: string, body: Option<T>): (r: Result<T, FeedError>)
    ensures r.Success? <==> root == expected && body.Some?
    ensures r.Success? ==> r.value == body.value
    ensures root != expected ==> r == Failure(DecodeError(RootMismatch(expected, root)))
  {
    if root != expected then Failure(DecodeError(RootMismatch(expected, root)))
    else if body.None? then Failure(DecodeError(BodyMismatch))
    else Success(body.value)
  }

  /** `parseRSS`. */
  function ParseRss(root: string, body: Option<seq<RssInItem>>, host: string, limit: int,
                    parse: Dates.LayoutParser): (r: Result<seq<Item>, FeedError>)
    ensures r.Success? <==> root == "rss" && body.Some?
    ensures r.Success? ==> r.value == NormalizeRss(host, body.value, limit, parse)
  {
    match Decode("rss", root, body)
    case Failure(e) => Failure(e)
    case Success(entries) => Success(NormalizeRss(host, entries, limit, parse))
  }

  /** `parseAtom`. */
  function ParseAtom(root: string, body: Option<seq<AtomEntry>>, host: string, limit: int,
                     parse: Dates.LayoutParser): (r: Result<seq<Item>, FeedError>)
    ensures r.Success? <==> root == "feed" && body.Some?
    ensures r.Success? ==> r.value == NormalizeAtom(host, body.value, limit, parse)
  {
    match Decode("feed", root, body)
    case Failure(e) => Failure(e)
    case Success(entries) => Success(NormalizeAtom(host, entries, limit, parse))
  }

  /** `parseFeed` / `Parse`: probe the root element, derive the host label
      from the feed URL, and dispatch on the lower-cased root name. */
  function Parse(doc: XmlDoc, feedUrl: string, limit: int,
                 parseDate: Dates.LayoutParser, parseUrl: Urls.UrlParser): (r: Result<seq<Item>, FeedError>)
    ensures doc.NotXml? ==> r == Failure(MalformedDocument)
    ensures doc.Element? && Text.ToLower(doc.root) != "feed" && Text.ToLower(doc.root) != "rss" ==>
              r == Failure(UnknownFormat(doc.root))
    ensures doc.Element? && Text.ToLower(doc.root) == "feed" && doc.root != "feed" ==>
              r == Failure(DecodeError(RootMismatch("feed", doc.root)))
    ensures doc.Element? && Text.ToLower(doc.root) == "rss" && doc.root != "rss" ==>
              r == Failure(DecodeError(RootMismatch("rss", doc.root)))
    ensures r.Success? <==> doc.Element? && ((doc.root == "feed" && doc.asAtom.Some?) || (doc.root == "rss" && doc.asRss.Some?))
    ensures r.Success? && doc.root == "feed" ==>
              r.value == NormalizeAtom(Urls.Hostname(parseUrl, feedUrl), doc.asAtom.value, limit, parseDate)
    ensures r.Success? && doc.root == "rss" ==>
              r.value == NormalizeRss(Urls.Hostname(parseUrl, feedUrl), doc.asRss.value, limit, parseDate)
  {
    match doc
    case NotXml => Failure(MalformedDocument)
    case Element(root, asRss, asAtom) =>
      var host := Urls.Hostname(parseUrl, feedUrl);
      var kind := Text.ToLower(root);
      if kind == "feed" then ParseAtom(root, asAtom, host, limit, parseDate)
      else if kind == "rss" then ParseRss(root, asRss, host, limit, parseDate)
      else Failure(UnknownFormat(root))
  }
}
