/** The source label of a feed (`hostname`): the host part of its URL, or
    the URL itself when that cannot be had. */
module Urls {
  import opened Results

  /** The part of a parsed URL that the program reads. */
  datatype Url = Url(host: string)

  /** `url.Parse`: a parsed URL, or `None` on error. URL syntax itself is a
      library call outside this model. */
  type UrlParser = string -> Option<Url>

  /** `hostname`: the parsed host when parsing succeeds with a non-empty
      host, and otherwise the raw text unchanged. */
  function Hostname(parseUrl: UrlParser, raw: string): (h: string)
    ensures parseUrl(raw).Some? && parseUrl(raw).value.host != "" ==> h == parseUrl(raw).value.host
    ensures parseUrl(raw).None? || parseUrl(raw).value.host == "" ==> h == raw
    ensures h == "" ==> raw == ""
  {
    match parseUrl(raw)
    case Some(u) => if u.host == "" then raw else u.host
    case None => raw
  }
}
