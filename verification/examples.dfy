/** The scenarios of the repository's own tests, restated over the model.
    Library calls are replaced by small stand-ins: `TestUrls` answers as
    `url.Parse` does for the test URLs, `TestDates` as `time.Parse` does for
    the test dates (as far as `parseDate` consults it), and `TestFormat` as
    `Format(time.RFC1123Z)` does for the one dated instant the tests build. */
module Examples {
  import opened Results
  import Dates
  import Urls
  import opened Feeds
  import Sorting
  import Builder
  import Config
  import Text
  import Seqs

  const Old: Item := Item("Old", "", 1, "")
  const Newest: Item := Item("Newest", "", 3, "")
  const Middle: Item := Item("Middle", "", 2, "")

  /** Old, Newest, Middle sort to Newest, Middle, Old. */
  lemma SortThreeByDate()
    ensures Sorting.SortItems([Old, Newest, Middle]) == [Newest, Middle, Old]
  {
    ThreeSorted();
    ThreePermuted();
    ThreeDistinct();
    Sorting.SortedDistinctDetermined([Old, Newest, Middle], [Newest, Middle, Old]);
  }

  lemma ThreeSorted()
    ensures Sorting.NewestFirst([Newest, Middle, Old])
  {
    assert Sorting.DatesOf([Newest, Middle, Old]) == [3, 2, 1];
  }

  lemma ThreePermuted()
    ensures multiset([Newest, Middle, Old]) == multiset([Old, Newest, Middle])
  {
    assert [Newest] + [Middle] + [Old] == [Newest, Middle, Old];
    assert [Old] + [Newest] + [Middle] == [Old, Newest, Middle];
    Seqs.Reorder3([Old], [Newest], [Middle]);
  }

  lemma ThreeDistinct()
    ensures Sorting.DistinctDates([Old, Newest, Middle])
  {
    assert Sorting.DatesOf([Old, Newest, Middle]) == [1, 3, 2];
  }

  const A1: Item := Item("A1", "", 5, "")
  const A2: Item := Item("A2", "", 3, "")
  const B1: Item := Item("B1", "", 6, "")
  const B2: Item := Item("B2", "", 2, "")
  const C1: Item := Item("C1", "", 4, "")

  /** Five items dated January 5, 3, 6, 2 and 4 sort to B1, A1, C1, A2, B2,
      so keeping three gives B1 (the 6th), A1 (the 5th) and C1 (the 4th). */
  lemma SortThenKeepThree()
    ensures Sorting.SortItems([A1, A2, B1, B2, C1]) == [B1, A1, C1, A2, B2]
  {
    FiveSorted();
    FivePermuted();
    FiveDistinct();
    Sorting.SortedDistinctDetermined([A1, A2, B1, B2, C1], [B1, A1, C1, A2, B2]);
  }

  lemma FiveSorted()
    ensures Sorting.NewestFirst([B1, A1, C1, A2, B2])
  {
    assert Sorting.DatesOf([B1, A1, C1, A2, B2]) == [6, 5, 4, 3, 2];
  }

  lemma FivePermuted()
    ensures multiset([B1, A1, C1, A2, B2]) == multiset([A1, A2, B1, B2, C1])
  {
    assert [B1] + [A1] + [C1] + [A2] + [B2] == [B1, A1, C1, A2, B2];
    assert [A1] + [A2] + [B1] + [B2] + [C1] == [A1, A2, B1, B2, C1];
    Seqs.Reorder5([A1], [A2], [B1], [B2], [C1]);
  }

  lemma FiveDistinct()
    ensures Sorting.DistinctDates([A1, A2, B1, B2, C1])
  {
    assert Sorting.DatesOf([A1, A2, B1, B2, C1]) == [5, 3, 6, 2, 4];
  }

  /** Stand-in for `url.Parse` on the feed URLs of the tests. */
  function TestUrls(raw: string): Option<Urls.Url>
  {
    if raw == "https://example.com/feed" then Some(Urls.Url("example.com"))
    else if raw == "https://atom.example.com/feed" then Some(Urls.Url("atom.example.com"))
    else if raw == "https://zenn.dev/kotaoue/feed" then Some(Urls.Url("zenn.dev"))
    else if raw == "https://qiita.com/kotaoue/feed" then Some(Urls.Url("qiita.com"))
    else Some(Urls.Url(""))
  }

  /** Instants of the dates in the tests, in nanoseconds from Go's zero time. */
  const Jan2nd2006: Dates.Instant := 63271811045000000000
  const Jan2nd2006Tokyo: Dates.Instant := 63271778645000000000
  const Jan1st2024: Dates.Instant := 63839664000000000000
  const Jan2nd2024: Dates.Instant := 63839750400000000000
  const Jan3rd2024: Dates.Instant := 63839836800000000000
  const Mar1st2024: Dates.Instant := 63844884000000000000
  const Mar2nd2024: Dates.Instant := 63844970400000000000

  /** Stand-in for `time.Parse` on the date strings of the tests. For each
      string it answers as Go does for every layout up to and including the
      first one in the table that accepts it; `parseDate` never consults a
      later layout. Every other string is rejected by every layout. */
  function TestDates(layout: string, text: string): Option<Dates.Instant>
  {
    if layout == Dates.RFC1123Z then
      if text == "Mon, 02 Jan 2006 15:04:05 +0000" then Some(Jan2nd2006)
      else if text == "Mon, 01 Jan 2024 00:00:00 +0000" then Some(Jan1st2024)
      else if text == "Tue, 02 Jan 2024 00:00:00 +0000" then Some(Jan2nd2024)
      else if text == "Wed, 03 Jan 2024 00:00:00 +0000" then Some(Jan3rd2024)
      else None
    else if layout == Dates.RFC3339 then
      if text == "2006-01-02T15:04:05Z" then Some(Jan2nd2006)
      else if text == "2006-01-02T15:04:05+09:00" then Some(Jan2nd2006Tokyo)
      else if text == "2024-03-01T10:00:00Z" then Some(Mar1st2024)
      else if text == "2024-03-02T10:00:00Z" then Some(Mar2nd2024)
      else None
    else None
  }

  /** Stand-in for `Format(time.RFC1123Z)` on the instants of the tests;
      any other instant gets the text of the zero time. */
  function TestFormat(t: Dates.Instant): string
  {
    if t == Jan1st2024 then "Mon, 01 Jan 2024 00:00:00 +0000" else "Mon, 01 Jan 0001 00:00:00 +0000"
  }

  /** The dated strings of the tests parse to their instants; the empty
      string and "not-a-date" give the zero time. */
  lemma TestParseDate()
    ensures Dates.ParseDate(TestDates, "Mon, 02 Jan 2006 15:04:05 +0000") == Jan2nd2006
    ensures Dates.ParseDate(TestDates, "2006-01-02T15:04:05Z") == Jan2nd2006
    ensures Dates.ParseDate(TestDates, "2006-01-02T15:04:05+09:00") == Jan2nd2006Tokyo
    ensures Dates.ParseDate(TestDates, "") == Dates.Zero
    ensures Dates.ParseDate(TestDates, "not-a-date") == Dates.Zero
  {
    DateRfc1123();
    DateUtc();
    DateOffset();
    DateEmpty();
    DateWord();
  }

  lemma DateEmpty() ensures Dates.ParseDate(TestDates, "") == Dates.Zero
  {
    Rejected("");
  }

  lemma DateRfc1123() ensures Dates.ParseDate(TestDates, "Mon, 02 Jan 2006 15:04:05 +0000") == Jan2nd2006
  {
    AcceptedFirst("Mon, 02 Jan 2006 15:04:05 +0000", 0);
  }

  lemma DateUtc() ensures Dates.ParseDate(TestDates, "2006-01-02T15:04:05Z") == Jan2nd2006
  {
    AcceptedFirst("2006-01-02T15:04:05Z", 2);
  }

  lemma DateOffset() ensures Dates.ParseDate(TestDates, "2006-01-02T15:04:05+09:00") == Jan2nd2006Tokyo
  {
    AcceptedFirst("2006-01-02T15:04:05+09:00", 2);
  }

  lemma DateWord() ensures Dates.ParseDate(TestDates, "not-a-date") == Dates.Zero
  {
    Rejected("not-a-date");
  }

  lemma AcceptedFirst(s: string, i: nat)
    requires Text.Trimmed(s) && Dates.FirstAccepting(TestDates, s, i)
    ensures Dates.ParseDate(TestDates, s) == TestDates(Dates.DateFormats[i], s).value
  {
    Text.TrimmedFixed(s);
  }

  lemma Rejected(s: string)
    requires Text.Trimmed(s) && forall i :: 0 <= i < |Dates.DateFormats| ==> TestDates(Dates.DateFormats[i], s).None?
    ensures Dates.ParseDate(TestDates, s) == Dates.Zero
  {
    Text.TrimmedFixed(s);
  }

  lemma HostnameOfTestUrls()
    ensures Urls.Hostname(TestUrls, "https://zenn.dev/kotaoue/feed") == "zenn.dev"
    ensures Urls.Hostname(TestUrls, "https://qiita.com/kotaoue/feed") == "qiita.com"
    ensures Urls.Hostname(TestUrls, "not-a-url") == "not-a-url"
  {
  }

  const SampleRss: seq<RssInItem> := [
    RssInItem("Article 1", "https://example.com/1", "Mon, 01 Jan 2024 00:00:00 +0000", "Desc 1", ""),
    RssInItem("Article 2", "https://example.com/2", "Tue, 02 Jan 2024 00:00:00 +0000", "Desc 2", ""),
    RssInItem("Article 3", "https://example.com/3", "Wed, 03 Jan 2024 00:00:00 +0000", "Desc 3", "")
  ]

  lemma ExampleHost() ensures Urls.Hostname(TestUrls, "https://example.com/feed") == "example.com" { }
  lemma ExampleTitle() ensures TagTitle("example.com", "Article 1") == "[example.com] Article 1" { }
  lemma RssRoot() ensures Text.ToLower("rss") == "rss" { }

  /** Three RSS items: all three at limit 10, titled with the host label;
      only the first two at limit 2. */
  lemma ParseSampleRss()
    ensures var r := Parse(Element("rss", Some(SampleRss), None), "https://example.com/feed", 10, TestDates, TestUrls);
            r.Success? && |r.value| == 3 && r.value[0].title == "[example.com] Article 1" &&
            r.value[0].link == "https://example.com/1"
    ensures var r := Parse(Element("rss", Some(SampleRss), None), "https://example.com/feed", 2, TestDates, TestUrls);
            r.Success? && |r.value| == 2 && r.value[1].link == "https://example.com/2"
  {
    ExampleHost();
    RssRoot();
    var r := Parse(Element("rss", Some(SampleRss), None), "https://example.com/feed", 10, TestDates, TestUrls);
    assert r == Success(NormalizeRss("example.com", SampleRss, 10, TestDates));
    ExampleTitle();
    assert r.value[0].title == TagTitle("example.com", "Article 1");
    var r2 := Parse(Element("rss", Some(SampleRss), None), "https://example.com/feed", 2, TestDates, TestUrls);
    assert r2 == Success(NormalizeRss("example.com", SampleRss, 2, TestDates));
  }

  const SampleAtom: seq<AtomEntry> := [
    AtomEntry("Atom Entry 1", [AtomLink("https://atom.example.com/1", "alternate")], "2024-03-01T10:00:00Z", "Atom Desc 1", ""),
    AtomEntry("Atom Entry 2", [AtomLink("https://atom.example.com/2", "")], "2024-03-02T10:00:00Z", "Atom Desc 2", "")
  ]

  lemma AtomHost() ensures Urls.Hostname(TestUrls, "https://atom.example.com/feed") == "atom.example.com" { }
  lemma AtomRoot() ensures Text.ToLower("feed") == "feed" { }
  lemma AtomTitle() ensures TagTitle("atom.example.com", "Atom Entry 1") == "[atom.example.com] Atom Entry 1" { }

  /** Two Atom entries; the second one's link has no relation and is still
      chosen. */
  lemma ParseSampleAtom()
    ensures var r := Parse(Element("feed", None, Some(SampleAtom)), "https://atom.example.com/feed", 10, TestDates, TestUrls);
            r.Success? && |r.value| == 2 && r.value[0].title == "[atom.example.com] Atom Entry 1" &&
            r.value[0].link == "https://atom.example.com/1" && r.value[1].link == "https://atom.example.com/2"
  {
    AtomHost();
    AtomRoot();
    var r := Parse(Element("feed", None, Some(SampleAtom)), "https://atom.example.com/feed", 10, TestDates, TestUrls);
    assert r == Success(NormalizeAtom("atom.example.com", SampleAtom, 10, TestDates));
    assert FirstAlternateAt(SampleAtom[0].links, 0);
    assert FirstAlternateAt(SampleAtom[1].links, 0);
    assert r.value[0].title == TagTitle("atom.example.com", "Atom Entry 1");
    AtomTitle();
  }

  /** The sample items carry their dates: the first RSS item is dated
      January 1, 2024 and the first Atom entry March 1, 2024. */
  lemma SampleRssDated()
    ensures NormalizeRss("example.com", SampleRss, 10, TestDates)[0].pubDate == Jan1st2024
  {
    var d := SampleRss[0].pubDate;
    assert d == "Mon, 01 Jan 2024 00:00:00 +0000";
    DateJan1st();
    assert FromRss("example.com", SampleRss[0], TestDates).pubDate == Dates.ParseDate(TestDates, d);
  }

  lemma DateJan1st() ensures Dates.ParseDate(TestDates, "Mon, 01 Jan 2024 00:00:00 +0000") == Jan1st2024
  {
    AcceptedFirst("Mon, 01 Jan 2024 00:00:00 +0000", 0);
  }

  lemma DateMar1st() ensures Dates.ParseDate(TestDates, "2024-03-01T10:00:00Z") == Mar1st2024
  {
    var d := "2024-03-01T10:00:00Z";
    assert d != "2006-01-02T15:04:05Z" by { assert d[2] != "2006-01-02T15:04:05Z"[2]; }
    AcceptedFirst(d, 2);
  }

  lemma SampleAtomDated()
    ensures NormalizeAtom("atom.example.com", SampleAtom, 10, TestDates)[0].pubDate == Mar1st2024
  {
    var d := SampleAtom[0].updated;
    assert d == "2024-03-01T10:00:00Z";
    DateMar1st();
    assert FromAtom("atom.example.com", SampleAtom[0], TestDates).pubDate == Dates.ParseDate(TestDates, d);
  }

  /** A link marked "self" before the alternate one is skipped. */
  lemma SelectLinkSkipsSelf()
    ensures SelectLink([AtomLink("https://a.example/self", "self"), AtomLink("https://a.example/", ""),
                        AtomLink("https://a.example/alt", "alternate")]) == "https://a.example/"
  {
  }

  /** An unknown root is an error naming it; a root that only differs from
      "feed" in case passes the dispatch but fails decoding. */
  lemma RootNames()
    ensures Parse(Element("foo", None, None), "https://example.com/feed", 10, TestDates, TestUrls) ==
            Failure(UnknownFormat("foo"))
    ensures Parse(Element("Feed", None, Some(SampleAtom)), "https://example.com/feed", 10, TestDates, TestUrls) ==
            Failure(DecodeError(RootMismatch("feed", "Feed")))
  {
  }

  /** The channel header and an empty date for the zero time. */
  lemma BuildTwoItems()
    ensures var f := Builder.Rss("My Feed", "My Desc", [Item("T1", "https://a.com/1", Jan1st2024, "D1"), Item("T2", "https://a.com/2", Dates.Zero, "D2")],
                                 TestFormat);
            f.version == "2.0" && f.channel.title == "My Feed" && |f.channel.items| == 2 &&
            f.channel.items[1].pubDate == "" && f.channel.items[0].pubDate == "Mon, 01 Jan 2024 00:00:00 +0000"
  {
  }

  lemma AtoiZero() ensures Text.Atoi("0") == Some(0) { }
  lemma AtoiMinusThree() ensures Text.Atoi("-3") == Some(-3)
  {
    assert "-3"[1..] == "3";
    assert Text.DigitsValue("3") == 3 by { assert "3"[..0] == ""; }
  }
  lemma AtoiWord() ensures Text.Atoi("ten") == None { assert !Text.IsDigit('t'); }
  lemma AtoiTrailingLetter() ensures Text.Atoi("1x") == None { assert !Text.IsDigit("1x"[1]); }
  lemma AtoiLoneSign() ensures Text.Atoi("-") == None { }

  /** An empty limit falls back to 10. */
  lemma LimitEmpty() ensures Config.ParseLimit("") == 10 { }

  /** A zero limit falls back to 10. */
  lemma LimitZero() ensures Config.ParseLimit("0") == 10 { Text.TrimmedFixed("0"); AtoiZero(); }

  /** A negative limit falls back to 10. */
  lemma LimitNegative() ensures Config.ParseLimit("-3") == 10 { Text.TrimmedFixed("-3"); AtoiMinusThree(); }

  /** A limit that is not a number falls back to 10. */
  lemma LimitWord() ensures Config.ParseLimit("ten") == 10 { Text.TrimmedFixed("ten"); AtoiWord(); }
}
