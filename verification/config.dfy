/** The settings `main` reads from its `INPUT_*` environment variables:
    defaults for empty values, the per-feed limit, and the feed URL list. */
module Config {
  import opened Results
  import Text
  import Seqs

  /** The raw `INPUT_FEEDS`, `INPUT_OUTPUT_FILE`, `INPUT_LIMIT`,
      `INPUT_FEED_TITLE` and `INPUT_FEED_DESCRIPTION` values ("" when unset). */
  datatype Env = Env(feeds: string, outputFile: string, limit: string, feedTitle: string, feedDescription: string)

  datatype Settings = Settings(feedUrls: seq<string>, outputFile: string, limit: int, title: string, description: string)

  const DefaultOutputFile: string := "combined_feed.xml"
  const DefaultTitle: string := "Combined RSS Feed"
  const DefaultDescription: string := "Merged feed generated by combine-rss-feeds action"
  const DefaultLimit: int := 10

  function OrDefault(value: string, default: string): string
  {
    if value == "" then default else value
  }

  /** The per-feed limit: the trimmed text's integer value when it is a
      well-formed integer greater than zero, and 10 otherwise. */
  function ParseLimit(raw: string): (limit: int)
    ensures limit > 0
    ensures Text.Atoi(Text.TrimSpace(raw)).Some? && Text.Atoi(Text.TrimSpace(raw)).value > 0 ==>
              limit == Text.Atoi(Text.TrimSpace(raw)).value
    ensures !(Text.Atoi(Text.TrimSpace(raw)).Some? && Text.Atoi(Text.TrimSpace(raw)).value > 0) ==>
              limit == DefaultLimit
  {
    if raw != "" then
      match Text.Atoi(Text.TrimSpace(raw))
      case Some(v) => if v > 0 then v else DefaultLimit
      case None => DefaultLimit
    else DefaultLimit
  }

  /** Every positive `int64` written in decimal, with any surrounding white
      space, is read back as the limit. */
  lemma ParseLimitReadsDecimal(lead: string, n: nat, trail: string)
    requires 0 < n <= Text.MaxInt64
    requires Text.AllSpace(lead) && Text.AllSpace(trail)
    ensures ParseLimit(lead + Text.ShowNat(n) + trail) == n
  {
    var s := Text.ShowNat(n);
    var raw := lead + s + trail;
    Text.TrimSpacePadding(lead, s, trail);
    Text.ShowNatTrimmed(n);
    Text.AtoiShowNat(n);
    assert Text.Atoi(Text.TrimSpace(raw)) == Some(n as int);
  }

  /** The trimmed lines that are not empty, in order. */
  function KeepUrls(lines: seq<string>): (urls: seq<string>)
    ensures |urls| <= |lines|
    ensures forall k :: 0 <= k < |urls| ==> urls[k] != "" && Text.Trimmed(urls[k])
  {
    if |lines| == 0 then []
    else
      var u := Text.TrimSpace(lines[0]);
      (if u == "" then [] else [u]) + KeepUrls(lines[1..])
  }

  lemma {:induction false} KeepUrlsAppend(a: seq<string>, b: seq<string>)
    ensures KeepUrls(a + b) == KeepUrls(a) + KeepUrls(b)
    decreases |a|
  {
    if |a| == 0 {
      assert a + b == b;
    } else {
      assert (a + b)[0] == a[0];
      assert (a + b)[1..] == a[1..] + b;
      var u := Text.TrimSpace(a[0]);
      var h := if u == "" then [] else [u];
      assert KeepUrls(a + b) == h + KeepUrls(a[1..] + b);
      KeepUrlsAppend(a[1..], b);
      Seqs.Associate(h, KeepUrls(a[1..]), KeepUrls(b));
    }
  }

  /** The feed URL list: `INPUT_FEEDS` split on newlines, each line trimmed,
      empty lines dropped. */
  function FeedUrls(raw: string): (urls: seq<string>)
    ensures forall k :: 0 <= k < |urls| ==> urls[k] != "" && Text.Trimmed(urls[k])
  {
    KeepUrls(Text.Split(raw, '\n'))
  }

  /** A single line contributes its trimmed text, unless that is empty. */
  lemma FeedUrlsOneLine(line: string)
    requires '\n' !in line
    ensures FeedUrls(line) == if Text.TrimSpace(line) == "" then [] else [Text.TrimSpace(line)]
  {
    assert Text.Split(line, '\n') == [line];
    assert KeepUrls([line][1..]) == [];
  }

  /** A newline separates the URLs of the text before it from those after
      it; with `FeedUrlsOneLine` this determines `FeedUrls` completely. */
  lemma FeedUrlsSplit(a: string, b: string)
    ensures FeedUrls(a + "\n" + b) == FeedUrls(a) + FeedUrls(b)
  {
    Text.SplitAt(a, b, '\n');
    KeepUrlsAppend(Text.Split(a, '\n'), Text.Split(b, '\n'));
  }

  /** Two URLs separated by a blank line, the second padded with blanks and
      followed by a final newline, are read back as exactly those two URLs. */
  lemma FeedUrlsSkipsBlankLines(a: string, b: string, lead: string, trail: string)
    requires a != "" && Text.Trimmed(a) && '\n' !in a
    requires b != "" && Text.Trimmed(b) && '\n' !in b
    requires Text.AllSpace(lead) && '\n' !in lead && Text.AllSpace(trail) && '\n' !in trail
    ensures FeedUrls(a + "\n\n" + lead + b + trail + "\n") == [a, b]
  {
    var padded := lead + b + trail;
    var tail := padded + "\n" + "";
    var rest := "" + "\n" + tail;
    var whole := a + "\n\n" + lead + b + trail + "\n";
    assert whole == a + "\n" + rest by {
      assert "\n\n" == "\n" + "\n";
    }
    assert '\n' !in padded by {
      assert forall k :: 0 <= k < |padded| ==> padded[k] != '\n' by {
        forall k | 0 <= k < |padded| ensures padded[k] != '\n' {
          if k < |lead| { assert padded[k] == lead[k]; }
          else if k < |lead| + |b| { assert padded[k] == b[k - |lead|]; }
          else { assert padded[k] == trail[k - |lead| - |b|]; }
        }
      }
    }
    UrlLine(a);
    EmptyLine();
    FeedUrlsOneLine(padded);
    Text.TrimSpaceUnique(lead, b, trail);
    FeedUrlsSplit(padded, "");
    assert FeedUrls(tail) == [b];
    FeedUrlsSplit("", tail);
    assert FeedUrls(rest) == [b];
    FeedUrlsSplit(a, rest);
    assert FeedUrls(whole) == [a] + [b];
    Seqs.Pair(a, b);
  }

  lemma UrlLine(a: string)
    requires a != "" && Text.Trimmed(a) && '\n' !in a
    ensures FeedUrls(a) == [a]
  {
    FeedUrlsOneLine(a);
    Text.TrimmedFixed(a);
  }

  lemma EmptyLine()
    ensures FeedUrls("") == []
  {
    FeedUrlsOneLine("");
    Text.TrimSpaceUnique("", "", "");
  }

  /** The settings of a run. */
  function Configure(env: Env): (s: Settings)
    ensures s.feedUrls == FeedUrls(env.feeds)
    ensures s.limit == ParseLimit(env.limit)
    ensures s.outputFile != "" && s.title != "" && s.description != ""
    ensures env.outputFile != "" ==> s.outputFile == env.outputFile
    ensures env.feedTitle != "" ==> s.title == env.feedTitle
    ensures env.feedDescription != "" ==> s.description == env.feedDescription
    ensures env.outputFile == "" ==> s.outputFile == DefaultOutputFile
    ensures env.feedTitle == "" ==> s.title == DefaultTitle
    ensures env.feedDescription == "" ==> s.description == DefaultDescription
  {
    Settings(
      FeedUrls(env.feeds),
      OrDefault(env.outputFile, DefaultOutputFile),
      ParseLimit(env.limit),
      OrDefault(env.feedTitle, DefaultTitle),
      OrDefault(env.feedDescription, DefaultDescription))
  }
}
