/** Feed date normalisation (`parseDate`): trim the text, then try a fixed,
    ordered table of layouts and keep the first one that parses. A failure
    is not an error: it yields Go's zero time, which the rest of the program
    treats as "no date". */
module Dates {
  import opened Results
  import Text
  import Search

  /** An instant, in nanoseconds relative to Go's zero time (January 1 of
      year 1, 00:00:00 UTC). `Zero` is `time.Time{}`; instants before year 1
      are negative. */
  type Instant = int

  const Zero: Instant := 0

  /** `time.Parse(layout, value)`: the parsed instant, or `None` on error.
      Layout matching itself is a library call outside this model. */
  type LayoutParser = (string, string) -> Option<Instant>

  const RFC1123Z: string := "Mon, 02 Jan 2006 15:04:05 -0700"
  const RFC1123: string := "Mon, 02 Jan 2006 15:04:05 MST"
  const RFC3339: string := "2006-01-02T15:04:05Z07:00"
  const RFC3339Nano: string := "2006-01-02T15:04:05.999999999Z07:00"

  /** The layouts in the order they are tried. Entries 4 and 6 repeat
      `RFC1123Z` and `RFC1123` character for character. */
  const DateFormats: seq<string> := [
    RFC1123Z,
    RFC1123,
    RFC3339,
    RFC3339Nano,
    "Mon, 02 Jan 2006 15:04:05 -0700",
    "Mon, 2 Jan 2006 15:04:05 -0700",
    "Mon, 02 Jan 2006 15:04:05 MST",
    "Mon, 2 Jan 2006 15:04:05 MST",
    "2006-01-02T15:04:05Z",
    "2006-01-02"
  ]

  /** Layout `DateFormats[i]` is the first in the table to accept `text`. */
  ghost predicate FirstAccepting(parse: LayoutParser, text: string, i: int)
  {
    && 0 <= i < |DateFormats|
    && parse(DateFormats[i], text).Some?
    && forall j :: 0 <= j < i ==> parse(DateFormats[j], text).None?
  }

  /** One attempt of the table: `layout` applied to `text`. */
  function Attempt(parse: LayoutParser, text: string): string -> Option<Instant>
  {
    layout => parse(layout, text)
  }

  /** `parseDate`: the instant produced by the first layout that accepts the
      trimmed text, or `Zero` when no layout accepts it. */
  function ParseDate(parse: LayoutParser, s: string): (t: Instant)
    ensures forall i :: FirstAccepting(parse, Text.TrimSpace(s), i) ==>
              t == parse(DateFormats[i], Text.TrimSpace(s)).value
    ensures (forall i :: 0 <= i < |DateFormats| ==> parse(DateFormats[i], Text.TrimSpace(s)).None?) ==>
              t == Zero
  {
    var text := Text.TrimSpace(s);
    var hit := Search.FirstSome(DateFormats, Attempt(parse, text));
    assert forall i :: FirstAccepting(parse, text, i) ==> hit == parse(DateFormats[i], text) by {
      forall i | FirstAccepting(parse, text, i) ensures hit == parse(DateFormats[i], text) {
        Search.FirstSomeAt(DateFormats, Attempt(parse, text), i);
      }
    }
    hit.GetOr(Zero)
  }

  /** A non-zero result always comes from the first accepting layout. */
  lemma ParseDateNonZero(parse: LayoutParser, s: string)
    ensures ParseDate(parse, s) != Zero ==>
              exists i :: FirstAccepting(parse, Text.TrimSpace(s), i) &&
                          ParseDate(parse, s) == parse(DateFormats[i], Text.TrimSpace(s)).value
  {
    var text := Text.TrimSpace(s);
    var f := Attempt(parse, text);
    var hit := Search.FirstSome(DateFormats, f);
    if hit.Some? {
      var i := Search.FirstSomeIndex(DateFormats, f);
      assert forall j :: 0 <= j < i ==> f(DateFormats[j]).None?;
      assert FirstAccepting(parse, text, i);
    }
  }

  /** White space around the text never changes the parsed date. */
  lemma ParseDateIgnoresPadding(parse: LayoutParser, lead: string, s: string, trail: string)
    requires Text.AllSpace(lead) && Text.AllSpace(trail)
    ensures ParseDate(parse, lead + s + trail) == ParseDate(parse, s)
  {
    Text.TrimSpacePadding(lead, s, trail);
  }

  /** The same table without its two repeated entries. */
  const DistinctDateFormats: seq<string> := [
    RFC1123Z,
    RFC1123,
    RFC3339,
    RFC3339Nano,
    "Mon, 2 Jan 2006 15:04:05 -0700",
    "Mon, 2 Jan 2006 15:04:05 MST",
    "2006-01-02T15:04:05Z",
    "2006-01-02"
  ]

  lemma DropRepeatedLayouts()
    ensures DateFormats[6] in DateFormats[..6]
    ensures var once := DateFormats[..6] + DateFormats[7..];
            && |once| == 9 && once[4] in once[..4]
            && once[..4] + once[5..] == DistinctDateFormats
  {
    assert DateFormats[..6][1] == DateFormats[6];
    var once := DateFormats[..6] + DateFormats[7..];
    assert once[..4][0] == once[4];
    assert once[..4] + once[5..] == DistinctDateFormats;
  }

  /** The repeated layouts are dead entries: for every layout parser and
      every input, the eight distinct layouts give the same date as the
      ten-entry table. */
  lemma RepeatedLayoutsRedundant(parse: LayoutParser, s: string)
    ensures ParseDate(parse, s) ==
            Search.FirstSome(DistinctDateFormats, Attempt(parse, Text.TrimSpace(s))).GetOr(Zero)
  {
    var text := Text.TrimSpace(s);
    var f := Attempt(parse, text);
    DropRepeatedLayouts();
    Search.FirstSomeDropRepeat(DateFormats, 6, f);
    Search.FirstSomeDropRepeat(DateFormats[..6] + DateFormats[7..], 4, f);
  }
}
