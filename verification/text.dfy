/** The string helpers of Go's standard library that the program relies on:
    `strings.TrimSpace` (with `unicode.IsSpace`), `strings.ToLower` as far as
    the root-name dispatch needs it, `strings.Split` on a one-character
    separator, and `strconv.Atoi`. */
module Text {
  import opened Results
  import Seqs

  /** `unicode.IsSpace`: the Latin-1 white space characters plus the
      characters above Latin-1 that carry Unicode's White_Space property. */
  predicate IsSpace(c: char)
  {
    || c == '\t' || c == '\n' || c == '\U{000B}' || c == '\U{000C}' || c == '\r' || c == ' '
    || c == '\U{0085}' || c == '\U{00A0}' || c == '\U{1680}'
    || ('\U{2000}' <= c <= '\U{200A}')
    || c == '\U{2028}' || c == '\U{2029}' || c == '\U{202F}' || c == '\U{205F}' || c == '\U{3000}'
  }

  predicate AllSpace(s: string)
  {
    forall i :: 0 <= i < |s| ==> IsSpace(s[i])
  }

  /** Neither end of `s` is white space. */
  predicate Trimmed(s: string)
  {
    |s| == 0 || (!IsSpace(s[0]) && !IsSpace(s[|s| - 1]))
  }

  function TrimLeft(s: string): (r: string)
    ensures |r| <= |s|
    decreases |s|
  {
    if |s| > 0 && IsSpace(s[0]) then TrimLeft(s[1..]) else s
  }

  function TrimRight(s: string): (r: string)
    ensures |r| <= |s|
    decreases |s|
  {
    if |s| > 0 && IsSpace(s[|s| - 1]) then TrimRight(s[..|s| - 1]) else s
  }

  /** `TrimLeft` cuts a run of white space from the front and stops at a
      character that is not white space, or at the end. */
  lemma {:induction false} TrimLeftCuts(s: string)
    ensures var r := TrimLeft(s);
            && r == s[|s| - |r|..] && AllSpace(s[..|s| - |r|])
            && (|r| == 0 || !IsSpace(r[0]))
    decreases |s|
  {
    if |s| > 0 && IsSpace(s[0]) {
      TrimLeftCuts(s[1..]);
      var r := TrimLeft(s[1..]);
      assert s[..|s| - |r|] == [s[0]] + s[1..][..|s| - 1 - |r|];
    }
  }

  /** `TrimRight` cuts a run of white space from the back and stops at a
      character that is not white space, or at the start. */
  lemma {:induction false} TrimRightCuts(s: string)
    ensures var r := TrimRight(s);
            && r == s[..|r|] && AllSpace(s[|r|..])
            && (|r| == 0 || !IsSpace(r[|r| - 1]))
    decreases |s|
  {
    if |s| > 0 && IsSpace(s[|s| - 1]) {
      TrimRightCuts(s[..|s| - 1]);
      var r := TrimRight(s[..|s| - 1]);
      assert s[|r|..] == s[..|s| - 1][|r|..] + [s[|s| - 1]];
    }
  }

  /** `r` is `s` with some white space removed from each end. */
  ghost predicate Stripped(s: string, r: string)
  {
    exists i, j :: 0 <= i <= j <= |s| && r == s[i..j] && AllSpace(s[..i]) && AllSpace(s[j..])
  }

  /** `strings.TrimSpace`: the middle of `s` left after removing every
      leading and trailing white space character. */
  function TrimSpace(s: string): (r: string)
    ensures Trimmed(r)
    ensures Stripped(s, r)
  {
    TrimBothEnds(s);
    TrimRight(TrimLeft(s))
  }

  lemma TrimBothEnds(s: string)
    ensures Trimmed(TrimRight(TrimLeft(s)))
    ensures Stripped(s, TrimRight(TrimLeft(s)))
  {
    var l := TrimLeft(s);
    var r := TrimRight(l);
    TrimLeftCuts(s);
    TrimRightCuts(l);
    CutBothEnds(s, l, r);
  }

  /** Cutting white space from the front of `s` to get `l`, then from the
      back of `l` to get `r`, strips `s` to `r`; `r` is trimmed when each cut
      stopped at a non-space. */
  lemma CutBothEnds(s: string, l: string, r: string)
    requires |l| <= |s| && l == s[|s| - |l|..] && AllSpace(s[..|s| - |l|])
    requires |l| == 0 || !IsSpace(l[0])
    requires |r| <= |l| && r == l[..|r|] && AllSpace(l[|r|..])
    requires |r| == 0 || !IsSpace(r[|r| - 1])
    ensures Trimmed(r)
    ensures Stripped(s, r)
  {
    var i := |s| - |l|;
    assert |r| > 0 ==> r[0] == l[0];
    assert r == s[i..i + |r|];
    assert s[i + |r|..] == l[|r|..];
  }

  /** `TrimLeft` removes exactly a leading run of white space. */
  lemma {:induction false} TrimLeftOf(lead: string, rest: string)
    requires AllSpace(lead) && (|rest| == 0 || !IsSpace(rest[0]))
    ensures TrimLeft(lead + rest) == rest
    decreases |lead|
  {
    if |lead| == 0 {
      assert lead + rest == rest;
    } else {
      assert (lead + rest)[0] == lead[0];
      assert (lead + rest)[1..] == lead[1..] + rest;
      TrimLeftOf(lead[1..], rest);
    }
  }

  /** `TrimRight` removes exactly a trailing run of white space. */
  lemma {:induction false} TrimRightOf(rest: string, trail: string)
    requires AllSpace(trail) && (|rest| == 0 || !IsSpace(rest[|rest| - 1]))
    ensures TrimRight(rest + trail) == rest
    decreases |trail|
  {
    if |trail| == 0 {
      assert rest + trail == rest;
    } else {
      var s := rest + trail;
      assert s[|s| - 1] == trail[|trail| - 1];
      assert s[..|s| - 1] == rest + trail[..|trail| - 1];
      TrimRightOf(rest, trail[..|trail| - 1]);
    }
  }

  /** The decomposition `s == lead + middle + trail` into white space, a
      trimmed middle and white space is unique: whichever such middle one
      finds, `TrimSpace` returns it. */
  lemma TrimSpaceUnique(lead: string, middle: string, trail: string)
    requires AllSpace(lead) && Trimmed(middle) && AllSpace(trail)
    ensures TrimSpace(lead + middle + trail) == middle
  {
    if |middle| == 0 {
      assert lead + middle + trail == (lead + trail) + "";
      AllSpaceConcat(lead, trail);
      TrimLeftOf(lead + trail, "");
    } else {
      assert lead + middle + trail == lead + (middle + trail);
      TrimLeftOf(lead, middle + trail);
      TrimRightOf(middle, trail);
    }
  }

  lemma AllSpaceConcat(a: string, b: string)
    requires AllSpace(a) && AllSpace(b)
    ensures AllSpace(a + b)
  {
    assert forall k :: |a| <= k < |a + b| ==> (a + b)[k] == b[k - |a|];
  }

  /** Surrounding white space never changes what `TrimSpace` returns. */
  lemma TrimSpacePadding(lead: string, s: string, trail: string)
    requires AllSpace(lead) && AllSpace(trail)
    ensures TrimSpace(lead + s + trail) == TrimSpace(s)
  {
    var m := TrimSpace(s);
    var i, j :| 0 <= i <= j <= |s| && m == s[i..j] && AllSpace(s[..i]) && AllSpace(s[j..]);
    var pre, post := s[..i], s[j..];
    Seqs.Decompose(s, i, j);
    AllSpaceConcat(lead, pre);
    AllSpaceConcat(post, trail);
    Seqs.Regroup(lead, pre, m, post, trail);
    TrimSpaceUnique(lead + pre, m, post + trail);
  }

  /** Text with no white space at either end is left as it is. */
  lemma TrimmedFixed(m: string)
    requires Trimmed(m)
    ensures TrimSpace(m) == m
  {
    TrimLeftKeeps(m);
    TrimRightKeeps(m);
  }

  lemma TrimLeftKeeps(m: string)
    requires |m| == 0 || !IsSpace(m[0])
    ensures TrimLeft(m) == m
  {
  }

  lemma TrimRightKeeps(m: string)
    requires |m| == 0 || !IsSpace(m[|m| - 1])
    ensures TrimRight(m) == m
  {
  }

  /** Trimming twice is trimming once. */
  lemma TrimSpaceIdempotent(s: string)
    ensures TrimSpace(TrimSpace(s)) == TrimSpace(s)
  {
    TrimmedFixed(TrimSpace(s));
  }

  /** ASCII lower-casing of one character. */
  function LowerChar(c: char): char
  {
    if 'A' <= c <= 'Z' then (c as int + 32) as char else c
  }

  /** `strings.ToLower`, restricted to ASCII letters (see README). */
  function ToLower(s: string): (r: string)
    ensures |r| == |s|
    ensures forall i :: 0 <= i < |s| ==> r[i] == LowerChar(s[i])
  {
    seq(|s|, i requires 0 <= i < |s| => LowerChar(s[i]))
  }

  /** Index of the first occurrence of `c` in `s`. */
  function IndexOf(s: string, c: char): (i: nat)
    requires c in s
    ensures i < |s| && s[i] == c && c !in s[..i]
  {
    if s[0] == c then 0
    else
      var i := 1 + IndexOf(s[1..], c);
      assert s[..i] == [s[0]] + s[1..][..i - 1];
      i
  }

  /** The inverse of `Split`: the parts glued together with `sep`. */
  function Join(parts: seq<string>, sep: char): string
  {
    if |parts| == 0 then ""
    else if |parts| == 1 then parts[0]
    else parts[0] + [sep] + Join(parts[1..], sep)
  }

  /** `strings.Split(s, sep)` for a one-character separator: the maximal
      pieces of `s` between separators; one piece more than there are
      separators, so an empty `s` gives one empty piece. */
  function Split(s: string, sep: char): (parts: seq<string>)
    ensures |parts| >= 1
    ensures forall k :: 0 <= k < |parts| ==> sep !in parts[k]
    ensures Join(parts, sep) == s
    decreases |s|
  {
    if sep !in s then [s]
    else
      var i := IndexOf(s, sep);
      var rest := Split(s[i + 1..], sep);
      assert s == s[..i] + [sep] + s[i + 1..];
      [s[..i]] + rest
  }

  lemma {:induction false} JoinAppend(ps: seq<string>, qs: seq<string>, sep: char)
    requires |ps| >= 1 && |qs| >= 1
    ensures Join(ps + qs, sep) == Join(ps, sep) + [sep] + Join(qs, sep)
    decreases |ps|
  {
    if |ps| == 1 {
      assert (ps + qs)[1..] == qs;
    } else {
      assert (ps + qs)[1..] == ps[1..] + qs;
      JoinAppend(ps[1..], qs, sep);
    }
  }

  /** Splitting undoes joining parts that contain no separator. */
  lemma {:induction false} SplitJoin(parts: seq<string>, sep: char)
    requires |parts| >= 1
    requires forall k :: 0 <= k < |parts| ==> sep !in parts[k]
    ensures Split(Join(parts, sep), sep) == parts
    decreases |parts|
  {
    if |parts| > 1 {
      var s := Join(parts, sep);
      var p := parts[0];
      assert s == p + [sep] + Join(parts[1..], sep);
      assert s[|p|] == sep;
      assert s[..|p|] == p;
      var i := IndexOf(s, sep);
      assert i == |p| by {
        assert forall k :: 0 <= k < |p| ==> s[k] == p[k];
        assert forall k :: 0 <= k < i ==> s[k] == s[..i][k];
      }
      assert s[i + 1..] == Join(parts[1..], sep);
      SplitJoin(parts[1..], sep);
    }
  }

  /** A separator in the input splits the list of pieces in two. */
  lemma SplitAt(a: string, b: string, sep: char)
    ensures Split(a + [sep] + b, sep) == Split(a, sep) + Split(b, sep)
  {
    var ps, qs := Split(a, sep), Split(b, sep);
    JoinAppend(ps, qs, sep);
    SplitJoin(ps + qs, sep);
  }

  // strconv.Atoi

  const MinInt64: int := -0x8000_0000_0000_0000
  const MaxInt64: int := 0x7FFF_FFFF_FFFF_FFFF

  predicate IsDigit(c: char)
  {
    '0' <= c <= '9'
  }

  predicate AllDigits(s: string)
  {
    forall i :: 0 <= i < |s| ==> IsDigit(s[i])
  }

  /** The decimal value of a string of digits, most significant first. */
  function DigitsValue(s: string): nat
    requires AllDigits(s)
  {
    if |s| == 0 then 0
    else DigitsValue(s[..|s| - 1]) * 10 + (s[|s| - 1] as int - '0' as int)
  }

  /** What follows an optional leading sign. */
  function Magnitude(s: string): string
  {
    if |s| > 0 && (s[0] == '+' || s[0] == '-') then s[1..] else s
  }

  /** `strconv.Atoi` on a 64-bit platform: an optional sign followed by at
      least one decimal digit, whose value fits an `int64`; anything else
      (an empty string, a lone sign, a stray character anywhere) is an
      error. */
  function Atoi(s: string): (r: Option<int>)
    ensures r.Some? ==> MinInt64 <= r.value <= MaxInt64
    ensures r.Some? ==> |s| > 0 && (IsDigit(s[0]) || s[0] == '+' || s[0] == '-')
    ensures r.Some? ==> |Magnitude(s)| > 0 && AllDigits(Magnitude(s))
    ensures r.Some? ==> r.value == (if s[0] == '-' then -1 else 1) * DigitsValue(Magnitude(s))
    ensures |Magnitude(s)| > 0 && AllDigits(Magnitude(s)) && MinInt64 <= (if s[0] == '-' then -1 else 1) * DigitsValue(Magnitude(s)) <= MaxInt64 ==> r.Some?
  {
    var signed := |s| > 0 && (s[0] == '+' || s[0] == '-');
    var digits := if signed then s[1..] else s;
    if |digits| == 0 || !AllDigits(digits) then None
    else
      var d: int := DigitsValue(digits);
      var v := if signed && s[0] == '-' then -d else d;
      if MinInt64 <= v <= MaxInt64 then Some(v) else None
  }

  function DigitChar(d: nat): char
    requires d < 10
  {
    ('0' as int + d) as char
  }

  /** The decimal rendering of `n`, as `strconv.Itoa` prints it. */
  function ShowNat(n: nat): (s: string)
    ensures |s| > 0 && AllDigits(s)
  {
    if n < 10 then [DigitChar(n)] else ShowNat(n / 10) + [DigitChar(n % 10)]
  }

  lemma {:induction false} DigitsValueShowNat(n: nat)
    ensures DigitsValue(ShowNat(n)) == n
  {
    if n >= 10 {
      var s := ShowNat(n);
      assert s[..|s| - 1] == ShowNat(n / 10);
      DigitsValueShowNat(n / 10);
    }
  }

  /** Decimal renderings carry no surrounding white space. */
  lemma ShowNatTrimmed(n: nat)
    ensures TrimSpace(ShowNat(n)) == ShowNat(n)
  {
    var s := ShowNat(n);
    assert IsDigit(s[0]) && IsDigit(s[|s| - 1]);
    TrimmedFixed(s);
  }

  /** `Atoi` reads back every in-range decimal rendering, with or without
      a sign. */
  lemma AtoiShowNat(n: nat)
    ensures n <= MaxInt64 ==> Atoi(ShowNat(n)) == Some(n)
    ensures n <= MaxInt64 ==> Atoi(['+'] + ShowNat(n)) == Some(n)
    ensures n <= -MinInt64 ==> Atoi(['-'] + ShowNat(n)) == Some(-(n as int))
  {
    DigitsValueShowNat(n);
    var s := ShowNat(n);
    assert (['+'] + s)[1..] == s;
    assert (['-'] + s)[1..] == s;
  }
}
