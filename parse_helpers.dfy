/** The scanners of `ParseHelpers` over the license description report.

    Each regular expression of the source is written out as a scanner over positions of a
    string. For the patterns whose white-space runs are followed by a character that is not
    white space (every one but `FindNsi`'s), the greedy `\s*` is the only way to match, and
    the lemmas below show that the scanner finds exactly the matches of the pattern read as
    a language. `DateTime.TryParse` on a `\d{2}\.\d{2}\.\d{4}` group is `ParseDate(_, '.')`
    (day, month, year, as in the Russian culture the program runs under). */
module ParseHelpers {
  import opened Wrappers
  import opened Text
  import opened Dates
  import opened Models

  /** `[А0]`, with the Cyrillic letter А (U+0410) and the digit zero. */
  const A0Tag := "[А0]"
  const PirTag := "[ПИР]"
  const SupportUntil := "Поддержка до:"
  const ParseDateError := "Failed to parse date."
  const LicenseTypeError := "Failed to parse license type."
  const Sentinel := "Sentinel"
  const Hl := "HL"
  const PriceHeading := "Справочник цен"
  /** The prefix that keeps a price section going (`line.StartsWith("с: ")`). */
  const PriceLinePrefix := "с: "
  const PriceFrom := "с:"
  const PriceTo := "до:"

  // ---------------------------------------------------------------------------------------
  // FindA0LicenseExp, FindPIRLicenseExp: `<tag>\s*Поддержка до:\s*(\d{2}\.\d{2}\.\d{4})`
  // ---------------------------------------------------------------------------------------

  /** `\d{2}\.\d{2}\.\d{4}` at position `i` of `s`. */
  predicate DatePatternAt(s: string, i: nat) {
    i + 10 <= |s| && HasDateShape(s[i..i + 10], '.')
  }

  /** The match of the expiry pattern that starts at `i`, as its captured date text. */
  function ExpMatchAt(s: string, i: nat, tag: string): Option<string> {
    if !StartsAt(s, i, tag) then None
    else
      var j := SkipWhite(s, i + |tag|);
      if !StartsAt(s, j, SupportUntil) then None
      else
        var k := SkipWhite(s, j + |SupportUntil|);
        if DatePatternAt(s, k) then Some(s[k..k + 10]) else None
  }

  /** The expiry pattern read as a language: at `i` the tag, white space up to `j`, the
      words `Поддержка до:` at `j`, white space up to `k`, and a date pattern at `k`. */
  ghost predicate ExpPattern(s: string, i: nat, tag: string, j: nat, k: nat) {
    StartsAt(s, i, tag) && i + |tag| <= j <= |s| && AllWhite(s, i + |tag|, j)
    && StartsAt(s, j, SupportUntil) && j + |SupportUntil| <= k <= |s|
    && AllWhite(s, j + |SupportUntil|, k) && DatePatternAt(s, k)
  }

  /** Every match the scanner reports is a match of the pattern. */
  lemma ExpMatchAtSound(s: string, i: nat, tag: string) returns (j: nat, k: nat)
    requires ExpMatchAt(s, i, tag).Some?
    ensures ExpPattern(s, i, tag, j, k) && ExpMatchAt(s, i, tag).value == s[k..k + 10]
  {
    j := SkipWhite(s, i + |tag|);
    k := SkipWhite(s, j + |SupportUntil|);
  }

  /** Every match of the pattern is found by the scanner, with the same captured date. */
  lemma ExpMatchAtComplete(s: string, i: nat, tag: string, j: nat, k: nat)
    requires ExpPattern(s, i, tag, j, k)
    ensures ExpMatchAt(s, i, tag) == Some(s[k..k + 10])
  {
    assert s[j] == s[j..j + |SupportUntil|][0] == 'П';
    assert !IsWhite(s[j]);
    SkipWhiteUnique(s, i + |tag|, j);
    assert IsDigit(s[k..k + 10][0]);
    DigitNotWhite(s[k]);
    SkipWhiteUnique(s, j + |SupportUntil|, k);
  }

  /** `Regex.Match`: the leftmost position at or after `i` where the pattern matches. */
  function FirstExpMatch(s: string, tag: string, i: nat): (r: Option<(nat, string)>)
    requires i <= |s|
    ensures r.Some? ==> i <= r.value.0 <= |s| && ExpMatchAt(s, r.value.0, tag) == Some(r.value.1)
    ensures forall p: nat :: i <= p <= |s| && (r.None? || p < r.value.0) ==> ExpMatchAt(s, p, tag).None?
    decreases |s| - i
  {
    match ExpMatchAt(s, i, tag)
    case Some(d) => Some((i, d))
    case None => if i == |s| then None else FirstExpMatch(s, tag, i + 1)
  }

  /** The shared body of the two expiry finders. No match gives `default`, which is a
      success holding `DateTime.MinValue`; a match whose date does not exist is a failure. */
  function FindExp(data: string, tag: string): (r: Result<Date>)
    ensures r.Failure? ==> r.error == ParseDateError
    ensures r.Success? ==> Valid(r.value)
  {
    match FirstExpMatch(data, tag, 0)
    case None => Success(MinDate)
    case Some((_, digits)) =>
      match ParseDate(digits, '.')
      case Some(d) => Success(d)
      case None => Failure(ParseDateError)
  }

  /** Only the leftmost match decides: its date, or "Failed to parse date." when it is not a
      real date, whatever later matches hold. */
  lemma FindExpLeftmost(data: string, tag: string, p: nat)
    requires p <= |data| && ExpMatchAt(data, p, tag).Some?
    requires forall q: nat :: q < p ==> ExpMatchAt(data, q, tag).None?
    ensures ParseDate(ExpMatchAt(data, p, tag).value, '.').Some? ==>
      FindExp(data, tag) == Success(ParseDate(ExpMatchAt(data, p, tag).value, '.').value)
    ensures ParseDate(ExpMatchAt(data, p, tag).value, '.').None? ==>
      FindExp(data, tag) == Failure(ParseDateError)
  {
    var r := FirstExpMatch(data, tag, 0);
    assert r.Some?;
    assert r.value.0 == p;
  }

  /** Without any match the result is the default success, `DateTime.MinValue`. */
  lemma FindExpNoMatch(data: string, tag: string)
    requires forall q: nat :: q <= |data| ==> ExpMatchAt(data, q, tag).None?
    ensures FindExp(data, tag) == Success(MinDate)
  {
  }

  /** `FindA0LicenseExp`: the expiry date of the `[А0]` entry. */
  function FindA0LicenseExp(data: string): (r: Result<Date>)
    ensures r.Failure? ==> r.error == ParseDateError
    ensures r.Success? ==> Valid(r.value)
    ensures r == FindExp(data, A0Tag)
  {
    FindExp(data, A0Tag)
  }

  /** `FindPIRLicenseExp`: the same scanner with the `[ПИР]` tag. */
  function FindPIRLicenseExp(data: string): (r: Result<Date>)
    ensures r.Failure? ==> r.error == ParseDateError
    ensures r.Success? ==> Valid(r.value)
    ensures r == FindExp(data, PirTag)
  {
    FindExp(data, PirTag)
  }

  // ---------------------------------------------------------------------------------------
  // FindLicenseType: `Sentinel(?:\s+HL)?`, first matching line
  // ---------------------------------------------------------------------------------------

  /** The text matched by `Sentinel(?:\s+HL)?` in one line: the leftmost `Sentinel`,
      extended by the white space and `HL` that follow it when they do. */
  function SentinelMatch(line: string): Option<string> {
    match IndexOf(line, Sentinel, 0)
    case None => None
    case Some(p) => Some(MatchFrom(line, p))
  }

  /** The match that starts with the `Sentinel` at `p`. */
  function MatchFrom(line: string, p: nat): string
    requires p + |Sentinel| <= |line|
  {
    var j := SkipWhite(line, p + |Sentinel|);
    if j > p + |Sentinel| && StartsAt(line, j, Hl) then line[p..j + |Hl|] else Sentinel
  }

  /** The two shapes a license type can have: `Sentinel`, or `Sentinel`, white space, `HL`. */
  predicate IsLicenseType(v: string) {
    v == Sentinel
    || (|v| > |Sentinel| + |Hl| && StartsWith(v, Sentinel) && EndsWith(v, Hl)
        && AllWhite(v, |Sentinel|, |v| - |Hl|))
  }

  /** A line has a match exactly when it contains `Sentinel`, and the match has one of the
      two license-type shapes. */
  lemma SentinelMatchShape(line: string)
    ensures SentinelMatch(line).Some? <==> Contains(line, Sentinel)
    ensures SentinelMatch(line).Some? ==> IsLicenseType(SentinelMatch(line).value)
  {
    IndexOfContains(line, Sentinel);
    match IndexOf(line, Sentinel, 0)
    case None =>
    case Some(p) =>
      MatchFromShape(line, p);
  }

  lemma MatchFromShape(line: string, p: nat)
    requires StartsAt(line, p, Sentinel)
    ensures IsLicenseType(MatchFrom(line, p))
  {
    var j := SkipWhite(line, p + |Sentinel|);
    if j > p + |Sentinel| && StartsAt(line, j, Hl) {
      var v := line[p..j + |Hl|];
      assert StartsWith(v, Sentinel) by {
        assert v[..|Sentinel|] == line[p..p + |Sentinel|];
      }
      assert EndsWith(v, Hl) by {
        assert v[|v| - |Hl|..] == line[j..j + |Hl|];
      }
      assert AllWhite(v, |Sentinel|, |v| - |Hl|) by {
        assert forall k :: |Sentinel| <= k < |v| - |Hl| ==> v[k] == line[p + k];
      }
      assert |v| > |Sentinel| + |Hl|;
      assert MatchFrom(line, p) == v;
    } else {
      assert MatchFrom(line, p) == Sentinel;
    }
  }

  /** The optional `\s+HL` is taken whenever it is present after the leftmost `Sentinel`. */
  lemma SentinelMatchTakesHl(line: string, p: nat, j: nat)
    requires IndexOf(line, Sentinel, 0) == Some(p)
    requires p + |Sentinel| < j <= |line| && AllWhite(line, p + |Sentinel|, j) && StartsAt(line, j, Hl)
    ensures SentinelMatch(line) == Some(line[p..j + |Hl|])
  {
    assert SkipWhite(line, p + |Sentinel|) == j by {
      assert line[j] == line[j..j + |Hl|][0] == 'H';
      assert !IsWhite(line[j]);
      SkipWhiteUnique(line, p + |Sentinel|, j);
    }
    assert MatchFrom(line, p) == line[p..j + |Hl|];
  }

  /** `FindLicenseType`: the match in the first line that has one. */
  function FindLicenseType(data: seq<string>): (r: Result<string>)
    ensures r.Failure? <==> forall line <- data :: !Contains(line, Sentinel)
    ensures r.Failure? ==> r.error == LicenseTypeError
    ensures r.Success? ==> IsLicenseType(r.value) && StartsWith(r.value, Sentinel)
  {
    if data == [] then Failure(LicenseTypeError)
    else
      SentinelMatchShape(data[0]);
      match SentinelMatch(data[0])
      case Some(v) => Success(v)
      case None =>
        assert forall line <- data :: line == data[0] || line in data[1..];
        FindLicenseType(data[1..])
  }

  /** The first line containing `Sentinel` decides the license type. */
  lemma {:induction false} FindLicenseTypeFirst(data: seq<string>, k: nat)
    requires k < |data| && Contains(data[k], Sentinel)
    requires forall i :: 0 <= i < k ==> !Contains(data[i], Sentinel)
    ensures FindLicenseType(data) == Success(SentinelMatch(data[k]).value)
  {
    SentinelMatchShape(data[0]);
    if k > 0 {
      FindLicenseTypeFirst(data[1..], k - 1);
    }
  }

  // ---------------------------------------------------------------------------------------
  // FindNsi: `^\s*<escaped template>` with RegexOptions.Multiline
  // ---------------------------------------------------------------------------------------

  /** `\s*<t>` at `q`, with the backtracking the engine does when `t` itself starts with
      white space: some white run from `q` ends where `t` starts. */
  predicate WhiteThenAt(s: string, q: nat, t: string)
    decreases |s| - q
  {
    StartsAt(s, q, t) || (q < |s| && IsWhite(s[q]) && WhiteThenAt(s, q + 1, t))
  }

  /** `^` under `RegexOptions.Multiline`: the start of the text or just after a line feed. */
  predicate IsLineStart(s: string, p: nat) {
    p == 0 || (0 < p <= |s| && s[p - 1] == '\n')
  }

  predicate NsiMatchFrom(s: string, t: string, p: nat)
    requires p <= |s|
    decreases |s| - p
  {
    (IsLineStart(s, p) && WhiteThenAt(s, p, t)) || (p < |s| && NsiMatchFrom(s, t, p + 1))
  }

  /** The regular expression of `FindNsi` matches somewhere in `line`. */
  predicate NsiMatches(line: string, t: string) {
    NsiMatchFrom(line, t, 0)
  }

  /** The pattern read as a language: a line start `p`, white space up to `q`, and the
      template taken literally at `q`. */
  ghost predicate NsiPattern(line: string, t: string, p: nat, q: nat) {
    p <= q <= |line| && IsLineStart(line, p) && AllWhite(line, p, q) && StartsAt(line, q, t)
  }

  lemma {:induction false} WhiteThenAtSound(s: string, q: nat, t: string) returns (r: nat)
    requires q <= |s| && WhiteThenAt(s, q, t)
    ensures q <= r <= |s| && AllWhite(s, q, r) && StartsAt(s, r, t)
    decreases |s| - q
  {
    if StartsAt(s, q, t) {
      r := q;
    } else {
      r := WhiteThenAtSound(s, q + 1, t);
    }
  }

  lemma {:induction false} WhiteThenAtComplete(s: string, q: nat, t: string, r: nat)
    requires q <= r <= |s| && AllWhite(s, q, r) && StartsAt(s, r, t)
    ensures WhiteThenAt(s, q, t)
    decreases r - q
  {
    if q < r {
      WhiteThenAtComplete(s, q + 1, t, r);
    }
  }

  lemma {:induction false} NsiMatchFromSound(s: string, t: string, p: nat) returns (p': nat, q: nat)
    requires p <= |s| && NsiMatchFrom(s, t, p)
    ensures p <= p' && NsiPattern(s, t, p', q)
    decreases |s| - p
  {
    if IsLineStart(s, p) && WhiteThenAt(s, p, t) {
      p' := p;
      q := WhiteThenAtSound(s, p, t);
    } else {
      p', q := NsiMatchFromSound(s, t, p + 1);
    }
  }

  lemma {:induction false} NsiMatchFromComplete(s: string, t: string, p: nat, p': nat, q: nat)
    requires p <= p' && NsiPattern(s, t, p', q)
    ensures NsiMatchFrom(s, t, p)
    decreases p' - p
  {
    if p == p' {
      WhiteThenAtComplete(s, p, t, q);
    } else {
      NsiMatchFromComplete(s, t, p + 1, p', q);
    }
  }

  /** The scanner agrees with the pattern in both directions. */
  lemma NsiMatchesIff(line: string, t: string)
    ensures NsiMatches(line, t) <==> exists p: nat, q: nat :: NsiPattern(line, t, p, q)
  {
    if NsiMatches(line, t) {
      var p, q := NsiMatchFromSound(line, t, 0);
    }
    if exists p: nat, q: nat :: NsiPattern(line, t, p, q) {
      var p: nat, q: nat :| NsiPattern(line, t, p, q);
      NsiMatchFromComplete(line, t, 0, p, q);
    }
  }

  /** On a line without line feeds (every line `ApplyFilter` passes in) the match is
      "after the leading white space, the line starts with the template". */
  lemma NsiMatchesOneLine(line: string, t: string)
    requires NoLineBreak(line)
    ensures NsiMatches(line, t) <==> exists q: nat :: NsiPattern(line, t, 0, q)
  {
    NsiMatchesIff(line, t);
    if NsiMatches(line, t) {
      var p: nat, q: nat :| NsiPattern(line, t, p, q);
      if p > 0 {
        assert IsLineBreak(line[p - 1]);
      }
      assert NsiPattern(line, t, 0, q);
    }
  }

  /** `FindNsi`: the first line that matches, or the empty string. */
  function FindNsi(data: seq<string>, template: string): (r: string)
    ensures r == [] || r in data
    ensures r != [] ==> NsiMatches(r, template)
  {
    if data == [] then []
    else if NsiMatches(data[0], template) then data[0]
    else FindNsi(data[1..], template)
  }

  lemma {:induction false} FindNsiFirst(data: seq<string>, template: string, k: nat)
    requires k < |data| && NsiMatches(data[k], template)
    requires forall i :: 0 <= i < k ==> !NsiMatches(data[i], template)
    ensures FindNsi(data, template) == data[k]
  {
    if k > 0 {
      FindNsiFirst(data[1..], template, k - 1);
    }
  }

  lemma {:induction false} FindNsiNone(data: seq<string>, template: string)
    requires forall line <- data :: !NsiMatches(line, template)
    ensures FindNsi(data, template) == []
  {
    if data != [] {
      assert data[0] in data;
      assert forall line <- data[1..] :: line in data;
      FindNsiNone(data[1..], template);
    }
  }

  /** On lines that are all non-empty, `FindNsi` finds something exactly when some line
      matches: the test `ApplyFilter` makes. */
  lemma {:induction false} FindNsiFound(data: seq<string>, template: string)
    requires forall i :: 0 <= i < |data| ==> data[i] != []
    ensures FindNsi(data, template) != [] <==> exists i :: 0 <= i < |data| && NsiMatches(data[i], template)
  {
    if data != [] && !NsiMatches(data[0], template) {
      FindNsiFound(data[1..], template);
      if exists i :: 0 <= i < |data| && NsiMatches(data[i], template) {
        var i :| 0 <= i < |data| && NsiMatches(data[i], template);
        assert data[1..][i - 1] == data[i];
      }
    }
  }

  // ---------------------------------------------------------------------------------------
  // FindPrices: a header `Справочник цен\s+"<template>"`, then the `с: … до: …` pairs
  // ---------------------------------------------------------------------------------------

  /** The header pattern at position `p` of a line. */
  predicate HeaderAt(line: string, p: nat, t: string) {
    StartsAt(line, p, PriceHeading)
    && var j := SkipWhite(line, p + |PriceHeading|);
       j > p + |PriceHeading| && StartsAt(line, j, "\"" + t + "\"")
  }

  /** `priceRegex.IsMatch(line)` */
  predicate IsPriceHeader(line: string, t: string) {
    exists p: nat | p <= |line| :: HeaderAt(line, p, t)
  }

  /** The first header line at or after `i`. */
  function FirstHeader(data: seq<string>, t: string, i: nat): (r: Option<nat>)
    requires i <= |data|
    ensures r.Some? ==> i <= r.value < |data| && IsPriceHeader(data[r.value], t)
    ensures forall q :: i <= q < |data| && (r.None? || q < r.value) ==> !IsPriceHeader(data[q], t)
    decreases |data| - i
  {
    if i == |data| then None
    else if IsPriceHeader(data[i], t) then Some(i)
    else FirstHeader(data, t, i + 1)
  }

  /** The date-pair pattern at position `i`: the two date texts and where the match ends. */
  function PairMatchAt(line: string, i: nat): (r: Option<(string, string, nat)>)
    ensures r.Some? ==> i < r.value.2 <= |line|
  {
    if !StartsAt(line, i, PriceFrom) then None
    else
      var a := SkipWhite(line, i + |PriceFrom|);
      if !DatePatternAt(line, a) then None
      else
        var b := SkipWhite(line, a + 10);
        if !StartsAt(line, b, PriceTo) then None
        else
          var c := SkipWhite(line, b + |PriceTo|);
          if !DatePatternAt(line, c) then None
          else Some((line[a..a + 10], line[c..c + 10], c + 10))
  }

  /** `dateRegex.Matches(line)`: the non-overlapping matches from left to right. */
  function PairMatches(line: string, i: nat): seq<(string, string)>
    requires i <= |line|
    decreases |line| - i
  {
    if i == |line| then []
    else
      match PairMatchAt(line, i)
      case Some((x, y, e)) => [(x, y)] + PairMatches(line, e)
      case None => PairMatches(line, i + 1)
  }

  /** The pairs whose two dates both parse, in order. */
  function ValidPairs(ms: seq<(string, string)>): (r: seq<(Date, Date)>)
    ensures forall pr <- r :: Valid(pr.0) && Valid(pr.1)
  {
    if ms == [] then []
    else
      var last := ms[|ms| - 1];
      ValidPairs(ms[..|ms| - 1])
      + (if ParseDate(last.0, '.').Some? && ParseDate(last.1, '.').Some?
         then [(ParseDate(last.0, '.').value, ParseDate(last.1, '.').value)] else [])
  }

  function LineDates(line: string): seq<(Date, Date)> {
    ValidPairs(PairMatches(line, 0))
  }

  /** The dates collected from line `k` on: every line's pairs, up to and including the
      first line that does not start with `с: `. */
  function CollectFrom(data: seq<string>, k: nat): seq<(Date, Date)>
    decreases |data| - k
  {
    if k >= |data| then []
    else LineDates(data[k]) + (if StartsWith(data[k], PriceLinePrefix) then CollectFrom(data, k + 1) else [])
  }

  /** What `FindPrices` computes. */
  function PricesOf(data: seq<string>, template: string): PriceModel {
    match FirstHeader(data, template, 0)
    case None => PriceModel(None, [])
    case Some(h) => PriceModel(Some(template), CollectFrom(data, h + 1))
  }

  /** The inner loop of `FindPrices`: every match of the date-pair pattern in `line`
      whose two dates parse is appended, in order. */
  method AppendLineDates(dates: seq<(Date, Date)>, line: string) returns (r: seq<(Date, Date)>)
    ensures r == dates + LineDates(line)
  {
    var ms := PairMatches(line, 0);
    r := dates;
    var m := 0;
    while m < |ms|
      invariant 0 <= m <= |ms|
      invariant r == dates + ValidPairs(ms[..m])
    {
      var start := ParseDate(ms[m].0, '.');
      var end := ParseDate(ms[m].1, '.');
      if start.Some? && end.Some? {
        r := r + [(start.value, end.value)];
      }
      assert ms[..m + 1][..m] == ms[..m];
      m := m + 1;
    }
    assert ms[..|ms|] == ms;
  }

  /** One line of the dates section that continues it. */
  lemma CollectStep(data: seq<string>, i: nat, before: seq<(Date, Date)>)
    requires i < |data| && StartsWith(data[i], PriceLinePrefix)
    ensures before + CollectFrom(data, i) == (before + LineDates(data[i])) + CollectFrom(data, i + 1)
  {
  }

  /** `FindPrices`, with its `found` flag and its early `break`. */
  method FindPrices(data: seq<string>, template: string) returns (priceModel: PriceModel)
    ensures priceModel == PricesOf(data, template)
  {
    var found := false;
    var name: Option<string> := None;
    var dates: seq<(Date, Date)> := [];
    ghost var h: nat := 0;
    var i := 0;
    while i < |data|
      invariant 0 <= i <= |data|
      invariant !found ==> name.None? && dates == []
      invariant !found ==> FirstHeader(data, template, 0) == FirstHeader(data, template, i)
      invariant found ==> FirstHeader(data, template, 0) == Some(h) && h < i
      invariant found ==> name == Some(template)
      invariant found ==> dates + CollectFrom(data, i) == CollectFrom(data, h + 1)
    {
      var line := data[i];
      if !found {
        if IsPriceHeader(line, template) {
          found := true;
          name := Some(template);
          h := i;
        }
      } else {
        ghost var before := dates;
        dates := AppendLineDates(dates, line);
        if !StartsWith(line, PriceLinePrefix) {
          assert dates == CollectFrom(data, h + 1);
          break;
        }
        CollectStep(data, i, before);
      }
      i := i + 1;
    }
    priceModel := PriceModel(name, dates);
  }

  /** `Name` is set exactly when some line is a header, and then to the template itself;
      with no header the dates stay empty. */
  lemma PricesName(data: seq<string>, template: string)
    ensures PricesOf(data, template).name.Some? <==> exists line <- data :: IsPriceHeader(line, template)
    ensures PricesOf(data, template).name.Some? ==> PricesOf(data, template).name.value == template
    ensures PricesOf(data, template).name.None? ==> PricesOf(data, template).dates == []
  {
    var r := FirstHeader(data, template, 0);
    if r.Some? {
      assert data[r.value] in data;
    }
  }

  /** Every collected pair consists of two real dates. */
  lemma {:induction false} CollectFromValid(data: seq<string>, k: nat)
    ensures forall pr <- CollectFrom(data, k) :: Valid(pr.0) && Valid(pr.1)
    decreases |data| - k
  {
    if k < |data| {
      CollectFromValid(data, k + 1);
    }
  }

  lemma {:induction false} CollectFromShift(pre: seq<string>, data: seq<string>, k: nat)
    ensures CollectFrom(pre + data, |pre| + k) == CollectFrom(data, k)
    decreases |data| - k
  {
    if k < |data| {
      var whole := pre + data;
      var line := data[k];
      assert whole[|pre| + k] == line;
      if StartsWith(line, PriceLinePrefix) {
        CollectFromShift(pre, data, k + 1);
        assert CollectFrom(whole, |pre| + k) == LineDates(line) + CollectFrom(whole, |pre| + k + 1);
      } else {
        assert CollectFrom(whole, |pre| + k) == LineDates(line);
      }
    }
  }

  lemma {:induction false} FirstHeaderShift(pre: seq<string>, data: seq<string>, t: string, i: nat)
    requires i <= |pre|
    requires forall line <- pre :: !IsPriceHeader(line, t)
    ensures FirstHeader(pre + data, t, i) ==
      (match FirstHeader(data, t, 0) case None => None case Some(h) => Some(|pre| + h))
    decreases |pre + data| - i
  {
    if i < |pre| {
      assert (pre + data)[i] == pre[i];
      FirstHeaderShift(pre, data, t, i + 1);
    } else {
      var r := FirstHeader(pre + data, t, i);
      var r' := FirstHeader(data, t, 0);
      if r.Some? {
        assert (pre + data)[r.value] == data[r.value - |pre|];
      }
      if r'.Some? {
        assert (pre + data)[|pre| + r'.value] == data[r'.value];
      }
    }
  }

  /** Lines before the first header are ignored: prefixing lines that hold no header
      changes nothing. */
  lemma PricesIgnorePrefix(pre: seq<string>, data: seq<string>, template: string)
    requires forall line <- pre :: !IsPriceHeader(line, template)
    ensures PricesOf(pre + data, template) == PricesOf(data, template)
  {
    FirstHeaderShift(pre, data, template, 0);
    match FirstHeader(data, template, 0)
    case None =>
    case Some(h) => CollectFromShift(pre, data, h + 1);
  }

  lemma {:induction false} CollectFromStops(data: seq<string>, rest: seq<string>, k: nat, e: nat)
    requires k <= e < |data| && !StartsWith(data[e], PriceLinePrefix)
    ensures CollectFrom(data + rest, k) == CollectFrom(data, k)
    decreases e - k
  {
    var full := data + rest;
    assert k < |data| <= |full| && full[k] == data[k];
    var tail := if StartsWith(data[k], PriceLinePrefix) then CollectFrom(data, k + 1) else [];
    var tail' := if StartsWith(full[k], PriceLinePrefix) then CollectFrom(full, k + 1) else [];
    if k < e {
      CollectFromStops(data, rest, k + 1, e);
    }
    assert tail' == tail;
    assert CollectFrom(full, k) == LineDates(data[k]) + tail';
    assert CollectFrom(data, k) == LineDates(data[k]) + tail;
  }

  /** The section ends with the first line after the header that does not start with
      `с: `: whatever follows that line changes nothing. */
  lemma PricesStopAtSectionEnd(data: seq<string>, rest: seq<string>, template: string, h: nat, e: nat)
    requires FirstHeader(data, template, 0) == Some(h)
    requires h < e < |data| && !StartsWith(data[e], PriceLinePrefix)
    ensures PricesOf(data + rest, template) == PricesOf(data, template)
  {
    FirstHeaderPrefix(data, rest, template, 0);
    CollectFromStops(data, rest, h + 1, e);
  }

  lemma {:induction false} FirstHeaderPrefix(data: seq<string>, rest: seq<string>, t: string, i: nat)
    requires i <= |data| && FirstHeader(data, t, i).Some?
    ensures FirstHeader(data + rest, t, i) == FirstHeader(data, t, i)
    decreases |data| - i
  {
    assert (data + rest)[i] == data[i];
    if !IsPriceHeader(data[i], t) {
      FirstHeaderPrefix(data, rest, t, i + 1);
    }
  }
}
