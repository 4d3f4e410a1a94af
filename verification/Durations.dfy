/**
 The duration parser: days, hours, minutes and seconds of ISO 8601 (section
 4.4.3.2 of ISO 8601:2004), exact up to the largest 64-bit number.
 */
module Durations {
  import opened Prelude
  import opened Decimals

  const MAX_SECONDS := 0xffff_ffff_ffff_ffff

  /** The seconds one unit letter is worth; each letter has its place before or after the `T`. */
  function Scale(c: char, inTime: bool): Option<nat> {
    if c == 'D' && !inTime then Some(86400)
    else if c == 'H' && inTime then Some(3600)
    else if c == 'M' && inTime then Some(60)
    else if c == 'S' && inTime then Some(1)
    else None
  }

  /** Days stand before the `T`; hours, minutes and seconds after it; years, months and weeks are not taken. */
  lemma UnitsAre(c: char, inTime: bool, n: nat)
    ensures Scale(c, inTime) == Some(n) <==>
              (c, inTime, n) in {('D', false, 86400), ('H', true, 3600), ('M', true, 60), ('S', true, 1)}
  {
  }

  // ---------------------------------------------------------------- the grammar

  datatype Item = Amount(digits: string, unit: char) | TimeMark

  predicate WellFormed(items: seq<Item>, inTime: bool) {
    items == []
    || match items[0]
       case TimeMark => !inTime && WellFormed(items[1..], true)
       case Amount(digits, unit) =>
         digits != [] && AllDigits(digits) && Scale(unit, inTime).Some? && WellFormed(items[1..], inTime)
  }

  function Written(items: seq<Item>): string {
    if items == [] then []
    else (match items[0] case TimeMark => ['T'] case Amount(digits, unit) => digits + [unit]) + Written(items[1..])
  }

  function Worth(digits: string, unit: char, inTime: bool): nat
    requires AllDigits(digits) && Scale(unit, inTime).Some?
  {
    ValueOf(digits) * Scale(unit, inTime).value
  }

  /** The mathematical sum, however large. */
  function Meaning(items: seq<Item>, inTime: bool): nat
    requires WellFormed(items, inTime)
  {
    if items == [] then 0
    else match items[0]
      case TimeMark => Meaning(items[1..], true)
      case Amount(digits, unit) => Worth(digits, unit, inTime) + Meaning(items[1..], inTime)
  }

  /** The strings of the grammar: a `P`, and at least one character after it. */
  ghost predicate Denotes(s: string, items: seq<Item>) {
    s == "P" + Written(items) && items != [] && WellFormed(items, false)
  }

  // ---------------------------------------------------------------- the scan

  /** What reading on from here adds up to; `checked` makes every sum and product fit 64 bits. */
  function Scan(rest: string, total: nat, number: string, inTime: bool, checked: bool): Option<nat>
    requires AllDigits(number)
  {
    if rest == [] then (if number == [] then Some(total) else None)
    else
      var c := rest[0];
      if IsDigit(c) then Scan(rest[1..], total, number + [c], inTime, checked)
      else if c == 'T' && number == [] && !inTime then Scan(rest[1..], total, number, true, checked)
      else if Scale(c, inTime).None? || number == [] then None
      else if checked && (ValueOf(number) > MAX_SECONDS || Worth(number, c, inTime) > MAX_SECONDS
                          || total + Worth(number, c, inTime) > MAX_SECONDS) then None
      else Scan(rest[1..], total + Worth(number, c, inTime), [], inTime, checked)
  }

  function Seconds(s: string): Option<nat> {
    if |s| < 2 || s[0] != 'P' then None else Scan(s[1..], 0, [], false, true)
  }

  lemma {:induction false} ScanDigits(digits: string, rest: string, total: nat, number: string, inTime: bool,
                                      checked: bool)
    requires AllDigits(digits) && AllDigits(number)
    ensures Scan(digits + rest, total, number, inTime, checked) == Scan(rest, total, number + digits, inTime, checked)
  {
    if digits == [] {
      assert digits + rest == rest && number + digits == number;
    } else {
      assert (digits + rest)[1..] == digits[1..] + rest;
      ScanDigits(digits[1..], rest, total, number + [digits[0]], inTime, checked);
      assert number + [digits[0]] + digits[1..] == number + digits;
    }
  }

  lemma PrependMark(rest: seq<Item>)
    requires WellFormed(rest, true)
    ensures var items := [TimeMark] + rest;
      WellFormed(items, false) && Meaning(items, false) == Meaning(rest, true) && Written(items) == ['T'] + Written(rest)
  {
    assert ([TimeMark] + rest)[1..] == rest;
  }

  lemma PrependAmount(digits: string, unit: char, rest: seq<Item>, inTime: bool)
    requires WellFormed(rest, inTime) && digits != [] && AllDigits(digits) && Scale(unit, inTime).Some?
    ensures var items := [Amount(digits, unit)] + rest;
      && WellFormed(items, inTime) && Written(items) == digits + [unit] + Written(rest)
      && Meaning(items, inTime) == Worth(digits, unit, inTime) + Meaning(rest, inTime)
  {
    assert ([Amount(digits, unit)] + rest)[1..] == rest;
  }

  lemma ScanUnit(unit: char, rest: string, total: nat, number: string, inTime: bool)
    requires AllDigits(number) && number != [] && Scale(unit, inTime).Some?
    ensures Scan([unit] + rest, total, number, inTime, false) == Scan(rest, total + Worth(number, unit, inTime), [], inTime, false)
  {
    assert ([unit] + rest)[1..] == rest;
  }

  lemma ScanAmount(digits: string, unit: char, rest: string, total: nat, inTime: bool)
    requires AllDigits(digits) && digits != [] && Scale(unit, inTime).Some?
    ensures Scan(digits + ([unit] + rest), total, [], inTime, false)
            == Scan(rest, total + Worth(digits, unit, inTime), [], inTime, false)
  {
    ScanDigits(digits, [unit] + rest, total, [], inTime, false);
    assert [] + digits == digits;
    ScanUnit(unit, rest, total, digits, inTime);
  }

  lemma {:induction false} ScanReadsWritten(items: seq<Item>, total: nat, inTime: bool)
    requires WellFormed(items, inTime)
    ensures Scan(Written(items), total, [], inTime, false) == Some(total + Meaning(items, inTime))
  {
    if items != [] {
      var rest := Written(items[1..]);
      match items[0]
      case TimeMark =>
        assert Written(items) == ['T'] + rest;
        assert (['T'] + rest)[1..] == rest;
        ScanReadsWritten(items[1..], total, true);
      case Amount(digits, unit) =>
        assert Written(items) == digits + ([unit] + rest);
        ScanAmount(digits, unit, rest, total, inTime);
        ScanReadsWritten(items[1..], total + Worth(digits, unit, inTime), inTime);
    }
  }

  lemma UnitWasWritten(number: string, unit: char, rest: string, inTime: bool, more: seq<Item>)
    requires AllDigits(number) && number != [] && Scale(unit, inTime).Some?
    requires WellFormed(more, inTime) && [] + rest == Written(more)
    ensures var items := [Amount(number, unit)] + more;
      && WellFormed(items, inTime) && Written(items) == number + ([unit] + rest)
      && Meaning(items, inTime) == Worth(number, unit, inTime) + Meaning(more, inTime)
  {
    assert [] + rest == rest;
    PrependAmount(number, unit, more, inTime);
  }

  lemma MarkWasWritten(rest: string, more: seq<Item>)
    requires WellFormed(more, true) && [] + rest == Written(more)
    ensures var items := [TimeMark] + more;
      && WellFormed(items, false) && Written(items) == [] + (['T'] + rest) && Meaning(items, false) == Meaning(more, true)
  {
    assert [] + rest == rest;
    PrependMark(more);
  }

  lemma Rejoin(number: string, rest: string)
    requires rest != []
    ensures number + [rest[0]] + rest[1..] == number + ([rest[0]] + rest[1..]) == number + rest
  {
    assert rest == [rest[0]] + rest[1..];
  }

  /** Whatever scans was written from items that mean it. */
  lemma {:induction false} ScannedWasWritten(rest: string, total: nat, number: string, inTime: bool)
    returns (items: seq<Item>)
    requires AllDigits(number) && Scan(rest, total, number, inTime, false).Some?
    ensures WellFormed(items, inTime) && number + rest == Written(items)
    ensures Scan(rest, total, number, inTime, false) == Some(total + Meaning(items, inTime))
  {
    if rest == [] {
      items := [];
    } else {
      var c := rest[0];
      Rejoin(number, rest);
      if IsDigit(c) {
        items := ScannedWasWritten(rest[1..], total, number + [c], inTime);
      } else if c == 'T' && number == [] && !inTime {
        var more := ScannedWasWritten(rest[1..], total, [], true);
        MarkWasWritten(rest[1..], more);
        items := [TimeMark] + more;
      } else {
        var more := ScannedWasWritten(rest[1..], total + Worth(number, c, inTime), [], inTime);
        UnitWasWritten(number, c, rest[1..], inTime, more);
        items := [Amount(number, c)] + more;
      }
    }
  }

  lemma {:induction false} ScanGrows(rest: string, total: nat, number: string, inTime: bool)
    requires AllDigits(number) && Scan(rest, total, number, inTime, false).Some?
    ensures Scan(rest, total, number, inTime, false).value >= total
  {
    if rest != [] {
      var c := rest[0];
      if IsDigit(c) { ScanGrows(rest[1..], total, number + [c], inTime); }
      else if c == 'T' && number == [] && !inTime { ScanGrows(rest[1..], total, number, true); }
      else { ScanGrows(rest[1..], total + Worth(number, c, inTime), [], inTime); }
    }
  }

  lemma NoSmallerProduct(a: nat, b: nat)
    requires b >= 1
    ensures a <= a * b
  {
  }

  /** The checks on the way fail exactly when the whole sum does not fit. */
  lemma {:induction false} ChecksAreExact(rest: string, total: nat, number: string, inTime: bool)
    requires AllDigits(number) && total <= MAX_SECONDS
    ensures var whole := Scan(rest, total, number, inTime, false);
      Scan(rest, total, number, inTime, true) == if whole.Some? && whole.value <= MAX_SECONDS then whole else None
  {
    if rest != [] {
      var c := rest[0];
      if IsDigit(c) {
        ChecksAreExact(rest[1..], total, number + [c], inTime);
      } else if c == 'T' && number == [] && !inTime {
        ChecksAreExact(rest[1..], total, number, true);
      } else if Scale(c, inTime).Some? && number != [] {
        var value, scale := ValueOf(number), Scale(c, inTime).value;
        NoSmallerProduct(value, scale);
        if total + value * scale <= MAX_SECONDS {
          ChecksAreExact(rest[1..], total + value * scale, [], inTime);
        } else if Scan(rest, total, number, inTime, false).Some? {
          ScanGrows(rest[1..], total + value * scale, [], inTime);
        }
      }
    }
  }

  lemma AnswerWasWritten(s: string) returns (items: seq<Item>)
    requires Seconds(s).Some?
    ensures Denotes(s, items) && Meaning(items, false) == Seconds(s).value <= MAX_SECONDS
  {
    ChecksAreExact(s[1..], 0, [], false);
    items := ScannedWasWritten(s[1..], 0, [], false);
    assert [] + s[1..] == s[1..] && s == "P" + Written(items);
  }

  lemma WrittenIsAnswered(s: string, items: seq<Item>)
    requires Denotes(s, items) && Meaning(items, false) <= MAX_SECONDS
    ensures Seconds(s) == Some(Meaning(items, false))
  {
    assert s[1..] == Written(items) && Written(items) != [];
    ScanReadsWritten(items, 0, false);
    ChecksAreExact(s[1..], 0, [], false);
  }

  /** The parser is exact: it answers `n` for a string of the grammar whose sum is `n` and fits, and nothing otherwise. */
  lemma ParserIsExact(s: string, n: nat)
    ensures Seconds(s) == Some(n) <==> n <= MAX_SECONDS && exists items :: Denotes(s, items) && Meaning(items, false) == n
  {
    if Seconds(s) == Some(n) {
      var items := AnswerWasWritten(s);
    } else if n <= MAX_SECONDS && exists items :: Denotes(s, items) && Meaning(items, false) == n {
      var items :| Denotes(s, items) && Meaning(items, false) == n;
      WrittenIsAnswered(s, items);
    }
  }

  // ---------------------------------------------------------------- the printer

  function Canonical(n: nat): seq<Item> {
    [Amount(Printed(n / 86400), 'D')] + ([TimeMark] + ([Amount(Printed(n % 86400 / 3600), 'H')]
      + ([Amount(Printed(n % 3600 / 60), 'M')] + ([Amount(Printed(n % 60), 'S')] + []))))
  }

  /** Printing a number of seconds and parsing it back gives that number, for every number that fits. */
  lemma PrintedParsesBack(n: nat)
    requires n <= MAX_SECONDS
    ensures Seconds("P" + Written(Canonical(n))) == Some(n)
  {
    var items := Canonical(n);
    CanonicalMeans(n);
    assert Denotes("P" + Written(items), items);
    ParserIsExact("P" + Written(items), n);
  }

  lemma CanonicalMeans(n: nat)
    ensures WellFormed(Canonical(n), false) && Meaning(Canonical(n), false) == n
  {
    var d, h, m, s := n / 86400, n % 86400 / 3600, n % 3600 / 60, n % 60;
    PrintedReadsBack(d);
    PrintedReadsBack(h);
    PrintedReadsBack(m);
    PrintedReadsBack(s);
    var seconds := [Amount(Printed(s), 'S')] + [];
    var minutes := [Amount(Printed(m), 'M')] + seconds;
    var hours := [Amount(Printed(h), 'H')] + minutes;
    PrependAmount(Printed(s), 'S', [], true);
    PrependAmount(Printed(m), 'M', seconds, true);
    PrependAmount(Printed(h), 'H', minutes, true);
    PrependMark(hours);
    PrependAmount(Printed(d), 'D', [TimeMark] + hours, false);
    SplitSeconds(n);
  }

  lemma SplitSeconds(n: nat)
    ensures n / 86400 * 86400 + (n % 86400 / 3600 * 3600 + (n % 3600 / 60 * 60 + n % 60)) == n
  {
  }

  // ---------------------------------------------------------------- the loop

  const MIN_MUSIC := 60
  const MAX_MUSIC := 900

  /** The parser as it runs: a cursor, a running total, and the digits read so far. */
  method IsoSeconds(duration: string) returns (r: Option<nat>)
    ensures r == Seconds(duration)
    ensures r.Some? <==> exists items :: Denotes(duration, items) && Meaning(items, false) <= MAX_SECONDS
  {
    ParserExists(duration);
    if duration == [] || duration[0] != 'P' { return None; }
    var rest := duration[1..];
    if rest == [] { return None; }
    var total: nat := 0;
    var number := "";
    var inTime := false;
    while rest != []
      invariant AllDigits(number)
      invariant Scan(rest, total, number, inTime, true) == Seconds(duration)
      decreases |rest|
    {
      var c := rest[0];
      rest := rest[1..];
      if IsDigit(c) {
        number := number + [c];
      } else if c == 'T' && number == [] && !inTime {
        inTime := true;
      } else {
        var scale := Scale(c, inTime);
        if scale.None? || number == [] { return None; }
        var value := ValueOf(number);
        if value > MAX_SECONDS || value * scale.value > MAX_SECONDS { return None; }
        if total + value * scale.value > MAX_SECONDS { return None; }
        total := total + value * scale.value;
        number := "";
      }
    }
    r := if number == [] then Some(total) else None;
  }

  lemma ParserExists(s: string)
    ensures Seconds(s).Some? <==> exists items :: Denotes(s, items) && Meaning(items, false) <= MAX_SECONDS
  {
    if Seconds(s).Some? {
      ParserIsExact(s, Seconds(s).value);
    } else if exists items :: Denotes(s, items) && Meaning(items, false) <= MAX_SECONDS {
      var items :| Denotes(s, items) && Meaning(items, false) <= MAX_SECONDS;
      ParserIsExact(s, Meaning(items, false));
    }
  }

  /** A queue takes music from one to fifteen minutes. */
  predicate IsMusicLength(duration: string) {
    Seconds(duration).Some? && MIN_MUSIC <= Seconds(duration).value <= MAX_MUSIC
  }

  /** A duration is taken exactly when it is written in the grammar and means one to fifteen minutes, however it is split. */
  lemma MusicLengthExact(s: string)
    ensures IsMusicLength(s) <==> exists items :: Denotes(s, items) && 60 <= Meaning(items, false) <= 15 * 60
  {
    if IsMusicLength(s) {
      var items := AnswerWasWritten(s);
    } else if exists items :: Denotes(s, items) && MIN_MUSIC <= Meaning(items, false) <= MAX_MUSIC {
      var items :| Denotes(s, items) && MIN_MUSIC <= Meaning(items, false) <= MAX_MUSIC;
      WrittenIsAnswered(s, items);
    }
  }
}
