/** Decimal digits: the numbers they mean, and the digits a number prints as. */
module Decimals {
  import opened Prelude

  predicate IsDigit(c: char) {
    '0' <= c <= '9'
  }

  predicate AllDigits(s: string) {
    forall c :: c in s ==> IsDigit(c)
  }

  function DigitOf(c: char): nat
    requires IsDigit(c)
  {
    c as int - '0' as int
  }

  function ValueOf(s: string): nat
    requires AllDigits(s)
  {
    if s == [] then 0 else ValueOf(s[..|s| - 1]) * 10 + DigitOf(s[|s| - 1])
  }

  function Printed(n: nat): (s: string)
    ensures s != [] && AllDigits(s)
  {
    var c := ('0' as int + n % 10) as char;
    if n < 10 then [c] else Printed(n / 10) + [c]
  }

  lemma {:induction false} PrintedReadsBack(n: nat)
    ensures ValueOf(Printed(n)) == n
    ensures n > 0 ==> Printed(n)[0] != '0'
  {
    if n >= 10 {
      PrintedReadsBack(n / 10);
      assert Printed(n)[..|Printed(n)| - 1] == Printed(n / 10);
    } else {
      assert Printed(n)[..0] == [];
    }
  }

  lemma {:induction false} ReadPrintsBack(s: string)
    requires s != [] && AllDigits(s) && s[0] != '0'
    ensures ValueOf(s) > 0 && Printed(ValueOf(s)) == s
  {
    var front, last := s[..|s| - 1], s[|s| - 1];
    assert s == front + [last];
    assert ('0' as int + DigitOf(last)) as char == last;
    if front == [] {
      assert ValueOf(front) == 0;
    } else {
      ReadPrintsBack(front);
      assert ValueOf(s) == ValueOf(front) * 10 + DigitOf(last);
      assert ValueOf(s) / 10 == ValueOf(front) && ValueOf(s) % 10 == DigitOf(last);
    }
  }
}

/** The text form of a lobby revision: a positive 64-bit integer without sign or leading zero. */
module Revisions {
  import opened Prelude
  import opened Decimals
  import Rooms

  const MAX_REVISION := Rooms.MAX_REVISION

  /** Parsing digits fails when the number does not fit. */
  function ParseInt(s: string): Option<int>
    requires AllDigits(s)
  {
    if s == [] || ValueOf(s) > MAX_REVISION then None else Some(ValueOf(s))
  }

  function New(value: int): Option<int> {
    if value > 0 then Some(value) else None
  }

  function Parse(s: string): Option<int> {
    if (s != [] && s[0] == '0') || !AllDigits(s) then None
    else match ParseInt(s)
      case None => None
      case Some(v) => New(v)
  }

  function Next(revision: int): Option<int> {
    if revision + 1 > MAX_REVISION then None else New(revision + 1)
  }

  /** What is parsed is what prints as it, and only that: one text for every positive 64-bit number. */
  lemma ParseInvertsPrint(s: string, v: int)
    ensures Parse(s) == Some(v) <==> 0 < v <= MAX_REVISION && s == Printed(v)
  {
    if 0 < v <= MAX_REVISION && s == Printed(v) {
      PrintedReadsBack(v);
    } else if Parse(s) == Some(v) {
      ReadPrintsBack(s);
    }
  }

  /**
   Counting on in text: the successor of a parsed revision is what the next number's text parses as, so there is none
   exactly when that text is no revision, and no revision text lies between the two.
   */
  lemma NextRevision(s: string, v: int)
    requires Parse(s) == Some(v)
    ensures Parse(Printed(v + 1)) == Next(v) && Printed(v + 1) != s
    ensures forall t, w :: Parse(t) == Some(w) && w > v ==> Next(v).Some? && Next(v).value <= w
  {
    ParseInvertsPrint(s, v);
    PrintedReadsBack(v);
    PrintedReadsBack(v + 1);
    ParseInvertsPrint(Printed(v + 1), v + 1);
    forall t, w | Parse(t) == Some(w) && w > v ensures Next(v).Some? && Next(v).value <= w {
      ParseInvertsPrint(t, w);
    }
  }
}
