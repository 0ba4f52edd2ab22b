/** The revision number of a chain, read from the suffix of its chain id
    (`<chain>-<revision-number>`), as `Module::new` does with
    `chain_id.split('-').last()` and `str::parse::<u64>`. */
module ChainRevision {
  import opened Outcomes
  import opened Integers

  // ---------------------------------------------------------------------
  // `str::split`

  /** Re-joins pieces with the separator between consecutive pieces. */
  function Join(parts: seq<string>, sep: char): string
    requires |parts| >= 1
  {
    if |parts| == 1 then parts[0] else parts[0] + [sep] + Join(parts[1..], sep)
  }

  /** `s.split(sep)`: never empty, no piece holds the separator, and joining
      the pieces gives `s` back. */
  function SplitOn(s: string, sep: char): (parts: seq<string>)
    ensures |parts| >= 1
    ensures forall i :: 0 <= i < |parts| ==> sep !in parts[i]
    ensures Join(parts, sep) == s
  {
    if |s| == 0 then [""]
    else
      var rest := SplitOn(s[1..], sep);
      if s[0] == sep then
          [""] + rest
      else
        var parts := [[s[0]] + rest[0]] + rest[1..];
        assert parts[1..] == rest[1..];
        parts
  }

  /** Splitting at one occurrence of the separator splits the two sides
      independently. */
  lemma {:induction false} SplitAround(x: string, sep: char, y: string)
    ensures SplitOn(x + [sep] + y, sep) == SplitOn(x, sep) + SplitOn(y, sep)
  {
    if |x| == 0 {
      assert x + [sep] + y == [sep] + y;
      assert ([sep] + y)[1..] == y;
    } else {
      assert (x + [sep] + y)[1..] == x[1..] + [sep] + y;
      SplitAround(x[1..], sep, y);
    }
  }

  /** A string without the separator is a single piece. */
  lemma {:induction false} SplitWithoutSeparator(y: string, sep: char)
    requires sep !in y
    ensures SplitOn(y, sep) == [y]
  {
    if |y| > 0 {
      assert sep !in y[1..];
      SplitWithoutSeparator(y[1..], sep);
      assert [y[0]] + y[1..] == y;
    }
  }

  /** `Iterator::last`. */
  function Last<T>(s: seq<T>): (r: Option<T>)
    ensures r.Some? <==> |s| > 0
    ensures |s| > 0 ==> r.value == s[|s| - 1]
  {
    if |s| == 0 then None else Some(s[|s| - 1])
  }

  // ---------------------------------------------------------------------
  // `<u64 as FromStr>::from_str`

  /** The kinds of `ParseIntError` an unsigned parse can report. */
  datatype ParseIntError = Empty | InvalidDigit | PosOverflow

  predicate IsDigit(c: char) {
    '0' <= c <= '9'
  }

  function DigitValue(c: char): nat
    requires IsDigit(c)
  {
    (c - '0') as nat
  }

  predicate AllDigits(s: string) {
    forall i :: 0 <= i < |s| ==> IsDigit(s[i])
  }

  /** The number a string of decimal digits denotes (most significant first). */
  function DecimalValue(s: string): nat
    requires AllDigits(s)
  {
    if |s| == 0 then 0 else DecimalValue(s[..|s| - 1]) * 10 + DigitValue(s[|s| - 1])
  }

  /** The digits `from_str` reads: a leading `+` is dropped, unless it is the
      whole input. */
  function DigitsOf(s: string): string
    requires |s| > 0
  {
    if s[0] == '+' && |s| > 1 then s[1..] else s
  }

  /** The digit loop: a non-digit is `InvalidDigit`, leaving the `u64` range is
      `PosOverflow`, whichever comes first from the left. */
  function ParseDigits(ds: string, acc: U64): (r: Result<U64, ParseIntError>)
    decreases |ds|
  {
    if |ds| == 0 then Ok(acc)
    else if !IsDigit(ds[0]) then Err(InvalidDigit)
    else if acc * 10 + DigitValue(ds[0]) >= U64Limit then Err(PosOverflow)
    else ParseDigits(ds[1..], acc * 10 + DigitValue(ds[0]))
  }

  /** `s.parse::<u64>()`: succeeds exactly on the non-empty digit strings
      (optionally after one `+`) whose value fits a `u64`, with that value. */
  function ParseU64(s: string): (r: Result<U64, ParseIntError>)
    ensures |s| == 0 ==> r == Err(Empty)
    ensures r.Ok? <==> |s| > 0 && AllDigits(DigitsOf(s)) && DecimalValue(DigitsOf(s)) < U64Limit
    ensures r.Ok? ==> r.value == DecimalValue(DigitsOf(s))
  {
    if |s| == 0 then Err(Empty)
    else
      var r := ParseDigits(DigitsOf(s), 0);
      ParseDigitsMeaning(DigitsOf(s), 0);
      r
  }

  /** What the digit loop computes from an accumulator `acc`: success exactly
      when every character is a digit and `acc` followed by those digits fits,
      and then that number. */
  lemma {:induction false} ParseDigitsMeaning(ds: string, acc: U64)
    ensures ParseDigits(ds, acc).Ok?
            <==> AllDigits(ds) && acc * Pow10(|ds|) + DecimalValue'(ds) < U64Limit
    ensures ParseDigits(ds, acc).Ok? ==> ParseDigits(ds, acc).value == acc * Pow10(|ds|) + DecimalValue(ds)
    decreases |ds|
  {
    if |ds| == 0 {
    } else if !IsDigit(ds[0]) {
    } else {
      var next := acc * 10 + DigitValue(ds[0]);
      if next >= U64Limit {
        GrowsWithDigits(ds, acc);
      } else {
        ParseDigitsMeaning(ds[1..], next);
        assert AllDigits(ds) <==> AllDigits(ds[1..]);
        if AllDigits(ds) {
          ShiftDigit(ds, acc);
        }
      }
    }
  }

  function Pow10(n: nat): (p: nat)
    ensures p >= 1
  {
    if n == 0 then 1 else 10 * Pow10(n - 1)
  }

  /** `DecimalValue` extended to any string: 0 when a character is not a digit. */
  function DecimalValue'(s: string): nat {
    if AllDigits(s) then DecimalValue(s) else 0
  }

  /** Reading the first digit into the accumulator. */
  lemma {:induction false} ShiftDigit(ds: string, acc: nat)
    requires |ds| > 0 && AllDigits(ds)
    ensures acc * Pow10(|ds|) + DecimalValue(ds)
            == (acc * 10 + DigitValue(ds[0])) * Pow10(|ds| - 1) + DecimalValue(ds[1..])
    decreases |ds|
  {
    var k := acc * 10 + DigitValue(ds[0]);
    if |ds| == 1 {
      assert ds[..0] == [] && ds[1..] == [];
    } else {
      var init := ds[..|ds| - 1];
      var e := DigitValue(ds[|ds| - 1]);
      assert init[0] == ds[0] && init[1..] == ds[1..][..|ds[1..]| - 1];
      assert AllDigits(init);
      ShiftDigit(init, acc);
      var q := Pow10(|ds| - 2);
      var x := DecimalValue(init);
      var y := DecimalValue(init[1..]);
      assert DecimalValue(ds) == x * 10 + e;
      assert DecimalValue(ds[1..]) == y * 10 + e;
      assert Pow10(|ds|) == 100 * q;
      assert Pow10(|ds| - 1) == 10 * q;
      ScaleByTen(acc, q, x, k, y, e);
    }
  }

  lemma ScaleByTen(acc: int, q: int, x: int, k: int, y: int, e: int)
    requires acc * (10 * q) + x == k * q + y
    ensures acc * (100 * q) + (x * 10 + e) == k * (10 * q) + (y * 10 + e)
  {
    assert acc * (100 * q) == 10 * (acc * (10 * q));
    assert k * (10 * q) == 10 * (k * q);
  }

  /** Once the accumulator leaves the `u64` range, reading more digits keeps it
      out. */
  lemma {:induction false} GrowsWithDigits(ds: string, acc: nat)
    requires |ds| > 0 && IsDigit(ds[0])
    requires acc * 10 + DigitValue(ds[0]) >= U64Limit
    ensures !(AllDigits(ds) && acc * Pow10(|ds|) + DecimalValue'(ds) < U64Limit)
  {
    if AllDigits(ds) {
      ShiftDigit(ds, acc);
      var next := acc * 10 + DigitValue(ds[0]);
      AtLeastItself(next, Pow10(|ds| - 1));
      assert acc * Pow10(|ds|) + DecimalValue'(ds) >= next * Pow10(|ds| - 1);
    }
  }

  lemma AtLeastItself(a: nat, b: nat)
    requires b >= 1
    ensures a * b >= a
  {
    assert a * b == a + a * (b - 1);
  }

  // ---------------------------------------------------------------------
  // Decimal rendering, the inverse of the parse

  function DigitChar(d: nat): (c: char)
    requires d < 10
    ensures IsDigit(c) && DigitValue(c) == d
  {
    ('0' as int + d) as char
  }

  /** The decimal rendering of `n`, without leading zeros. */
  function Decimal(n: nat): (s: string)
    ensures |s| > 0 && AllDigits(s)
    ensures '-' !in s && s[0] != '+'
  {
    if n < 10 then [DigitChar(n)] else Decimal(n / 10) + [DigitChar(n % 10)]
  }

  lemma {:induction false} DecimalValueOfDecimal(n: nat)
    ensures DecimalValue(Decimal(n)) == n
  {
    if n >= 10 {
      DecimalValueOfDecimal(n / 10);
      assert Decimal(n)[..|Decimal(n)| - 1] == Decimal(n / 10);
    }
  }

  /** Parsing the rendering of any `u64` gives the number back. */
  lemma ParseDecimal(n: U64)
    ensures ParseU64(Decimal(n)) == Ok(n)
  {
    DecimalValueOfDecimal(n);
  }

  // ---------------------------------------------------------------------
  // The chain id

  /** `ChainIdParseError`: the offending chain id and the parse failure, if any. */
  datatype ChainIdParseError = ChainIdParseError(found: string, source: Option<ParseIntError>)

  /** The revision of a chain id: the part after its last `-` (all of it when
      there is none), parsed as a `u64`. */
  function ParseChainRevision(chainId: string): (r: Result<U64, ChainIdParseError>)
    ensures var parts := SplitOn(chainId, '-');
            && (r.Ok? <==> ParseU64(parts[|parts| - 1]).Ok?)
            && (r.Ok? ==> r.value == ParseU64(parts[|parts| - 1]).value)
    ensures r.Err? ==> r.error.found == chainId && r.error.source.Some?
  {
    match Last(SplitOn(chainId, '-'))
    case None => Err(ChainIdParseError(chainId, None))
    case Some(suffix) =>
      match ParseU64(suffix)
      case Ok(n) => Ok(n)
      case Err(e) => Err(ChainIdParseError(chainId, Some(e)))
  }

  /** A chain id of the documented form `<chain>-<revision>` yields its revision,
      whatever the chain name (dashes included). */
  lemma {:induction false} RevisionOfFormattedChainId(name: string, revision: U64)
    ensures ParseChainRevision(name + "-" + Decimal(revision)) == Ok(revision)
  {
    var d := Decimal(revision);
    assert name + "-" + d == name + ['-'] + d;
    SplitAround(name, '-', d);
    SplitWithoutSeparator(d, '-');
    ParseDecimal(revision);
  }
}
