/** The .NET string and number primitives the converter relies on, modelled on
    `string`, a sequence of Unicode scalar values (not of UTF-16 code units
    as in .NET, which differs only outside the Basic Multilingual Plane): ordinal
    `StartsWith`, `Substring`, `Split(' ')`, `Int32.Parse`, `Int32.ToString`,
    and a recogniser for the decimal text `Single.Parse` accepts. */
module Text {
  import opened Results

  const MinInt32: int := -0x8000_0000
  const MaxInt32: int := 0x7FFF_FFFF

  predicate IsInt32(n: int) { MinInt32 <= n <= MaxInt32 }

  /** `s.StartsWith(prefix)`, compared character by character (ordinal). */
  predicate StartsWith(s: string, prefix: string) {
    |prefix| <= |s| && s[..|prefix|] == prefix
  }

  /** `s.Substring(start)`: the text from `start` on; past the end it throws. */
  function Substring(s: string, start: nat): (r: Result<string>)
    ensures r.Ok? <==> start <= |s|
    ensures r.Ok? ==> s[..start] + r.value == s
    ensures r.Err? ==> r.error == ArgumentOutOfRange
  {
    if start <= |s| then Ok(s[start..]) else Err(ArgumentOutOfRange)
  }

  /** The fields put back together with one space between neighbours. */
  function Join(fields: seq<string>): string
    requires |fields| >= 1
  {
    if |fields| == 1 then fields[0] else fields[0] + " " + Join(fields[1..])
  }

  /** `s.Split(' ')`: every space ends one field and starts the next, so empty
      fields are kept and the empty string gives one empty field. The three
      ensures clauses determine the result (see `SplitJoin`). */
  function Split(s: string): (fields: seq<string>)
    ensures |fields| >= 1
    ensures forall k :: 0 <= k < |fields| ==> ' ' !in fields[k]
    ensures Join(fields) == s
  {
    if |s| == 0 then [""]
    else
      var rest := Split(s[1..]);
      if s[0] == ' ' then
        assert ([""] + rest)[1..] == rest;
        [""] + rest
      else
        assert ([[s[0]] + rest[0]] + rest[1..])[1..] == rest[1..];
        [[s[0]] + rest[0]] + rest[1..]
  }

  /** Splitting text that begins with a space-free piece `a`. */
  lemma {:induction false} SplitAfterPiece(a: string, t: string)
    requires ' ' !in a
    ensures Split(a + t) == [a + Split(t)[0]] + Split(t)[1..]
  {
    if |a| == 0 {
      assert a + t == t;
      assert a + Split(t)[0] == Split(t)[0];
      assert Split(t) == [Split(t)[0]] + Split(t)[1..];
    } else {
      assert (a + t)[1..] == a[1..] + t;
      SplitAfterPiece(a[1..], t);
      assert [a[0]] + (a[1..] + Split(t)[0]) == a + Split(t)[0];
    }
  }

  /** Joining space-free fields and splitting again gives the fields back. */
  lemma {:induction false} SplitJoin(fields: seq<string>)
    requires |fields| >= 1
    requires forall k :: 0 <= k < |fields| ==> ' ' !in fields[k]
    ensures Split(Join(fields)) == fields
  {
    if |fields| == 1 {
      SplitAfterPiece(fields[0], "");
      assert fields[0] + "" == fields[0];
    } else {
      var rest := Join(fields[1..]);
      SplitJoin(fields[1..]);
      assert fields[0] + " " + rest == fields[0] + (" " + rest);
      SplitAfterPiece(fields[0], " " + rest);
      assert (" " + rest)[1..] == rest;
      assert Split(" " + rest) == [""] + fields[1..];
      assert fields[0] + Split(" " + rest)[0] == fields[0];
      assert Split(" " + rest)[1..] == fields[1..];
      assert [fields[0]] + fields[1..] == fields;
    }
  }

  predicate IsDigit(c: char) { '0' <= c <= '9' }

  predicate AllDigits(s: string) { forall k :: 0 <= k < |s| ==> IsDigit(s[k]) }

  function DigitChar(d: nat): char
    requires d < 10
  {
    ('0' as int + d) as char
  }

  /** Decimal digits of `n`, most significant first, no leading zeros. */
  function NatToString(n: nat): (s: string)
    ensures |s| >= 1
  {
    if n < 10 then [DigitChar(n)] else NatToString(n / 10) + [DigitChar(n % 10)]
  }

  /** `NatToString` prints digits only, with no leading zero. */
  lemma {:induction false} NatToStringDigits(n: nat)
    ensures AllDigits(NatToString(n))
    ensures NatToString(n)[0] == '0' ==> n == 0
  {
    if n >= 10 {
      NatToStringDigits(n / 10);
      assert NatToString(n)[0] == NatToString(n / 10)[0];
    }
  }

  /** `Int32.ToString()`: a minus sign in front of negative values. */
  function IntToString(n: int): string {
    if n < 0 then "-" + NatToString(-n) else NatToString(n)
  }

  /** The value of a run of decimal digits. */
  function DecimalValue(ds: string): nat
    requires AllDigits(ds)
  {
    if |ds| == 0 then 0
    else 10 * DecimalValue(ds[..|ds| - 1]) + (ds[|ds| - 1] as int - '0' as int)
  }

  lemma {:induction false} DecimalValueOfNatToString(n: nat)
    ensures AllDigits(NatToString(n)) && DecimalValue(NatToString(n)) == n
  {
    NatToStringDigits(n);
    if n >= 10 {
      var s := NatToString(n);
      assert s[..|s| - 1] == NatToString(n / 10);
      DecimalValueOfNatToString(n / 10);
    }
  }

  /** The white space `Int32.Parse` and `Single.Parse` allow around a number
      (U+0009 to U+000D and U+0020). */
  predicate IsWhite(c: char) { c == ' ' || '\t' <= c <= '\r' }

  function TrimStart(s: string): (r: string)
    ensures |r| <= |s| && r == s[|s| - |r|..]
    ensures |r| == 0 || !IsWhite(r[0])
  {
    if |s| > 0 && IsWhite(s[0]) then TrimStart(s[1..]) else s
  }

  function TrimEnd(s: string): (r: string)
    ensures |r| <= |s| && r == s[..|r|]
    ensures |r| == 0 || !IsWhite(r[|r| - 1])
  {
    if |s| > 0 && IsWhite(s[|s| - 1]) then TrimEnd(s[..|s| - 1]) else s
  }

  /** The text without the white space at either end. */
  function Trim(s: string): (r: string)
    ensures |r| == 0 || (!IsWhite(r[0]) && !IsWhite(r[|r| - 1]))
  {
    var u := TrimStart(s);
    var r := TrimEnd(u);
    assert |r| > 0 ==> r[0] == u[0];
    r
  }

  lemma TrimKeepsUntrimmed(s: string)
    requires |s| > 0 && !IsWhite(s[0]) && !IsWhite(s[|s| - 1])
    ensures Trim(s) == s
  {
  }

  /** The sign and digits of an integer's text, once the white space is gone. */
  function UnsignedPart(u: string): string {
    if |u| > 0 && (u[0] == '-' || u[0] == '+') then u[1..] else u
  }

  /** The value of an optionally signed run of digits, without any bound;
      `None` for any other text. */
  function SignedValue(u: string): (r: Option<int>)
    ensures r.Some? ==> |u| > 0 && (IsDigit(u[0]) || u[0] in "+-")
  {
    var ds := UnsignedPart(u);
    if |ds| == 0 || !AllDigits(ds) then None
    else Some(if u[0] == '-' then -(DecimalValue(ds) as int) else DecimalValue(ds))
  }

  /** `Int32.Parse(t)` under the default number style in the invariant
      culture: white space around an optionally signed run of digits; a
      different text (trailing NUL characters aside) is a format error and a
      value outside 32 bits an overflow. */
  function ParseInt32(t: string): (r: Result<int>)
    ensures r.Ok? ==> IsInt32(r.value)
    ensures r.Err? ==> r.error == BadFormat(t) || r.error == Overflow(t)
    ensures r.Ok? ==> |Trim(t)| > 0 && (IsDigit(Trim(t)[0]) || Trim(t)[0] in "+-")
  {
    match SignedValue(Trim(t))
    case None => Err(BadFormat(t))
    case Some(n) => if IsInt32(n) then Ok(n) else Err(Overflow(t))
  }

  /** The digits `Int32.ToString` prints for a value, with or without the
      minus sign, read back as that value. */
  lemma SignedValueOfDigits(ds: string)
    requires |ds| > 0 && AllDigits(ds)
    ensures SignedValue(ds) == Some(DecimalValue(ds) as int)
    ensures SignedValue("-" + ds) == Some(-(DecimalValue(ds) as int))
  {
    assert IsDigit(ds[0]) && UnsignedPart(ds) == ds;
    var s := "-" + ds;
    assert s[0] == '-' && s[1..] == ds;
    assert UnsignedPart(s) == ds;
  }

  /** Parsing what `Int32.ToString` prints gives the number back. */
  lemma ParseIntToString(n: int)
    requires IsInt32(n)
    ensures ParseInt32(IntToString(n)) == Ok(n)
  {
    var m: nat := if n < 0 then -n else n;
    var ds := NatToString(m);
    var s := IntToString(n);
    DecimalValueOfNatToString(m);
    SignedValueOfDigits(ds);
    assert s[|s| - 1] == ds[|ds| - 1];
    assert IsDigit(ds[0]) && IsDigit(ds[|ds| - 1]);
    TrimKeepsUntrimmed(s);
  }

  /** The states of a scanner for the decimal text `Single.Parse` accepts:
      white space, an optional sign, digits with at most one decimal point and
      at least one digit, an optional exponent, white space. */
  datatype ScanState =
    | Leading      // white space so far
    | Signed       // after the sign
    | Whole        // in the digits before the point
    | BarePoint    // a point with no digit before it
    | Fraction     // in the digits after the point
    | Exponent     // after `e` or `E`
    | ExponentSign // after the exponent's sign
    | ExponentDigits
    | Trailing     // white space after the number
    | Rejected

  function NextState(q: ScanState, c: char): ScanState {
    match q
    case Leading =>
      if IsWhite(c) then Leading else if c == '+' || c == '-' then Signed
      else if IsDigit(c) then Whole else if c == '.' then BarePoint else Rejected
    case Signed =>
      if IsDigit(c) then Whole else if c == '.' then BarePoint else Rejected
    case Whole =>
      if IsDigit(c) then Whole else if c == '.' then Fraction
      else if c == 'e' || c == 'E' then Exponent else if IsWhite(c) then Trailing else Rejected
    case BarePoint =>
      if IsDigit(c) then Fraction else Rejected
    case Fraction =>
      if IsDigit(c) then Fraction else if c == 'e' || c == 'E' then Exponent
      else if IsWhite(c) then Trailing else Rejected
    case Exponent =>
      if c == '+' || c == '-' then ExponentSign else if IsDigit(c) then ExponentDigits else Rejected
    case ExponentSign =>
      if IsDigit(c) then ExponentDigits else Rejected
    case ExponentDigits =>
      if IsDigit(c) then ExponentDigits else if IsWhite(c) then Trailing else Rejected
    case Trailing =>
      if IsWhite(c) then Trailing else Rejected
    case Rejected => Rejected
  }

  /** Whether the scanner, started in `q`, accepts `s`. */
  predicate ScanAccepts(q: ScanState, s: string)
    decreases |s|
  {
    if |s| == 0 then q in {Whole, Fraction, ExponentDigits, Trailing}
    else ScanAccepts(NextState(q, s[0]), s[1..])
  }

  /** The decimal text `Single.Parse` accepts in the invariant culture
      (trailing NUL characters aside). */
  predicate IsFloatText(t: string) {
    ScanAccepts(Leading, t)
  }

}
