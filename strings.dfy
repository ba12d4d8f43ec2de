/**
 * Text helpers that behave as the library routines the system leans on: Go's
 * strings.Split and strings.Cut with a one-character separator, the first-value lookup
 * of Go's url.Values, Go's strconv.Atoi for a 64-bit int when its error is ignored, and
 * the JavaScript conversion of an integral number to a string.
 */
module Strings {
  import opened Wrappers

  // ---------------------------------------------------------------------------
  // strings.Split / strings.Join with a one-character separator
  // ---------------------------------------------------------------------------

  /** The pieces of `s` between occurrences of `sep`, in order (Go's strings.Split). */
  function Split(s: string, sep: char): (parts: seq<string>)
    ensures |parts| >= 1
    ensures forall i :: 0 <= i < |parts| ==> sep !in parts[i]
  {
    if |s| == 0 then [""]
    else
      var rest := Split(s[1..], sep);
      if s[0] == sep then [""] + rest
      else [[s[0]] + rest[0]] + rest[1..]
  }

  /** The pieces glued back together with `sep` between neighbours (Go's strings.Join). */
  function Join(parts: seq<string>, sep: char): string
    requires |parts| >= 1
  {
    if |parts| == 1 then parts[0] else parts[0] + [sep] + Join(parts[1..], sep)
  }

  /** Splitting loses nothing: joining the pieces gives back the input. */
  lemma {:induction false} SplitJoin(s: string, sep: char)
    ensures Join(Split(s, sep), sep) == s
  {
    if |s| > 0 {
      SplitJoin(s[1..], sep);
      var rest := Split(s[1..], sep);
      if s[0] != sep {
        if |rest| == 1 {
          assert Split(s, sep) == [[s[0]] + rest[0]];
        } else {
          assert rest == [rest[0]] + rest[1..];
          assert Join(rest, sep) == rest[0] + [sep] + Join(rest[1..], sep);
        }
      }
    }
  }

  /** Text without a separator is a single piece. */
  lemma {:induction false} SplitNoSep(a: string, sep: char)
    requires sep !in a
    ensures Split(a, sep) == [a]
  {
    if |a| > 0 {
      SplitNoSep(a[1..], sep);
      assert [a[0]] + a[1..] == a;
    }
  }

  /** A leading piece without a separator is split off as it is. */
  lemma {:induction false} SplitPrefix(a: string, sep: char, b: string)
    requires sep !in a
    ensures Split(a + [sep] + b, sep) == [a] + Split(b, sep)
  {
    if |a| == 0 {
      assert (a + [sep] + b)[1..] == b;
    } else {
      assert (a + [sep] + b)[1..] == a[1..] + [sep] + b;
      SplitPrefix(a[1..], sep, b);
      assert [a[0]] + a[1..] == a;
    }
  }

  /** Joining separator-free pieces and splitting again gives back the pieces. */
  lemma {:induction false} JoinSplit(parts: seq<string>, sep: char)
    requires |parts| >= 1
    requires forall i :: 0 <= i < |parts| ==> sep !in parts[i]
    ensures Split(Join(parts, sep), sep) == parts
  {
    if |parts| == 1 {
      SplitNoSep(parts[0], sep);
    } else {
      JoinSplit(parts[1..], sep);
      SplitPrefix(parts[0], sep, Join(parts[1..], sep));
    }
  }

  // ---------------------------------------------------------------------------
  // strings.Cut and url.Values.Get
  // ---------------------------------------------------------------------------

  /** The text before and after the first `sep`; `(s, "")` when there is none (Go's strings.Cut). */
  function Cut(s: string, sep: char): (r: (string, string))
    ensures sep !in r.0
    ensures sep in s ==> s == r.0 + [sep] + r.1
    ensures sep !in s ==> r == (s, "")
  {
    if |s| == 0 then ("", "")
    else if s[0] == sep then ("", s[1..])
    else
      var (k, v) := Cut(s[1..], sep);
      assert s == [s[0]] + s[1..];
      ([s[0]] + k, v)
  }

  /**
   * The first value bound to `key` in a raw query string, or "" when there is none
   * (Go's url.Values.Get over url.ParseQuery): pairs are separated by '&', empty pairs
   * and pairs holding ';' are skipped, and key and value are split at the first '='.
   */
  function QueryGet(rawQuery: string, key: string): string
  {
    FirstValue(Split(rawQuery, '&'), key)
  }

  function FirstValue(pairs: seq<string>, key: string): string
  {
    if |pairs| == 0 then ""
    else if pairs[0] == [] || ';' in pairs[0] || Cut(pairs[0], '=').0 != key then FirstValue(pairs[1..], key)
    else Cut(pairs[0], '=').1
  }

  /** Cutting at the first separator of `a + [sep] + b` gives back `a` and `b`. */
  lemma {:induction false} CutAt(a: string, sep: char, b: string)
    requires sep !in a
    ensures Cut(a + [sep] + b, sep) == (a, b)
  {
    if |a| > 0 {
      CutAt(a[1..], sep, b);
      assert (a + [sep] + b)[1..] == a[1..] + [sep] + b;
      assert [a[0]] + a[1..] == a;
    }
  }

  /** A query of a single `key=value` pair yields `value` for `key`. */
  lemma OnePairQuery(key: string, value: string)
    requires key != "" && '&' !in key && ';' !in key && '=' !in key
    requires '&' !in value && ';' !in value
    ensures QueryGet(key + "=" + value, key) == value
  {
    var pair := key + "=" + value;
    assert '&' !in pair && ';' !in pair;
    SplitNoSep(pair, '&');
    CutAt(key, '=', value);
  }

  /** A query of two pairs with different keys yields each pair's value for its key. */
  lemma TwoPairQuery(k1: string, v1: string, k2: string, v2: string)
    requires k1 != "" && '&' !in k1 && ';' !in k1 && '=' !in k1
    requires k2 != "" && '&' !in k2 && ';' !in k2 && '=' !in k2
    requires k1 != k2
    requires '&' !in v1 && ';' !in v1 && '&' !in v2 && ';' !in v2
    ensures QueryGet(k1 + "=" + v1 + "&" + k2 + "=" + v2, k1) == v1
    ensures QueryGet(k1 + "=" + v1 + "&" + k2 + "=" + v2, k2) == v2
  {
    var p1, p2 := k1 + "=" + v1, k2 + "=" + v2;
    assert k1 + "=" + v1 + "&" + k2 + "=" + v2 == p1 + ['&'] + p2;
    assert '&' !in p1 && ';' !in p1 && '&' !in p2 && ';' !in p2;
    SplitPrefix(p1, '&', p2);
    SplitNoSep(p2, '&');
    assert Split(p1 + ['&'] + p2, '&') == [p1, p2];
    CutAt(k1, '=', v1);
    CutAt(k2, '=', v2);
    assert FirstValue([p1, p2], k2) == FirstValue([p2], k2);
  }

  /** The query of `path?query` when the path holds no '?'. */
  lemma RawQueryAfterPath(path: string, query: string)
    requires '?' !in path
    ensures RawQuery(path + "?" + query) == query
  {
    CutAt(path, '?', query);
  }

  /** The query part of a request target: the text after its first '?', or "". */
  function RawQuery(target: string): string
  {
    Cut(target, '?').1
  }

  // ---------------------------------------------------------------------------
  // Decimal numerals
  // ---------------------------------------------------------------------------

  predicate IsDigit(c: char) { '0' <= c <= '9' }

  predicate AllDigits(s: string) { forall i :: 0 <= i < |s| ==> IsDigit(s[i]) }

  function DigitChar(d: nat): char
    requires d < 10
  {
    "0123456789"[d]
  }

  /** The value of a string of decimal digits, most significant first. */
  function DigitsValue(s: string): nat
    requires AllDigits(s)
  {
    if |s| == 0 then 0 else DigitsValue(s[..|s| - 1]) * 10 + (s[|s| - 1] as int - '0' as int)
  }

  /** The shortest decimal digits of a natural number. */
  function Digits(n: nat): (s: string)
    ensures |s| >= 1 && AllDigits(s)
    ensures DigitsValue(s) == n
  {
    if n < 10 then [DigitChar(n)] else
      var s := Digits(n / 10) + [DigitChar(n % 10)];
      assert s[..|s| - 1] == Digits(n / 10);
      s
  }

  /**
   * JavaScript's String(n) for an integral number, as a template literal `${n}` writes it:
   * a '-' before the digits of a negative number.
   */
  function NumberToString(n: int): (s: string)
    ensures |s| >= 1
  {
    if n < 0 then "-" + Digits(-n) else Digits(n)
  }

  /**
   * The integer a decimal numeral denotes: an optional '+' or '-' and at least one decimal
   * digit, read exactly, with no bound on its size.
   */
  function Numeral(s: string): (r: Option<int>)
    ensures r.Some? ==> |s| >= 1
  {
    if |s| >= 1 && (s[0] == '-' || s[0] == '+') then
      var body := s[1..];
      if |body| >= 1 && AllDigits(body) then
        Some(if s[0] == '-' then -(DigitsValue(body) as int) else DigitsValue(body))
      else None
    else if |s| >= 1 && AllDigits(s) then Some(DigitsValue(s))
    else None
  }

  const MaxInt64: int := 0x7FFF_FFFF_FFFF_FFFF
  const MinInt64: int := -0x8000_0000_0000_0000
  const MaxUint64: int := 0xFFFF_FFFF_FFFF_FFFF

  function ClampInt64(v: int): (r: int)
    ensures MinInt64 <= r <= MaxInt64
    ensures MinInt64 <= v <= MaxInt64 ==> r == v
  {
    if v > MaxInt64 then MaxInt64 else if v < MinInt64 then MinInt64 else v
  }

  /** The outcome of strconv.ParseUint in base 10 for 64 bits. */
  datatype UintScan = UintSyntax | UintRange | Uint(value: nat)

  /**
   * strconv.ParseUint's loop from position `i` with `n` read so far: a character that is
   * no digit is a syntax error, and a digit that takes the value past 2^64 - 1 is a range
   * error at once, before the characters after it are looked at.
   */
  function ScanDigits(s: string, i: nat, n: nat): UintScan
    requires i <= |s|
    decreases |s| - i
  {
    if i == |s| then Uint(n)
    else if !IsDigit(s[i]) then UintSyntax
    else
      var next := n * 10 + (s[i] as int - '0' as int);
      if next > MaxUint64 then UintRange else ScanDigits(s, i + 1, next)
  }

  function ParseUint(s: string): UintScan
  {
    if |s| == 0 then UintSyntax else ScanDigits(s, 0, 0)
  }

  /** The length of the run of digits `s` starts with. */
  function DigitRun(s: string): (k: nat)
    ensures k <= |s|
    ensures forall j :: 0 <= j < k ==> IsDigit(s[j])
    ensures k < |s| ==> !IsDigit(s[k])
  {
    if |s| == 0 || !IsDigit(s[0]) then 0 else 1 + DigitRun(s[1..])
  }

  /**
   * What ParseUint makes of `s`, stated over the leading run of digits: a range error when
   * that run's value exceeds 2^64 - 1, whatever follows it; otherwise a syntax error when
   * anything follows it or `s` is empty, and the run's value when it is all of `s`.
   */
  function UintOutcome(s: string): UintScan
  {
    var k := DigitRun(s);
    if |s| == 0 then UintSyntax
    else if DigitsValue(s[..k]) > MaxUint64 then UintRange
    else if k < |s| then UintSyntax
    else Uint(DigitsValue(s[..k]))
  }

  /** A longer prefix of a digit string has a value at least as large. */
  lemma {:induction false} DigitsMonotone(s: string, j: nat, k: nat)
    requires j <= k <= |s| && AllDigits(s[..k])
    ensures AllDigits(s[..j]) && DigitsValue(s[..j]) <= DigitsValue(s[..k])
    decreases k - j
  {
    if j < k {
      assert s[..k][..k - 1] == s[..k - 1];
      DigitsMonotone(s, j, k - 1);
    }
  }

  lemma {:induction false} ScanFrom(s: string, i: nat, n: nat)
    requires |s| > 0 && i <= DigitRun(s)
    requires AllDigits(s[..i]) && n == DigitsValue(s[..i]) && n <= MaxUint64
    ensures ScanDigits(s, i, n) == UintOutcome(s)
    decreases |s| - i
  {
    var k := DigitRun(s);
    if i == |s| {
      assert s[..i] == s[..k];
    } else if !IsDigit(s[i]) {
      assert k == i;
    } else {
      assert i < k;
      var next := n * 10 + (s[i] as int - '0' as int);
      assert s[..i + 1][..i] == s[..i];
      assert DigitsValue(s[..i + 1]) == next;
      if next > MaxUint64 {
        DigitsMonotone(s, i + 1, k);
      } else {
        ScanFrom(s, i + 1, next);
      }
    }
  }

  /** ParseUint's loop computes exactly the outcome UintOutcome describes. */
  lemma ScanMeaning(s: string)
    ensures ParseUint(s) == UintOutcome(s)
  {
    if |s| > 0 {
      assert s[..0] == [];
      ScanFrom(s, 0, 0);
    }
  }

  /**
   * How strconv.ParseInt reads a decimal before its signed range check: a syntax error, a
   * range error of the given sign from ParseUint, or the exact value.
   */
  datatype Decimal = ErrSyntax | ErrRange(negative: bool) | Parsed(value: int)

  function Signed(negative: bool, u: UintScan): Decimal
  {
    match u
    case UintSyntax => ErrSyntax
    case UintRange => ErrRange(negative)
    case Uint(v) => Parsed(if negative then -(v as int) else v)
  }

  /** One leading '+' or '-' is taken off, and ParseUint reads the rest. */
  function ReadDecimal(s: string): Decimal
  {
    if |s| >= 1 && (s[0] == '-' || s[0] == '+') then Signed(s[0] == '-', ParseUint(s[1..]))
    else Signed(false, ParseUint(s))
  }

  /**
   * The value strconv.Atoi returns when the caller discards its error (as in
   * `offset, _ := strconv.Atoi(...)`): 0 after a syntax error, the 64-bit bound of the
   * number's sign after a range error, the number otherwise.
   */
  function Atoi(s: string): (v: int)
    ensures MinInt64 <= v <= MaxInt64
    ensures ReadDecimal(s).ErrSyntax? ==> v == 0
  {
    match ReadDecimal(s)
    case ErrSyntax => 0
    case ErrRange(negative) => if negative then MinInt64 else MaxInt64
    case Parsed(n) => ClampInt64(n)
  }

  /** A whole numeral is read as the number it denotes, and Atoi clamps that number to 64 bits. */
  lemma NumeralReads(s: string)
    ensures Numeral(s).Some? && -MaxUint64 <= Numeral(s).value <= MaxUint64 ==>
      ReadDecimal(s) == Parsed(Numeral(s).value)
    ensures Numeral(s).Some? ==> Atoi(s) == ClampInt64(Numeral(s).value)
  {
    if Numeral(s).Some? {
      var body := if s[0] == '-' || s[0] == '+' then s[1..] else s;
      assert DigitRun(body) == |body|;
      assert body[..|body|] == body;
      ScanMeaning(body);
    }
  }

  /** ParseUint stops with a range error inside a run of digits worth more than 2^64 - 1. */
  lemma RangeInsideRun(digits: string, rest: string)
    requires |digits| >= 1 && AllDigits(digits) && DigitsValue(digits) > MaxUint64
    ensures ParseUint(digits + rest) == UintRange
  {
    var s := digits + rest;
    assert s[..|digits|] == digits;
    DigitsMonotone(s, |digits|, DigitRun(s));
    ScanMeaning(s);
  }

  /**
   * A run of digits worth more than 2^64 - 1 is a range error whatever follows it: Atoi
   * answers the 64-bit bound of its sign even when a character that is no digit comes later.
   */
  lemma OverflowBeforeJunk(digits: string, rest: string)
    requires |digits| >= 1 && AllDigits(digits) && DigitsValue(digits) > MaxUint64
    ensures ReadDecimal(digits + rest) == ErrRange(false) && Atoi(digits + rest) == MaxInt64
    ensures ReadDecimal("-" + digits + rest) == ErrRange(true) && Atoi("-" + digits + rest) == MinInt64
  {
    RangeInsideRun(digits, rest);
    assert ("-" + digits + rest)[1..] == digits + rest;
    assert IsDigit((digits + rest)[0]);
  }

  /** A number written by JavaScript is the numeral of that number, and Go's Atoi reads it clamped. */
  lemma NumberRoundTrip(n: int)
    ensures Numeral(NumberToString(n)) == Some(n)
    ensures Atoi(NumberToString(n)) == ClampInt64(n)
  {
    if n < 0 {
      assert NumberToString(n)[1..] == Digits(-n);
    }
    NumeralReads(NumberToString(n));
  }

  /** The numerals the client's defaults and examples write. */
  lemma SmallNumerals()
    ensures NumberToString(0) == "0" && NumberToString(10) == "10" && NumberToString(20) == "20"
  {
    assert Digits(10) == Digits(1) + [DigitChar(0)];
    assert Digits(20) == Digits(2) + [DigitChar(0)];
  }

  /** A written number holds none of the characters that delimit a query string. */
  lemma NumberHasNoDelimiters(n: int)
    ensures '&' !in NumberToString(n) && '=' !in NumberToString(n)
    ensures ';' !in NumberToString(n) && '?' !in NumberToString(n)
  {
    var s := NumberToString(n);
    if n < 0 {
      assert s == ['-'] + Digits(-n);
    }
    assert forall i :: 0 <= i < |s| ==> s[i] == '-' || IsDigit(s[i]);
  }
}
