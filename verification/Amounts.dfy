/** Decimal text of token amounts: formatting, parsing, and the round trip. */
module Amounts {
  import opened Base

  const DECIMAL_PLACES: nat := 18

  datatype ParseAmountError = Parse | TooHigh | TooManyDigits

  datatype Alignment = Left | Center | Right

  /** The formatting options that a caller may ask for. */
  datatype Format = Format(
    signPlus: bool,
    precision: Option<nat>,
    width: Option<nat>,
    align: Option<Alignment>,
    fill: char)

  function Pow10(n: nat): (p: nat)
    ensures p > 0
  {
    if n == 0 then 1 else 10 * Pow10(n - 1)
  }

  predicate IsDigit(c: char) {
    '0' <= c <= '9'
  }

  function DigitOf(c: char): nat
    requires IsDigit(c)
  {
    c as int - '0' as int
  }

  /** The number written by decimal digits. */
  function NatOf(s: string): nat
    requires forall c <- s :: IsDigit(c)
  {
    if s == [] then 0 else 10 * NatOf(s[..|s| - 1]) + DigitOf(s[|s| - 1])
  }

  /** Unicode white space. */
  predicate IsWhitespace(c: char) {
    var n := c as int;
    0x9 <= n <= 0xD || n == 0x20 || n == 0x85 || n == 0xA0 || n == 0x1680 || 0x2000 <= n <= 0x200A
    || n == 0x2028 || n == 0x2029 || n == 0x202F || n == 0x205F || n == 0x3000
  }

  // ----- Parsing -----

  function TrimStart(s: string): string {
    if s != [] && IsWhitespace(s[0]) then TrimStart(s[1..]) else s
  }

  function TrimEnd(s: string): string {
    if s != [] && IsWhitespace(s[|s| - 1]) then TrimEnd(s[..|s| - 1]) else s
  }

  /** What remains of a text without surrounding white space and without a leading plus sign. */
  function Core(src: string): string {
    var s := TrimEnd(TrimStart(src));
    if s != [] && s[0] == '+' then s[1..] else s
  }

  /** The parser's running result and, after the point, the decimal places still free. */
  datatype Scan = Scan(result: u128, decimals: Option<nat>)

  function Step(s: Scan, c: char): Result<Scan, ParseAmountError> {
    if c == '_' then Ok(s)
    else if c == '.' then
      if s.decimals.Some? then Err(Parse) else Ok(s.(decimals := Some(DECIMAL_PLACES)))
    else if !IsDigit(c) then Err(Parse)
    else if s.decimals == Some(0) then Err(TooManyDigits)
    else
      var decimals := if s.decimals.Some? then Some(s.decimals.value - 1) else None;
      if 10 * s.result + DigitOf(c) > U128_MAX then Err(TooHigh) else Ok(Scan(10 * s.result + DigitOf(c), decimals))
  }

  function ScanAll(s: string): Result<Scan, ParseAmountError> {
    if s == [] then Ok(Scan(0, None))
    else
      match ScanAll(s[..|s| - 1])
      case Err(e) => Err(e)
      case Ok(before) => Step(before, s[|s| - 1])
  }

  function Finish(s: Scan): Result<u128, ParseAmountError> {
    var scaled := s.result * Pow10(if s.decimals.Some? then s.decimals.value else DECIMAL_PLACES);
    if scaled > U128_MAX then Err(TooHigh) else Ok(scaled)
  }

  function ParseAmount(src: string): Result<u128, ParseAmountError> {
    match ScanAll(Core(src))
    case Err(e) => Err(e)
    case Ok(s) => Finish(s)
  }

  method FromStr(src: string) returns (r: Result<u128, ParseAmountError>)
    ensures r == ParseAmount(src)
  {
    var chars := Core(src);
    var result: u128 := 0;
    var decimals: Option<nat> := None;
    var i := 0;
    while i < |chars|
      invariant 0 <= i <= |chars|
      invariant ScanAll(chars[..i]) == Ok(Scan(result, decimals))
    {
      assert chars[..i + 1][..i] == chars[..i];
      var c := chars[i];
      if Step(Scan(result, decimals), c).Err? {
        ScanFails(chars, i + 1);
      }
      if c == '_' {
      } else if c == '.' {
        if decimals.Some? {
          return Err(Parse);
        }
        decimals := Some(DECIMAL_PLACES);
      } else {
        if !IsDigit(c) {
          return Err(Parse);
        }
        if decimals.Some? {
          if decimals.value == 0 {
            return Err(TooManyDigits);
          }
          decimals := Some(decimals.value - 1);
        }
        if 10 * result + DigitOf(c) > U128_MAX {
          return Err(TooHigh);
        }
        result := 10 * result + DigitOf(c);
      }
      i := i + 1;
    }
    assert chars[..i] == chars;
    r := Finish(Scan(result, decimals));
  }

  lemma {:induction false} ScanFails(s: string, k: nat)
    requires k <= |s| && ScanAll(s[..k]).Err?
    ensures ScanAll(s) == ScanAll(s[..k])
  {
    if k < |s| {
      assert s[..|s| - 1][..k] == s[..k];
      ScanFails(s[..|s| - 1], k);
    } else {
      assert s[..k] == s;
    }
  }

  // ----- What a text means -----

  function Points(s: string): nat {
    if s == [] then 0 else Points(s[..|s| - 1]) + (if s[|s| - 1] == '.' then 1 else 0)
  }

  /** The digits of a text in order. */
  function DigitsIn(s: string): (d: string)
    ensures forall c <- d :: IsDigit(c)
  {
    if s == [] then [] else
      var init, last := DigitsIn(s[..|s| - 1]), s[|s| - 1];
      if IsDigit(last) then init + [last] else init
  }

  /** How many digits stand behind a point. */
  function Fraction(s: string): nat {
    if s == [] then 0
    else Fraction(s[..|s| - 1]) + (if IsDigit(s[|s| - 1]) && Points(s[..|s| - 1]) > 0 then 1 else 0)
  }

  /** Digits, underscores and at most one point. */
  predicate Numeral(s: string) {
    (forall c <- s :: IsDigit(c) || c == '_' || c == '.') && Points(s) <= 1
  }

  /** The value of a numeral with at most 18 decimal places, in the smallest unit. */
  function Value(s: string): nat
    requires Fraction(s) <= DECIMAL_PLACES
  {
    NatOf(DigitsIn(s)) * Pow10(DECIMAL_PLACES - Fraction(s))
  }

  lemma NatOfAppend(d: string, c: char)
    requires (forall x <- d :: IsDigit(x)) && IsDigit(c)
    ensures NatOf(d + [c]) == 10 * NatOf(d) + DigitOf(c)
  {
    assert (d + [c])[..|d|] == d;
  }

  /** What the scanner has seen so far is acceptable. */
  predicate Acceptable(s: string) {
    Numeral(s) && Fraction(s) <= DECIMAL_PLACES && NatOf(DigitsIn(s)) <= U128_MAX
  }

  /** What the scanner then knows. */
  function Scanned(s: string): Scan
    requires Acceptable(s)
  {
    Scan(NatOf(DigitsIn(s)), if Points(s) == 0 then None else Some(DECIMAL_PLACES - Fraction(s)))
  }

  lemma NumeralStep(s: string, c: char)
    ensures Numeral(s + [c]) <==>
              && Numeral(s)
              && (IsDigit(c) || c == '_' || (c == '.' && Points(s) == 0))
    ensures Points(s + [c]) == Points(s) + if c == '.' then 1 else 0
    ensures DigitsIn(s + [c]) == if IsDigit(c) then DigitsIn(s) + [c] else DigitsIn(s)
    ensures Fraction(s + [c]) == Fraction(s) + if IsDigit(c) && Points(s) > 0 then 1 else 0
  {
    assert (s + [c])[..|s|] == s;
    assert c in s + [c];
    assert forall x <- s :: x in s + [c];
  }

  lemma ScanDigit(s: string, c: char)
    requires Acceptable(s) && IsDigit(c)
    ensures Step(Scanned(s), c).Ok? <==> Acceptable(s + [c])
    ensures Acceptable(s + [c]) ==> Step(Scanned(s), c) == Ok(Scanned(s + [c]))
  {
    NumeralStep(s, c);
    NoPointNoFraction(s);
    NatOfAppend(DigitsIn(s), c);
    var before, after := NatOf(DigitsIn(s)), NatOf(DigitsIn(s + [c]));
    assert after == 10 * before + DigitOf(c);
    assert Numeral(s + [c]);
  }

  lemma ScanStep(s: string, c: char)
    requires Acceptable(s)
    ensures Step(Scanned(s), c).Ok? <==> Acceptable(s + [c])
    ensures Acceptable(s + [c]) ==> Step(Scanned(s), c) == Ok(Scanned(s + [c]))
  {
    if IsDigit(c) {
      ScanDigit(s, c);
    } else {
      NumeralStep(s, c);
      NoPointNoFraction(s);
      assert DigitsIn(s + [c]) == DigitsIn(s);
    }
  }

  lemma AcceptablePrefix(s: string, c: char)
    requires Acceptable(s + [c])
    ensures Acceptable(s)
  {
    NumeralStep(s, c);
    if IsDigit(c) {
      NatOfAppend(DigitsIn(s), c);
    }
  }

  /** Scanning succeeds exactly on numerals with few enough decimal places and a small enough number. */
  lemma {:induction false} ScanMeaning(s: string)
    ensures ScanAll(s).Ok? <==> Acceptable(s)
    ensures Acceptable(s) ==> ScanAll(s) == Ok(Scanned(s))
  {
    if s != [] {
      var init, last := s[..|s| - 1], s[|s| - 1];
      assert s == init + [last];
      ScanMeaning(init);
      if Acceptable(s) {
        AcceptablePrefix(init, last);
      }
      if Acceptable(init) {
        ScanStep(init, last);
      }
    }
  }

  lemma {:induction false} NoPointNoFraction(s: string)
    ensures Points(s) == 0 ==> Fraction(s) == 0
  {
    if s != [] {
      NoPointNoFraction(s[..|s| - 1]);
    }
  }

  /** A text is accepted exactly if it is a numeral with at most 18 decimals whose exact value fits. */
  lemma ParseMeaning(src: string, a: u128)
    ensures ParseAmount(src) == Ok(a)
       <==> var s := Core(src); Numeral(s) && Fraction(s) <= DECIMAL_PLACES && Value(s) == a
  {
    var s := Core(src);
    ScanMeaning(s);
    NoPointNoFraction(s);
    if Fraction(s) <= DECIMAL_PLACES {
      ScaleGrows(NatOf(DigitsIn(s)), Pow10(DECIMAL_PLACES - Fraction(s)));
    }
  }

  lemma ScaleGrows(n: nat, p: nat)
    requires p > 0
    ensures n <= n * p
  {
  }

  // ----- Formatting -----

  function Repeat(c: char, n: nat): string {
    seq(n, _ => c)
  }

  function CharOf(d: nat): (c: char)
    requires d < 10
    ensures IsDigit(c) && DigitOf(c) == d
  {
    ('0' as int + d) as char
  }

  function Decimal(n: nat): (s: string)
    ensures s != [] && forall c <- s :: IsDigit(c)
    ensures NatOf(s) == n
  {
    if n < 10 then [CharOf(n)]
    else
      var s := Decimal(n / 10);
      NatOfAppend(s, CharOf(n % 10));
      s + [CharOf(n % 10)]
  }

  /** At least one digit in front of eighteen decimal places. */
  function PaddedDecimal(n: nat): (s: string)
    ensures |s| > DECIMAL_PLACES && forall c <- s :: IsDigit(c)
  {
    var s := Decimal(n);
    if |s| > DECIMAL_PLACES then s else Repeat('0', DECIMAL_PLACES + 1 - |s|) + s
  }

  function TrimZeros(s: string): (t: string)
    ensures t <= s
    ensures forall i :: |t| <= i < |s| ==> s[i] == '0'
  {
    if s != [] && s[|s| - 1] == '0' then TrimZeros(s[..|s| - 1]) else s
  }

  function IntegerPart(a: u128): (s: string)
    ensures s != [] && forall c <- s :: IsDigit(c)
  {
    var decimals := PaddedDecimal(a);
    decimals[..|decimals| - DECIMAL_PLACES]
  }

  function FractionalPart(a: u128): (s: string)
    ensures |s| <= DECIMAL_PLACES && forall c <- s :: IsDigit(c)
  {
    var decimals := PaddedDecimal(a);
    TrimZeros(decimals[|decimals| - DECIMAL_PLACES..])
  }

  /** Digits that are not zero are never dropped, so the precision is only a lower bound. */
  function Precision(a: u128, f: Format): nat {
    var wanted := if f.precision.Some? then f.precision.value else 0;
    if wanted < |FractionalPart(a)| then |FractionalPart(a)| else wanted
  }

  /** The decimals, filled up with zeros to the precision. */
  function Decimals(a: u128, f: Format): (s: string)
    ensures |s| == Precision(a, f) && forall c <- s :: IsDigit(c)
  {
    FractionalPart(a) + Repeat('0', Precision(a, f) - |FractionalPart(a)|)
  }

  function Plain(a: u128, f: Format): string {
    IntegerPart(a) + "." + Decimals(a, f)
  }

  function Unpadded(a: u128, f: Format): string {
    (if f.signPlus && a > 0 then "+" else "") + Plain(a, f)
  }

  function PadWidth(text: string, f: Format): nat {
    if f.width.Some? && f.width.value > |text| then f.width.value - |text| else 0
  }

  function LeftPad(text: string, f: Format): (n: nat)
    ensures n <= PadWidth(text, f)
  {
    match f.align
    case None => PadWidth(text, f)
    case Some(Right) => PadWidth(text, f)
    case Some(Center) => PadWidth(text, f) / 2
    case Some(Left) => 0
  }

  /** Fill characters around a text that is shorter than the width asked for. */
  function Pad(text: string, f: Format): string {
    Repeat(f.fill, LeftPad(text, f)) + text + Repeat(f.fill, PadWidth(text, f) - LeftPad(text, f))
  }

  function Display(a: u128, f: Format): string {
    Pad(Unpadded(a, f), f)
  }

  // ----- The round trip -----

  lemma {:induction false} NatOfZeros(n: nat, s: string)
    requires forall c <- s :: IsDigit(c)
    ensures forall c <- Repeat('0', n) + s :: IsDigit(c)
    ensures NatOf(Repeat('0', n) + s) == NatOf(s)
    decreases |s|, n
  {
    var t := Repeat('0', n) + s;
    if s != [] {
      assert t[..|t| - 1] == Repeat('0', n) + s[..|s| - 1];
      NatOfZeros(n, s[..|s| - 1]);
    } else if n > 0 {
      assert t[..|t| - 1] == Repeat('0', n - 1) + s;
      NatOfZeros(n - 1, s);
    }
  }

  /** Dropping zeros at the end divides by a power of ten. */
  lemma {:induction false} NatOfTrailing(s: string, k: nat)
    requires k <= |s| && forall c <- s :: IsDigit(c)
    requires forall i :: k <= i < |s| ==> s[i] == '0'
    ensures NatOf(s[..k]) * Pow10(|s| - k) == NatOf(s)
    decreases |s|
  {
    if k == |s| {
      assert s[..k] == s;
    } else {
      var init := s[..|s| - 1];
      assert init[..k] == s[..k];
      NatOfTrailing(init, k);
      TenTimes(NatOf(s[..k]), Pow10(|init| - k));
    }
  }

  lemma TenTimes(n: nat, p: nat)
    ensures n * (10 * p) == 10 * (n * p)
  {
  }

  lemma PaddedValue(a: nat)
    ensures NatOf(PaddedDecimal(a)) == a
  {
    NatOfZeros(if |Decimal(a)| > DECIMAL_PLACES then 0 else DECIMAL_PLACES + 1 - |Decimal(a)|, Decimal(a));
  }

  /** What a plain digit string adds to a text. */
  lemma {:induction false} AppendDigits(s: string, d: string)
    requires forall c <- d :: IsDigit(c)
    ensures Points(s + d) == Points(s)
    ensures Fraction(s + d) == Fraction(s) + (if Points(s) > 0 then |d| else 0)
    ensures Numeral(s) ==> Numeral(s + d)
    decreases |d|
  {
    if d == [] {
      assert s + d == s;
    } else {
      var init, last := d[..|d| - 1], d[|d| - 1];
      AppendDigits(s, init);
      assert s + d == s + init + [last];
      NumeralStep(s + init, last);
    }
  }

  lemma {:induction false} AppendDigitsRead(s: string, d: string)
    requires forall c <- d :: IsDigit(c)
    ensures DigitsIn(s + d) == DigitsIn(s) + d
    decreases |d|
  {
    if d == [] {
      assert s + d == s;
    } else {
      var init := d[..|d| - 1];
      AppendDigitsRead(s, init);
      assert (s + d)[..|s + d| - 1] == s + init;
    }
  }

  /** A text of the shape "digits point digits" reads as its digits. */
  lemma PlainNumeral(a: string, b: string)
    requires (forall c <- a :: IsDigit(c)) && forall c <- b :: IsDigit(c)
    ensures Numeral(a + "." + b) && DigitsIn(a + "." + b) == a + b && Fraction(a + "." + b) == |b|
  {
    assert [] + a == a;
    AppendDigits([], a);
    AppendDigitsRead([], a);
    NumeralStep(a, '.');
    AppendDigits(a + ".", b);
    AppendDigitsRead(a + ".", b);
  }

  /** White space around a text is dropped, and nothing of the text itself. */
  lemma {:induction false} TrimSurroundings(before: string, text: string, after: string)
    requires (forall c <- before :: IsWhitespace(c)) && forall c <- after :: IsWhitespace(c)
    requires text != [] && !IsWhitespace(text[0]) && !IsWhitespace(text[|text| - 1])
    ensures TrimEnd(TrimStart(before + text + after)) == text
    decreases |before|
  {
    var s := before + text + after;
    if before != [] {
      assert s[1..] == before[1..] + text + after;
      TrimSurroundings(before[1..], text, after);
    } else {
      assert s == text + after;
      assert TrimStart(s) == s;
      TrimBehind(text, after);
    }
  }

  lemma {:induction false} TrimBehind(text: string, after: string)
    requires forall c <- after :: IsWhitespace(c)
    requires text != [] && !IsWhitespace(text[|text| - 1])
    ensures TrimEnd(text + after) == text
    decreases |after|
  {
    var s := text + after;
    if after != [] {
      assert s[..|s| - 1] == text + after[..|after| - 1];
      TrimBehind(text, after[..|after| - 1]);
    } else {
      assert s == text;
    }
  }

  lemma {:induction false} OnlyWhitespace(s: string)
    requires forall c <- s :: IsWhitespace(c)
    ensures Core(s) == []
  {
    if s != [] {
      OnlyWhitespace(s[1..]);
    }
  }

  /** The parser reads a text without the white space around it and without one leading plus sign. */
  lemma CoreIsInside(before: string, text: string, after: string)
    requires (forall c <- before :: IsWhitespace(c)) && forall c <- after :: IsWhitespace(c)
    requires text != [] && !IsWhitespace(text[0]) && !IsWhitespace(text[|text| - 1])
    ensures Core(before + text + after) == if text[0] == '+' then text[1..] else text
  {
    TrimSurroundings(before, text, after);
  }

  lemma PlainEnds(a: u128, f: Format)
    ensures Plain(a, f) != [] && IsDigit(Plain(a, f)[0])
    ensures var last := Plain(a, f)[|Plain(a, f)| - 1]; IsDigit(last) || last == '.'
  {
    assert Plain(a, f)[0] == IntegerPart(a)[0];
    if Decimals(a, f) != [] {
      assert Plain(a, f)[|Plain(a, f)| - 1] == Decimals(a, f)[|Decimals(a, f)| - 1];
    }
  }

  lemma TrimPad(text: string, f: Format)
    requires PadWidth(text, f) == 0 || IsWhitespace(f.fill)
    requires text != [] && !IsWhitespace(text[0]) && !IsWhitespace(text[|text| - 1])
    ensures TrimEnd(TrimStart(Pad(text, f))) == text
  {
    TrimSurroundings(Repeat(f.fill, LeftPad(text, f)), text, Repeat(f.fill, PadWidth(text, f) - LeftPad(text, f)));
  }

  lemma CoreOfPadded(sign: string, plain: string, f: Format)
    requires PadWidth(sign + plain, f) == 0 || IsWhitespace(f.fill)
    requires (sign == "" || sign == "+") && plain != [] && IsDigit(plain[0])
    requires IsDigit(plain[|plain| - 1]) || plain[|plain| - 1] == '.'
    ensures Core(Pad(sign + plain, f)) == plain
  {
    var text := sign + plain;
    assert text[|text| - 1] == plain[|plain| - 1];
    TrimPad(text, f);
    if sign == "" {
      assert text == plain;
    } else {
      assert text[1..] == plain;
    }
  }

  lemma CoreOfDisplay(a: u128, f: Format)
    requires PadWidth(Unpadded(a, f), f) == 0 || IsWhitespace(f.fill)
    ensures Core(Display(a, f)) == Plain(a, f)
  {
    PlainEnds(a, f);
    CoreOfPadded(if f.signPlus && a > 0 then "+" else "", Plain(a, f), f);
  }

  /** Up to 18 decimals, the digits shown are those of the number itself. */
  lemma DigitsShown(a: u128, f: Format)
    requires Precision(a, f) <= DECIMAL_PLACES
    ensures NatOf(IntegerPart(a) + Decimals(a, f)) * Pow10(DECIMAL_PLACES - Precision(a, f)) == a
  {
    var digits := PaddedDecimal(a);
    var k := |digits| - DECIMAL_PLACES + Precision(a, f);
    DigitsKept(digits, Precision(a, f));
    NatOfTrailing(digits, k);
    PaddedValue(a);
  }

  /** Trimming and refilling zeros behind the point gives the original digits. */
  lemma DigitsKept(digits: string, precision: nat)
    requires |digits| > DECIMAL_PLACES >= precision
    requires |TrimZeros(digits[|digits| - DECIMAL_PLACES..])| <= precision
    ensures var point := |digits| - DECIMAL_PLACES;
            var trimmed := TrimZeros(digits[point..]);
            && digits[..point] + (trimmed + Repeat('0', precision - |trimmed|)) == digits[..point + precision]
            && forall i :: point + precision <= i < |digits| ==> digits[i] == '0'
  {
    var point := |digits| - DECIMAL_PLACES;
    var fraction := digits[point..];
    var trimmed := TrimZeros(fraction);
    assert trimmed + Repeat('0', precision - |trimmed|) == fraction[..precision];
    forall i | point + precision <= i < |digits|
      ensures digits[i] == '0'
    {
      assert digits[i] == fraction[i - point];
    }
  }

  /**
   * Formatting and parsing an amount gives it back, if and only if at most 18 decimals are asked
   * for; padding must be absent or with white space, as it is by default.
   */
  lemma DisplayParses(a: u128, f: Format)
    ensures PadWidth(Unpadded(a, f), f) == 0 || IsWhitespace(f.fill) ==>
              (ParseAmount(Display(a, f)) == Ok(a) <==> f.precision.None? || f.precision.value <= DECIMAL_PLACES)
  {
    if PadWidth(Unpadded(a, f), f) == 0 || IsWhitespace(f.fill) {
      CoreOfDisplay(a, f);
      ParseMeaning(Display(a, f), a);
      PlainNumeral(IntegerPart(a), Decimals(a, f));
      if Precision(a, f) <= DECIMAL_PLACES {
        DigitsShown(a, f);
      }
    }
  }

  // ----- What the printed form looks like -----

  lemma {:induction false} TrimmedEnd(s: string)
    ensures TrimZeros(s) == [] || TrimZeros(s)[|TrimZeros(s)| - 1] != '0'
  {
    if s != [] && s[|s| - 1] == '0' {
      TrimmedEnd(s[..|s| - 1]);
    }
  }

  /** No more decimals are shown than asked for or needed. */
  lemma DecimalsAreShort(a: u128, f: Format)
    ensures f.precision.None? ==> Decimals(a, f) == [] || Decimals(a, f)[|Decimals(a, f)| - 1] != '0'
    ensures f.precision.Some? && |FractionalPart(a)| <= f.precision.value ==> |Decimals(a, f)| == f.precision.value
  {
    var digits := PaddedDecimal(a);
    TrimmedEnd(digits[|digits| - DECIMAL_PLACES..]);
    if f.precision.None? {
      assert Repeat('0', 0) == [] && Decimals(a, f) == FractionalPart(a);
    }
  }

  /** There is no leading zero but a single one in front of the point. */
  lemma IntegerPartIsShort(a: u128)
    ensures |IntegerPart(a)| > 1 ==> IntegerPart(a)[0] != '0'
  {
    NoLeadingZero(a);
    if |Decimal(a)| > DECIMAL_PLACES {
      assert IntegerPart(a)[0] == Decimal(a)[0];
    }
  }

  lemma {:induction false} NoLeadingZero(n: nat)
    ensures |Decimal(n)| > 1 ==> Decimal(n)[0] != '0'
  {
    if n >= 10 {
      NoLeadingZero(n / 10);
      if n / 10 < 10 {
        assert Decimal(n / 10) == [CharOf(n / 10)];
        assert DigitOf(CharOf(n / 10)) == n / 10;
      }
    }
  }

  /** A plus sign is printed exactly if asked for and the amount is positive. */
  lemma SignShown(a: u128, f: Format)
    ensures Unpadded(a, f) != [] && (Unpadded(a, f)[0] == '+' <==> f.signPlus && a > 0)
  {
    PlainEnds(a, f);
    if !(f.signPlus && a > 0) {
      assert Unpadded(a, f) == Plain(a, f);
    }
  }

  /** The text is as wide as asked for, and stands where the alignment puts it. */
  lemma PadShape(text: string, f: Format)
    ensures |Pad(text, f)| == if f.width.Some? && f.width.value > |text| then f.width.value else |text|
    ensures f.align == Some(Left) ==> Pad(text, f)[..|text|] == text
    ensures f.align == None || f.align == Some(Right) ==> Pad(text, f)[|Pad(text, f)| - |text|..] == text
  {
  }
}
