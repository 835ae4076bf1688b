/** go/internal/youtube/trim.go and FormatDuration of card.go: reading a typed time range and
    printing a chosen one.  Seconds are real numbers; a fractional field is a decimal numeral. */
module Trim {
  import opened Text

  datatype Range = Ok(start: real, end: real) | BadFormat | BadOrder | BadRange

  predicate Gives(r: Option<real>, v: real) {
    r.Some? && r.value == v
  }

  // ---------------------------------------------------------------- numerals

  /** What digits behind the point are worth. */
  function Fraction(s: string): (r: real)
    requires Digits(s)
    ensures 0.0 <= r <= 1.0
  {
    if s == "" then 0.0 else (DigitValue(s[0]) as real + Fraction(s[1..])) / 10.0
  }

  function Pow10(n: nat): (r: nat)
    ensures r > 0
  {
    if n == 0 then 1 else 10 * Pow10(n - 1)
  }

  lemma Shifted(d: int, p: int, v: int, e: int)
    ensures (d * p + v) * 10 + e == d * (10 * p) + (v * 10 + e)
  {
  }

  lemma {:induction false} NatFront(s: string)
    requires s != "" && Digits(s)
    ensures NatValue(s) == DigitValue(s[0]) * Pow10(|s| - 1) + NatValue(s[1..])
  {
    if |s| == 1 {
      assert s[..0] == "" && s[1..] == "";
    } else {
      var front := s[..|s| - 1];
      NatFront(front);
      assert front[1..] == s[1..][..|s| - 2];
      Shifted(DigitValue(s[0]), Pow10(|s| - 2), NatValue(front[1..]), DigitValue(s[|s| - 1]));
    }
  }

  function Scaled(f: real, p: int): real {
    f * p as real
  }

  lemma Tenfold(d: int, f: real, p: int, v: int)
    requires Scaled(f, p) == v as real
    ensures Scaled((d as real + f) / 10.0, 10 * p) == (d * p + v) as real
  {
    var x := d as real + f;
    assert (10 * p) as real == 10.0 * p as real;
    assert x / 10.0 * (10.0 * p as real) == x * p as real;
    assert x * p as real == d as real * p as real + f * p as real;
    assert d as real * p as real == (d * p) as real;
  }

  /** n digits behind the point are worth their number divided by the n-th power of ten. */
  lemma {:induction false} FractionValue(s: string)
    requires Digits(s)
    ensures Scaled(Fraction(s), Pow10(|s|)) == NatValue(s) as real
  {
    if s == "" {
      assert Scaled(0.0, 1) == 0.0;
    } else {
      FractionValue(s[1..]);
      NatFront(s);
      var d, f, p, v := DigitValue(s[0]), Fraction(s[1..]), Pow10(|s| - 1), NatValue(s[1..]);
      Tenfold(d, f, p, v);
      assert Pow10(|s|) == 10 * p;
    }
  }

  /** Whole part and fraction. */
  function WithFraction(a: string, b: string): (r: real)
    requires Digits(a) && Digits(b)
    ensures r >= 0.0
  {
    NatValue(a) as real + Fraction(b)
  }

  /** The decimal numerals of `strconv.ParseFloat`: an optional plus, digits, and optionally a point
      with digits, at least one digit in all. */
  function ParseDecimal(s: string): (r: Option<real>)
    ensures r.Some? ==> r.value >= 0.0
  {
    var body := if s != "" && s[0] == '+' then s[1..] else s;
    var parts := Split(body, '.');
    if |parts| == 1 && parts[0] != "" && Digits(parts[0]) then Some(NatValue(parts[0]) as real)
    else if |parts| == 2 && |parts[0]| + |parts[1]| > 0 && Digits(parts[0]) && Digits(parts[1])
    then Some(WithFraction(parts[0], parts[1]))
    else None
  }

  lemma PointSplit(a: string, b: string)
    requires Digits(a) && Digits(b)
    ensures Split(a + "." + b, '.') == [a, b] && (a + "." + b)[0] != '+'
  {
    SplitHead(a, '.', b);
    SplitFree(b, '.');
    assert a != "" ==> (a + "." + b)[0] == a[0];
  }

  lemma PlusDropped(s: string)
    requires s != "" && s[0] != '+'
    ensures ParseDecimal("+" + s) == ParseDecimal(s)
  {
    assert ("+" + s)[1..] == s;
  }

  lemma PartsParse(s: string, parts: seq<string>)
    requires s != "" && s[0] != '+' && Split(s, '.') == parts && |parts| == 2
    requires Digits(parts[0]) && Digits(parts[1]) && |parts[0]| + |parts[1]| > 0
    ensures ParseDecimal(s) == Some(WithFraction(parts[0], parts[1]))
  {
  }

  lemma DecimalPoint(a: string, b: string)
    requires Digits(a) && Digits(b) && |a| + |b| > 0
    ensures ParseDecimal(a + "." + b) == Some(WithFraction(a, b))
  {
    PointSplit(a, b);
    PartsParse(a + "." + b, [a, b]);
  }

  lemma DecimalWhole(a: string)
    requires Digits(a) && a != ""
    ensures ParseDecimal(a) == Some(NatValue(a) as real) && a[0] != '+'
  {
    assert IsDigit(a[0]);
    SplitFree(a, '.');
  }

  lemma Spread(n: int, f: real, p: int, v: int)
    requires Scaled(f, p) == v as real
    ensures Scaled(n as real + f, p) == (n * p + v) as real
  {
    assert (n as real + f) * p as real == n as real * p as real + f * p as real;
    assert n as real * p as real == (n * p) as real;
  }

  /** A number with digits behind the point is all its digits read as one number, divided by the power of ten of
      those behind the point. */
  lemma WithFractionValue(a: string, b: string)
    requires Digits(a) && Digits(b)
    ensures Scaled(WithFraction(a, b), Pow10(|b|)) == (NatValue(a) * Pow10(|b|) + NatValue(b)) as real
  {
    FractionValue(b);
    Spread(NatValue(a), Fraction(b), Pow10(|b|), NatValue(b));
  }

  /** The numerals: digits, digits with a point somewhere, and either with a plus; a fraction is added. */
  lemma DecimalNumerals(a: string, b: string)
    requires Digits(a) && Digits(b)
    ensures |a| + |b| > 0 ==> ParseDecimal(a + "." + b) == Some(WithFraction(a, b))
    ensures ParseDecimal("+" + (a + "." + b)) == ParseDecimal(a + "." + b)
    ensures a != "" ==> ParseDecimal(a) == Some(NatValue(a) as real) && ParseDecimal("+" + a) == ParseDecimal(a)
  {
    PointSplit(a, b);
    PlusDropped(a + "." + b);
    if |a| + |b| > 0 {
      DecimalPoint(a, b);
    }
    if a != "" {
      DecimalWhole(a);
      PlusDropped(a);
    }
  }

  lemma TwoPieces(s: string, parts: seq<string>)
    requires Split(s, '.') == parts && |parts| == 2
    ensures s == parts[0] + "." + parts[1]
  {
    JoinSplit(s, '.');
    assert parts[1..] == [parts[1]];
  }

  lemma OnePiece(s: string, parts: seq<string>)
    requires Split(s, '.') == parts && |parts| == 1
    ensures s == parts[0]
  {
    JoinSplit(s, '.');
  }

  /** Nothing else is a numeral. */
  lemma OnlyNumerals(s: string) returns (a: string, b: string)
    requires ParseDecimal(s).Some?
    ensures Digits(a) && Digits(b) && a + b != ""
    ensures s == a || s == "+" + a || s == a + "." + b || s == "+" + (a + "." + b)
  {
    var plus := s != "" && s[0] == '+';
    var body := if plus then s[1..] else s;
    var parts := Split(body, '.');
    assert plus ==> s == "+" + body;
    a := parts[0];
    if |parts| == 1 {
      b := "";
      OnePiece(body, parts);
      assert a + "" == a;
    } else {
      b := parts[1];
      TwoPieces(body, parts);
      assert |a + b| == |a| + |b|;
    }
  }

  /** 60 to the power of the fields to the right. */
  function Weight(power: nat): (w: nat)
    ensures w > 0
  {
    if power == 0 then 1 else 60 * Weight(power - 1)
  }

  method UnitSeconds(fieldCount: nat, index: nat) returns (weight: nat)
    requires index < fieldCount
    ensures weight == Weight(fieldCount - 1 - index)
  {
    var power := fieldCount - 1 - index;
    weight := 1;
    for i := 0 to power
      invariant weight == Weight(i)
    {
      weight := weight * 60;
    }
  }

  // ---------------------------------------------------------------- one timecode

  /** A field before the last one: a whole number that is not negative. */
  function WholeField(field: string): Option<nat> {
    match Atoi(TrimSpace(field))
    case None => None
    case Some(v) => if v < 0 then None else Some(v)
  }

  /** What the first `n` fields, all whole, are worth in seconds. */
  function WholeTo(fields: seq<string>, n: nat): (r: Option<nat>)
    requires n < |fields|
  {
    if n == 0 then Some(0)
    else
      match WholeTo(fields, n - 1)
      case None => None
      case Some(w) =>
        match WholeField(fields[n - 1])
        case None => None
        case Some(v) => Some(w + v * Weight(|fields| - n))
  }

  /** Whole units and a last, perhaps fractional, field. */
  function Plus(whole: nat, part: real): (r: real)
    ensures part >= 0.0 ==> r >= 0.0
  {
    whole as real + part
  }

  /** Only the last field may be fractional. */
  function SumOf(fields: seq<string>): (r: Option<real>)
    requires |fields| > 0
    ensures r.Some? ==> r.value >= 0.0
  {
    match WholeTo(fields, |fields| - 1)
    case None => None
    case Some(w) =>
      match ParseDecimal(TrimSpace(fields[|fields| - 1]))
      case None => None
      case Some(v) => Some(Plus(w, v))
  }

  /** The seconds a timecode stands for. */
  function Seconds(raw: string): (r: Option<real>)
    ensures r.Some? ==> r.value >= 0.0
  {
    var s := TrimSpace(raw);
    var fields := Split(s, ':');
    if s == "" || |fields| > 3 then None else SumOf(fields)
  }

  /** What a field before the last may be: a decimal integer that is not negative, spaces around it. */
  lemma WholeFieldMeans(field: string, v: nat)
    ensures WholeField(field) == Some(v) <==> Atoi(TrimSpace(field)) == Some(v)
    ensures WholeField(field).None? <==> Atoi(TrimSpace(field)).None? || Atoi(TrimSpace(field)).value < 0
  {
  }

  lemma {:induction false} SumFails(fields: seq<string>, m: nat, n: nat)
    requires m <= n < |fields| && WholeTo(fields, m).None?
    ensures WholeTo(fields, n).None?
  {
    if m < n {
      SumFails(fields, m, n - 1);
    }
  }

  predicate Totals(fields: seq<string>, n: nat, total: real)
    requires n < |fields|
  {
    WholeTo(fields, n).Some? && total == WholeTo(fields, n).value as real
  }

  lemma RealSum(a: int, b: int)
    ensures a as real + b as real == (a + b) as real
  {
  }

  /** One whole field added to the running total. */
  method AddWhole(fields: seq<string>, i: nat, total: real) returns (r: Option<real>)
    requires i + 1 < |fields| && Totals(fields, i, total)
    ensures if r.Some? then Totals(fields, i + 1, r.value) else WholeTo(fields, i + 1).None?
  {
    var v := Atoi(TrimSpace(fields[i]));
    if v.None? || v.value < 0 {
      return None;
    }
    var weight := UnitSeconds(|fields|, i);
    var units := v.value * weight;
    RealSum(WholeTo(fields, i).value, units);
    r := Some(total + units as real);
  }

  /** The last field added to the whole ones. */
  method AddLast(fields: seq<string>, total: real) returns (r: Option<real>)
    requires |fields| > 0 && Totals(fields, |fields| - 1, total)
    ensures r == SumOf(fields)
  {
    var v := ParseDecimal(TrimSpace(fields[|fields| - 1]));
    if v.None? {
      return None;
    }
    r := Some(total + v.value);
    assert r.value == Plus(WholeTo(fields, |fields| - 1).value, v.value);
  }

  /** A whole field that cannot be read leaves no sum. */
  lemma NoSum(fields: seq<string>, n: nat)
    requires n < |fields| && WholeTo(fields, n).None?
    ensures SumOf(fields) == None
  {
    SumFails(fields, n, |fields| - 1);
    assert WholeTo(fields, |fields| - 1).None?;
  }

  /** The loop of `parseTimecode`. */
  method SumFields(fields: seq<string>) returns (r: Option<real>)
    requires |fields| > 0
    ensures r == SumOf(fields)
  {
    var total := 0.0;
    for i := 0 to |fields| - 1
      invariant Totals(fields, i, total)
    {
      var next := AddWhole(fields, i, total);
      if next.None? {
        NoSum(fields, i + 1);
        return None;
      }
      total := next.value;
    }
    r := AddLast(fields, total);
  }

  method ParseTimecode(raw: string) returns (r: Option<real>)
    ensures r == Seconds(raw)
  {
    var s := TrimSpace(raw);
    if s == "" {
      return None;
    }
    var fields := Split(s, ':');
    if |fields| > 3 {
      return None;
    }
    r := SumFields(fields);
  }

  // ---------------------------------------------------------------- a range

  const DASHES := {'\U{2014}', '\U{2013}', '\U{2212}'}

  /** The replacer: every dash, and two dots, become a hyphen. */
  function Normalize(s: string): string {
    if s == "" then ""
    else if s[0] in DASHES then "-" + Normalize(s[1..])
    else if |s| >= 2 && s[0] == '.' && s[1] == '.' then "-" + Normalize(s[2..])
    else [s[0]] + Normalize(s[1..])
  }

  /** What a range stands for: the end is clamped to a known duration before the order is checked. */
  function Ranged(start: real, end: real, duration: int): Range {
    if duration > 0 && start >= duration as real then BadRange
    else
      var end' := if duration > 0 && end > duration as real then duration as real else end;
      if end' <= start then BadOrder else Ok(start, end')
  }

  function RangeOf(input: string, duration: int): Range {
    var parts := Split(Normalize(input), '-');
    if |parts| != 2 || Seconds(parts[0]).None? || Seconds(parts[1]).None? then BadFormat
    else Ranged(Seconds(parts[0]).value, Seconds(parts[1]).value, duration)
  }

  method ParseRange(input: string, duration: int) returns (r: Range)
    ensures r == RangeOf(input, duration)
  {
    var parts := Split(Normalize(input), '-');
    if |parts| != 2 {
      return BadFormat;
    }
    var start := ParseTimecode(parts[0]);
    if start.None? {
      return BadFormat;
    }
    var end := ParseTimecode(parts[1]);
    if end.None? {
      return BadFormat;
    }
    var (s, e) := (start.value, end.value);
    if duration > 0 {
      if s >= duration as real {
        return BadRange;
      }
      if e > duration as real {
        e := duration as real;
      }
    }
    if e <= s {
      return BadOrder;
    }
    r := Ok(s, e);
  }

  /** A text without dashes, hyphens or two dots in a row. */
  predicate Quiet(a: string) {
    && (forall k :: 0 <= k < |a| ==> a[k] !in {'-', '\U{2014}', '\U{2013}', '\U{2212}'})
    && (forall k :: 0 <= k < |a| - 1 ==> !(a[k] == '.' && a[k + 1] == '.'))
  }

  lemma NormalizeOne(s: string)
    requires s != "" && s[0] !in {'\U{2014}', '\U{2013}', '\U{2212}'} && !(|s| >= 2 && s[0] == '.' && s[1] == '.')
    ensures Normalize(s) == [s[0]] + Normalize(s[1..])
  {
  }

  lemma QuietRest(a: string)
    requires Quiet(a) && a != ""
    ensures Quiet(a[1..])
  {
    assert forall k :: 0 <= k < |a[1..]| ==> a[1..][k] == a[k + 1];
  }

  lemma {:induction false} NormalizeQuiet(a: string, rest: string)
    requires Quiet(a) && (a != "" && rest != "" ==> a[|a| - 1] != '.' || rest[0] != '.')
    ensures Normalize(a + rest) == a + Normalize(rest)
  {
    if a == "" {
      assert a + rest == rest;
    } else {
      assert (a + rest)[1..] == a[1..] + rest;
      QuietRest(a);
      NormalizeOne(a + rest);
      NormalizeQuiet(a[1..], rest);
      assert a == [a[0]] + a[1..];
    }
  }

  lemma NormalizeSeparator(sep: string, b: string)
    requires sep in {"-", "\U{2014}", "\U{2013}", "\U{2212}", ".."} && Quiet(b)
    ensures Normalize(sep + b) == "-" + b
  {
    NormalizeQuiet(b, "");
    assert b + "" == b;
    assert (sep + b)[|sep|..] == b;
  }

  lemma QuietPieces(a: string, b: string)
    requires Quiet(a) && Quiet(b)
    ensures Split(a + ("-" + b), '-') == [a, b]
  {
    assert a + ("-" + b) == a + "-" + b;
    assert Free(a, '-') && Free(b, '-');
    SplitHead(a, '-', b);
    SplitFree(b, '-');
  }

  /** Two timecodes around a hyphen, any of the dashes, or two dots: the same range. */
  lemma SeparatorsAlike(a: string, sep: string, b: string)
    requires sep in {"-", "\U{2014}", "\U{2013}", "\U{2212}", ".."} && Quiet(a) && Quiet(b)
    requires a != "" ==> a[|a| - 1] != '.'
    ensures Split(Normalize(a + sep + b), '-') == [a, b]
  {
    assert a + sep + b == a + (sep + b);
    NormalizeQuiet(a, sep + b);
    NormalizeSeparator(sep, b);
    QuietPieces(a, b);
  }

  /** What a typed range means, and which fault is told: no timecode, a start past the end of the video, or an
      end that does not lie behind the start once it is cut to the video. */
  lemma RangeMeans(a: string, sep: string, b: string, duration: int)
    requires sep in {"-", "\U{2014}", "\U{2013}", "\U{2212}", ".."} && Quiet(a) && Quiet(b)
    requires a != "" ==> a[|a| - 1] != '.'
    ensures var r := RangeOf(a + sep + b, duration);
            && (r == BadFormat <==> Seconds(a).None? || Seconds(b).None?)
            && (Seconds(a).Some? && Seconds(b).Some? ==>
                  var (s, e) := (Seconds(a).value, Seconds(b).value);
                  && (r == BadRange <==> duration > 0 && s >= duration as real)
                  && (r == BadOrder <==> !(duration > 0 && s >= duration as real) && e <= s)
                  && (r.Ok? ==> r.start == s && r.end == if duration > 0 && e > duration as real then duration as real
                                                         else e))
  {
    SeparatorsAlike(a, sep, b);
  }

  /** Every accepted range is a proper piece of the video; the start is what was typed and the end is
      what was typed or the end of the video. */
  lemma {:induction false} AcceptedInside(input: string, duration: int)
    ensures match RangeOf(input, duration)
            case Ok(s, e) =>
              && 0.0 <= s < e && (duration > 0 ==> e <= duration as real)
              && var parts := Split(Normalize(input), '-');
                 && |parts| == 2 && Seconds(parts[0]) == Some(s) && Seconds(parts[1]).Some?
                 && (Seconds(parts[1]).value == e || (duration > 0 && e == duration as real < Seconds(parts[1]).value))
            case _ => true
  {
  }

  // ---------------------------------------------------------------- printing

  function Pad2(n: nat): string {
    if n < 10 then "0" + PrintNat(n) else PrintNat(n)
  }

  function FormatDuration(sec: int): string {
    var n := if sec < 0 then 0 else sec;
    var (h, m, s) := (n / 3600, n % 3600 / 60, n % 60);
    if h > 0 then PrintNat(h) + ":" + Pad2(m) + ":" + Pad2(s) else PrintNat(m) + ":" + Pad2(s)
  }

  /** From here on a whole number of seconds plus one half is no 64-bit float: it becomes the even
      neighbour. */
  const HALVES_END := 0x10_0000_0000_0000

  /** `int(end + 0.5)`. */
  function HalfUp(end: real): int {
    if end >= HALVES_END as real && end == end.Floor as real then end.Floor + end.Floor % 2 else (end + 0.5).Floor
  }

  function FormatRange(start: real, end: real): string {
    FormatDuration(start.Floor) + "\U{2013}" + FormatDuration(HalfUp(end))
  }

  // ---------------------------------------------------------------- the round trip

  lemma PaddedValue(n: nat)
    requires n < 100
    ensures |Pad2(n)| == 2 && Digits(Pad2(n)) && NatValue(Pad2(n)) == n
  {
    NatRoundTrip(n);
    if 10 <= n {
      assert PrintNat(n) == PrintNat(n / 10) + [DigitChar(n % 10)];
    }
    if n < 10 {
      var p := Pad2(n);
      assert p == ['0', DigitChar(n)];
      assert p[..1] == ['0'] && p[..1][..0] == "";
      assert NatValue("") == 0;
      assert NatValue(p[..1]) == NatValue(p[..1][..0]) * 10 + DigitValue(p[..1][0]);
    }
  }

  predicate Numeral(s: string) {
    s != "" && Digits(s) && NatValue(s) <= MAX_INT64
  }

  lemma DigitTrim(s: string)
    requires s != "" && Digits(s)
    ensures TrimSpace(s) == s
  {
    assert IsDigit(s[0]) && IsDigit(s[|s| - 1]);
    TrimmedFixed(s);
  }

  lemma DigitParse(s: string)
    requires Numeral(s)
    ensures Gives(ParseDecimal(s), NatValue(s) as real) && Atoi(s) == Some(NatValue(s))
  {
    assert IsDigit(s[0]);
    assert Free(s, '.');
    SplitFree(s, '.');
  }

  lemma WholeFieldIs(s: string)
    requires Numeral(s)
    ensures WholeField(s) == Some(NatValue(s))
  {
    DigitTrim(s);
    DigitParse(s);
  }

  lemma LastFieldIs(s: string)
    requires Numeral(s)
    ensures Gives(ParseDecimal(TrimSpace(s)), NatValue(s) as real)
  {
    DigitTrim(s);
    DigitParse(s);
  }

  predicate Clockwork(s: string) {
    s != "" && IsDigit(s[0]) && IsDigit(s[|s| - 1]) && forall k :: 0 <= k < |s| ==> IsDigit(s[k]) || s[k] == ':'
  }

  lemma SecondsOf(s: string, fields: seq<string>)
    requires Clockwork(s) && Split(s, ':') == fields && |fields| <= 3
    ensures Seconds(s) == SumOf(fields)
  {
    TrimmedFixed(s);
  }

  lemma Weights()
    ensures Weight(1) == 60 && Weight(2) == 3600
  {
    assert Weight(0) == 1;
  }

  lemma OneMore(fields: seq<string>, n: nat, w: nat, v: nat, weight: nat)
    requires 0 < n < |fields| && weight == Weight(|fields| - n)
    requires WholeTo(fields, n - 1) == Some(w) && WholeField(fields[n - 1]) == Some(v)
    ensures WholeTo(fields, n) == Some(w + v * weight)
  {
  }

  lemma TwoWhole(a: string, b: string)
    requires Numeral(a)
    ensures WholeTo([a, b], 1) == Some(NatValue(a) * 60)
  {
    WholeFieldIs(a);
    Weights();
    assert WholeTo([a, b], 0) == Some(0);
    OneMore([a, b], 1, 0, NatValue(a), 60);
  }

  lemma TwoSum(a: string, b: string)
    requires Numeral(a) && Numeral(b)
    ensures Gives(SumOf([a, b]), Plus(NatValue(a) * 60, NatValue(b) as real))
  {
    TwoWhole(a, b);
    LastFieldIs(b);
  }

  lemma ThreeWhole(a: string, b: string, c: string)
    requires Numeral(a) && Numeral(b)
    ensures WholeTo([a, b, c], 2) == Some(NatValue(a) * 3600 + NatValue(b) * 60)
  {
    WholeFieldIs(a);
    WholeFieldIs(b);
    Weights();
    assert WholeTo([a, b, c], 0) == Some(0);
    OneMore([a, b, c], 1, 0, NatValue(a), 3600);
    OneMore([a, b, c], 2, NatValue(a) * 3600, NatValue(b), 60);
  }

  lemma SumIs(fields: seq<string>, w: nat, v: real)
    requires |fields| > 0 && WholeTo(fields, |fields| - 1) == Some(w)
    requires Gives(ParseDecimal(TrimSpace(fields[|fields| - 1])), v)
    ensures Gives(SumOf(fields), Plus(w, v))
  {
  }

  /** What one, two or three fields come to: the last one's number, sixty for each of the field before it, and
      3600 for each of the first; a field that is no number, or a negative one, leaves no sum. */
  lemma FieldsAddUp(a: string, b: string, c: string, x: nat, y: nat, z: real)
    requires Atoi(TrimSpace(a)) == Some(x) && Atoi(TrimSpace(b)) == Some(y) && ParseDecimal(TrimSpace(c)) == Some(z)
    ensures SumOf([c]) == Some(Plus(0, z)) && SumOf([b, c]) == Some(Plus(y * 60, z))
    ensures SumOf([a, b, c]) == Some(Plus(x * 3600 + y * 60, z))
  {
    Weights();
    assert WholeTo([c], 0) == Some(0);
    assert WholeTo([b, c], 0) == Some(0);
    OneMore([b, c], 1, 0, y, 60);
    assert WholeTo([a, b, c], 0) == Some(0);
    OneMore([a, b, c], 1, 0, x, 3600);
    OneMore([a, b, c], 2, x * 3600, y, 60);
  }

  lemma {:induction false} BadField(fields: seq<string>, k: nat)
    requires k < |fields|
    requires if k == |fields| - 1 then ParseDecimal(TrimSpace(fields[k])).None?
             else Atoi(TrimSpace(fields[k])).None? || Atoi(TrimSpace(fields[k])).value < 0
    ensures SumOf(fields) == None
  {
    if k < |fields| - 1 {
      assert WholeTo(fields, k + 1).None?;
      NoSum(fields, k + 1);
    }
  }

  /** A timecode is its fields between colons, spaces around it aside; more than three are refused. */
  lemma FieldsOf(fields: seq<string>)
    requires |fields| > 0 && forall k :: 0 <= k < |fields| ==> Free(fields[k], ':')
    requires Join(fields, ':') != "" && Trimmed(Join(fields, ':'))
    ensures Seconds(Join(fields, ':')) == if |fields| > 3 then None else SumOf(fields)
  {
    TrimmedFixed(Join(fields, ':'));
    SplitJoin(fields, ':');
  }

  lemma ThreeSum(a: string, b: string, c: string, w: nat)
    requires Numeral(c) && WholeTo([a, b, c], 2) == Some(w)
    ensures Gives(SumOf([a, b, c]), Plus(w, NatValue(c) as real))
  {
    LastFieldIs(c);
    SumIs([a, b, c], w, NatValue(c) as real);
  }

  lemma DigitsFree(s: string)
    requires Digits(s)
    ensures Free(s, ':') && Free(s, '-')
  {
  }

  lemma TwoFields(a: string, b: string)
    requires Numeral(a) && Numeral(b)
    ensures Clockwork(a + ":" + b)
    ensures Gives(Seconds(a + ":" + b), Plus(NatValue(a) * 60, NatValue(b) as real))
  {
    var s := a + ":" + b;
    assert IsDigit(a[0]) && IsDigit(b[|b| - 1]);
    DigitsFree(a);
    DigitsFree(b);
    SplitHead(a, ':', b);
    SplitFree(b, ':');
    SecondsOf(s, [a, b]);
    TwoSum(a, b);
  }

  lemma ThreeParts(a: string, b: string, c: string)
    requires Numeral(a) && Numeral(b) && Numeral(c)
    ensures Clockwork(a + ":" + b + ":" + c)
    ensures Split(a + ":" + b + ":" + c, ':') == [a, b, c]
  {
    var s := a + ":" + b + ":" + c;
    assert IsDigit(a[0]) && IsDigit(c[|c| - 1]);
    assert s == a + ":" + (b + ":" + c);
    DigitsFree(a);
    DigitsFree(b);
    DigitsFree(c);
    SplitHead(a, ':', b + ":" + c);
    SplitHead(b, ':', c);
    SplitFree(c, ':');
  }

  lemma ThreeFields(a: string, b: string, c: string)
    requires Numeral(a) && Numeral(b) && Numeral(c)
    ensures Clockwork(a + ":" + b + ":" + c)
    ensures Gives(Seconds(a + ":" + b + ":" + c), Plus(NatValue(a) * 3600 + NatValue(b) * 60, NatValue(c) as real))
  {
    ThreeParts(a, b, c);
    SecondsOf(a + ":" + b + ":" + c, [a, b, c]);
    ThreeWhole(a, b, c);
    ThreeSum(a, b, c, NatValue(a) * 3600 + NatValue(b) * 60);
  }

  lemma NumeralOf(n: nat)
    requires n <= MAX_INT64
    ensures Numeral(PrintNat(n)) && NatValue(PrintNat(n)) == n
  {
    NatRoundTrip(n);
  }

  lemma HourClock(h: nat, m: nat, s: nat)
    requires h <= MAX_INT64 && m < 60 && s < 60
    ensures Clockwork(PrintNat(h) + ":" + Pad2(m) + ":" + Pad2(s))
    ensures Gives(Seconds(PrintNat(h) + ":" + Pad2(m) + ":" + Pad2(s)), Plus(h * 3600 + m * 60, s as real))
  {
    NumeralOf(h);
    PaddedValue(m);
    PaddedValue(s);
    ThreeFields(PrintNat(h), Pad2(m), Pad2(s));
  }

  lemma MinuteClock(m: nat, s: nat)
    requires m < 60 && s < 60
    ensures Clockwork(PrintNat(m) + ":" + Pad2(s))
    ensures Gives(Seconds(PrintNat(m) + ":" + Pad2(s)), Plus(m * 60, s as real))
  {
    NumeralOf(m);
    PaddedValue(s);
    TwoFields(PrintNat(m), Pad2(s));
  }

  lemma SmallRemainder(q: nat, r: nat)
    requires r < 60
    ensures (60 * q + r) % 60 == r
  {
  }

  lemma ClockParts(n: nat, h: nat, m: nat, s: nat)
    requires h == n / 3600 && m == n % 3600 / 60 && s == n % 60
    ensures h <= n && m < 60 && s < 60
    ensures Plus(h * 3600 + m * 60, s as real) == n as real
  {
    var rest := n % 3600;
    assert n == 3600 * h + rest && rest == 60 * m + rest % 60;
    assert n == 60 * (60 * h + m) + rest % 60;
    SmallRemainder(60 * h + m, rest % 60);
    RealSum(h * 3600 + m * 60, s);
  }

  /** Parsing a printed duration gives back exactly the duration. */
  lemma DurationRoundTrip(n: int)
    requires 0 <= n <= 2 * HALVES_END
    ensures Clockwork(FormatDuration(n)) && Gives(Seconds(FormatDuration(n)), n as real)
  {
    var h, m, s := n / 3600, n % 3600 / 60, n % 60;
    ClockParts(n, h, m, s);
    if h > 0 {
      assert FormatDuration(n) == PrintNat(h) + ":" + Pad2(m) + ":" + Pad2(s);
      HourClock(h, m, s);
    } else {
      assert FormatDuration(n) == PrintNat(m) + ":" + Pad2(s);
      MinuteClock(m, s);
    }
  }

  lemma TailOf(a: string, b: string)
    ensures (a + b)[|a + b| - |b|..] == b
  {
  }

  lemma MinutesShape(n: int)
    requires 0 <= n < 3600
    ensures var t := FormatDuration(n); |t| >= 3 && t == PrintNat(n / 60) + ":" + t[|t| - 2..]
  {
    PaddedValue(n % 60);
    assert n % 3600 / 60 == n / 60;
    TailOf(PrintNat(n / 60) + ":", Pad2(n % 60));
  }

  lemma MiddleOf(a: string, b: string, c: string)
    ensures (a + b + c)[|a|..|a + b|] == b
  {
  }

  lemma HoursShape(n: int)
    requires n >= 3600
    ensures var t := FormatDuration(n);
            |t| >= 6 && t == PrintNat(n / 3600) + ":" + t[|t| - 5..|t| - 3] + ":" + t[|t| - 2..]
  {
    var (m, s) := (n % 3600 / 60, n % 60);
    PaddedValue(m);
    PaddedValue(s);
    var hours := PrintNat(n / 3600) + ":";
    TailOf(hours + Pad2(m) + ":", Pad2(s));
    MiddleOf(hours, Pad2(m), ":" + Pad2(s));
    assert hours + Pad2(m) + (":" + Pad2(s)) == FormatDuration(n);
  }

  /** Minutes and seconds have two digits each, but for minutes that come first; no duration is shown below
      zero. */
  lemma DurationShape(n: int)
    ensures var t := FormatDuration(n);
            && (0 <= n < 3600 ==> |t| >= 3 && t == PrintNat(n / 60) + ":" + t[|t| - 2..])
            && (n >= 3600 ==> |t| >= 6
                              && t == PrintNat(n / 3600) + ":" + t[|t| - 5..|t| - 3] + ":" + t[|t| - 2..])
            && (n < 0 ==> t == FormatDuration(0))
  {
    if n >= 3600 {
      HoursShape(n);
    } else if n >= 0 {
      MinutesShape(n);
    }
  }

  /** The shown range: the start in whole seconds, the end to the nearest second. */
  lemma RangeShown(start: real, end: real)
    requires 0.0 <= start && 0.0 <= end < 4503599627370496.0
    ensures exists s: int, e: int ::
              && s as real <= start < (s + 1) as real
              && e as real - 0.5 <= end < e as real + 0.5
              && FormatRange(start, end) == FormatDuration(s) + "\U{2013}" + FormatDuration(e)
  {
    var (s, e) := (start.Floor, HalfUp(end));
    assert FormatRange(start, end) == FormatDuration(s) + "\U{2013}" + FormatDuration(e);
  }

  lemma {:induction false} NormalizeKeeps(a: string, rest: string)
    requires forall k :: 0 <= k < |a| ==> IsDigit(a[k]) || a[k] == ':'
    ensures Normalize(a + rest) == a + Normalize(rest)
  {
    if a == "" {
      assert a + rest == rest;
    } else {
      assert (a + rest)[1..] == a[1..] + rest;
      NormalizeKeeps(a[1..], rest);
      assert a == [a[0]] + a[1..];
    }
  }

  /** The printed dash is read as the separator. */
  lemma PrintedParts(a: string, b: string)
    requires Clockwork(a) && Clockwork(b)
    ensures Split(Normalize(a + "\U{2013}" + b), '-') == [a, b]
  {
    var dash := "\U{2013}";
    assert a + dash + b == a + (dash + b);
    NormalizeKeeps(a, dash + b);
    assert (dash + b)[1..] == b;
    NormalizeKeeps(b, "");
    assert b + "" == b;
    assert Normalize(a + dash + b) == a + "-" + b;
    assert Free(a, '-') && Free(b, '-');
    SplitHead(a, '-', b);
    SplitFree(b, '-');
  }

  lemma PrintedRange(s: int, e: int, duration: int)
    requires 0 <= s <= 2 * HALVES_END && 0 <= e <= 2 * HALVES_END
    ensures RangeOf(FormatDuration(s) + "\U{2013}" + FormatDuration(e), duration)
              == Ranged(s as real, e as real, duration)
  {
    DurationRoundTrip(s);
    DurationRoundTrip(e);
    PrintedParts(FormatDuration(s), FormatDuration(e));
  }

  lemma PrintedEnd(e: int)
    requires 0 <= e
    ensures HalfUp(e as real) == if e < HALVES_END then e else e + e % 2
  {
    assert (e as real).Floor == e && (e as real + 0.5).Floor == e;
  }

  /** Parsing a printed range gives back exactly the range, for whole seconds in the video, if and only if the
      end is below 2^52, or even, or the end of the video: the odd ends above are printed one second late.
      All of it is exact in 64-bit floats up to 2^53. */
  lemma RangeRoundTrip(s: int, e: int, duration: int)
    requires 0 <= s < e <= 2 * HALVES_END && (duration > 0 ==> e <= duration)
    ensures RangeOf(FormatRange(s as real, e as real), duration) == Ok(s as real, e as real)
       <==> e < HALVES_END || e % 2 == 0 || e == duration
  {
    assert (s as real).Floor == s;
    PrintedEnd(e);
    PrintedRange(s, if e < HALVES_END then e else e + e % 2, duration);
  }
}
