/** Strings as Go's `strings` and `strconv` packages see them: splitting, trimming and decimal
    integers.  Every component below reads or writes text built from these pieces. */
module Text {

  datatype Option<+T> = None | Some(value: T)

  predicate Free(s: string, c: char) {
    forall k :: 0 <= k < |s| ==> s[k] != c
  }

  /** The numbers below `n`. */
  function Below(n: nat): (ks: set<nat>)
    ensures |ks| == n && forall k :: k in ks <==> 0 <= k < n
  {
    if n == 0 then {} else Below(n - 1) + {n - 1}
  }

  // ---------------------------------------------------------------- Split and Join

  /** `strings.Split` with a one-character separator: never empty. */
  function Split(s: string, c: char): (r: seq<string>)
    ensures |r| >= 1
  {
    if s == "" then [""]
    else
      var rest := Split(s[1..], c);
      if s[0] == c then [""] + rest else [[s[0]] + rest[0]] + rest[1..]
  }

  function Join(parts: seq<string>, c: char): string {
    if |parts| == 0 then ""
    else if |parts| == 1 then parts[0]
    else parts[0] + [c] + Join(parts[1..], c)
  }

  lemma {:induction false} SplitPiecesFree(s: string, c: char)
    ensures forall k :: 0 <= k < |Split(s, c)| ==> Free(Split(s, c)[k], c)
  {
    if s != "" {
      SplitPiecesFree(s[1..], c);
    }
  }

  lemma {:induction false} SplitFree(s: string, c: char)
    requires Free(s, c)
    ensures Split(s, c) == [s]
  {
    if s != "" {
      SplitFree(s[1..], c);
      assert s == [s[0]] + s[1..];
    }
  }

  /** A separator-free head is split off as one piece. */
  lemma {:induction false} SplitHead(a: string, c: char, rest: string)
    requires Free(a, c)
    ensures Split(a + [c] + rest, c) == [a] + Split(rest, c)
  {
    var s := a + [c] + rest;
    if a == "" {
      assert s[1..] == rest;
    } else {
      SplitHead(a[1..], c, rest);
      assert s[1..] == a[1..] + [c] + rest;
      assert a == [a[0]] + a[1..];
    }
  }

  /** Splitting undoes joining when no part contains the separator. */
  lemma {:induction false} SplitJoin(parts: seq<string>, c: char)
    requires |parts| >= 1
    requires forall k :: 0 <= k < |parts| ==> Free(parts[k], c)
    ensures Split(Join(parts, c), c) == parts
  {
    if |parts| == 1 {
      SplitFree(parts[0], c);
    } else {
      SplitJoin(parts[1..], c);
      SplitHead(parts[0], c, Join(parts[1..], c));
    }
  }

  /** Joining what was split gives the string back. */
  lemma {:induction false} JoinSplit(s: string, c: char)
    ensures Join(Split(s, c), c) == s
  {
    if s != "" {
      JoinSplit(s[1..], c);
      var rest := Split(s[1..], c);
      assert s == [s[0]] + s[1..];
      if s[0] == c {
        assert ([""] + rest)[1..] == rest;
      } else {
        assert ([[s[0]] + rest[0]] + rest[1..])[1..] == rest[1..];
      }
    }
  }

  /** The last separator cuts a string in one way only. */
  lemma CutLast(a: string, x: string, b: string, y: string, c: char)
    requires a + [c] + x == b + [c] + y
    requires Free(x, c) && Free(y, c)
    ensures a == b && x == y
  {
    var s := a + [c] + x;
    assert s[|a|] == c && s[|b|] == c;
    assert forall k :: |a| < k < |s| ==> s[k] == x[k - |a| - 1];
    assert forall k :: |b| < k < |s| ==> s[k] == y[k - |b| - 1];
    assert a == s[..|a|] && b == s[..|b|];
    assert x == s[|a| + 1..] && y == s[|b| + 1..];
  }

  // ---------------------------------------------------------------- TrimSpace

  /** `unicode.IsSpace`. */
  predicate IsSpace(c: char) {
    c in {'\t', '\n', '\U{0B}', '\U{0C}', '\r', ' ', '\U{85}', '\U{A0}', '\U{1680}', '\U{2028}', '\U{2029}',
      '\U{202F}', '\U{205F}', '\U{3000}'}
    || '\U{2000}' <= c <= '\U{200A}'
  }

  /** The characters that count as spaces, by code point. */
  lemma SpaceIs(c: char)
    ensures IsSpace(c) <==>
              || c as int in {0x20, 0x85, 0xA0, 0x1680, 0x2028, 0x2029, 0x202F, 0x205F, 0x3000}
              || 9 <= c as int <= 13 || 0x2000 <= c as int <= 0x200A
  {
  }

  function TrimLeft(s: string): string {
    if s != "" && IsSpace(s[0]) then TrimLeft(s[1..]) else s
  }

  function TrimRight(s: string): string {
    if s != "" && IsSpace(s[|s| - 1]) then TrimRight(s[..|s| - 1]) else s
  }

  function TrimSpace(s: string): string {
    TrimRight(TrimLeft(s))
  }

  predicate Trimmed(s: string) {
    s != "" ==> !IsSpace(s[0]) && !IsSpace(s[|s| - 1])
  }

  lemma {:induction false} TrimLeftIsSuffix(s: string) returns (k: nat)
    ensures k <= |s| && TrimLeft(s) == s[k..] && forall j :: 0 <= j < k ==> IsSpace(s[j])
    ensures TrimLeft(s) != "" ==> !IsSpace(TrimLeft(s)[0])
  {
    if s != "" && IsSpace(s[0]) {
      var rest := TrimLeftIsSuffix(s[1..]);
      k := rest + 1;
      assert forall j :: 0 < j < k ==> s[j] == s[1..][j - 1];
    } else {
      k := 0;
    }
  }

  lemma {:induction false} TrimRightIsPrefix(s: string) returns (k: nat)
    ensures k <= |s| && TrimRight(s) == s[..k] && forall j :: k <= j < |s| ==> IsSpace(s[j])
    ensures TrimRight(s) != "" ==> !IsSpace(TrimRight(s)[|TrimRight(s)| - 1])
  {
    if s != "" && IsSpace(s[|s| - 1]) {
      k := TrimRightIsPrefix(s[..|s| - 1]);
      assert forall j :: k <= j < |s| - 1 ==> s[j] == s[..|s| - 1][j];
    } else {
      k := |s|;
    }
  }

  /** The result of trimming is a trimmed piece of the input, and only spaces are gone. */
  lemma TrimSpacePiece(s: string)
    ensures Trimmed(TrimSpace(s))
    ensures exists i, j :: 0 <= i <= j <= |s| && TrimSpace(s) == s[i..j]
                           && forall k :: 0 <= k < i || j <= k < |s| ==> IsSpace(s[k])
  {
    var i := TrimLeftIsSuffix(s);
    var l := TrimLeft(s);
    var k := TrimRightIsPrefix(l);
    assert l[..k] == s[i..i + k];
    assert forall m :: i + k <= m < |s| ==> s[m] == l[m - i];
  }

  lemma TrimSpaceFree(s: string, c: char)
    requires Free(s, c)
    ensures Free(TrimSpace(s), c)
  {
    TrimSpacePiece(s);
  }

  lemma TrimmedFixed(s: string)
    requires Trimmed(s)
    ensures TrimSpace(s) == s
  {
    assert TrimLeft(s) == s;
  }

  /** Lower-casing of ASCII letters.  The words it is compared with contain no `k` and no `i`, the only
      letters another character lowers to. */
  function Lower(s: string): (r: string)
    ensures |r| == |s|
  {
    seq(|s|, i requires 0 <= i < |s| => if 'A' <= s[i] <= 'Z' then (s[i] as int + 32) as char else s[i])
  }

  /** Only capital letters change, to the small letter 32 places further on. */
  lemma LowerMeans(s: string, k: nat)
    requires k < |s|
    ensures 'A' <= s[k] <= 'Z' ==> Lower(s)[k] as int == s[k] as int + 32
    ensures !('A' <= s[k] <= 'Z') ==> Lower(s)[k] == s[k]
  {
  }

  // ---------------------------------------------------------------- decimal integers

  predicate IsDigit(c: char) {
    '0' <= c <= '9'
  }

  predicate Digits(s: string) {
    forall k :: 0 <= k < |s| ==> IsDigit(s[k])
  }

  function DigitValue(c: char): (d: nat)
    requires IsDigit(c)
    ensures d < 10
  {
    c as int - '0' as int
  }

  function DigitChar(d: nat): (c: char)
    requires d < 10
    ensures IsDigit(c) && DigitValue(c) == d
  {
    ('0' as int + d) as char
  }

  /** `%d` of a non-negative number. */
  function PrintNat(n: nat): (s: string)
    ensures |s| > 0 && Digits(s)
  {
    if n < 10 then [DigitChar(n)] else PrintNat(n / 10) + [DigitChar(n % 10)]
  }

  function NatValue(s: string): nat
    requires Digits(s)
  {
    if s == "" then 0 else NatValue(s[..|s| - 1]) * 10 + DigitValue(s[|s| - 1])
  }

  lemma {:induction false} NatRoundTrip(n: nat)
    ensures NatValue(PrintNat(n)) == n
  {
    if n >= 10 {
      NatRoundTrip(n / 10);
      assert PrintNat(n)[..|PrintNat(n)| - 1] == PrintNat(n / 10);
    } else {
      assert PrintNat(n)[..0] == "";
      assert NatValue(PrintNat(n)) == NatValue("") * 10 + n;
    }
  }

  /** `%d` of any integer. */
  function PrintInt(i: int): string {
    if i < 0 then "-" + PrintNat(-i) else PrintNat(i)
  }

  lemma PrintIntShape(i: int)
    ensures |PrintInt(i)| > 0
    ensures forall k :: 0 <= k < |PrintInt(i)| ==> IsDigit(PrintInt(i)[k]) || PrintInt(i)[k] == '-'
  {
  }

  /** A printed number is its decimal digits without a leading zero, behind a minus sign when it is negative. */
  lemma {:induction false} PrintIntMeans(n: nat)
    ensures Digits(PrintInt(n)) && NatValue(PrintInt(n)) == n
    ensures |PrintInt(n)| > 1 ==> PrintInt(n)[0] != '0'
    ensures n > 0 ==> PrintInt(0 - n) == "-" + PrintInt(n)
  {
    NatRoundTrip(n);
    if n >= 10 {
      PrintIntMeans(n / 10);
      if n < 100 {
        assert DigitValue(PrintNat(n)[0]) == n / 10 && DigitValue('0') == 0;
      } else {
        assert |PrintNat(n / 10)| > 1;
      }
    }
  }

  lemma PrintIntInjective(i: int, j: int)
    requires PrintInt(i) == PrintInt(j)
    ensures i == j
  {
    if i < 0 {
      assert PrintInt(i)[0] == '-';
      assert PrintInt(i)[1..] == PrintNat(-i);
      NatRoundTrip(-i);
    } else {
      NatRoundTrip(i);
    }
    if j < 0 {
      assert PrintInt(j)[0] == '-';
      assert PrintInt(j)[1..] == PrintNat(-j);
      NatRoundTrip(-j);
    } else {
      NatRoundTrip(j);
    }
    assert i < 0 <==> j < 0;
  }

  const MAX_INT64 := 0x7FFF_FFFF_FFFF_FFFF
  const MIN_INT64 := -0x8000_0000_0000_0000

  predicate IsInt64(i: int) {
    MIN_INT64 <= i <= MAX_INT64
  }

  /** `strconv.Atoi`, which is `ParseInt(s, 10, 64)`: an optional sign, at least one digit, and the
      value must fit 64 bits. */
  function Atoi(s: string): (r: Option<int>)
    ensures r.Some? ==> IsInt64(r.value)
  {
    var signed := s != "" && (s[0] == '-' || s[0] == '+');
    var body := if signed then s[1..] else s;
    if body == "" || !Digits(body) then None
    else
      var v := if signed && s[0] == '-' then 0 - NatValue(body) else NatValue(body);
      if IsInt64(v) then Some(v) else None
  }

  /** Exactly which texts are read as which numbers. */
  lemma AtoiMeans(s: string, v: int)
    ensures Atoi(s) == Some(v) <==>
              && -0x8000_0000_0000_0000 <= v <= 0x7FFF_FFFF_FFFF_FFFF
              && exists digits ::
                   && digits != "" && Digits(digits)
                   && (((s == digits || s == "+" + digits) && v == NatValue(digits))
                       || (s == "-" + digits && v == 0 - NatValue(digits)))
  {
    var signed := s != "" && (s[0] == '-' || s[0] == '+');
    var body := if signed then s[1..] else s;
    assert signed ==> s == [s[0]] + body;
    if digits :| digits != "" && Digits(digits) && (s == digits || s == "+" + digits || s == "-" + digits) {
      assert IsDigit(digits[0]);
      assert body == digits;
    }
  }

  lemma AtoiNat(n: nat)
    requires n <= MAX_INT64
    ensures Atoi(PrintNat(n)) == Some(n)
  {
    NatRoundTrip(n);
    assert IsDigit(PrintNat(n)[0]);
  }

  lemma AtoiNegative(i: int)
    requires MIN_INT64 <= i < 0
    ensures Atoi("-" + PrintNat(-i)) == Some(i)
  {
    NatRoundTrip(-i);
    assert ("-" + PrintNat(-i))[1..] == PrintNat(-i);
  }

  /** Parsing undoes printing for every 64-bit integer. */
  lemma AtoiPrint(i: int)
    requires IsInt64(i)
    ensures Atoi(PrintInt(i)) == Some(i)
  {
    if i < 0 {
      AtoiNegative(i);
    } else {
      AtoiNat(i);
    }
  }
}
