/**
 * The functions of Go's `strings` package that the services use. A Go string is a
 * sequence of bytes; here each `char` of a `string` stands for one byte, so lengths
 * and slices are byte lengths and byte slices, as in Go.
 */
module GoStrings {
  import opened Common

  /** ASCII white space, as `unicode.IsSpace` reports it for single-byte characters. */
  predicate IsSpace(c: char)
  {
    c == ' ' || c == '\t' || c == '\n' || c == '\r' || c as int == 11 || c as int == 12
  }

  /** The longest suffix of `s` that does not start with white space. */
  function TrimLeftSpace(s: string): (r: string)
    ensures |r| <= |s| && r == s[|s| - |r|..]
    ensures r == [] || !IsSpace(r[0])
    ensures forall i :: 0 <= i < |s| - |r| ==> IsSpace(s[i])
  {
    if s != [] && IsSpace(s[0]) then TrimLeftSpace(s[1..]) else s
  }

  /** The longest prefix of `s` that does not end with white space. */
  function TrimRightSpace(s: string): (r: string)
    ensures |r| <= |s| && r == s[..|r|]
    ensures r == [] || !IsSpace(r[|r| - 1])
    ensures forall i :: |r| <= i < |s| ==> IsSpace(s[i])
  {
    if s != [] && IsSpace(s[|s| - 1]) then TrimRightSpace(s[..|s| - 1]) else s
  }

  /** `strings.TrimSpace`: a slice of `s` that neither starts nor ends with white space,
      obtained by dropping only white space. */
  function TrimSpace(s: string): (r: string)
    ensures r == [] || (!IsSpace(r[0]) && !IsSpace(r[|r| - 1]))
    ensures exists i :: OccursAt(s, r, i)
  {
    var left := TrimLeftSpace(s);
    var r := TrimRightSpace(left);
    assert r == s[|s| - |left|..][..|r|] == s[|s| - |left|..|s| - |left| + |r|];
    assert OccursAt(s, r, |s| - |left|);
    r
  }

  predicate HasPrefix(s: string, prefix: string)
  {
    |prefix| <= |s| && s[..|prefix|] == prefix
  }

  predicate HasSuffix(s: string, suffix: string)
  {
    |suffix| <= |s| && s[|s| - |suffix|..] == suffix
  }

  /** `strings.TrimPrefix`: removes one leading occurrence of `prefix`, if present. */
  function TrimPrefix(s: string, prefix: string): (r: string)
    ensures HasPrefix(s, prefix) ==> s == prefix + r
    ensures !HasPrefix(s, prefix) ==> r == s
  {
    if HasPrefix(s, prefix) then s[|prefix|..] else s
  }

  /** `strings.TrimSuffix`: removes one trailing occurrence of `suffix`, if present. */
  function TrimSuffix(s: string, suffix: string): (r: string)
    ensures HasSuffix(s, suffix) ==> s == r + suffix
    ensures !HasSuffix(s, suffix) ==> r == s
  {
    if HasSuffix(s, suffix) then s[..|s| - |suffix|] else s
  }

  /** `sub` occurs in `s` starting at index `i`. */
  predicate OccursAt(s: string, sub: string, i: int)
  {
    0 <= i && i + |sub| <= |s| && s[i..i + |sub|] == sub
  }

  /** `strings.Contains`. */
  predicate Contains(s: string, sub: string)
  {
    exists i :: 0 <= i <= |s| - |sub| && OccursAt(s, sub, i)
  }

  function LowerChar(c: char): char
  {
    if 'A' <= c <= 'Z' then (c as int - 'A' as int + 'a' as int) as char else c
  }

  function UpperChar(c: char): char
  {
    if 'a' <= c <= 'z' then (c as int - 'a' as int + 'A' as int) as char else c
  }

  /** `strings.ToLower` on ASCII letters. */
  function ToLower(s: string): (r: string)
    ensures |r| == |s| && forall i :: 0 <= i < |s| ==> r[i] == LowerChar(s[i])
  {
    seq(|s|, i requires 0 <= i < |s| => LowerChar(s[i]))
  }

  /** `strings.ToUpper` on ASCII letters. */
  function ToUpper(s: string): (r: string)
    ensures |r| == |s| && forall i :: 0 <= i < |s| ==> r[i] == UpperChar(s[i])
  {
    seq(|s|, i requires 0 <= i < |s| => UpperChar(s[i]))
  }

  /** `strings.ReplaceAll` for a non-empty pattern: a left-to-right scan that replaces
      non-overlapping occurrences of `pattern`. */
  function ReplaceAll(s: string, pattern: string, replacement: string): string
    requires pattern != []
    decreases |s|
  {
    if |s| < |pattern| then s
    else if s[..|pattern|] == pattern then replacement + ReplaceAll(s[|pattern|..], pattern, replacement)
    else [s[0]] + ReplaceAll(s[1..], pattern, replacement)
  }

  /** A string that neither starts nor ends with white space is its own TrimSpace. */
  lemma TrimSpaceOfTrimmed(s: string)
    requires s == [] || (!IsSpace(s[0]) && !IsSpace(s[|s| - 1]))
    ensures TrimSpace(s) == s
  {
  }

  /** An occurrence inside an occurrence is an occurrence. */
  lemma OccursWithin(a: string, b: string, c: string, i: int, j: int)
    requires OccursAt(a, b, i) && OccursAt(b, c, j)
    ensures OccursAt(a, c, i + j)
  {
    forall k | 0 <= k < |c|
      ensures a[i + j..i + j + |c|][k] == c[k]
    {
      assert a[i + j + k] == b[j + k] == c[k];
    }
  }

  /** TrimSpace keeps a contiguous piece of its input, found at offset `i`. */
  lemma TrimSpaceOccurs(s: string) returns (i: int)
    ensures OccursAt(s, TrimSpace(s), i)
  {
    i :| OccursAt(s, TrimSpace(s), i);
  }

  /** Occurrences compose across three levels. */
  lemma OccursWithinTwice(a: string, b: string, c: string, d: string, i: int, j: int, k: int)
    requires OccursAt(a, b, i) && OccursAt(b, c, j) && OccursAt(c, d, k)
    ensures OccursAt(a, d, i + j + k)
  {
    OccursWithin(a, b, c, i, j);
    OccursWithin(a, c, d, i + j, k);
  }

  /** TrimPrefix keeps a suffix of its input. */
  lemma TrimPrefixOccurs(s: string, prefix: string)
    ensures OccursAt(s, TrimPrefix(s, prefix), |s| - |TrimPrefix(s, prefix)|)
  {
  }

  /** TrimSuffix keeps a prefix of its input. */
  lemma TrimSuffixOccurs(s: string, suffix: string)
    ensures OccursAt(s, TrimSuffix(s, suffix), 0)
  {
  }

  /** ReplaceAll leaves a string in which `pattern` does not occur unchanged. */
  lemma {:induction false} ReplaceAllAbsent(s: string, pattern: string, replacement: string)
    requires pattern != []
    requires forall i :: !OccursAt(s, pattern, i)
    ensures ReplaceAll(s, pattern, replacement) == s
    decreases |s|
  {
    if |s| >= |pattern| {
      assert !OccursAt(s, pattern, 0);
      forall i | OccursAt(s[1..], pattern, i)
        ensures false
      {
        assert s[1..][i..i + |pattern|] == s[i + 1..i + 1 + |pattern|];
        assert OccursAt(s, pattern, i + 1);
      }
      ReplaceAllAbsent(s[1..], pattern, replacement);
    }
  }

  predicate IsDigit(c: char)
  {
    '0' <= c <= '9'
  }

  predicate AllDigits(s: string)
  {
    forall i :: 0 <= i < |s| ==> IsDigit(s[i])
  }

  /** The value of a string of decimal digits, leading zeros allowed. */
  function DecimalValue(s: string): nat
    requires AllDigits(s)
  {
    if s == [] then 0 else DecimalValue(s[..|s| - 1]) * 10 + (s[|s| - 1] as int - '0' as int)
  }

  const MinInt := -0x8000_0000_0000_0000
  const MaxInt := 0x7FFF_FFFF_FFFF_FFFF

  /** `strconv.Atoi` for a 64-bit `int`: an optional sign followed by at least one
      decimal digit, whose value lies in the range of `int`. */
  function Atoi(s: string): (r: Option<int>)
    ensures r.Some? ==> MinInt <= r.value <= MaxInt
    ensures r.Some? ==> s != [] && (IsDigit(s[0]) || s[0] == '-' || s[0] == '+')
  {
    var signed := s != [] && (s[0] == '-' || s[0] == '+');
    var digits := if signed then s[1..] else s;
    if digits == [] || !AllDigits(digits) then None
    else
      var magnitude: int := DecimalValue(digits);
      var v := if s[0] == '-' then -magnitude else magnitude;
      if MinInt <= v <= MaxInt then Some(v) else None
  }

  /** The decimal digits of `n`, without leading zeros. */
  function DecimalDigits(n: nat): (s: string)
    ensures s != [] && AllDigits(s)
  {
    if n < 10 then [('0' as int + n) as char]
    else DecimalDigits(n / 10) + [('0' as int + n % 10) as char]
  }

  /** `strconv.Itoa`. */
  function Itoa(n: int): string
  {
    if n < 0 then "-" + DecimalDigits(-n) else DecimalDigits(n)
  }

  lemma {:induction false} DecimalRoundTrip(n: nat)
    ensures DecimalValue(DecimalDigits(n)) == n
  {
    if n >= 10 {
      DecimalRoundTrip(n / 10);
      var s := DecimalDigits(n);
      assert s[..|s| - 1] == DecimalDigits(n / 10);
    }
  }

  /** Atoi reads back every `int` that Itoa writes. */
  lemma AtoiItoa(n: int)
    requires MinInt <= n <= MaxInt
    ensures Atoi(Itoa(n)) == Some(n)
  {
    var s := Itoa(n);
    if n < 0 {
      var digits := DecimalDigits(-n);
      DecimalRoundTrip(-n);
      assert s[0] == '-' && s[1..] == digits;
    } else {
      var digits := DecimalDigits(n);
      DecimalRoundTrip(n);
      assert s == digits && IsDigit(s[0]);
    }
  }
}
