/** String operations the handlers and components rely on: number-to-string
    conversion of integers (`${n}`, `n.toString()`), `padStart`,
    `String.prototype.trim` and `Array.prototype.join`. */
module Text {
  import opened Seqs

  predicate IsDigit(c: char) {
    '0' <= c <= '9'
  }

  predicate AllDigits(s: string) {
    forall i :: 0 <= i < |s| ==> IsDigit(s[i])
  }

  function DigitChar(d: nat): (c: char)
    requires d < 10
    ensures IsDigit(c) && c as int - '0' as int == d
  {
    ('0' as int + d) as char
  }

  /** Decimal digits of a non-negative integer, without leading zeros. */
  function NatToString(n: nat): (r: string)
    ensures |r| >= 1 && AllDigits(r)
    ensures r[0] == '0' ==> r == "0"
  {
    if n < 10 then [DigitChar(n)] else NatToString(n / 10) + [DigitChar(n % 10)]
  }

  /** Reads a run of decimal digits back as a number. */
  function ParseDigits(s: string): nat
    requires AllDigits(s)
  {
    if s == [] then 0
    else 10 * ParseDigits(s[..|s| - 1]) + (s[|s| - 1] as int - '0' as int)
  }

  lemma {:induction false} ParseNatToString(n: nat)
    ensures ParseDigits(NatToString(n)) == n
  {
    if n >= 10 {
      ParseNatToString(n / 10);
      var r := NatToString(n);
      assert r[..|r| - 1] == NatToString(n / 10);
    }
  }

  /** The decimal form of an integer-valued JavaScript number. */
  function IntToString(n: int): (r: string)
  {
    if n < 0 then "-" + NatToString(-n) else NatToString(n)
  }

  function ParseInt(s: string): int
    requires s != [] && (AllDigits(s) || (s[0] == '-' && AllDigits(s[1..])))
  {
    if s[0] == '-' then 0 - ParseDigits(s[1..]) else ParseDigits(s)
  }

  /** The decimal form reads back as the same integer, so distinct
      integers print differently. */
  lemma IntToStringRoundTrip(n: int)
    ensures var r := IntToString(n);
      r != [] && (AllDigits(r) || (r[0] == '-' && AllDigits(r[1..]))) && ParseInt(r) == n
  {
    if n < 0 {
      ParseNatToString(-n);
      assert IntToString(n)[1..] == NatToString(-n);
    } else {
      ParseNatToString(n);
    }
  }

  function Repeat(c: char, k: nat): (r: string)
    ensures |r| == k && forall i :: 0 <= i < k ==> r[i] == c
  {
    if k == 0 then "" else [c] + Repeat(c, k - 1)
  }

  /** `s.padStart(width, fill)` with a one-character fill. */
  function PadStart(s: string, width: nat, fill: char): (r: string)
    ensures |r| == if |s| >= width then |s| else width
    ensures r[|r| - |s|..] == s
    ensures forall i :: 0 <= i < |r| - |s| ==> r[i] == fill
  {
    if |s| >= width then s else Repeat(fill, width - |s|) + s
  }

  /** The characters `String.prototype.trim` removes: the ECMAScript
      WhiteSpace and LineTerminator code points. */
  predicate IsJsWhitespace(c: char) {
    c == '\t' || c == '\n' || c == '\U{000B}' || c == '\U{000C}' || c == '\r' || c == ' '
    || c == '\U{00A0}' || c == '\U{1680}' || ('\U{2000}' <= c <= '\U{200A}')
    || c == '\U{2028}' || c == '\U{2029}' || c == '\U{202F}' || c == '\U{205F}'
    || c == '\U{3000}' || c == '\U{FEFF}'
  }

  predicate AllWhitespace(s: string) {
    forall i :: 0 <= i < |s| ==> IsJsWhitespace(s[i])
  }

  /** Leading whitespace removed. */
  function TrimStart(s: string): (r: string)
    ensures |r| <= |s| && r == s[|s| - |r|..]
    ensures AllWhitespace(s[..|s| - |r|])
    ensures r == [] || !IsJsWhitespace(r[0])
  {
    if s != [] && IsJsWhitespace(s[0]) then
      var r := TrimStart(s[1..]);
      assert r == s[|s| - |r|..] by { assert s[1..][|s| - 1 - |r|..] == s[|s| - |r|..]; }
      WhitespaceCons(s, |s| - |r|);
      r
    else s
  }

  /** A whitespace character followed by whitespace is whitespace. */
  lemma WhitespaceCons(s: string, n: nat)
    requires 0 < n <= |s| && IsJsWhitespace(s[0]) && AllWhitespace(s[1..][..n - 1])
    ensures AllWhitespace(s[..n])
  {
    assert s[..n] == [s[0]] + s[1..][..n - 1];
  }

  /** Whitespace followed by a whitespace character is whitespace. */
  lemma WhitespaceSnoc(s: string, k: nat)
    requires k < |s| && IsJsWhitespace(s[|s| - 1]) && AllWhitespace(s[..|s| - 1][k..])
    ensures AllWhitespace(s[k..])
  {
    assert s[k..] == s[..|s| - 1][k..] + [s[|s| - 1]];
  }

  /** Trailing whitespace removed. */
  function TrimEnd(s: string): (r: string)
    ensures |r| <= |s| && r == s[..|r|]
    ensures AllWhitespace(s[|r|..])
    ensures r == [] || !IsJsWhitespace(r[|r| - 1])
  {
    if s != [] && IsJsWhitespace(s[|s| - 1]) then
      var r := TrimEnd(s[..|s| - 1]);
      assert r == s[..|r|] by { assert s[..|s| - 1][..|r|] == s[..|r|]; }
      WhitespaceSnoc(s, |r|);
      r
    else s
  }

  /** `r` sits in `s` at offset `i`, with only whitespace before and after. */
  predicate WhitespaceFramed(s: string, r: string, i: int) {
    0 <= i <= |s| - |r| && r == s[i..i + |r|]
    && AllWhitespace(s[..i]) && AllWhitespace(s[i + |r|..])
  }

  /** `s.trim()`: the contiguous middle of `s` left after removing leading
      and trailing whitespace. */
  function Trim(s: string): (r: string)
    ensures r == [] || (!IsJsWhitespace(r[0]) && !IsJsWhitespace(r[|r| - 1]))
    ensures exists i :: WhitespaceFramed(s, r, i)
  {
    var t := TrimStart(s);
    var r := TrimEnd(t);
    TrimFramed(s, t, r);
    r
  }

  /** Stripping a whitespace prefix and then a whitespace suffix leaves a
      whitespace-framed middle. */
  lemma TrimFramed(s: string, t: string, r: string)
    requires |t| <= |s| && t == s[|s| - |t|..] && AllWhitespace(s[..|s| - |t|])
    requires |r| <= |t| && r == t[..|r|] && AllWhitespace(t[|r|..])
    requires t == [] || !IsJsWhitespace(t[0])
    ensures WhitespaceFramed(s, r, |s| - |t|)
    ensures r == [] || !IsJsWhitespace(r[0])
  {
    var i := |s| - |t|;
    assert t[..|r|] == s[i..i + |r|];
    assert s[i + |r|..] == t[|r|..];
  }

  /** Trimming leaves nothing exactly when the string is whitespace only. */
  lemma TrimEmptyIffBlank(s: string)
    ensures Trim(s) == [] <==> AllWhitespace(s)
  {
    var t := TrimStart(s);
    if Trim(s) == [] {
      assert AllWhitespace(t[0..]);
      assert s == s[..|s| - |t|] + t;
    }
  }

  /** `parts.join(sep)`. */
  function Join(parts: seq<string>, sep: string): string {
    if parts == [] then ""
    else if |parts| == 1 then parts[0]
    else parts[0] + sep + Join(parts[1..], sep)
  }

  /** Reads a `"; "`-joined list back: splits at each `';'` and skips the
      following blank. */
  function SplitSemicolonList(s: string): seq<string>
    decreases |s|
  {
    if ';' !in s then [s]
    else
      var i := FirstIndex(s, ';');
      var next := if i + 2 <= |s| then i + 2 else |s|;
      [s[..i]] + SplitSemicolonList(s[next..])
  }

  /** `genres.join("; ")` can be read back exactly when no genre itself
      contains a `';'`. */
  lemma {:induction false} JoinSplitRoundTrip(parts: seq<string>)
    requires parts != []
    requires forall k :: 0 <= k < |parts| ==> ';' !in parts[k]
    ensures SplitSemicolonList(Join(parts, "; ")) == parts
  {
    if |parts| > 1 {
      var p, rest := parts[0], Join(parts[1..], "; ");
      var s := Join(parts, "; ");
      assert s == p + "; " + rest;
      assert s[|p|] == ';';
      var i := FirstIndex(s, ';');
      assert s[..i] == p;
      assert s[i + 2..] == rest;
      JoinSplitRoundTrip(parts[1..]);
    }
  }
}
