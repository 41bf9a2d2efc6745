/** String helpers shared by the bot, the downloader and the store: Python's
    `str.strip()`, truthiness of optional strings, `x or y`, `str()` of a
    non-negative integer and `"\n".join(...)`. */
module Text {
  import opened Wrappers

  /** The characters Python's `str.strip()` removes within Latin-1:
      tab, line feed, vertical tab, form feed, carriage return, the four
      information separators, space, next-line and no-break space. */
  const Whitespace: set<char> :=
    {'\t', '\n', '\U{000B}', '\U{000C}', '\r', '\U{001C}', '\U{001D}', '\U{001E}', '\U{001F}', ' ', '\U{0085}', '\U{00A0}'}

  /** `s` neither starts nor ends with whitespace. */
  predicate Trimmed(s: string) {
    s == [] || (s[0] !in Whitespace && s[|s| - 1] !in Whitespace)
  }

  /** `r` sits in `s` at offset `i`, with nothing but whitespace around it. */
  ghost predicate TrimAt(s: string, i: nat, r: string) {
    && i + |r| <= |s|
    && s[i..i + |r|] == r
    && (forall k :: 0 <= k < i ==> s[k] in Whitespace)
    && (forall k :: i + |r| <= k < |s| ==> s[k] in Whitespace)
  }

  /** `r` is `s` with some whitespace taken off either end. */
  ghost predicate IsTrimOf(r: string, s: string) {
    exists i: nat :: TrimAt(s, i, r)
  }

  /** Python's `s.lstrip()`. */
  function StripLeft(s: string): (r: string)
    ensures |r| <= |s| && r == s[|s| - |r|..]
    ensures forall k :: 0 <= k < |s| - |r| ==> s[k] in Whitespace
    ensures r == [] || r[0] !in Whitespace
    decreases |s|
  {
    if s != [] && s[0] in Whitespace then StripLeft(s[1..]) else s
  }

  /** Python's `s.rstrip()`. */
  function StripRight(s: string): (r: string)
    ensures |r| <= |s| && r == s[..|r|]
    ensures forall k :: |r| <= k < |s| ==> s[k] in Whitespace
    ensures r == [] || r[|r| - 1] !in Whitespace
    decreases |s|
  {
    if s != [] && s[|s| - 1] in Whitespace then StripRight(s[..|s| - 1]) else s
  }

  /** Python's `s.strip()`: the result is `s` less its whitespace margins,
      and has no whitespace at either end. */
  function Strip(s: string): (r: string)
    ensures Trimmed(r)
    ensures IsTrimOf(r, s)
  {
    StripBothEndsTrimmed(StripLeft(s));
    StripBothEnds(s);
    StripRight(StripLeft(s))
  }

  /** Right-stripping the left-stripped string leaves what sits where the
      left strip stopped, with only whitespace after it. */
  lemma StripBothEnds(s: string)
    ensures TrimAt(s, |s| - |StripLeft(s)|, StripRight(StripLeft(s)))
  {
    var left := StripLeft(s);
    var r := StripRight(left);
    var i := |s| - |left|;
    StripBothEndsSlice(s, left, r, i);
    StripBothEndsTail(s, left, r, i);
    StripBothEndsHead(s, i);
  }

  lemma StripBothEndsHead(s: string, i: int)
    requires i == |s| - |StripLeft(s)|
    ensures forall k :: 0 <= k < i ==> s[k] in Whitespace
  {
  }

  lemma StripBothEndsTrimmed(left: string)
    requires left == [] || left[0] !in Whitespace
    ensures Trimmed(StripRight(left))
  {
    var r := StripRight(left);
    if r != [] {
      assert r[0] == left[0];
    }
  }

  lemma StripBothEndsSlice(s: string, left: string, r: string, i: int)
    requires 0 <= i <= |s| && left == s[i..]
    requires |r| <= |left| && r == left[..|r|]
    ensures i + |r| <= |s| && s[i..i + |r|] == r
  {
  }

  lemma StripBothEndsTail(s: string, left: string, r: string, i: int)
    requires 0 <= i <= |s| && left == s[i..]
    requires |r| <= |left|
    requires forall k :: |r| <= k < |left| ==> left[k] in Whitespace
    ensures forall k :: i + |r| <= k < |s| ==> s[k] in Whitespace
  {
    forall k | i + |r| <= k < |s| ensures s[k] in Whitespace {
      assert s[k] == left[k - i];
    }
  }

  /** Stripping a string that has no whitespace margins changes nothing. */
  lemma StripTrimmed(s: string)
    requires Trimmed(s)
    ensures Strip(s) == s
  {
  }

  /** Python truthiness of an optional string: `None` and `""` are false. */
  predicate Truthy(o: Option<string>) {
    o.Some? && o.value != ""
  }

  /** Python's `o or fallback` for an optional string. */
  function OrElse(o: Option<string>, fallback: string): (r: string)
    ensures Truthy(o) ==> r == o.value
    ensures !Truthy(o) ==> r == fallback
  {
    if Truthy(o) then o.value else fallback
  }

  function DigitChar(d: nat): char
    requires d < 10
  {
    (('0' as int) + d) as char
  }

  predicate IsDigit(c: char) {
    '0' <= c <= '9'
  }

  /** Python's `str(n)` for a non-negative integer (a Discord id). */
  function DecimalString(n: nat): (s: string)
    ensures |s| >= 1
    ensures forall k :: 0 <= k < |s| ==> IsDigit(s[k])
    ensures s[0] == '0' ==> n == 0
  {
    if n < 10 then [DigitChar(n)] else DecimalString(n / 10) + [DigitChar(n % 10)]
  }

  /** Python's `str(i)` for any integer. */
  function IntString(i: int): (s: string)
    ensures i >= 0 ==> s == DecimalString(i)
    ensures i < 0 ==> |s| >= 2 && s[0] == '-' && s[1..] == DecimalString(-i)
  {
    if i < 0 then "-" + DecimalString(-i) else DecimalString(i)
  }

  /** The value of a string of decimal digits (Python's `int(s)`). */
  function DecimalValue(s: string): nat
    requires forall k :: 0 <= k < |s| ==> IsDigit(s[k])
  {
    if s == [] then 0
    else
      assert IsDigit(s[|s| - 1]);
      DecimalValue(s[..|s| - 1]) * 10 + ((s[|s| - 1] as int) - ('0' as int))
  }

  /** `int(str(n)) == n`. */
  lemma {:induction false} DecimalRoundTrip(n: nat)
    ensures DecimalValue(DecimalString(n)) == n
  {
    var s := DecimalString(n);
    if n >= 10 {
      DecimalRoundTrip(n / 10);
      assert s[..|s| - 1] == DecimalString(n / 10);
    }
  }

  /** Distinct ids have distinct decimal spellings, so a lookup by `str(id)`
      finds only records written with that very id. */
  lemma DecimalInjective(a: nat, b: nat)
    requires DecimalString(a) == DecimalString(b)
    ensures a == b
  {
    DecimalRoundTrip(a);
    DecimalRoundTrip(b);
  }

  /** Python's `"\n".join(lines)`. */
  function JoinLines(lines: seq<string>): string {
    if lines == [] then ""
    else if |lines| == 1 then lines[0]
    else lines[0] + "\n" + JoinLines(lines[1..])
  }
}
