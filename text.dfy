/**
 * The JavaScript string operations that the browser tools use, on strings as
 * sequences of characters: `trim`, `toLowerCase`, `slice(0, n)`, `split`,
 * `join`, `find` over the pieces of a split, and the decimal text a template
 * literal gives an integer.
 */
module Text {
  import opened Wrappers

  /** `sub` sits in `s` starting at index `i`. */
  predicate OccursAt(s: string, sub: string, i: nat) {
    i + |sub| <= |s| && s[i..i + |sub|] == sub
  }

  /** `sub` is a contiguous part of `s`. */
  predicate Contains(s: string, sub: string) {
    exists i: nat | i <= |s| :: OccursAt(s, sub, i)
  }

  predicate StartsWith(s: string, prefix: string) {
    |prefix| <= |s| && s[..|prefix|] == prefix
  }

  predicate EndsWith(s: string, suffix: string) {
    |suffix| <= |s| && s[|s| - |suffix|..] == suffix
  }

  lemma ContainsMiddle(a: string, b: string, c: string)
    ensures OccursAt(a + b + c, b, |a|) && Contains(a + b + c, b)
  {
    var s := a + b + c;
    assert s[|a|..|a| + |b|] == b;
    assert OccursAt(s, b, |a|);
  }

  lemma ContainsSuffix(a: string, b: string)
    ensures Contains(a + b, b)
  {
    assert (a + b)[|a|..|a| + |b|] == b;
    assert OccursAt(a + b, b, |a|);
  }

  // ---------------------------------------------------------------------------
  // trim

  /**
   * The characters `String.prototype.trim` removes: ECMAScript's WhiteSpace
   * (tab, vertical tab, form feed, space, no-break space, byte order mark and
   * the Unicode space separators) and LineTerminator (LF, CR, LS, PS).
   */
  predicate IsJsWhitespace(c: char) {
    c == '\t' || c == '\n' || c == '\U{000B}' || c == '\U{000C}' || c == '\r' || c == ' '
    || c == '\U{00A0}' || c == '\U{1680}' || '\U{2000}' <= c <= '\U{200A}'
    || c == '\U{2028}' || c == '\U{2029}' || c == '\U{202F}' || c == '\U{205F}'
    || c == '\U{3000}' || c == '\U{FEFF}'
  }

  predicate AllWhitespace(s: string) {
    forall i | 0 <= i < |s| :: IsJsWhitespace(s[i])
  }

  /** `r` is `s` with the whitespace `s[..lead]` and `s[lead + |r|..]` cut off. */
  predicate StrippedFrom(r: string, s: string, lead: nat) {
    lead + |r| <= |s| && s[lead..lead + |r|] == r
    && AllWhitespace(s[..lead]) && AllWhitespace(s[lead + |r|..])
  }

  function TrimStart(s: string): (r: string)
    ensures |r| <= |s| && r == s[|s| - |r|..]
    ensures AllWhitespace(s[..|s| - |r|])
    ensures r == [] || !IsJsWhitespace(r[0])
  {
    if s != [] && IsJsWhitespace(s[0]) then TrimStart(s[1..]) else s
  }

  function TrimEnd(s: string): (r: string)
    ensures |r| <= |s| && r == s[..|r|]
    ensures AllWhitespace(s[|r|..])
    ensures r == [] || !IsJsWhitespace(r[|r| - 1])
  {
    if s != [] && IsJsWhitespace(s[|s| - 1]) then TrimEnd(s[..|s| - 1]) else s
  }

  /** `s.trim()`: the part of `s` left after cutting whitespace off both ends. */
  function Trim(s: string): (r: string)
    ensures exists lead: nat :: StrippedFrom(r, s, lead)
    ensures r == [] || (!IsJsWhitespace(r[0]) && !IsJsWhitespace(r[|r| - 1]))
  {
    var t := TrimStart(s);
    var r := TrimEnd(t);
    assert s[|s| - |t|..][..|r|] == s[|s| - |t|..|s| - |t| + |r|];
    assert s[|s| - |t|..][|r|..] == s[|s| - |t| + |r|..];
    assert StrippedFrom(r, s, |s| - |t|);
    r
  }

  /** Trimming twice is trimming once. */
  lemma TrimIdempotent(s: string)
    ensures Trim(Trim(s)) == Trim(s)
  {
    var r := Trim(s);
    assert TrimStart(r) == r;
    assert TrimEnd(r) == r;
  }

  // ---------------------------------------------------------------------------
  // toLowerCase and slice

  predicate IsAsciiUpper(c: char) {
    'A' <= c <= 'Z'
  }

  function LowerChar(c: char): char {
    if IsAsciiUpper(c) then (c as int + 32) as char else c
  }

  /** `s.toLowerCase()` on ASCII letters: upper-case letters become lower-case, nothing else changes. */
  function ToLower(s: string): (r: string)
    ensures |r| == |s|
    ensures forall i | 0 <= i < |r| :: !IsAsciiUpper(r[i])
    ensures forall i | 0 <= i < |s| :: !IsAsciiUpper(s[i]) ==> r[i] == s[i]
    ensures forall i | 0 <= i < |s| :: IsAsciiUpper(s[i]) ==> r[i] as int == s[i] as int + 32
  {
    seq(|s|, i requires 0 <= i < |s| => LowerChar(s[i]))
  }

  /** `s.slice(0, end)` for a non-negative `end`. */
  function Slice(s: string, end: nat): (r: string)
    ensures StartsWith(s, r)
    ensures |r| == if end < |s| then end else |s|
  {
    if end < |s| then s[..end] else s
  }

  // ---------------------------------------------------------------------------
  // split, join and find

  /** `s.split(sep)` for a one-character separator: the pieces between separators, empty ones included. */
  function Split(s: string, sep: char): (parts: seq<string>)
    ensures |parts| >= 1
    ensures forall k | 0 <= k < |parts| :: sep !in parts[k]
    decreases |s|
  {
    if s == [] then [""]
    else
      var rest := Split(s[1..], sep);
      if s[0] == sep then [""] + rest else [[s[0]] + rest[0]] + rest[1..]
  }

  /** `parts.join(sep)`. */
  function Join(parts: seq<string>, sep: string): (r: string)
    ensures parts == [] ==> r == ""
    ensures |parts| > 0 ==> StartsWith(r, parts[0])
    ensures |parts| == 1 ==> r == parts[0]
  {
    if |parts| == 0 then ""
    else if |parts| == 1 then parts[0]
    else parts[0] + sep + Join(parts[1..], sep)
  }

  /** Joining a concatenation puts one separator between the joins of the two runs. */
  lemma {:induction false} JoinAppend(a: seq<string>, b: seq<string>, sep: string)
    requires a != [] && b != []
    ensures Join(a + b, sep) == Join(a, sep) + sep + Join(b, sep)
    decreases |a|
  {
    if |a| == 1 {
      assert (a + b)[0] == a[0];
      assert (a + b)[1..] == b;
    } else {
      assert (a + b)[0] == a[0];
      assert (a + b)[1..] == a[1..] + b;
      JoinAppend(a[1..], b, sep);
    }
  }

  /** Joining the pieces of a split with the separator gives back the original string. */
  lemma {:induction false} JoinSplit(s: string, sep: char)
    ensures Join(Split(s, sep), [sep]) == s
    decreases |s|
  {
    if s != [] {
      var rest := Split(s[1..], sep);
      JoinSplit(s[1..], sep);
      if s[0] == sep {
        assert Split(s, sep) == [""] + rest;
        assert ([""] + rest)[1..] == rest;
        assert s == [sep] + s[1..];
      } else {
        var parts := Split(s, sep);
        assert parts == [[s[0]] + rest[0]] + rest[1..];
        if |rest| == 1 {
          assert s == [s[0]] + s[1..];
        } else {
          assert parts[1..] == rest[1..];
          assert Join(rest, [sep]) == rest[0] + [sep] + Join(rest[1..], [sep]);
          assert s == [s[0]] + s[1..];
        }
      }
    }
  }

  /** The first piece of a split is everything before the first separator. */
  lemma {:induction false} SplitHead(s: string, sep: char)
    ensures var h := Split(s, sep)[0];
      StartsWith(s, h) && (|h| == |s| || s[|h|] == sep)
    decreases |s|
  {
    if s != [] && s[0] != sep {
      SplitHead(s[1..], sep);
    }
  }

  /** The text before the first `sep` of `s`, all of `s` when it has none. */
  function FirstPiece(s: string, sep: char): (h: string)
    ensures StartsWith(s, h) && sep !in h
    ensures |h| == |s| || s[|h|] == sep
  {
    SplitHead(s, sep);
    Split(s, sep)[0]
  }

  /** When `a` has no separator, the first piece of `a + [sep] + b` is `a`. */
  lemma {:induction false} FirstPieceBefore(a: string, sep: char, b: string)
    requires sep !in a
    ensures FirstPiece(a + [sep] + b, sep) == a
  {
    var s := a + [sep] + b;
    var h := FirstPiece(s, sep);
    assert forall i | 0 <= i < |a| :: s[i] == a[i] && s[i] != sep;
    assert s[|a|] == sep;
    assert |h| <= |a|;
    assert |h| == |a|;
    assert s[..|a|] == a;
  }

  /** `parts.find(p => p)`: the first non-empty string, if there is one. */
  function FindNonEmpty(parts: seq<string>): (r: Option<string>)
    ensures r.Some? <==> exists k | 0 <= k < |parts| :: parts[k] != ""
    ensures r.Some? ==> r.value != "" && r.value in parts
    ensures r.Some? ==> exists k | 0 <= k < |parts| :: parts[k] == r.value && forall j | 0 <= j < k :: parts[j] == ""
  {
    if |parts| == 0 then None
    else if parts[0] != "" then
      Some(parts[0])
    else
      var r := FindNonEmpty(parts[1..]);
      if r.Some? then
        var k :| 0 <= k < |parts| - 1 && parts[1..][k] == r.value && forall j | 0 <= j < k :: parts[1..][j] == "";
        assert parts[k + 1] == r.value && forall j | 0 <= j < k + 1 :: parts[j] == "";
        r
      else r
  }

  /** The number of `sep` characters at the front of `s`. */
  function LeadingRun(s: string, sep: char): (k: nat)
    ensures k <= |s|
    ensures forall i | 0 <= i < k :: s[i] == sep
    ensures k == |s| || s[k] != sep
  {
    if s != [] && s[0] == sep then 1 + LeadingRun(s[1..], sep) else 0
  }

  /** `t` is the first maximal run of characters other than `sep` in `s`. */
  predicate IsFirstToken(t: string, s: string, sep: char) {
    var k := LeadingRun(s, sep);
    t != "" && k + |t| <= |s| && s[k..k + |t|] == t
    && (forall j | 0 <= j < |t| :: t[j] != sep)
    && (k + |t| == |s| || s[k + |t|] == sep)
  }

  /** A leading separator adds an empty first piece, which `find` skips. */
  lemma SkipLeadingSeparator(s: string, sep: char)
    requires s != [] && s[0] == sep
    ensures FindNonEmpty(Split(s, sep)) == FindNonEmpty(Split(s[1..], sep))
    ensures LeadingRun(s, sep) == 1 + LeadingRun(s[1..], sep)
  {
    var rest := Split(s[1..], sep);
    assert Split(s, sep) == [""] + rest;
    assert ([""] + rest)[1..] == rest;
  }

  lemma FirstTokenAfterSeparator(t: string, s: string, sep: char)
    requires s != [] && s[0] == sep
    requires IsFirstToken(t, s[1..], sep)
    ensures IsFirstToken(t, s, sep)
  {
    var k := LeadingRun(s[1..], sep);
    assert LeadingRun(s, sep) == k + 1;
    assert s[1..][k..k + |t|] == s[k + 1..k + 1 + |t|];
  }

  /**
   * `s.split(sep).find(p => p)` finds nothing exactly when `s` is made only of
   * separators, and otherwise finds the first run of other characters.
   */
  lemma {:induction false} FirstTokenOfSplit(s: string, sep: char)
    ensures FindNonEmpty(Split(s, sep)).None? <==> forall i | 0 <= i < |s| :: s[i] == sep
    ensures FindNonEmpty(Split(s, sep)).Some? ==> IsFirstToken(FindNonEmpty(Split(s, sep)).value, s, sep)
    decreases |s|
  {
    if s == [] {
    } else if s[0] == sep {
      FirstTokenOfSplit(s[1..], sep);
      SkipLeadingSeparator(s, sep);
      var found := FindNonEmpty(Split(s, sep));
      if found.Some? {
        FirstTokenAfterSeparator(found.value, s, sep);
      }
      assert (forall i | 0 <= i < |s| :: s[i] == sep) <==> (forall i | 0 <= i < |s[1..]| :: s[1..][i] == sep) by {
        if forall i | 0 <= i < |s[1..]| :: s[1..][i] == sep {
          forall i | 0 <= i < |s| ensures s[i] == sep {
            if i > 0 { assert s[i] == s[1..][i - 1]; }
          }
        }
      }
    } else {
      FirstNonSeparator(s, sep);
    }
  }

  /** When `s` starts with a character other than `sep`, `find` returns the first piece of the split. */
  lemma FirstNonSeparator(s: string, sep: char)
    requires s != [] && s[0] != sep
    ensures FindNonEmpty(Split(s, sep)) == Some(Split(s, sep)[0])
    ensures IsFirstToken(Split(s, sep)[0], s, sep)
  {
    var h := Split(s, sep)[0];
    SplitHead(s, sep);
    assert h == [s[0]] + Split(s[1..], sep)[0];
    assert LeadingRun(s, sep) == 0;
    assert s[0..|h|] == h;
  }

  // ---------------------------------------------------------------------------
  // Numbers in template literals

  predicate IsDigit(c: char) {
    '0' <= c <= '9'
  }

  function DigitChar(d: nat): (c: char)
    requires d < 10
    ensures IsDigit(c)
  {
    ('0' as int + d) as char
  }

  function DigitValue(c: char): nat
    requires IsDigit(c)
  {
    c as int - '0' as int
  }

  /** The decimal digits of `n`, without leading zeros. */
  function Decimal(n: nat): (r: string)
    ensures r != [] && forall i | 0 <= i < |r| :: IsDigit(r[i])
    ensures r[0] == '0' ==> n == 0
  {
    if n < 10 then [DigitChar(n)] else Decimal(n / 10) + [DigitChar(n % 10)]
  }

  /** The number a string of decimal digits denotes. */
  function DecimalValue(s: string): nat
    requires forall i | 0 <= i < |s| :: IsDigit(s[i])
  {
    if s == [] then 0 else DecimalValue(s[..|s| - 1]) * 10 + DigitValue(s[|s| - 1])
  }

  /** Reading the digits back gives the number. */
  lemma {:induction false} DecimalRoundTrip(n: nat)
    ensures DecimalValue(Decimal(n)) == n
    decreases n
  {
    if n >= 10 {
      DecimalRoundTrip(n / 10);
      var s := Decimal(n);
      assert s[..|s| - 1] == Decimal(n / 10);
    }
  }

  /** `${i}` for an integer-valued JavaScript number `i`. */
  function NumberText(i: int): (r: string)
    ensures r != []
  {
    if i < 0 then "-" + Decimal(-i) else Decimal(i)
  }

  /** Reads back a text produced by NumberText; None when it is not one. */
  function ParseNumber(s: string): Option<int> {
    if s != [] && s[0] == '-' then
      if s[1..] != [] && forall i | 0 <= i < |s[1..]| :: IsDigit(s[1..][i]) then
        var n: int := DecimalValue(s[1..]);
        Some(-n)
      else None
    else if s != [] && forall i | 0 <= i < |s| :: IsDigit(s[i]) then Some(DecimalValue(s))
    else None
  }

  /** The text of an integer reads back as that integer, so different integers have different texts. */
  lemma NumberTextRoundTrip(i: int)
    ensures ParseNumber(NumberText(i)) == Some(i)
  {
    if i < 0 {
      DecimalRoundTrip(-i);
      assert NumberText(i)[1..] == Decimal(-i);
    } else {
      DecimalRoundTrip(i);
    }
  }
}
