/** The pieces of Rust's string handling that the line parsers and the event
    formatter rely on: `u32::to_string`, `u32::from_str`, `str::split`,
    `str::trim` and `core::str::from_utf8`. */
module Text {
  import opened Wrappers

  newtype byte = x: int | 0 <= x < 256

  const U32Limit: nat := 0x1_0000_0000

  // ---------------------------------------------------------------------------
  // Decimal numbers
  // ---------------------------------------------------------------------------

  predicate IsDigit(c: char) {
    '0' <= c <= '9'
  }

  predicate AllDigits(s: string) {
    forall i :: 0 <= i < |s| ==> IsDigit(s[i])
  }

  function DigitChar(d: nat): (c: char)
    requires d < 10
    ensures IsDigit(c) && c as int - '0' as int == d
  {
    ('0' as int + d) as char
  }

  /** `n.to_string()` for an unsigned integer: decimal digits, no sign, no leading zero. */
  function Decimal(n: nat): (s: string)
    ensures 1 <= |s| && AllDigits(s)
    ensures s[0] == '0' ==> n == 0 && |s| == 1
    decreases n
  {
    if n < 10 then [DigitChar(n)] else Decimal(n / 10) + [DigitChar(n % 10)]
  }

  /** The value of a string of decimal digits, most significant first. */
  function DigitsValue(s: string): nat
    requires AllDigits(s)
    decreases |s|
  {
    if s == [] then 0 else DigitsValue(s[..|s| - 1]) * 10 + (s[|s| - 1] as int - '0' as int)
  }

  /** `s.parse::<u32>()`: an optional leading `+`, then at least one ASCII digit,
      and a value that fits in 32 bits. No whitespace is skipped, and `-` is
      refused for an unsigned type. */
  function ParseU32(s: string): (r: Option<nat>)
    ensures r.Some? ==> r.value < U32Limit
    ensures r.Some? ==> exists d :: (s == d || s == "+" + d) && d != [] && AllDigits(d) && DigitsValue(d) == r.value
  {
    var d := if |s| > 0 && s[0] == '+' then s[1..] else s;
    assert s == d || s == "+" + d;
    if d == [] || !AllDigits(d) then None
    else if DigitsValue(d) < U32Limit then Some(DigitsValue(d))
    else None
  }

  lemma {:induction false} DigitsValueOfDecimal(n: nat)
    ensures DigitsValue(Decimal(n)) == n
    decreases n
  {
    if n >= 10 {
      var s := Decimal(n);
      assert s[..|s| - 1] == Decimal(n / 10);
      DigitsValueOfDecimal(n / 10);
    }
  }

  /** Rendering a value and parsing it back as a `u32` gives the value
      exactly when it fits in 32 bits, and nothing otherwise. */
  lemma ParseDecimal(n: nat)
    ensures n < U32Limit ==> ParseU32(Decimal(n)) == Some(n)
    ensures n >= U32Limit ==> ParseU32(Decimal(n)) == None
  {
    DigitsValueOfDecimal(n);
  }

  // ---------------------------------------------------------------------------
  // Splitting on a separator
  // ---------------------------------------------------------------------------

  /** `s.split(sep).collect()`: every piece between separators, empty ones included;
      `k` separators give `k + 1` pieces. */
  function Split(s: string, sep: char): (parts: seq<string>)
    ensures 1 <= |parts| <= |s| + 1
    ensures forall k :: 0 <= k < |parts| ==> sep !in parts[k]
    decreases |s|
  {
    if s == [] then [[]]
    else
      var rest := Split(s[1..], sep);
      if s[0] == sep then [[]] + rest
      else [[s[0]] + rest[0]] + rest[1..]
  }

  /** The pieces glued back together with the separator between them. */
  function Join(parts: seq<string>, sep: char): string
    requires |parts| >= 1
    decreases |parts|
  {
    if |parts| == 1 then parts[0] else parts[0] + [sep] + Join(parts[1..], sep)
  }

  lemma {:induction false} JoinSplit(s: string, sep: char)
    ensures Join(Split(s, sep), sep) == s
    decreases |s|
  {
    if s != [] {
      JoinSplit(s[1..], sep);
      var rest := Split(s[1..], sep);
      if s[0] == sep {
        assert Split(s, sep)[1..] == rest;
      } else {
        var parts := Split(s, sep);
        if |rest| == 1 {
          assert parts == [[s[0]] + rest[0]];
        } else {
          assert parts[1..] == rest[1..];
          assert Join(rest, sep) == rest[0] + [sep] + Join(rest[1..], sep);
        }
      }
    }
  }

  /** A piece free of the separator, followed by the separator, starts a new piece. */
  lemma {:induction false} SplitCons(a: string, b: string, sep: char)
    requires sep !in a
    ensures Split(a + [sep] + b, sep) == [a] + Split(b, sep)
    decreases |a|
  {
    if a == [] {
      assert ([sep] + b)[1..] == b;
    } else {
      assert (a + [sep] + b)[1..] == a[1..] + [sep] + b;
      SplitCons(a[1..], b, sep);
      assert [a[0]] + a[1..] == a;
    }
  }

  /** Splitting at one separator and then splitting each side gives the same pieces. */
  lemma {:induction false} SplitAppend(a: string, b: string, sep: char)
    ensures Split(a + [sep] + b, sep) == Split(a, sep) + Split(b, sep)
    decreases |a|
  {
    if a == [] {
      assert ([sep] + b)[1..] == b;
    } else {
      assert (a + [sep] + b)[1..] == a[1..] + [sep] + b;
      SplitAppend(a[1..], b, sep);
    }
  }

  lemma {:induction false} SplitWhole(a: string, sep: char)
    requires sep !in a
    ensures Split(a, sep) == [a]
    decreases |a|
  {
    if a != [] {
      SplitWhole(a[1..], sep);
      assert [a[0]] + a[1..] == a;
    }
  }

  /** Splitting undoes joining when no piece holds the separator. */
  lemma {:induction false} SplitJoin(parts: seq<string>, sep: char)
    requires |parts| >= 1
    requires forall k :: 0 <= k < |parts| ==> sep !in parts[k]
    ensures Split(Join(parts, sep), sep) == parts
    decreases |parts|
  {
    if |parts| == 1 {
      SplitWhole(parts[0], sep);
    } else {
      SplitJoin(parts[1..], sep);
      SplitCons(parts[0], Join(parts[1..], sep), sep);
      assert [parts[0]] + parts[1..] == parts;
    }
  }

  // ---------------------------------------------------------------------------
  // Trimming
  // ---------------------------------------------------------------------------

  /** Unicode's White_Space property, which `str::trim` strips. */
  predicate IsWhitespace(c: char) {
    ('\t' <= c <= '\r') || c == ' ' || c == '\U{85}' || c == '\U{A0}' || c == '\U{1680}'
    || ('\U{2000}' <= c <= '\U{200A}') || c == '\U{2028}' || c == '\U{2029}' || c == '\U{202F}'
    || c == '\U{205F}' || c == '\U{3000}'
  }

  /** Neither end of `s` is whitespace. */
  predicate Trimmed(s: string) {
    s == [] || (!IsWhitespace(s[0]) && !IsWhitespace(s[|s| - 1]))
  }

  /** `s.trim_start()`: a suffix of `s` after whitespace only. */
  function TrimStart(s: string): (r: string)
    ensures |r| <= |s| && r == s[|s| - |r|..]
    ensures forall k :: 0 <= k < |s| - |r| ==> IsWhitespace(s[k])
    ensures r == [] || !IsWhitespace(r[0])
    decreases |s|
  {
    if s != [] && IsWhitespace(s[0]) then TrimStart(s[1..]) else s
  }

  /** `s.trim_end()`: a prefix of `s` before whitespace only. */
  function TrimEnd(s: string): (r: string)
    ensures |r| <= |s| && r == s[..|r|]
    ensures forall k :: |r| <= k < |s| ==> IsWhitespace(s[k])
    ensures r == [] || !IsWhitespace(r[|r| - 1])
    decreases |s|
  {
    if s != [] && IsWhitespace(s[|s| - 1]) then TrimEnd(s[..|s| - 1]) else s
  }

  /** A prefix `r` of a suffix `t` of `s`, followed in `t` by whitespace only,
      is a slice of `s` followed in `s` by whitespace only. */
  lemma PrefixOfSuffix(s: string, t: string, r: string)
    requires |t| <= |s| && t == s[|s| - |t|..]
    requires |r| <= |t| && r == t[..|r|]
    requires forall k :: |r| <= k < |t| ==> IsWhitespace(t[k])
    ensures var i := |s| - |t|;
      r == s[i..i + |r|] && forall k :: i + |r| <= k < |s| ==> IsWhitespace(s[k])
  {
    var i := |s| - |t|;
    forall k | i + |r| <= k < |s|
      ensures IsWhitespace(s[k])
    {
      assert s[k] == t[k - i];
    }
  }

  /** `s.trim()`: the slice of `s` that neither starts nor ends with
      whitespace, everything cut away on either side being whitespace. */
  function Trim(s: string): (r: string)
    ensures Trimmed(r)
    ensures exists i, j :: (0 <= i <= j <= |s| && r == s[i..j]
      && (forall k :: 0 <= k < i ==> IsWhitespace(s[k]))
      && (forall k :: j <= k < |s| ==> IsWhitespace(s[k])))
  {
    var t := TrimStart(s);
    var r := TrimEnd(t);
    PrefixOfSuffix(s, t, r);
    assert r != [] ==> r[0] == t[0];
    r
  }

  /** Trimming leaves a trimmed string alone. */
  lemma TrimTrimmed(s: string)
    requires Trimmed(s)
    ensures Trim(s) == s
  {
  }

  // ---------------------------------------------------------------------------
  // UTF-8
  // ---------------------------------------------------------------------------

  predicate IsContinuation(b: byte) {
    0x80 <= b < 0xC0
  }

  /** The length of the sequence a lead byte starts, or 0 for a byte that
      cannot start one (a continuation byte, C0, C1, F5 to FF). */
  function SequenceLength(b: byte): nat {
    if b < 0x80 then 1
    else if 0xC2 <= b <= 0xDF then 2
    else if 0xE0 <= b <= 0xEF then 3
    else if 0xF0 <= b <= 0xF4 then 4
    else 0
  }

  /** The scalar value of one well-formed sequence (table 3-7 of the Unicode
      standard: no overlong form, no surrogate, nothing above U+10FFFF). */
  function DecodeOne(b: seq<byte>): Option<char>
    requires 1 <= |b| <= 4 && |b| == SequenceLength(b[0])
  {
    if |b| == 1 then Some(b[0] as int as char)
    else if |b| == 2 then
      if IsContinuation(b[1]) then Some(((b[0] as int - 0xC0) * 64 + (b[1] as int - 0x80)) as char) else None
    else if |b| == 3 then
      var lo := if b[0] == 0xE0 then 0xA0 else 0x80;
      var hi := if b[0] == 0xED then 0x9F else 0xBF;
      if lo <= b[1] <= hi && IsContinuation(b[2]) then
        Some(((b[0] as int - 0xE0) * 4096 + (b[1] as int - 0x80) * 64 + (b[2] as int - 0x80)) as char)
      else None
    else
      var lo := if b[0] == 0xF0 then 0x90 else 0x80;
      var hi := if b[0] == 0xF4 then 0x8F else 0xBF;
      if lo <= b[1] <= hi && IsContinuation(b[2]) && IsContinuation(b[3]) then
        Some(((b[0] as int - 0xF0) * 262144 + (b[1] as int - 0x80) * 4096
              + (b[2] as int - 0x80) * 64 + (b[3] as int - 0x80)) as char)
      else None
  }

  /** `core::str::from_utf8`: the text, or `None` when `b` is not well-formed UTF-8.
      A zero byte is an ordinary character; nothing stops at it. */
  function DecodeUtf8(b: seq<byte>): (r: Option<string>)
    ensures r.Some? ==> |r.value| <= |b|
    ensures r.Some? ==> (r.value == [] <==> b == [])
    ensures b != [] && SequenceLength(b[0]) == 0 ==> r.None?
    decreases |b|
  {
    if b == [] then Some([])
    else
      var n := SequenceLength(b[0]);
      if n == 0 || |b| < n then None
      else match DecodeOne(b[..n])
        case None => None
        case Some(c) =>
          match DecodeUtf8(b[n..])
          case None => None
          case Some(rest) => Some([c] + rest)
  }

  /** `core::str::from_utf8(b).unwrap_or_default()`: invalid input becomes "". */
  function Lossy(b: seq<byte>): (s: string)
    ensures |s| <= |b|
    ensures s == [] <==> b == [] || DecodeUtf8(b).None?
  {
    DecodeUtf8(b).GetOr([])
  }

  predicate IsAscii(b: seq<byte>) {
    forall i :: 0 <= i < |b| ==> b[i] < 0x80
  }

  /** ASCII bytes, NUL included, decode one character per byte. */
  lemma {:induction false} AsciiDecodes(b: seq<byte>)
    requires IsAscii(b)
    ensures DecodeUtf8(b).Some?
    ensures |Lossy(b)| == |b|
    ensures forall i :: 0 <= i < |b| ==> Lossy(b)[i] as int == b[i] as int
    decreases |b|
  {
    if b != [] {
      AsciiDecodes(b[1..]);
    }
  }

  /** A byte that can never appear in UTF-8 (C0, C1, F5 to FF: neither a
      lead byte nor a continuation byte) makes the whole buffer print as "". */
  lemma {:induction false} ForbiddenByteFails(b: seq<byte>, k: nat)
    requires k < |b| && (b[k] == 0xC0 || b[k] == 0xC1 || b[k] >= 0xF5)
    ensures DecodeUtf8(b) == None && Lossy(b) == []
    decreases |b|
  {
    if k > 0 {
      var n := SequenceLength(b[0]);
      if n != 0 && n <= |b| && DecodeOne(b[..n]).Some? {
        if k >= n {
          ForbiddenByteFails(b[n..], k - n);
        }
      }
    }
  }
}
