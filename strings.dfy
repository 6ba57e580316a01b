/**
 * The handful of Rust `str` operations the daemon relies on: `split`, `join`,
 * `trim`, `to_lowercase`, `starts_with`/`strip_prefix`, `contains`,
 * `trim_start_matches`, `eq_ignore_ascii_case`, `lines`, decimal formatting and
 * `u8::from_str`.
 */
module Strings {
  import opened Common

  // ---------------------------------------------------------------------------
  // Whitespace and trimming
  // ---------------------------------------------------------------------------

  /** Rust `char::is_whitespace`: the Unicode White_Space property. */
  predicate IsWhitespace(c: char) {
    || ('\U{0009}' <= c <= '\U{000D}')
    || c == ' ' || c == '\U{0085}' || c == '\U{00A0}' || c == '\U{1680}'
    || ('\U{2000}' <= c <= '\U{200A}')
    || c == '\U{2028}' || c == '\U{2029}' || c == '\U{202F}' || c == '\U{205F}' || c == '\U{3000}'
  }

  function TrimStart(s: string): (r: string)
    ensures |r| <= |s| && r == s[|s| - |r|..]
    ensures r == [] || !IsWhitespace(r[0])
    ensures forall i :: 0 <= i < |s| - |r| ==> IsWhitespace(s[i])
  {
    if |s| > 0 && IsWhitespace(s[0]) then TrimStart(s[1..]) else s
  }

  function TrimEnd(s: string): (r: string)
    ensures |r| <= |s| && r == s[..|r|]
    ensures r == [] || !IsWhitespace(r[|r| - 1])
    ensures forall i :: |r| <= i < |s| ==> IsWhitespace(s[i])
  {
    if |s| > 0 && IsWhitespace(s[|s| - 1]) then TrimEnd(s[..|s| - 1]) else s
  }

  /** Rust `str::trim`: whitespace removed from both ends. */
  function Trim(s: string): string {
    TrimEnd(TrimStart(s))
  }

  /** A string with no whitespace at either end is its own trim. */
  lemma TrimUnpadded(s: string)
    requires s == [] || (!IsWhitespace(s[0]) && !IsWhitespace(s[|s| - 1]))
    ensures Trim(s) == s
  {
  }

  /** Leading whitespace is removed by trimming. */
  lemma TrimLeadingSpaces(pad: string, s: string)
    requires forall i :: 0 <= i < |pad| ==> IsWhitespace(pad[i])
    ensures Trim(pad + s) == Trim(s)
  {
    TrimStartSpaces(pad, s);
  }

  lemma {:induction false} TrimStartSpaces(pad: string, s: string)
    requires forall i :: 0 <= i < |pad| ==> IsWhitespace(pad[i])
    ensures TrimStart(pad + s) == TrimStart(s)
  {
    if pad != [] {
      var q := pad + s;
      assert q[0] == pad[0] && IsWhitespace(q[0]);
      assert TrimStart(q) == TrimStart(q[1..]);
      assert q[1..] == pad[1..] + s;
      TrimStartSpaces(pad[1..], s);
    } else {
      assert pad + s == s;
    }
  }

  /** Trailing whitespace is removed by trimming. */
  lemma {:induction false} TrimEndTrailingSpaces(s: string, pad: string)
    requires forall i :: 0 <= i < |pad| ==> IsWhitespace(pad[i])
    ensures TrimEnd(s + pad) == TrimEnd(s)
  {
    if pad != [] {
      var p := pad[..|pad| - 1];
      var q := s + pad;
      assert q[|q| - 1] == pad[|pad| - 1] && IsWhitespace(q[|q| - 1]);
      assert TrimEnd(q) == TrimEnd(q[..|q| - 1]);
      assert q[..|q| - 1] == s + p;
      TrimEndTrailingSpaces(s, p);
    } else {
      assert s + pad == s;
    }
  }

  /** Padding a word that has no whitespace at its ends, and trimming, gives the word back. */
  lemma TrimPadded(pad1: string, w: string, pad2: string)
    requires forall i :: 0 <= i < |pad1| ==> IsWhitespace(pad1[i])
    requires forall i :: 0 <= i < |pad2| ==> IsWhitespace(pad2[i])
    requires w != [] && !IsWhitespace(w[0]) && !IsWhitespace(w[|w| - 1])
    ensures Trim(pad1 + w + pad2) == w
  {
    assert pad1 + w + pad2 == pad1 + (w + pad2);
    TrimLeadingSpaces(pad1, w + pad2);
    assert (w + pad2)[0] == w[0];
    assert TrimStart(w + pad2) == w + pad2;
    TrimEndTrailingSpaces(w, pad2);
  }

  // ---------------------------------------------------------------------------
  // Case
  // ---------------------------------------------------------------------------

  /**
   * Lower-case mapping of one character, exact for every character whose
   * lower case is ASCII: 'A'..'Z' and U+212A KELVIN SIGN (which lower-cases
   * to 'k'). Every other character is kept as it is.
   */
  function LowerChar(c: char): char {
    if 'A' <= c <= 'Z' then (c as int + 32) as char
    else if c == '\U{212A}' then 'k'
    else c
  }

  function Lowercase(s: string): (r: string)
    ensures |r| == |s|
    ensures forall i :: 0 <= i < |s| ==> r[i] == LowerChar(s[i])
  {
    if s == [] then [] else [LowerChar(s[0])] + Lowercase(s[1..])
  }

  lemma LowercaseAppend(a: string, b: string)
    ensures Lowercase(a + b) == Lowercase(a) + Lowercase(b)
  {
  }

  /** ASCII-only lower case, as used by `eq_ignore_ascii_case`. */
  function AsciiLower(c: char): char {
    if 'A' <= c <= 'Z' then (c as int + 32) as char else c
  }

  /** Rust `str::eq_ignore_ascii_case`. */
  predicate EqIgnoreAsciiCase(a: string, b: string) {
    |a| == |b| && forall i :: 0 <= i < |a| ==> AsciiLower(a[i]) == AsciiLower(b[i])
  }

  // ---------------------------------------------------------------------------
  // Prefixes and substrings
  // ---------------------------------------------------------------------------

  predicate StartsWith(s: string, prefix: string) {
    |prefix| <= |s| && s[..|prefix|] == prefix
  }

  /** Rust `str::strip_prefix`. */
  function StripPrefix(s: string, prefix: string): (r: Option<string>)
    ensures r.Some? <==> StartsWith(s, prefix)
    ensures r.Some? ==> s == prefix + r.value
  {
    if StartsWith(s, prefix) then Some(s[|prefix|..]) else None
  }

  /** Rust `str::contains` for a string pattern. */
  predicate Contains(s: string, sub: string)
    decreases |s|
  {
    StartsWith(s, sub) || (|s| > 0 && Contains(s[1..], sub))
  }

  /** A string contains every string placed in it. */
  lemma {:induction false} ContainsInfix(a: string, sub: string, b: string)
    ensures Contains(a + sub + b, sub)
  {
    if a == [] {
      assert (a + sub + b)[..|sub|] == sub;
    } else {
      assert (a + sub + b)[1..] == a[1..] + sub + b;
      ContainsInfix(a[1..], sub, b);
    }
  }

  /** `n` copies of `s` back to back. */
  function Repeat(s: string, n: nat): (r: string)
    ensures |r| == n * |s|
  {
    if n == 0 then [] else s + Repeat(s, n - 1)
  }

  /** Rust `str::trim_start_matches` with a non-empty string pattern. */
  function TrimStartMatches(s: string, pat: string): (r: string)
    requires pat != []
    decreases |s|
  {
    if StartsWith(s, pat) then TrimStartMatches(s[|pat|..], pat) else s
  }

  /**
   * Trimming the copies of `pat` from the front of `s` yields `t` exactly when
   * `s` is some number of copies of `pat` followed by `t`, provided `t` does not
   * itself start with `pat`.
   */
  lemma {:induction false} TrimStartMatchesIff(s: string, pat: string, t: string)
    requires pat != [] && !StartsWith(t, pat)
    ensures TrimStartMatches(s, pat) == t <==> exists n: nat :: s == Repeat(pat, n) + t
    decreases |s|
  {
    if StartsWith(s, pat) {
      var s' := s[|pat|..];
      TrimStartMatchesIff(s', pat, t);
      if exists n: nat :: s == Repeat(pat, n) + t {
        var n: nat :| s == Repeat(pat, n) + t;
        PeelCopy(s, pat, t, n);
      }
      if exists n: nat :: s' == Repeat(pat, n) + t {
        var n: nat :| s' == Repeat(pat, n) + t;
        AddCopy(s, pat, t, n);
      }
    } else {
      if exists n: nat :: s == Repeat(pat, n) + t {
        var n: nat :| s == Repeat(pat, n) + t;
        NoCopy(s, pat, t, n);
      }
      assert s == Repeat(pat, 0) + s;
    }
  }

  /** Helper of TrimStartMatchesIff: copies in front of a `t` that does not start with `pat` can be peeled one by one. */
  lemma PeelCopy(s: string, pat: string, t: string, n: nat)
    requires pat != [] && !StartsWith(t, pat) && StartsWith(s, pat) && s == Repeat(pat, n) + t
    ensures n > 0 && s[|pat|..] == Repeat(pat, n - 1) + t
  {
    if n == 0 {
      assert false;
    }
    assert s == pat + (Repeat(pat, n - 1) + t);
  }

  /** Helper of TrimStartMatchesIff: one more copy in front. */
  lemma AddCopy(s: string, pat: string, t: string, n: nat)
    requires StartsWith(s, pat) && s[|pat|..] == Repeat(pat, n) + t
    ensures s == Repeat(pat, n + 1) + t
  {
    assert s == pat + s[|pat|..];
  }

  /** Helper of TrimStartMatchesIff: a string that does not start with `pat` has no copies of it in front. */
  lemma NoCopy(s: string, pat: string, t: string, n: nat)
    requires pat != [] && !StartsWith(s, pat) && s == Repeat(pat, n) + t
    ensures n == 0 && s == t
  {
    if n > 0 {
      assert false;
    }
  }

  // ---------------------------------------------------------------------------
  // Splitting and joining
  // ---------------------------------------------------------------------------

  /**
   * Rust `str::split` with a single-character separator: every piece between
   * separators, including empty ones ("" splits into [""]).
   */
  function Split(s: string, sep: char): (parts: seq<string>)
    ensures |parts| >= 1
    ensures forall i :: 0 <= i < |parts| ==> sep !in parts[i]
    decreases |s|
  {
    if s == [] then [""]
    else
      var rest := Split(s[1..], sep);
      if s[0] == sep then [""] + rest
      else [[s[0]] + rest[0]] + rest[1..]
  }

  /** Rust `[String]::join`. */
  function Join(parts: seq<string>, sep: string): string {
    if |parts| == 0 then ""
    else if |parts| == 1 then parts[0]
    else parts[0] + sep + Join(parts[1..], sep)
  }

  /** Splitting and then joining with the same separator gives back the string. */
  lemma {:induction false} JoinSplit(s: string, sep: char)
    ensures Join(Split(s, sep), [sep]) == s
    decreases |s|
  {
    if s != [] {
      var rest := Split(s[1..], sep);
      JoinSplit(s[1..], sep);
      if s[0] == sep {
        assert Split(s, sep) == [""] + rest;
        assert ([""] + rest)[1..] == rest;
      } else {
        var parts := [[s[0]] + rest[0]] + rest[1..];
        assert Split(s, sep) == parts;
        if |rest| > 1 {
          assert parts[1..] == rest[1..];
          assert Join(rest, [sep]) == rest[0] + [sep] + Join(rest[1..], [sep]);
        }
      }
    }
  }

  /** Splitting a single piece that holds no separator gives just that piece. */
  lemma {:induction false} SplitPiece(p: string, sep: char)
    requires sep !in p
    ensures Split(p, sep) == [p]
    decreases |p|
  {
    if p != [] {
      SplitPiece(p[1..], sep);
      assert [p[0]] + p[1..] == p;
    }
  }

  /** A piece followed by the separator splits off as the first part. */
  lemma {:induction false} SplitCons(p: string, sep: char, tail: string)
    requires sep !in p
    ensures Split(p + [sep] + tail, sep) == [p] + Split(tail, sep)
    decreases |p|
  {
    var s := p + [sep] + tail;
    if p == [] {
      assert s[1..] == tail;
    } else {
      assert s[1..] == p[1..] + [sep] + tail;
      SplitCons(p[1..], sep, tail);
      assert s[0] == p[0] && [p[0]] + p[1..] == p;
    }
  }

  /** Joining pieces that hold no separator and splitting again gives the pieces back. */
  lemma {:induction false} SplitJoin(parts: seq<string>, sep: char)
    requires |parts| >= 1
    requires forall i :: 0 <= i < |parts| ==> sep !in parts[i]
    ensures Split(Join(parts, [sep]), sep) == parts
  {
    if |parts| == 1 {
      SplitPiece(parts[0], sep);
    } else {
      SplitJoin(parts[1..], sep);
      SplitCons(parts[0], sep, Join(parts[1..], [sep]));
      assert Join(parts, [sep]) == parts[0] + [sep] + Join(parts[1..], [sep]);
      assert parts == [parts[0]] + parts[1..];
    }
  }

  /** Joining with a two-character separator is joining with its first character, after prefixing each later part with the second. */
  lemma {:induction false} JoinWithPadding(parts: seq<string>, sep: char, pad: char)
    requires |parts| >= 1
    ensures Join(parts, [sep, pad]) == Join([parts[0]] + Padded(parts[1..], pad), [sep])
  {
    if |parts| > 1 {
      JoinWithPadding(parts[1..], sep, pad);
      var q := [parts[1]] + Padded(parts[2..], pad);
      assert parts[1..][1..] == parts[2..];
      assert Padded(parts[1..], pad) == [[pad] + parts[1]] + Padded(parts[2..], pad);
      var lhs := [parts[0]] + Padded(parts[1..], pad);
      assert lhs[1..] == [[pad] + parts[1]] + Padded(parts[2..], pad);
      calc {
        Join(parts, [sep, pad]);
        parts[0] + [sep, pad] + Join(parts[1..], [sep, pad]);
        parts[0] + [sep, pad] + Join(q, [sep]);
        { JoinPadFirst(q, sep, pad); }
        parts[0] + [sep] + Join(lhs[1..], [sep]);
        Join(lhs, [sep]);
      }
    }
  }

  /** Helper of JoinWithPadding: a character in front of the first part moves in front of the join. */
  lemma JoinPadFirst(q: seq<string>, sep: char, pad: char)
    requires |q| >= 1
    ensures [pad] + Join(q, [sep]) == Join([[pad] + q[0]] + q[1..], [sep])
  {
    var r := [[pad] + q[0]] + q[1..];
    assert |r| == |q| && r[0] == [pad] + q[0] && r[1..] == q[1..];
    if |q| > 1 {
      var tail := Join(q[1..], [sep]);
      assert Join(r, [sep]) == r[0] + ([sep] + tail);
      assert Join(q, [sep]) == q[0] + ([sep] + tail);
      ConsAssoc(pad, q[0], [sep] + tail);
    }
  }

  /** Helper of JoinPadFirst. */
  lemma ConsAssoc(c: char, a: string, b: string)
    ensures ([c] + a) + b == [c] + (a + b)
  {
  }

  /** Every part prefixed with `pad`. */
  function Padded(parts: seq<string>, pad: char): (r: seq<string>)
    ensures |r| == |parts|
    ensures forall i :: 0 <= i < |parts| ==> r[i] == [pad] + parts[i]
  {
    if parts == [] then [] else [[pad] + parts[0]] + Padded(parts[1..], pad)
  }

  /**
   * Rust `str::lines`: pieces between '\n', and no final empty piece after a
   * terminating '\n'. A piece ended by "\r\n" loses its '\r'; a lone '\r'
   * at the very end, with no '\n' after it, is kept.
   */
  function Lines(s: string): seq<string> {
    var parts := Split(s, '\n');
    var kept := if parts[|parts| - 1] == "" then parts[..|parts| - 1] else parts;
    seq(|kept|, i requires 0 <= i < |kept| =>
      if i < |parts| - 1 && |kept[i]| > 0 && kept[i][|kept[i]| - 1] == '\r' then kept[i][..|kept[i]| - 1] else kept[i])
  }

  // ---------------------------------------------------------------------------
  // Numbers
  // ---------------------------------------------------------------------------

  predicate IsDigit(c: char) { '0' <= c <= '9' }

  function DigitChar(d: nat): char
    requires d < 10
  {
    ('0' as int + d) as char
  }

  /** Decimal rendering of a natural number, as by Rust `format!("{}", n)`. */
  function Decimal(n: nat): (r: string)
    ensures |r| >= 1
    ensures forall i :: 0 <= i < |r| ==> IsDigit(r[i])
    ensures r[0] == '0' ==> n == 0
  {
    if n < 10 then [DigitChar(n)] else Decimal(n / 10) + [DigitChar(n % 10)]
  }

  /** Value of a string of decimal digits. */
  function DigitsValue(s: string): nat
    requires forall i :: 0 <= i < |s| ==> IsDigit(s[i])
  {
    if s == [] then 0
    else
      assert IsDigit(s[|s| - 1]);
      10 * DigitsValue(s[..|s| - 1]) + (s[|s| - 1] as int - '0' as int)
  }

  lemma {:induction false} DigitsValueOfDecimal(n: nat)
    ensures DigitsValue(Decimal(n)) == n
  {
    if n >= 10 {
      var d := Decimal(n);
      DigitsValueOfDecimal(n / 10);
      assert d[..|d| - 1] == Decimal(n / 10);
    }
  }

  /**
   * Rust `str::parse::<u8>`: an optional '+' (not on its own), then one or more
   * decimal digits whose value is at most 255.
   */
  function ParseU8(s: string): (r: Option<u8>)
    ensures r.Some? ==> s != [] && s != "+"
    ensures r.Some? ==> (IsDigit(s[0]) || s[0] == '+') && forall i :: 1 <= i < |s| ==> IsDigit(s[i])
  {
    var digits := if |s| > 1 && s[0] == '+' then s[1..] else s;
    if digits == [] || exists i :: 0 <= i < |digits| && !IsDigit(digits[i]) then None
    else if DigitsValue(digits) > 0xFF then None
    else Some(DigitsValue(digits))
  }

  /** Parsing the decimal rendering of a byte gives the byte back. */
  lemma ParseU8Decimal(n: u8)
    ensures ParseU8(Decimal(n)) == Some(n)
  {
    DigitsValueOfDecimal(n);
  }

  /** The upper-case hexadecimal digit for d. */
  function HexDigit(d: nat): char
    requires d < 16
  {
    if d < 10 then DigitChar(d) else ('A' as int + d - 10) as char
  }

  /** Rust `format!("{:04X}", n)` for a 16-bit value. */
  function Hex4(n: u16): (r: string)
    ensures |r| == 4
    ensures forall i :: 0 <= i < 4 ==> IsDigit(r[i]) || 'A' <= r[i] <= 'F'
  {
    [HexDigit(n / 0x1000), HexDigit(n / 0x100 % 16), HexDigit(n / 16 % 16), HexDigit(n % 16)]
  }
}
