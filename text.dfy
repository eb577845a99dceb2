/**
  The few Python `str` operations the conversation relies on: `isspace`,
  `strip`, `split(',')`, `', '.join`, `lower() == "skip"` and `str(int)`.
 */
module Text {

  /** The characters for which Python's `str.isspace()` holds; `strip()` removes these. */
  predicate IsSpace(c: char) {
    ('\t' <= c <= '\r') || ('\U{1C}' <= c <= ' ') || c == '\U{85}' || c == '\U{A0}'
    || c == '\U{1680}' || ('\U{2000}' <= c <= '\U{200A}') || c == '\U{2028}' || c == '\U{2029}'
    || c == '\U{202F}' || c == '\U{205F}' || c == '\U{3000}'
  }

  predicate AllSpace(s: string) {
    forall i :: 0 <= i < |s| ==> IsSpace(s[i])
  }

  /** No whitespace at either end: what `strip()` leaves behind. */
  predicate Trimmed(s: string) {
    s == [] || (!IsSpace(s[0]) && !IsSpace(s[|s| - 1]))
  }

  /** `s.lstrip()`: drops the whitespace prefix and keeps the rest as it is. */
  function TrimStart(s: string): (r: string)
    ensures |r| <= |s| && r == s[|s| - |r|..]
    ensures AllSpace(s[..|s| - |r|])
    ensures r == [] || !IsSpace(r[0])
  {
    if |s| > 0 && IsSpace(s[0]) then
      var r := TrimStart(s[1..]);
      assert s[..|s| - |r|] == [s[0]] + s[1..][..|s| - 1 - |r|];
      r
    else s
  }

  /** `s.rstrip()`: drops the whitespace suffix and keeps the rest as it is. */
  function TrimEnd(s: string): (r: string)
    ensures |r| <= |s| && r == s[..|r|]
    ensures AllSpace(s[|r|..])
    ensures r == [] || !IsSpace(r[|r| - 1])
  {
    if |s| > 0 && IsSpace(s[|s| - 1]) then
      var r := TrimEnd(s[..|s| - 1]);
      assert s[..|s| - 1][..|r|] == s[..|r|];
      assert s[|r|..] == s[..|s| - 1][|r|..] + [s[|s| - 1]];
      r
    else s
  }

  /** `s.strip()`: the slice of `s` between its leading and trailing whitespace. */
  function Strip(s: string): (r: string)
    ensures Trimmed(r)
    ensures |r| <= |s|
  {
    TrimEnd(TrimStart(s))
  }

  lemma {:induction false} TrimStartPadding(pad: string, core: string)
    requires AllSpace(pad) && (core == [] || !IsSpace(core[0]))
    ensures TrimStart(pad + core) == core
    decreases |pad|
  {
    if pad == [] {
      assert pad + core == core;
    } else {
      assert (pad + core)[1..] == pad[1..] + core;
      TrimStartPadding(pad[1..], core);
    }
  }

  lemma {:induction false} TrimEndPadding(core: string, pad: string)
    requires AllSpace(pad) && (core == [] || !IsSpace(core[|core| - 1]))
    ensures TrimEnd(core + pad) == core
    decreases |pad|
  {
    if pad == [] {
      assert core + pad == core;
    } else {
      assert (core + pad)[..|core + pad| - 1] == core + pad[..|pad| - 1];
      TrimEndPadding(core, pad[..|pad| - 1]);
    }
  }

  /**
    `strip()` removes exactly the surrounding whitespace: a whitespace-free core
    padded by whitespace on both sides strips back to that core.
   */
  lemma StripPadding(left: string, core: string, right: string)
    requires AllSpace(left) && AllSpace(right) && Trimmed(core)
    ensures Strip(left + core + right) == core
  {
    if core == [] {
      assert left + core + right == left + right;
      assert AllSpace(left + right);
      TrimStartPadding(left + right, []);
      assert TrimStart(left + right) == [];
    } else {
      assert left + core + right == left + (core + right);
      TrimStartPadding(left, core + right);
      TrimEndPadding(core, right);
    }
  }

  /** `strip()` is idempotent. */
  lemma StripIdempotent(s: string)
    ensures Strip(Strip(s)) == Strip(s)
  {
  }

  /** `sep.join(xs)`. */
  function Join(xs: seq<string>, sep: string): string
  {
    if |xs| == 0 then "" else if |xs| == 1 then xs[0] else xs[0] + sep + Join(xs[1..], sep)
  }

  /** `s.split(sep)` for a one-character separator: never empty, cuts at every separator. */
  function Split(s: string, sep: char): (r: seq<string>)
    ensures |r| >= 1
    ensures forall i :: 0 <= i < |r| ==> sep !in r[i]
    ensures Join(r, [sep]) == s
    decreases |s|
  {
    if |s| == 0 then [""]
    else
      var rest := Split(s[1..], sep);
      if s[0] == sep then
        assert ([""] + rest)[1..] == rest;
        [""] + rest
      else
        var r := [[s[0]] + rest[0]] + rest[1..];
        assert r[1..] == rest[1..];
        assert s == [s[0]] + s[1..];
        r
  }

  /** Cutting a separator-free prefix off the front of the input. */
  lemma {:induction false} SplitPrefix(a: string, sep: char, t: string)
    requires sep !in a
    ensures Split(a + t, sep) == [a + Split(t, sep)[0]] + Split(t, sep)[1..]
    decreases |a|
  {
    if a != [] {
      assert (a + t)[1..] == a[1..] + t;
      SplitPrefix(a[1..], sep, t);
      var r, st := Split(a[1..] + t, sep), Split(t, sep);
      assert (a + t)[0] == a[0] && a[0] != sep;
      assert Split(a + t, sep) == [[a[0]] + r[0]] + r[1..];
      assert r[0] == a[1..] + st[0] && r[1..] == st[1..];
      assert a == [a[0]] + a[1..];
      assert [a[0]] + r[0] == a + st[0];
    } else {
      var rest := Split(t, sep);
      assert a + t == t;
      assert a + rest[0] == rest[0];
      assert rest == [rest[0]] + rest[1..];
    }
  }

  /** `split` undoes `join` when no piece contains the separator. */
  lemma {:induction false} SplitJoin(xs: seq<string>, sep: char)
    requires |xs| >= 1
    requires forall i :: 0 <= i < |xs| ==> sep !in xs[i]
    ensures Split(Join(xs, [sep]), sep) == xs
    decreases |xs|
  {
    if |xs| == 1 {
      SplitPrefix(xs[0], sep, "");
      assert xs[0] + "" == xs[0];
    } else {
      var tail := Join(xs[1..], [sep]);
      SplitJoin(xs[1..], sep);
      assert Join(xs, [sep]) == xs[0] + ([sep] + tail);
      SplitPrefix(xs[0], sep, [sep] + tail);
      var rest := Split([sep] + tail, sep);
      assert ([sep] + tail)[1..] == tail;
      assert rest == [""] + Split(tail, sep);
      assert rest[0] == "" && rest[1..] == xs[1..];
      assert xs[0] + rest[0] == xs[0];
      assert xs == [xs[0]] + xs[1..];
    }
  }

  /**
    Python's `str.lower()`, restricted to the characters that can lower to
    a letter of "skip": ASCII capitals and the Kelvin sign (which lowers to 'k').
   */
  function LowerChar(c: char): char {
    if 'A' <= c <= 'Z' then (c - 'A' + 'a') as char
    else if c == '\U{212A}' then 'k'
    else c
  }

  function Lower(s: string): string {
    seq(|s|, i requires 0 <= i < |s| => LowerChar(s[i]))
  }

  /** `url.lower() == "skip"`. */
  predicate IsSkip(s: string) {
    Lower(s) == "skip"
  }

  /** Exactly the spellings of "skip" in any letter case (the Kelvin sign included) are accepted. */
  lemma SkipSpellings(s: string)
    ensures IsSkip(s) <==>
      |s| == 4 && s[0] in "sS" && s[1] in "kK\U{212A}" && s[2] in "iI" && s[3] in "pP"
  {
    if |s| == 4 && IsSkip(s) {
      assert Lower(s)[0] == 's' && Lower(s)[1] == 'k' && Lower(s)[2] == 'i' && Lower(s)[3] == 'p';
    }
  }

  function DigitChar(d: nat): char
    requires d < 10
  {
    ('0' as int + d) as char
  }

  /** The value of a string of decimal digits. */
  function DecimalValue(s: string): nat
  {
    if |s| == 0 then 0
    else DecimalValue(s[..|s| - 1]) * 10 + (if '0' <= s[|s| - 1] <= '9' then (s[|s| - 1] - '0') as nat else 0)
  }

  /** `str(n)` for a natural number: decimal digits without leading zeros. */
  function NatToString(n: nat): (r: string)
    ensures |r| >= 1
    ensures forall i :: 0 <= i < |r| ==> '0' <= r[i] <= '9'
    ensures r[0] != '0' || r == "0"
  {
    if n < 10 then [DigitChar(n)] else NatToString(n / 10) + [DigitChar(n % 10)]
  }

  /** `str(n)` is read back as `n`. */
  lemma {:induction false} NatToStringValue(n: nat)
    ensures DecimalValue(NatToString(n)) == n
  {
    if n >= 10 {
      var r := NatToString(n);
      NatToStringValue(n / 10);
      assert r[..|r| - 1] == NatToString(n / 10);
      assert r[|r| - 1] == DigitChar(n % 10);
      assert DecimalValue(r) == (n / 10) * 10 + n % 10;
    }
  }

  /** `str(i)` for any Python int. */
  function IntToString(i: int): (r: string)
    ensures |r| >= 1
    ensures (r[0] == '-') <==> i < 0
    ensures DecimalValue(if i < 0 then r[1..] else r) == (if i < 0 then -i else i)
    // After any sign come only decimal digits, without a leading zero.
    ensures var d := if i < 0 then r[1..] else r;
      |d| >= 1 && (forall k :: 0 <= k < |d| ==> '0' <= d[k] <= '9') && (d[0] != '0' || d == "0")
  {
    NatToStringValue(if i < 0 then -i else i);
    if i < 0 then
      assert ("-" + NatToString(-i))[1..] == NatToString(-i);
      "-" + NatToString(-i)
    else NatToString(i)
  }
}
