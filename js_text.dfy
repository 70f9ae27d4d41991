/** The pieces of JavaScript string behaviour the two screens depend on:
    `String.prototype.trim`, `split(sep).pop()`, the decimal text of an
    integral `Number` (what `Date.now().toString()` and a template literal
    produce) and `length`, which counts UTF-16 code units. */
module JsText {
  import opened Outcomes

  /** JavaScript truthiness of a nullable string: neither null nor empty. */
  predicate Truthy(v: Option<string>) {
    v.Some? && v.value != ""
  }

  /** The ECMAScript WhiteSpace and LineTerminator code points, which `trim`
      removes from both ends. */
  predicate IsWhitespace(c: char) {
    c == '\t' || c == '\n' || c == '\U{000B}' || c == '\U{000C}' || c == '\r'
    || c == ' ' || c == '\U{00A0}' || c == '\U{1680}'
    || ('\U{2000}' <= c <= '\U{200A}')
    || c == '\U{2028}' || c == '\U{2029}' || c == '\U{202F}' || c == '\U{205F}'
    || c == '\U{3000}' || c == '\U{FEFF}'
  }

  /** Every character of `s` is whitespace (the empty string included). */
  predicate IsBlank(s: string) {
    forall i :: 0 <= i < |s| ==> IsWhitespace(s[i])
  }

  /** `s` with its leading whitespace removed: a suffix of `s` that starts
      with a non-whitespace character, everything before it whitespace. */
  function TrimStart(s: string): (t: string)
    ensures |t| <= |s| && t == s[|s| - |t|..]
    ensures t == [] || !IsWhitespace(t[0])
    ensures forall i :: 0 <= i < |s| - |t| ==> IsWhitespace(s[i])
  {
    if s == [] || !IsWhitespace(s[0]) then s else TrimStart(s[1..])
  }

  /** `s` with its trailing whitespace removed: a prefix of `s` that ends
      with a non-whitespace character, everything after it whitespace. */
  function TrimEnd(s: string): (t: string)
    ensures |t| <= |s| && t == s[..|t|]
    ensures t == [] || !IsWhitespace(t[|t| - 1])
    ensures forall i :: |t| <= i < |s| ==> IsWhitespace(s[i])
  {
    if s == [] || !IsWhitespace(s[|s| - 1]) then s else TrimEnd(s[..|s| - 1])
  }

  /** `s.trim()`: empty exactly when `s` is blank, and otherwise bounded by
      non-whitespace characters. */
  function Trim(s: string): (t: string)
    ensures |t| <= |s|
    ensures t == "" <==> IsBlank(s)
    ensures t != "" ==> !IsWhitespace(t[0]) && !IsWhitespace(t[|t| - 1])
  {
    var u := TrimStart(s);
    var t := TrimEnd(u);
    assert t == "" ==> IsBlank(s) by {
      if t == "" {
        assert u == "";
      }
    }
    assert t != "" ==> !IsBlank(s) by {
      if t != "" {
        assert u[0] == t[0];
        assert s[|s| - |u|] == u[0];
      }
    }
    t
  }

  /** `s.split(sep).pop()`: the text after the last `sep` in `s`, or all of
      `s` when it holds no `sep`. */
  function AfterLast(s: string, sep: char): string {
    if s == [] then []
    else if s[|s| - 1] == sep then []
    else AfterLast(s[..|s| - 1], sep) + [s[|s| - 1]]
  }

  /** What `AfterLast` returns is the `sep`-free suffix of `s` that follows
      its last `sep`; it is all of `s` exactly when `s` holds no `sep`. */
  lemma {:induction false} AfterLastShape(s: string, sep: char)
    ensures sep !in AfterLast(s, sep)
    ensures |AfterLast(s, sep)| <= |s| && AfterLast(s, sep) == s[|s| - |AfterLast(s, sep)|..]
    ensures |AfterLast(s, sep)| < |s| ==> s[|s| - |AfterLast(s, sep)| - 1] == sep
    ensures sep in s <==> |AfterLast(s, sep)| < |s|
  {
    if s != [] && s[|s| - 1] != sep {
      var init, last := s[..|s| - 1], s[|s| - 1];
      AfterLastShape(init, sep);
      var r0 := AfterLast(init, sep);
      assert AfterLast(s, sep) == r0 + [last];
      assert s == init + [last];
      assert s[|s| - |r0| - 1..] == init[|init| - |r0|..] + [last];
      assert sep in s <==> sep in init;
    }
  }

  /** Joining two texts with `sep` and taking what follows the last `sep`
      gives back the second text, provided it holds no `sep`. */
  lemma {:induction false} AfterLastOfJoin(a: string, sep: char, b: string)
    requires sep !in b
    ensures AfterLast(a + [sep] + b, sep) == b
  {
    var s := a + [sep] + b;
    var r := AfterLast(s, sep);
    AfterLastShape(s, sep);
    assert s[|s| - |b| - 1] == sep;
    if |r| < |b| {
      assert false;
    }
    assert s[|s| - |b|..] == b;
  }

  predicate IsDigit(c: char) {
    '0' <= c <= '9'
  }

  predicate IsDigits(s: string) {
    forall i :: 0 <= i < |s| ==> IsDigit(s[i])
  }

  /** The decimal text of a non-negative integral `Number` below 10^21 (the
      range where `toString` does not switch to exponent notation): digits
      only, non-empty, and without a leading zero unless it is "0". */
  function Decimal(n: nat): string
    decreases n
  {
    if n < 10 then ["0123456789"[n]]
    else Decimal(n / 10) + ["0123456789"[n % 10]]
  }

  /** The decimal text is non-empty, all digits, and starts with '0' only
      for zero. */
  lemma {:induction false} DecimalDigits(n: nat)
    ensures var s := Decimal(n);
      |s| > 0 && IsDigits(s) && (s[0] == '0' <==> n == 0)
    decreases n
  {
    if n >= 10 {
      DecimalDigits(n / 10);
    }
  }

  /** The number a string of decimal digits denotes. */
  function ParseDecimal(s: string): nat
    requires IsDigits(s)
  {
    if s == [] then 0
    else ParseDecimal(s[..|s| - 1]) * 10 + (s[|s| - 1] as int - '0' as int)
  }

  /** Reading back the decimal text of `n` yields `n`. */
  lemma {:induction false} ParseDecimalOfDecimal(n: nat)
    ensures IsDigits(Decimal(n)) && ParseDecimal(Decimal(n)) == n
    decreases n
  {
    var s := Decimal(n);
    DecimalDigits(n);
    if n < 10 {
      assert s[..0] == [];
    } else {
      ParseDecimalOfDecimal(n / 10);
      DecimalDigits(n / 10);
      assert s[..|s| - 1] == Decimal(n / 10);
    }
  }

  /** Every character of `s` lies in the Basic Multilingual Plane, so it is
      one UTF-16 code unit. */
  predicate InBmp(s: string) {
    forall i :: 0 <= i < |s| ==> s[i] as int <= 0xFFFF
  }

  /** `s.length`: the number of UTF-16 code units, two for every character
      outside the Basic Multilingual Plane. It lies between the number of
      characters and twice that, and equals the number of characters when
      all of them are in the Basic Multilingual Plane. */
  function Utf16Length(s: string): (n: nat)
    ensures |s| <= n <= 2 * |s|
    ensures InBmp(s) ==> n == |s|
  {
    if s == [] then 0
    else Utf16Length(s[..|s| - 1]) + (if s[|s| - 1] as int > 0xFFFF then 2 else 1)
  }
}
