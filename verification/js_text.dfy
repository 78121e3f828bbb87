/**
 * The JavaScript string operations the storefront relies on, stated over
 * `string` (a sequence of UTF-16 code units, here `seq<char>`):
 * `String.prototype.trim`, the digit filters `replace(/\D/g, '')` and
 * `replace(/[^0-9]/g, '')`, `substring(0, n)`, the decimal rendering of a
 * whole number inside a template literal, and `toUpperCase` on the letters
 * a card holder types.
 */
module JsText {

  datatype Option<T> = None | Some(value: T)

  /** The ECMAScript WhiteSpace and LineTerminator code points: what `trim`
      strips and what the regular-expression class `\s` matches. */
  predicate IsWhitespace(c: char) {
    || c == ' ' || c == '\t' || c == '\n' || c == '\U{B}' || c == '\U{C}' || c == '\r'
    || c == '\U{A0}' || c == '\U{1680}' || ('\U{2000}' <= c <= '\U{200A}')
    || c == '\U{2028}' || c == '\U{2029}' || c == '\U{202F}' || c == '\U{205F}'
    || c == '\U{3000}' || c == '\U{FEFF}'
  }

  predicate AllWhitespace(s: string) {
    forall i :: 0 <= i < |s| ==> IsWhitespace(s[i])
  }

  /** Drops leading whitespace: the result is a suffix of `s` that does not
      start with whitespace, and everything dropped was whitespace. */
  function TrimStart(s: string): (r: string)
    ensures |r| <= |s| && r == s[|s| - |r|..]
    ensures r == [] || !IsWhitespace(r[0])
    ensures forall i :: 0 <= i < |s| - |r| ==> IsWhitespace(s[i])
  {
    if s != [] && IsWhitespace(s[0]) then TrimStart(s[1..]) else s
  }

  /** Drops trailing whitespace: the result is a prefix of `s` that does not
      end with whitespace, and everything dropped was whitespace. */
  function TrimEnd(s: string): (r: string)
    ensures |r| <= |s| && r == s[..|r|]
    ensures r == [] || !IsWhitespace(r[|r| - 1])
    ensures forall i :: |r| <= i < |s| ==> IsWhitespace(s[i])
  {
    if s != [] && IsWhitespace(s[|s| - 1]) then TrimEnd(s[..|s| - 1]) else s
  }

  /** `s.trim()`. */
  function Trim(s: string): (r: string)
    ensures |r| <= |s|
    ensures r == [] <==> AllWhitespace(s)
    ensures r != [] ==> !IsWhitespace(r[0]) && !IsWhitespace(r[|r| - 1])
    ensures exists i, j :: 0 <= i <= j <= |s| && r == s[i..j]
  {
    var t := TrimStart(s);
    var r := TrimEnd(t);
    var i := |s| - |t|;
    assert r == s[i..i + |r|];
    r
  }

  predicate IsDigit(c: char) {
    '0' <= c <= '9'
  }

  predicate AllDigits(s: string) {
    forall i :: 0 <= i < |s| ==> IsDigit(s[i])
  }

  /** `s.replace(/\D/g, '')`, equally `s.replace(/[^0-9]/g, '')`: the ASCII
      digits of `s`, in order. */
  function KeepDigits(s: string): (r: string)
    ensures |r| <= |s|
    ensures AllDigits(r)
    ensures AllDigits(s) ==> r == s
  {
    if s == [] then []
    else if IsDigit(s[0]) then [s[0]] + KeepDigits(s[1..])
    else KeepDigits(s[1..])
  }

  /** Filtering distributes over concatenation. */
  /** One character: a digit is kept, anything else dropped. With
      `KeepDigitsAppend` this determines the filter. */
  lemma KeepDigitsSingle(c: char)
    ensures KeepDigits([c]) == if IsDigit(c) then [c] else []
  {
  }

  /** Each character of `s` is kept, in its place, exactly when it is a
      digit: the filter is the filtered text before it, then the character
      itself if it is a digit, then the filtered text after it. */
  lemma {:induction false} KeepDigitsAt(s: string, i: nat)
    requires i < |s|
    ensures KeepDigits(s) == KeepDigits(s[..i]) + (if IsDigit(s[i]) then [s[i]] else []) + KeepDigits(s[i + 1..])
    ensures IsDigit(s[i]) ==> s[i] in KeepDigits(s)
  {
    var a, c, b := s[..i], [s[i]], s[i + 1..];
    assert s == a + c + b;
    KeepDigitsAppend(a + c, b);
    KeepDigitsAppend(a, c);
    KeepDigitsSingle(s[i]);
    var mid := if IsDigit(s[i]) then [s[i]] else [];
    assert KeepDigits(s) == KeepDigits(a) + mid + KeepDigits(b);
    if IsDigit(s[i]) {
      assert KeepDigits(s)[|KeepDigits(a)|] == s[i];
    }
  }

  lemma {:induction false} KeepDigitsAppend(a: string, b: string)
    ensures KeepDigits(a + b) == KeepDigits(a) + KeepDigits(b)
  {
    if a != [] {
      assert (a + b)[0] == a[0] && (a + b)[1..] == a[1..] + b;
      KeepDigitsAppend(a[1..], b);
    } else {
      assert a + b == b;
    }
  }

  /** The index of the first `c` in `s`, or `|s|` when there is none. */
  function IndexOf(s: string, c: char): (k: nat)
    ensures k <= |s| && c !in s[..k]
    ensures k < |s| ==> s[k] == c
  {
    if s == [] then 0
    else if s[0] == c then 0
    else
      var k := 1 + IndexOf(s[1..], c);
      assert s[..k] == [s[0]] + s[1..][..k - 1];
      k
  }

  /** `s.substring(0, n)` for a non-negative `n`. */
  function Prefix(s: string, n: nat): (r: string)
    ensures |r| == if |s| <= n then |s| else n
    ensures r == s[..|r|]
  {
    if |s| <= n then s else s[..n]
  }

  /** The digits of a whole number as a template literal renders it. */
  function NatToString(n: nat): (r: string)
    ensures r != [] && AllDigits(r)
    ensures |r| > 1 ==> r[0] != '0'
    decreases n
  {
    var d := [(('0' as int) + n % 10) as char];
    if n < 10 then d else NatToString(n / 10) + d
  }

  /** The number a digit string denotes. */
  function DigitsValue(s: string): nat
    requires AllDigits(s)
  {
    if s == [] then 0 else 10 * DigitsValue(s[..|s| - 1]) + ((s[|s| - 1] as int) - ('0' as int))
  }

  /** Reading back the rendering of a number gives the number. */
  lemma {:induction false} NatToStringRoundTrip(n: nat)
    ensures DigitsValue(NatToString(n)) == n
    decreases n
  {
    var s := NatToString(n);
    if n >= 10 {
      NatToStringRoundTrip(n / 10);
      assert s[..|s| - 1] == NatToString(n / 10);
    }
  }

  /** Distinct numbers render as distinct strings. */
  lemma NatToStringInjective(m: nat, n: nat)
    requires NatToString(m) == NatToString(n)
    ensures m == n
  {
    NatToStringRoundTrip(m);
    NatToStringRoundTrip(n);
  }

  /** `toUpperCase` on one code unit, for ASCII and the Latin-1 letters
      whose upper case is one code unit: 'a'..'z' and U+00E0..U+00FE (but
      the division sign U+00F7) move down by 32, 'ÿ' becomes U+0178 and the
      micro sign becomes the Greek capital mu U+039C. Everything else is
      kept, 'ß' included, whose upper case is the two letters "SS". */
  function UpperChar(c: char): (u: char)
    ensures ('a' <= c <= 'z' || ('\U{E0}' <= c <= '\U{FE}' && c != '\U{F7}')) ==> u as int == c as int - 32
    ensures c == '\U{FF}' ==> u == '\U{178}'
    ensures c == '\U{B5}' ==> u == '\U{39C}'
    ensures !('a' <= c <= 'z') && !('\U{E0}' <= c <= '\U{FF}') && c != '\U{B5}' ==> u == c
    ensures c == '\U{F7}' ==> u == c
  {
    if 'a' <= c <= 'z' then ((c as int) - 32) as char
    else if '\U{E0}' <= c <= '\U{FE}' && c != '\U{F7}' then ((c as int) - 32) as char
    else if c == '\U{FF}' then '\U{178}'
    else if c == '\U{B5}' then '\U{39C}'
    else c
  }

  function UpperCase(s: string): (r: string)
    ensures |r| == |s|
    ensures forall i :: 0 <= i < |s| ==> r[i] == UpperChar(s[i])
  {
    if s == [] then [] else [UpperChar(s[0])] + UpperCase(s[1..])
  }
}
