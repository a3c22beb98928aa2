/** The JavaScript string and number primitives the two services rely on:
    `parseInt(s, 10)`, `Number.prototype.toString`, `String.prototype.toLowerCase`,
    `String.prototype.includes`, `String.prototype.replace` with a string pattern,
    and `Array.prototype.indexOf` on an array of strings. */
module JsText {
  import opened Wrappers

  /** A JavaScript number as the services produce it: an integer, or NaN. */
  datatype Num = Int(value: int) | NaN

  /** `textContent || d`: the empty string is the only falsy text. */
  function OrDefault(text: string, d: string): string {
    if text == "" then d else text
  }

  predicate IsDigit(c: char) {
    '0' <= c <= '9'
  }

  /** The white space `parseInt` skips: ECMAScript's WhiteSpace (TAB, VT, FF,
      the Zs space separators and the byte order mark) and LineTerminator. */
  predicate IsSpace(c: char) {
    || c == '\t' || c == '\n' || c == '\U{000B}' || c == '\U{000C}' || c == '\r'
    || c == ' ' || c == '\U{00A0}' || c == '\U{1680}' || ('\U{2000}' <= c <= '\U{200A}')
    || c == '\U{2028}' || c == '\U{2029}' || c == '\U{202F}' || c == '\U{205F}'
    || c == '\U{3000}' || c == '\U{FEFF}'
  }

  predicate AllDigits(s: string) {
    forall i :: 0 <= i < |s| ==> IsDigit(s[i])
  }

  /** `s` without its leading white space. */
  function TrimStart(s: string): string {
    if s != [] && IsSpace(s[0]) then TrimStart(s[1..]) else s
  }

  /** TrimStart removes a run of white space from the front and nothing more. */
  lemma {:induction false} TrimStartSkipsSpace(s: string)
    ensures var r := TrimStart(s);
      && |r| <= |s| && r == s[|s| - |r|..]
      && (r == [] || !IsSpace(r[0]))
      && forall i :: 0 <= i < |s| - |r| ==> IsSpace(s[i])
  {
    if s != [] && IsSpace(s[0]) {
      TrimStartSkipsSpace(s[1..]);
      var r := TrimStart(s);
      assert forall i :: 1 <= i < |s| - |r| ==> s[i] == s[1..][i - 1];
    }
  }

  /** The longest prefix of `s` made of decimal digits. */
  function DigitPrefix(s: string): (r: string)
    ensures AllDigits(r)
  {
    if s != [] && IsDigit(s[0]) then [s[0]] + DigitPrefix(s[1..]) else []
  }

  /** DigitPrefix is a prefix, and the character after it is not a digit. */
  lemma {:induction false} DigitPrefixLongest(s: string)
    ensures var r := DigitPrefix(s);
      && r <= s
      && (|r| < |s| ==> !IsDigit(s[|r|]))
  {
    if s != [] && IsDigit(s[0]) {
      DigitPrefixLongest(s[1..]);
    }
  }

  function DigitValue(c: char): nat
    requires IsDigit(c)
  {
    c as int - '0' as int
  }

  function DigitChar(d: nat): (c: char)
    requires d < 10
    ensures IsDigit(c) && DigitValue(c) == d
  {
    ('0' as int + d) as char
  }

  /** The value of a decimal digit string, most significant digit first. */
  function DecimalValue(ds: string): nat
    requires AllDigits(ds)
  {
    if ds == [] then 0 else 10 * DecimalValue(ds[..|ds| - 1]) + DigitValue(ds[|ds| - 1])
  }

  /** `parseInt(s, 10)`: skip leading white space, read one optional sign, then
      the longest run of decimal digits; NaN when that run is empty. Whatever
      follows the digits is ignored. */
  function ParseInt(s: string): (r: Num)
    ensures s == [] ==> r == NaN
  {
    var t := TrimStart(s);
    var signed := t != [] && (t[0] == '-' || t[0] == '+');
    var body := if signed then t[1..] else t;
    var ds := DigitPrefix(body);
    if ds == [] then NaN
    else if signed && t[0] == '-' then Int(-(DecimalValue(ds) as int))
    else Int(DecimalValue(ds))
  }

  /** A string of digits is its own longest digit prefix. */
  lemma DigitPrefixAll(s: string)
    ensures AllDigits(s) ==> DigitPrefix(s) == s
  {
    if s != [] && AllDigits(s) {
      DigitPrefixAll(s[1..]);
    }
  }

  /** The decimal digits of a natural number, without leading zeros. */
  function NatText(n: nat): (r: string)
    ensures r != [] && AllDigits(r)
    ensures |r| > 1 ==> r[0] != '0'
  {
    if n < 10 then [DigitChar(n)] else NatText(n / 10) + [DigitChar(n % 10)]
  }

  /** `Number.prototype.toString()` for the numbers the services write back. */
  function NumberText(x: Num): (r: string)
    ensures r != []
    ensures x.Int? ==> (r[0] == '-' <==> x.value < 0)
  {
    match x
    case NaN => "NaN"
    case Int(v) => if v < 0 then "-" + NatText(-v) else NatText(v)
  }

  /** A written integer holds digits and at most a minus sign: no newline. */
  lemma NumberTextNoNewline(v: int)
    ensures '\n' !in NumberText(Int(v))
  {
    var digits := NatText(if v < 0 then -v else v);
    assert !IsDigit('\n');
    if v < 0 {
      assert NumberText(Int(v)) == ['-'] + digits;
    }
  }

  lemma {:induction false} DecimalValueOfNatText(n: nat)
    ensures DecimalValue(NatText(n)) == n
  {
    if n >= 10 {
      var r := NatText(n);
      assert r[..|r| - 1] == NatText(n / 10);
      DecimalValueOfNatText(n / 10);
    }
  }


  /** A non-empty string of digits reads as its decimal value. */
  lemma ParseIntOfDigits(s: string)
    requires s != [] && AllDigits(s)
    ensures ParseInt(s) == Int(DecimalValue(s))
  {
    DigitPrefixAll(s);
    assert TrimStart(s) == s by {
      assert !IsSpace(s[0]);
    }
  }

  /** Writing a number and reading it back with `parseInt` gives the number. */
  lemma ParseIntOfNumberText(v: int)
    ensures ParseInt(NumberText(Int(v))) == Int(v)
  {
    var digits := NatText(if v < 0 then -v else v);
    DecimalValueOfNatText(if v < 0 then -v else v);
    var s := NumberText(Int(v));
    assert TrimStart(s) == s by {
      assert !IsSpace(s[0]);
    }
    DigitPrefixAll(digits);
    if v < 0 {
      assert s[1..] == digits;
    }
  }

  /** `parseInt` of any text that is not a number is NaN: "NaN" itself reads back as NaN. */
  lemma ParseIntOfNaNText()
    ensures ParseInt(NumberText(NaN)) == NaN
  {
  }

  /** ASCII case folding; see README for why this is exact for the words searched. */
  function LowerChar(c: char): char {
    if 'A' <= c <= 'Z' then (c as int + 32) as char else c
  }

  /** `String.prototype.toLowerCase()` on the letters that matter here. */
  function ToLower(s: string): (r: string)
    ensures |r| == |s|
  {
    seq(|s|, i requires 0 <= i < |s| => LowerChar(s[i]))
  }

  /** `sub` occurs in `s` starting at index `i`. */
  predicate OccursAt(s: string, sub: string, i: int) {
    0 <= i && i + |sub| <= |s| && s[i..i + |sub|] == sub
  }

  /** The first index at which `sub` occurs in `s` (`String.prototype.indexOf`). */
  function FirstIndexOf(s: string, sub: string): (r: Option<nat>)
    ensures r.Some? ==> r.value + |sub| <= |s|
  {
    if |s| < |sub| then None
    else if s[..|sub|] == sub then Some(0)
    else
      match FirstIndexOf(s[1..], sub)
      case None => None
      case Some(i) => Some(i + 1)
  }

  /** FirstIndexOf finds an occurrence, none before it, and misses only
      when there is none at all. */
  lemma {:induction false} FirstIndexOfFinds(s: string, sub: string)
    ensures var r := FirstIndexOf(s, sub);
      && (r.Some? ==> OccursAt(s, sub, r.value))
      && (r.Some? ==> forall j :: 0 <= j < r.value ==> !OccursAt(s, sub, j))
      && (r.None? ==> forall j :: 0 <= j <= |s| ==> !OccursAt(s, sub, j))
  {
    if |s| >= |sub| && s[..|sub|] != sub {
      FirstIndexOfFinds(s[1..], sub);
      assert forall j :: 1 <= j <= |s| ==> (OccursAt(s, sub, j) <==> OccursAt(s[1..], sub, j - 1));
    }
  }

  /** `String.prototype.includes`. */
  predicate Contains(s: string, sub: string) {
    FirstIndexOf(s, sub).Some?
  }

  /** `s.replace(pattern, replacement)` with a string pattern: only the first
      occurrence is replaced (the replacements used here hold no `$`). */
  function ReplaceFirst(s: string, pattern: string, replacement: string): (r: string)
    ensures |pattern| == |replacement| ==> |r| == |s|
  {
    match FirstIndexOf(s, pattern)
    case None => s
    case Some(i) => s[..i] + replacement + s[i + |pattern|..]
  }

  /** A two-letter pattern whose second letter does not occur is not replaced. */
  lemma ReplaceAbsent(s: string, pattern: string, replacement: string)
    requires |pattern| == 2 && pattern[1] !in s
    ensures ReplaceFirst(s, pattern, replacement) == s
  {
    FirstIndexOfFinds(s, pattern);
  }
}
