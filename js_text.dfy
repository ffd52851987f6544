/** The few JavaScript string operations the storefront relies on:
    `String.prototype.trim`, the UTF-16 `length` that zod's min/max checks read,
    `Number.prototype.toString` on whole numbers and `toFixed(2)` on amounts
    held in pence. Each printing function comes with its parser and a
    round-trip lemma. */
module JsText {
  import opened Common

  // ---------------------------------------------------------------- trim

  /** The characters `String.prototype.trim` removes: ECMAScript WhiteSpace
      (TAB, VT, FF, SP, NBSP, ZWNBSP and the Zs category) and LineTerminator
      (LF, CR, LS, PS). */
  predicate IsTrimmable(c: char) {
    var n := c as int;
    n == 0x09 || n == 0x0A || n == 0x0B || n == 0x0C || n == 0x0D || n == 0x20 ||
    n == 0xA0 || n == 0x1680 || (0x2000 <= n <= 0x200A) || n == 0x2028 ||
    n == 0x2029 || n == 0x202F || n == 0x205F || n == 0x3000 || n == 0xFEFF
  }

  /** Drops leading trimmable characters: a suffix of `s`. */
  function TrimStart(s: string): (r: string)
    ensures |r| <= |s| && r == s[|s| - |r|..]
  {
    if |s| > 0 && IsTrimmable(s[0]) then TrimStart(s[1..]) else s
  }

  /** The characters `TrimStart` drops are all trimmable and the first one it
      keeps is not. */
  lemma {:induction false} TrimStartStopsAtContent(s: string)
    ensures forall i :: 0 <= i < |s| - |TrimStart(s)| ==> IsTrimmable(s[i])
    ensures |TrimStart(s)| > 0 ==> !IsTrimmable(TrimStart(s)[0])
  {
    if |s| > 0 && IsTrimmable(s[0]) {
      var rest := s[1..];
      assert TrimStart(s) == TrimStart(rest);
      TrimStartStopsAtContent(rest);
      forall i | 0 <= i < |s| - |TrimStart(s)|
        ensures IsTrimmable(s[i])
      {
        if i > 0 {
          assert s[i] == rest[i - 1];
        }
      }
    }
  }

  /** Drops trailing trimmable characters: a prefix of `s`. */
  function TrimEnd(s: string): (r: string)
    ensures |r| <= |s| && r == s[..|r|]
  {
    if |s| > 0 && IsTrimmable(s[|s| - 1]) then TrimEnd(s[..|s| - 1]) else s
  }

  /** The characters `TrimEnd` drops are all trimmable and the last one it
      keeps is not. */
  lemma {:induction false} TrimEndStopsAtContent(s: string)
    ensures forall i :: |TrimEnd(s)| <= i < |s| ==> IsTrimmable(s[i])
    ensures |TrimEnd(s)| > 0 ==> !IsTrimmable(TrimEnd(s)[|TrimEnd(s)| - 1])
  {
    if |s| > 0 && IsTrimmable(s[|s| - 1]) {
      TrimEndStopsAtContent(s[..|s| - 1]);
      forall i | |TrimEnd(s)| <= i < |s| - 1
        ensures IsTrimmable(s[i])
      {
        assert s[i] == s[..|s| - 1][i];
      }
    }
  }

  /** How many leading characters `trim` removes. */
  function Skipped(s: string): nat {
    |s| - |TrimStart(s)|
  }

  /** `s.trim()`: a contiguous slice of `s`, starting after the characters
      `TrimStart` skips. */
  function Trim(s: string): (r: string)
    ensures |r| <= |s| - Skipped(s) && r == s[Skipped(s)..Skipped(s) + |r|]
  {
    var t := TrimStart(s);
    var r := TrimEnd(t);
    assert r == s[|s| - |t|..|s| - |t| + |r|];
    r
  }

  /** What `trim` keeps neither starts nor ends with a trimmable character,
      and is empty exactly when every character of `s` is trimmable. */
  lemma TrimKeepsContent(s: string)
    ensures |Trim(s)| > 0 ==> !IsTrimmable(Trim(s)[0]) && !IsTrimmable(Trim(s)[|Trim(s)| - 1])
    ensures Trim(s) == [] <==> forall i :: 0 <= i < |s| ==> IsTrimmable(s[i])
  {
    var t := TrimStart(s);
    var r := TrimEnd(t);
    assert Trim(s) == r;
    TrimStartStopsAtContent(s);
    TrimEndStopsAtContent(t);
    assert r == [] ==> t == [];
    if r != [] {
      assert r[0] == t[0] == s[|s| - |t|];
    }
  }

  /** Trimming twice is trimming once. */
  lemma TrimIdempotent(s: string)
    ensures Trim(Trim(s)) == Trim(s)
  {
    var r := Trim(s);
    TrimKeepsContent(s);
    assert TrimStart(r) == r;
    assert TrimEnd(r) == r;
  }

  // ---------------------------------------------------------------- length

  /** JavaScript's `length`: UTF-16 code units, two for a character outside
      the Basic Multilingual Plane. */
  function Utf16Length(s: string): (n: nat)
    ensures |s| <= n <= 2 * |s|
  {
    if s == [] then 0
    else (if s[0] as int >= 0x10000 then 2 else 1) + Utf16Length(s[1..])
  }

  /** Text within the Basic Multilingual Plane has one code unit per character. */
  lemma {:induction false} Utf16LengthBmp(s: string)
    requires forall i :: 0 <= i < |s| ==> s[i] as int < 0x10000
    ensures Utf16Length(s) == |s|
  {
    if s != [] {
      assert forall i :: 0 <= i < |s[1..]| ==> s[1..][i] == s[i + 1];
      Utf16LengthBmp(s[1..]);
    }
  }

  // ---------------------------------------------------------------- digits

  predicate IsDigit(c: char) {
    '0' <= c <= '9'
  }

  predicate IsDigits(s: string) {
    forall i :: 0 <= i < |s| ==> IsDigit(s[i])
  }

  function DigitChar(d: nat): (c: char)
    requires d < 10
    ensures IsDigit(c)
  {
    ('0' as int + d) as char
  }

  function DigitValue(c: char): (d: nat)
    requires IsDigit(c)
    ensures d < 10 && DigitChar(d) == c
  {
    c as int - '0' as int
  }

  /** Decimal digits of `n`, most significant first, without leading zeros. */
  function NatString(n: nat): (s: string)
    ensures |s| > 0 && IsDigits(s)
    ensures s[0] == '0' ==> n == 0
    decreases n
  {
    if n < 10 then [DigitChar(n)] else NatString(n / 10) + [DigitChar(n % 10)]
  }

  /** The value of a string of decimal digits (the empty string reads as 0). */
  function DigitsValue(s: string): nat
    requires IsDigits(s)
  {
    if s == [] then 0 else DigitsValue(s[..|s| - 1]) * 10 + DigitValue(s[|s| - 1])
  }

  lemma {:induction false} NatStringRoundTrip(n: nat)
    ensures DigitsValue(NatString(n)) == n
    decreases n
  {
    if n >= 10 {
      var s := NatString(n);
      assert s[..|s| - 1] == NatString(n / 10);
      NatStringRoundTrip(n / 10);
    }
  }

  // ---------------------------------------------------------------- toString

  /** `Number.prototype.toString` on a whole number: an optional minus sign
      followed by the decimal digits of the magnitude. */
  function IntString(n: int): string {
    if n < 0 then "-" + NatString(-n) else NatString(n)
  }

  /** Reads back what `IntString` prints; `None` for any other text. */
  function IntValue(s: string): Option<int> {
    if |s| > 1 && s[0] == '-' && IsDigits(s[1..]) then Some(0 - DigitsValue(s[1..]))
    else if |s| > 0 && IsDigits(s) then Some(DigitsValue(s))
    else None
  }

  lemma IntStringRoundTrip(n: int)
    ensures IntValue(IntString(n)) == Some(n)
  {
    var s := IntString(n);
    if n < 0 {
      assert s[0] == '-' && s[1..] == NatString(-n);
      NatStringRoundTrip(-n);
      assert IntValue(s) == Some(0 - DigitsValue(NatString(-n)));
    } else {
      assert s == NatString(n) && IsDigit(s[0]);
      NatStringRoundTrip(n);
      assert IntValue(s) == Some(DigitsValue(NatString(n)));
    }
  }

  // ---------------------------------------------------------------- toFixed(2)

  /** `(pence / 100).toFixed(2)` for an exact amount in pence: sign, whole
      pounds, a point and exactly two digits of pence. */
  function Fixed2(pence: int): string {
    if pence < 0 then "-" + Fixed2Body(-pence) else Fixed2Body(pence)
  }

  /** The unsigned part of `Fixed2`: whole pounds, a point and two digits. */
  function Fixed2Body(a: nat): string {
    NatString(a / 100) + "." + [DigitChar(a % 100 / 10), DigitChar(a % 10)]
  }

  /** Reads back an amount printed with two decimals, in pence; `None` for any
      other text. */
  function Fixed2Value(s: string): Option<int> {
    var negative := |s| > 0 && s[0] == '-';
    var body := if negative then s[1..] else s;
    if |body| >= 4 && body[|body| - 3] == '.' && IsDigits(body[..|body| - 3]) && IsDigits(body[|body| - 2..]) then
      var v := DigitsValue(body[..|body| - 3]) * 100 + DigitsValue(body[|body| - 2..]);
      Some(if negative then -v else v)
    else None
  }

  /** Two digit characters read back as the two-digit number they spell. */
  lemma TwoDigits(t: nat, u: nat)
    requires t < 10 && u < 10
    ensures IsDigits([DigitChar(t), DigitChar(u)])
    ensures DigitsValue([DigitChar(t), DigitChar(u)]) == t * 10 + u
  {
    var s := [DigitChar(t), DigitChar(u)];
    assert s[..1] == [DigitChar(t)];
    assert s[..1][..0] == [];
    assert DigitValue(DigitChar(t)) == t && DigitValue(DigitChar(u)) == u;
    assert DigitsValue(s[..1]) == t;
  }

  /** The tens and units of `a % 100`. */
  lemma PenceSplit(a: nat)
    ensures a % 100 == (a % 100 / 10) * 10 + a % 10
  {
    var q, r := a / 100, a % 100;
    var t, u := r / 10, r % 10;
    assert a == 100 * q + r;
    assert r == 10 * t + u;
    assert a == 10 * (10 * q + t) + u;
    LastDecimal(10 * q + t, u);
  }

  /** The last decimal digit of `10 * k + u`, for a digit `u`. */
  lemma LastDecimal(k: int, u: int)
    requires 0 <= u < 10
    ensures (10 * k + u) % 10 == u
  {
  }

  /** The two printed pence digits read back as `a % 100`. */
  lemma PenceDigits(a: nat)
    ensures IsDigits([DigitChar(a % 100 / 10), DigitChar(a % 10)])
    ensures DigitsValue([DigitChar(a % 100 / 10), DigitChar(a % 10)]) == a % 100
  {
    TwoDigits(a % 100 / 10, a % 10);
    PenceSplit(a);
  }

  /** The unsigned part of `Fixed2` reads back as the magnitude. */
  lemma Fixed2BodyRoundTrip(a: nat)
    ensures var body := Fixed2Body(a);
      && |body| >= 4 && body[|body| - 3] == '.' && body[0] != '-'
      && IsDigits(body[..|body| - 3]) && IsDigits(body[|body| - 2..])
      && DigitsValue(body[..|body| - 3]) * 100 + DigitsValue(body[|body| - 2..]) == a
  {
    var whole := NatString(a / 100);
    var cents := [DigitChar(a % 100 / 10), DigitChar(a % 10)];
    var body := whole + "." + cents;
    assert body[..|body| - 3] == whole;
    assert body[|body| - 2..] == cents;
    assert body[0] == whole[0];
    NatStringRoundTrip(a / 100);
    PenceDigits(a);
  }

  /** An unsigned two-decimal text reads back as its value, and with a minus
      sign in front as the negated value. */
  lemma SignedFixed2Value(body: string, v: int)
    requires |body| >= 4 && body[|body| - 3] == '.' && body[0] != '-'
    requires IsDigits(body[..|body| - 3]) && IsDigits(body[|body| - 2..])
    requires DigitsValue(body[..|body| - 3]) * 100 + DigitsValue(body[|body| - 2..]) == v
    ensures Fixed2Value(body) == Some(v)
    ensures Fixed2Value("-" + body) == Some(-v)
  {
    var s := "-" + body;
    assert s[0] == '-' && s[1..] == body;
  }

  lemma Fixed2RoundTrip(pence: int)
    ensures Fixed2Value(Fixed2(pence)) == Some(pence)
  {
    var a := if pence < 0 then -pence else pence;
    Fixed2BodyRoundTrip(a);
    SignedFixed2Value(Fixed2Body(a), a);
  }

  /** A text printed by `toFixed(2)` from an amount reads back as it. */
  lemma PrintedReadsBack(text: string, pence: int)
    requires text == Fixed2(pence)
    ensures Fixed2Value(text) == Some(pence)
  {
    Fixed2RoundTrip(pence);
  }

  // ---------------------------------------------------------------- truthiness, join

  /** JavaScript truthiness of an optional string: present and non-empty. */
  predicate Truthy(s: Option<string>) {
    s.Some? && s.value != ""
  }

  /** `parts.join(sep)`: the parts with `sep` between each neighbouring pair. */
  function Join(parts: seq<string>, sep: string): string {
    if parts == [] then ""
    else if |parts| == 1 then parts[0]
    else parts[0] + sep + Join(parts[1..], sep)
  }

  /** Appending a part adds one separator and the part at the end, which
      makes the separator count one less than the part count. */
  lemma {:induction false} JoinAppend(parts: seq<string>, sep: string, last: string)
    requires parts != []
    ensures Join(parts + [last], sep) == Join(parts, sep) + sep + last
  {
    if |parts| == 1 {
      assert parts + [last] == [parts[0], last];
      assert [parts[0], last][1..] == [last];
    } else {
      assert (parts + [last])[1..] == parts[1..] + [last];
      JoinAppend(parts[1..], sep, last);
    }
  }
}
