/** The parts of JavaScript's value semantics that the ledger code leans on:
    numbers (restricted to integers, plus NaN), the coercions `Number(x)`,
    `String(x)` and `parseInt(x)`, truthiness, and the string methods `trim`,
    `split` and `toUpperCase`. */
module Js {

  datatype Option<+T> = None | Some(value: T)

  /** A JavaScript number as this program uses it: an integer, or NaN. */
  datatype Num = Int(n: int) | NaN

  /** A dynamically typed argument, as the ledger functions receive it. */
  datatype JsVal = JNum(num: Num) | JStr(s: string) | JNull | JBool(b: bool)

  // ---------------------------------------------------------------- numbers

  /** `a + b`: NaN is contagious. */
  function Add(a: Num, b: Num): Num {
    if a.Int? && b.Int? then Int(a.n + b.n) else NaN
  }

  /** `a - b`. */
  function Sub(a: Num, b: Num): Num {
    if a.Int? && b.Int? then Int(a.n - b.n) else NaN
  }

  /** `a * b`. */
  function Mul(a: Num, b: Num): Num {
    if a.Int? && b.Int? then Int(a.n * b.n) else NaN
  }

  /** `a < b`: every comparison with NaN is false. */
  predicate Less(a: Num, b: Num) {
    a.Int? && b.Int? && a.n < b.n
  }

  /** The number a `parseInt` outcome denotes. */
  function OfParse(o: Option<int>): Num {
    if o.Some? then Int(o.value) else NaN
  }

  /** `if (v)`: the falsy values are 0, NaN, "", null and false. */
  predicate Truthy(v: JsVal) {
    match v
    case JNum(x) => x.Int? && x.n != 0
    case JStr(s) => |s| > 0
    case JNull => false
    case JBool(b) => b
  }

  // ------------------------------------------------------------- characters

  /** The characters `String.prototype.trim` and `parseInt` skip: the
      WhiteSpace and LineTerminator code points of ECMAScript. */
  predicate IsWhitespace(c: char) {
    c == '\t' || c == '\n' || c == '\U{000B}' || c == '\U{000C}' || c == '\r' || c == ' '
    || c == '\U{00A0}' || c == '\U{1680}' || ('\U{2000}' <= c <= '\U{200A}')
    || c == '\U{2028}' || c == '\U{2029}' || c == '\U{202F}' || c == '\U{205F}'
    || c == '\U{3000}' || c == '\U{FEFF}'
  }

  /** The value of `c` as a digit in radices up to 36; 36 for a non-digit. */
  function DigitValue(c: char): (d: nat)
    ensures d <= 36
  {
    if '0' <= c <= '9' then c as int - '0' as int
    else if 'a' <= c <= 'z' then c as int - 'a' as int + 10
    else if 'A' <= c <= 'Z' then c as int - 'A' as int + 10
    else 36
  }

  predicate IsDigit(c: char, radix: nat) {
    DigitValue(c) < radix
  }

  /** `toUpperCase` on one character (ASCII letters only). */
  function UpperChar(c: char): char {
    if 'a' <= c <= 'z' then (c as int - 32) as char else c
  }

  // ---------------------------------------------------------------- strings

  predicate StartsWith(s: string, prefix: string) {
    |prefix| <= |s| && s[..|prefix|] == prefix
  }

  /** Leading whitespace removed. */
  function TrimStart(s: string): (r: string)
    ensures |r| <= |s| && r == s[|s| - |r|..]
    ensures r == [] || !IsWhitespace(r[0])
    ensures forall i :: 0 <= i < |s| - |r| ==> IsWhitespace(s[i])
  {
    if |s| > 0 && IsWhitespace(s[0]) then TrimStart(s[1..]) else s
  }

  /** Trailing whitespace removed. */
  function TrimEnd(s: string): (r: string)
    ensures |r| <= |s| && r == s[..|r|]
    ensures r == [] || !IsWhitespace(r[|r| - 1])
    ensures forall i :: |r| <= i < |s| ==> IsWhitespace(s[i])
  {
    if |s| > 0 && IsWhitespace(s[|s| - 1]) then TrimEnd(s[..|s| - 1]) else s
  }

  /** `s.trim()`. */
  function Trim(s: string): string {
    TrimEnd(TrimStart(s))
  }

  /** `s.toUpperCase()`, restricted to ASCII letters. */
  function ToUpper(s: string): (r: string)
    ensures |r| == |s|
    ensures forall i :: 0 <= i < |s| ==> r[i] == UpperChar(s[i])
  {
    if s == [] then [] else [UpperChar(s[0])] + ToUpper(s[1..])
  }

  /** `toLowerCase` on one character (ASCII letters only). */
  function LowerChar(c: char): char {
    if 'A' <= c <= 'Z' then (c as int + 32) as char else c
  }

  /** `s.toLowerCase()`, restricted to ASCII letters. */
  function ToLower(s: string): (r: string)
    ensures |r| == |s|
    ensures forall i :: 0 <= i < |s| ==> r[i] == LowerChar(s[i])
  {
    if s == [] then [] else [LowerChar(s[0])] + ToLower(s[1..])
  }

  /** The inverse of `Split`: the parts glued together with `sep`. */
  function Join(parts: seq<string>, sep: char): string
    requires |parts| >= 1
  {
    if |parts| == 1 then parts[0] else parts[0] + [sep] + Join(parts[1..], sep)
  }

  /** `s.split(sep)` for a one-character separator: never empty, no part
      contains the separator, and gluing the parts back gives `s`. */
  function Split(s: string, sep: char): (parts: seq<string>)
    ensures |parts| >= 1
    ensures forall i :: 0 <= i < |parts| ==> sep !in parts[i]
    ensures Join(parts, sep) == s
  {
    if s == [] then [""]
    else
      var rest := Split(s[1..], sep);
      if s[0] == sep then
        assert ([""] + rest)[1..] == rest;
        [""] + rest
      else
        var parts := [[s[0]] + rest[0]] + rest[1..];
        assert |rest| > 1 ==> parts[1..] == rest[1..];
        parts
  }

  // ---------------------------------------------------------------- parseInt

  /** The longest prefix of `s` made of digits of the given radix. */
  function DigitPrefix(s: string, radix: nat): (d: string)
    ensures |d| <= |s| && d == s[..|d|]
    ensures forall i :: 0 <= i < |d| ==> IsDigit(d[i], radix)
    ensures |d| == |s| || !IsDigit(s[|d|], radix)
  {
    if s != [] && IsDigit(s[0], radix) then [s[0]] + DigitPrefix(s[1..], radix) else []
  }

  /** The value of a digit string, most significant digit first. */
  function DigitsValue(d: string, radix: nat): nat {
    if d == [] then 0 else DigitsValue(d[..|d| - 1], radix) * radix + DigitValue(d[|d| - 1])
  }

  /** `parseInt(s)` with no radix: skip leading whitespace, take an optional
      sign, then the digits `ParseUnsigned` reads; NaN (`None`) when there
      are none. */
  function ParseInt(s: string): Option<int> {
    var t := TrimStart(s);
    if t != [] && t[0] == '-' then
      OfSigned(ParseUnsigned(t[1..]))
    else if t != [] && t[0] == '+' then ParseUnsigned(t[1..])
    else ParseUnsigned(t)
  }

  /** The negated value of the digits after a `-`. */
  function OfSigned(u: Option<nat>): Option<int> {
    if u.Some? then Some(-(u.value as int)) else None
  }

  /** After the sign: an optional `0x`/`0X` prefix selects radix 16, then the
      longest run of digits is read; `None` when that run is empty. */
  function ParseUnsigned(body: string): Option<nat> {
    var hex := |body| >= 2 && body[0] == '0' && (body[1] == 'x' || body[1] == 'X');
    var radix := if hex then 16 else 10;
    var digits := DigitPrefix(if hex then body[2..] else body, radix);
    if digits == [] then None else Some(DigitsValue(digits, radix))
  }

  // --------------------------------------------------------- number to text

  function DigitChar(d: nat): char
    requires d < 10
  {
    ('0' as int + d) as char
  }

  /** Decimal text of a natural number, without leading zeros. */
  function NatToString(n: nat): (s: string)
    ensures s != [] && forall i :: 0 <= i < |s| ==> '0' <= s[i] <= '9'
    ensures (s[0] == '0') == (n == 0) && (n == 0 ==> s == "0")
    ensures DigitsValue(s, 10) == n
  {
    if n < 10 then [DigitChar(n)]
    else
      var s := NatToString(n / 10) + [DigitChar(n % 10)];
      assert s[..|s| - 1] == NatToString(n / 10);
      s
  }

  /** `String(i)` for an integer. */
  function IntToString(i: int): string {
    if i < 0 then "-" + NatToString(-i) else NatToString(i)
  }

  /** `String(x)` for a number. */
  function NumToString(x: Num): string {
    if x.Int? then IntToString(x.n) else "NaN"
  }

  /** `String(v)`, the text a template literal `${v}` inserts. */
  function ToString(v: JsVal): string {
    match v
    case JNum(x) => NumToString(x)
    case JStr(s) => s
    case JNull => "null"
    case JBool(b) => if b then "true" else "false"
  }

  /** `parseInt(v)` of any value: `parseInt` first converts `v` to text. */
  function ParseIntVal(v: JsVal): Num {
    OfParse(ParseInt(ToString(v)))
  }

  // ------------------------------------------------------------ Number(x)

  predicate AllDigits(s: string, radix: nat) {
    forall i :: 0 <= i < |s| ==> IsDigit(s[i], radix)
  }

  /** `Number(s)` for the integer literals: surrounding whitespace ignored,
      the empty text is 0, a signed decimal literal or an unsigned
      `0x`/`0o`/`0b` literal gives its value, anything else NaN. */
  function StringToNumber(s: string): Num {
    var t := Trim(s);
    if t == [] then Int(0)
    else if HasRadixPrefix(t) then RadixLiteral(t)
    else DecimalLiteralValue(t)
  }

  predicate HasRadixPrefix(t: string) {
    |t| >= 2 && t[0] == '0' && t[1] in "xXoObB"
  }

  /** A `0x`/`0o`/`0b` literal. */
  function RadixLiteral(t: string): Num
    requires HasRadixPrefix(t)
  {
    var radix := if t[1] in "xX" then 16 else if t[1] in "oO" then 8 else 2;
    if |t| > 2 && AllDigits(t[2..], radix) then Int(DigitsValue(t[2..], radix)) else NaN
  }

  /** An optionally signed decimal literal. */
  function DecimalLiteralValue(t: string): Num
    requires t != []
  {
    var body := if t[0] == '-' || t[0] == '+' then t[1..] else t;
    if body != [] && AllDigits(body, 10) then
      Int(if t[0] == '-' then -(DigitsValue(body, 10) as int) else DigitsValue(body, 10))
    else NaN
  }

  /** `Number(v)`, the coercion behind `isNaN(v)` and arithmetic on `v`. */
  function ToNumber(v: JsVal): Num {
    match v
    case JNum(x) => x
    case JStr(s) => StringToNumber(s)
    case JNull => Int(0)
    case JBool(b) => if b then Int(1) else Int(0)
  }

  /** `parseInt(x)` applied to a number, as the ledger methods call it. */
  method ParseIntNumber(x: Num) returns (r: Num)
    ensures r == x
  {
    r := ParseIntVal(JNum(x));
    ParseIntOfNumber(x);
  }

  // ------------------------------------------------------------ array index

  /** The array slot a property name denotes: a name is an array index when
      it is the decimal text of a number below 2^32 - 1, with no sign and no
      leading zero; `a[name]` reads that slot. */
  function ArrayIndex(name: string): (r: Option<nat>)
    ensures r.Some? ==> r.value < 0xFFFF_FFFF && NatToString(r.value) == name
  {
    if name != [] && AllDigits(name, 10) && (name == "0" || name[0] != '0') && DigitsValue(name, 10) < 0xFFFF_FFFF then
      CanonicalDigits(name);
      Some(DigitsValue(name, 10))
    else None
  }

  /** The decimal text of every number below 2^32 - 1 names its slot. */
  lemma ArrayIndexOfNumber(n: nat)
    requires n < 0xFFFF_FFFF
    ensures ArrayIndex(NatToString(n)) == Some(n)
  {
    var s := NatToString(n);
    assert AllDigits(s, 10);
  }

  /** Digits without a leading zero are the text of their value. */
  lemma {:induction false} CanonicalDigits(s: string)
    requires s != [] && AllDigits(s, 10) && (s == "0" || s[0] != '0')
    ensures NatToString(DigitsValue(s, 10)) == s
  {
    var n := DigitsValue(s, 10);
    var c := s[|s| - 1];
    assert '0' <= c <= '9' by { assert IsDigit(c, 10); }
    if |s| == 1 {
      assert DigitsValue(s[..0], 10) == 0;
      assert [DigitChar(n)] == s;
    } else {
      var p := s[..|s| - 1];
      assert p[0] == s[0] && AllDigits(p, 10);
      assert p != "0" by { assert s[0] != '0'; }
      CanonicalDigits(p);
      LeadingDigitPositive(p);
      assert n / 10 == DigitsValue(p, 10) && n % 10 == DigitValue(c);
      assert NatToString(n) == NatToString(n / 10) + [DigitChar(n % 10)];
    }
  }

  /** Digits starting with a non-zero digit have a positive value. */
  lemma {:induction false} LeadingDigitPositive(s: string)
    requires s != [] && AllDigits(s, 10) && s[0] != '0'
    ensures DigitsValue(s, 10) >= 1
  {
    if |s| == 1 {
      assert IsDigit(s[0], 10);
    } else {
      var p := s[..|s| - 1];
      assert p[0] == s[0] && AllDigits(p, 10);
      LeadingDigitPositive(p);
    }
  }

  // ----------------------------------------------------------------- lemmas

  /** Splitting at the first separator peels off the text before it. */
  lemma {:induction false} SplitAtFirst(a: string, sep: char, b: string)
    requires sep !in a
    ensures Split(a + [sep] + b, sep) == [a] + Split(b, sep)
  {
    if a == [] {
      assert a + [sep] + b == [sep] + b;
      assert ([sep] + b)[1..] == b;
    } else {
      assert (a + [sep] + b)[1..] == a[1..] + [sep] + b;
      SplitAtFirst(a[1..], sep, b);
      assert [a[0]] + a[1..] == a;
    }
  }

  /** Text free of the separator splits into itself alone. */
  lemma {:induction false} SplitNoSeparator(a: string, sep: char)
    requires sep !in a
    ensures Split(a, sep) == [a]
  {
    if a != [] {
      SplitNoSeparator(a[1..], sep);
      assert [a[0]] + a[1..] == a;
    }
  }

  /** `Split` undoes `Join` when no part contains the separator. */
  lemma {:induction false} SplitJoin(parts: seq<string>, sep: char)
    requires |parts| >= 1
    requires forall i :: 0 <= i < |parts| ==> sep !in parts[i]
    ensures Split(Join(parts, sep), sep) == parts
  {
    if |parts| == 1 {
      SplitNoSeparator(parts[0], sep);
    } else {
      SplitJoin(parts[1..], sep);
      SplitAtFirst(parts[0], sep, Join(parts[1..], sep));
      assert [parts[0]] + parts[1..] == parts;
    }
  }

  /** Joining one more part adds a separator and the part. */
  lemma {:induction false} JoinAppend(parts: seq<string>, last: string)
    requires |parts| >= 1
    ensures Join(parts + [last], ' ') == Join(parts, ' ') + " " + last
    decreases |parts|
  {
    if |parts| == 1 {
      assert (parts + [last])[1..] == [last];
    } else {
      assert (parts + [last])[1..] == parts[1..] + [last];
      JoinAppend(parts[1..], last);
    }
  }

  lemma JoinThree(x: string, y: string, z: string)
    ensures Join([x, y, z], ' ') == x + " " + y + " " + z
  {
    JoinAppend([x], y);
    JoinAppend([x, y], z);
    assert [x] + [y] == [x, y] && [x, y] + [z] == [x, y, z];
  }

  /** Upper-casing twice is upper-casing once. */
  lemma ToUpperIdempotent(s: string)
    ensures ToUpper(ToUpper(s)) == ToUpper(s)
  {
  }

  /** A trimmed non-empty text starts and ends with a non-blank. */
  lemma TrimmedEnds(s: string)
    requires s != [] && Trim(s) == s
    ensures !IsWhitespace(s[0]) && !IsWhitespace(s[|s| - 1])
  {
    var t := TrimStart(s);
    assert |TrimEnd(t)| <= |t| <= |s|;
    assert t == s;
  }

  /** Text that starts and ends with non-whitespace is its own trim. */
  lemma TrimIdentity(s: string)
    requires s == [] || (!IsWhitespace(s[0]) && !IsWhitespace(s[|s| - 1]))
    ensures Trim(s) == s
  {
  }

  /** Text that does not start with whitespace is its own `trimStart`. */
  lemma TrimStartNone(s: string)
    requires s == [] || !IsWhitespace(s[0])
    ensures TrimStart(s) == s
  {
  }

  /** Text that does not end with whitespace is its own `trimEnd`. */
  lemma TrimEndNone(s: string)
    requires s == [] || !IsWhitespace(s[|s| - 1])
    ensures TrimEnd(s) == s
  {
  }

  /** A digit string is its own longest digit prefix. */
  lemma {:induction false} DigitPrefixAll(s: string, radix: nat)
    requires AllDigits(s, radix)
    ensures DigitPrefix(s, radix) == s
  {
    if s != [] {
      DigitPrefixAll(s[1..], radix);
      assert [s[0]] + s[1..] == s;
    }
  }

  /** `parseInt(String(i)) === i`: printing an integer and parsing it back is
      the identity. */
  lemma ParseIntToString(i: int)
    ensures ParseInt(IntToString(i)) == Some(i)
  {
    var digits := NatToString(if i < 0 then -i else i);
    ParseUnsignedOfDigits(digits);
    var s := IntToString(i);
    if i < 0 {
      ParseIntNegative(s, digits);
    } else {
      ParseIntPlain(s);
    }
  }

  lemma ParseIntNegative(s: string, digits: string)
    requires s != [] && s[0] == '-' && s[1..] == digits && ParseUnsigned(digits).Some?
    ensures ParseInt(s) == Some(-(ParseUnsigned(digits).value as int))
  {
    assert !IsWhitespace(s[0]);
  }

  lemma ParseIntPlain(s: string)
    requires s != [] && '0' <= s[0] <= '9'
    ensures ParseInt(s) == ParseUnsigned(s)
  {
    assert !IsWhitespace(s[0]);
  }

  /** Decimal digits with no `0x` prefix are read whole. */
  lemma ParseUnsignedOfDigits(digits: string)
    requires digits != [] && AllDigits(digits, 10)
    ensures ParseUnsigned(digits) == Some(DigitsValue(digits, 10))
  {
    DigitPrefixAll(digits, 10);
    assert |digits| >= 2 ==> IsDigit(digits[1], 10);
  }

  /** `parseInt` of a number gives the number back (NaN stays NaN). */
  lemma ParseIntOfNumber(x: Num)
    ensures ParseIntVal(JNum(x)) == x
  {
    if x.Int? {
      ParseIntToString(x.n);
    } else {
      var s := ToString(JNum(x));
      assert s == "NaN" && s[0] == 'N' && !IsWhitespace(s[0]);
      assert DigitPrefix(s, 10) == [];
    }
  }

  /** Upper-casing changes no character that `parseInt` or `trim` looks at
      differently: digits keep their value, `0x` stays a hex prefix. */
  lemma ParseIntUpper(s: string)
    ensures ParseInt(ToUpper(s)) == ParseInt(s)
  {
    TrimStartUpper(s);
    var t := TrimStart(s);
    var u := ToUpper(t);
    assert TrimStart(ToUpper(s)) == u;
    if t == [] {
      ParseUnsignedUpper(t);
    } else {
      UpperCharKeeps(t[0]);
      assert u[1..] == ToUpper(t[1..]);
      ParseUnsignedUpper(t[1..]);
      ParseUnsignedUpper(t);
      if t[0] == '-' {
        assert ParseInt(ToUpper(s)) == OfSigned(ParseUnsigned(u[1..]));
      } else if t[0] == '+' {
        assert ParseInt(ToUpper(s)) == ParseUnsigned(u[1..]);
      } else {
        assert ParseInt(ToUpper(s)) == ParseUnsigned(u);
      }
    }
  }

  lemma ParseUnsignedUpper(body: string)
    ensures ParseUnsigned(ToUpper(body)) == ParseUnsigned(body)
  {
    var b := ToUpper(body);
    var hex := |body| >= 2 && body[0] == '0' && (body[1] == 'x' || body[1] == 'X');
    if |body| >= 2 {
      UpperCharKeeps(body[0]);
      UpperCharKeeps(body[1]);
    }
    assert hex == (|b| >= 2 && b[0] == '0' && (b[1] == 'x' || b[1] == 'X'));
    var rest := if hex then body[2..] else body;
    var radix := if hex then 16 else 10;
    assert (if hex then b[2..] else b) == ToUpper(rest);
    DigitPrefixUpper(rest, radix);
    DigitsValueUpper(DigitPrefix(rest, radix), radix);
  }

  /** What upper-casing leaves alone in one character. */
  lemma UpperCharKeeps(c: char)
    ensures IsWhitespace(UpperChar(c)) == IsWhitespace(c)
    ensures DigitValue(UpperChar(c)) == DigitValue(c)
    ensures (UpperChar(c) == '0') == (c == '0')
    ensures (UpperChar(c) == '-') == (c == '-')
    ensures (UpperChar(c) == '+') == (c == '+')
    ensures (UpperChar(c) == 'x' || UpperChar(c) == 'X') == (c == 'x' || c == 'X')
  {
  }

  lemma {:induction false} TrimStartUpper(s: string)
    ensures TrimStart(ToUpper(s)) == ToUpper(TrimStart(s))
  {
    if s != [] {
      UpperCharKeeps(s[0]);
      assert ToUpper(s)[1..] == ToUpper(s[1..]);
      TrimStartUpper(s[1..]);
    }
  }

  lemma {:induction false} DigitPrefixUpper(s: string, radix: nat)
    ensures DigitPrefix(ToUpper(s), radix) == ToUpper(DigitPrefix(s, radix))
  {
    if s != [] {
      assert ToUpper(s)[1..] == ToUpper(s[1..]);
      DigitPrefixUpper(s[1..], radix);
    }
  }

  lemma {:induction false} DigitsValueUpper(d: string, radix: nat)
    ensures DigitsValue(ToUpper(d), radix) == DigitsValue(d, radix)
  {
    if d != [] {
      assert ToUpper(d)[..|d| - 1] == ToUpper(d[..|d| - 1]);
      DigitsValueUpper(d[..|d| - 1], radix);
    }
  }

  /** `Number(String(n))` is `n` for a natural number. */
  lemma NatToStringNumber(n: nat)
    ensures ToNumber(JStr(NatToString(n))) == Int(n)
  {
    var s := NatToString(n);
    assert '0' <= s[0] <= '9' && '0' <= s[|s| - 1] <= '9';
    TrimIdentity(s);
    DecimalLiteral(s);
  }

  /** Trimmed decimal digits with no leading zero are read as their value. */
  lemma DecimalLiteral(t: string)
    requires t != [] && Trim(t) == t && AllDigits(t, 10) && (|t| == 1 || t[0] != '0')
    ensures StringToNumber(t) == Int(DigitsValue(t, 10))
  {
    assert !HasRadixPrefix(t);
    assert t[0] != '-' && t[0] != '+' by {
      assert IsDigit(t[0], 10);
    }
  }

  /** Trimmed text that starts with a decimal digit (and no radix prefix)
      but holds a non-digit is not a number. */
  lemma NotDecimalLiteral(t: string, k: nat)
    requires t != [] && Trim(t) == t && '0' <= t[0] <= '9'
    requires |t| >= 2 ==> t[1] !in "xXoObB"
    requires k < |t| && !IsDigit(t[k], 10)
    ensures StringToNumber(t) == NaN
  {
    assert !HasRadixPrefix(t);
    assert !AllDigits(t, 10);
  }

  /** Digits followed by ` # ` and a note are not a number literal. */
  lemma DigitsThenCommentIsNaN(digits: string, note: string)
    requires digits != [] && forall i :: 0 <= i < |digits| ==> '0' <= digits[i] <= '9'
    ensures StringToNumber(digits + " # " + note) == NaN
  {
    var s := digits + " # " + note;
    var k := |digits| + 1;
    assert s[0] == digits[0] && s[k] == '#';
    assert |digits| >= 2 ==> s[1] == digits[1];
    assert |digits| == 1 ==> s[1] == ' ';
    TrimKeepsPrefix(s, k);
    var t := Trim(s);
    assert t[0] == s[0] && t[1] == s[1] && t[k] == s[k];
    NotDecimalLiteral(t, k);
  }

  /** Trimming a text that starts with a non-blank keeps everything up to
      its last non-blank. */
  lemma TrimKeepsPrefix(s: string, k: nat)
    requires k < |s| && !IsWhitespace(s[0]) && !IsWhitespace(s[k])
    ensures k < |Trim(s)| && Trim(s)[..k + 1] == s[..k + 1]
    ensures Trim(Trim(s)) == Trim(s)
  {
    assert TrimStart(s) == s;
    var t := TrimEnd(s);
    assert k < |t|;
    assert t[0] == s[0];
    TrimIdentity(t);
  }
}
