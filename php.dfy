// PHP value semantics that the extraction code relies on: values decoded
// from JSON, truthiness (`if (!$x)`, `empty()`), the `(string)` and `(int)`
// casts, array access on decoded JSON, `implode`, `rtrim` and `urlencode`.
// Strings are Dafny strings; a character outside ASCII stands for its UTF-8
// encoding, which is what PHP holds in its byte strings.
module Php {

  datatype Option<+T> = None | Some(value: T) {
    function GetOr(default: T): T {
      match this
      case Some(v) => v
      case None => default
    }
  }

  /** A value as PHP holds it after decoding JSON: objects and lists are both arrays. */
  datatype Json =
    | JNull
    | JBool(b: bool)
    | JInt(i: int)
    | JStr(s: string)
    | JList(items: seq<Json>)
    | JObject(fields: map<string, Json>)

  /** `(bool) $s` for a string: only '' and '0' are falsy. */
  predicate StringTruthy(s: string) {
    s != "" && s != "0"
  }

  /** `(bool) $v`, equivalently `!empty($v)` for a value that is set. */
  predicate Truthy(v: Json) {
    match v
    case JNull => false
    case JBool(b) => b
    case JInt(i) => i != 0
    case JStr(s) => StringTruthy(s)
    case JList(xs) => xs != []
    case JObject(m) => m != map[]
  }

  /** A value that passes a PHP `array` parameter type. */
  predicate IsArray(v: Json) {
    v.JList? || v.JObject?
  }

  /** `$m[$key] ?? null` on a string-valued array. */
  function Get(m: map<string, string>, key: string): (r: Option<string>)
    ensures r.Some? <==> key in m
    ensures key in m ==> r.value == m[key]
  {
    if key in m then Some(m[key]) else None
  }

  /** A config entry that `empty()` considers set. */
  predicate Filled(v: Option<string>) {
    v.Some? && StringTruthy(v.value)
  }

  // ---------------------------------------------------------------------
  // Decimal integers: string interpolation of an int and the `(int)` cast.

  predicate IsDigit(c: char) {
    '0' <= c <= '9'
  }

  predicate AllDigits(s: string) {
    forall i :: 0 <= i < |s| ==> IsDigit(s[i])
  }

  function DigitChar(d: nat): (c: char)
    requires d < 10
    ensures IsDigit(c)
  {
    ('0' as int + d) as char
  }

  function DigitValue(c: char): (d: nat)
    requires IsDigit(c)
    ensures d < 10 && DigitChar(d) == c
  {
    c as int - '0' as int
  }

  /** The decimal digits of `n`, most significant first, without leading zeros. */
  function NatToString(n: nat): (s: string)
    ensures |s| >= 1 && AllDigits(s)
    ensures s[0] == '0' ==> n == 0
  {
    if n < 10 then [DigitChar(n)] else NatToString(n / 10) + [DigitChar(n % 10)]
  }

  /** `"{$n}"` for an int: an optional minus sign, then the digits. */
  function IntToString(n: int): (s: string)
    ensures |s| >= 1 && (s[0] == '-' || IsDigit(s[0]))
    ensures n >= 0 <==> IsDigit(s[0])
  {
    if n < 0 then "-" + NatToString(-n) else NatToString(n)
  }

  /** The value of a string of decimal digits. */
  function DigitsValue(s: string): nat
    requires AllDigits(s)
  {
    if s == [] then 0 else 10 * DigitsValue(s[..|s| - 1]) + DigitValue(s[|s| - 1])
  }

  /** The longest prefix of `s` made of decimal digits. */
  function LeadingDigits(s: string): (d: string)
    ensures d <= s && AllDigits(d)
    ensures |d| < |s| ==> !IsDigit(s[|d|])
  {
    if s != [] && IsDigit(s[0]) then [s[0]] + LeadingDigits(s[1..]) else []
  }

  /** The characters PHP skips before a numeric string: space, \t, \n, \r, \v, \f. */
  predicate IsWhitespace(c: char) {
    c == ' ' || c == '\t' || c == '\n' || c == '\r' || c == 11 as char || c == 12 as char
  }

  function SkipWhitespace(s: string): (t: string)
    ensures |t| <= |s| && t == s[|s| - |t|..]
    ensures t != [] ==> !IsWhitespace(t[0])
  {
    if s != [] && IsWhitespace(s[0]) then SkipWhitespace(s[1..]) else s
  }

  /** `(int) $s`: leading whitespace, an optional sign, then the longest run of
      digits; a string with no leading digits is 0. */
  function IntCast(s: string): (n: int)
    ensures AllDigits(s) ==> n == DigitsValue(s)
    ensures s != [] && s[0] == '-' && AllDigits(s[1..]) ==> n == -(DigitsValue(s[1..]) as int)
    ensures s == [] || (!IsWhitespace(s[0]) && !IsDigit(s[0]) && s[0] != '-' && s[0] != '+') ==> n == 0
  {
    var t := SkipWhitespace(s);
    if t != [] && (t[0] == '-' || t[0] == '+') then
      LeadingDigitsOfDigits(t[1..]);
      var v: int := DigitsValue(LeadingDigits(t[1..]));
      if t[0] == '-' then -v else v
    else
      LeadingDigitsOfDigits(t);
      DigitsValue(LeadingDigits(t))
  }

  lemma {:induction false} LeadingDigitsOfDigits(s: string)
    ensures AllDigits(s) ==> LeadingDigits(s) == s
  {
    if s != [] {
      LeadingDigitsOfDigits(s[1..]);
    }
  }

  lemma {:induction false} DigitsValueOfNatToString(n: nat)
    ensures DigitsValue(NatToString(n)) == n
  {
    if n >= 10 {
      var s := NatToString(n);
      assert s[..|s| - 1] == NatToString(n / 10);
      DigitsValueOfNatToString(n / 10);
    }
  }

  /** Casting the decimal rendering of an int back with `(int)` gives the int. */
  lemma IntCastOfIntToString(n: int)
    ensures IntCast(IntToString(n)) == n
  {
    var s := IntToString(n);
    assert !IsWhitespace(s[0]);
    assert SkipWhitespace(s) == s;
    if n < 0 {
      var d := NatToString(-n);
      assert s == "-" + d && s[1..] == d;
      LeadingDigitsOfDigits(d);
      DigitsValueOfNatToString(-n);
      assert IntCast(s) == -(DigitsValue(d) as int);
    } else {
      LeadingDigitsOfDigits(s);
      DigitsValueOfNatToString(n);
      assert s[0] != '-' && s[0] != '+';
    }
  }

  /** The rendering of a non-zero int is never the falsy string '0'. */
  lemma IntToStringTruthy(n: int)
    requires n != 0
    ensures StringTruthy(IntToString(n))
  {
    IntCastOfIntToString(n);
  }

  /** `(string) $v`: null and false are '', true is '1', an array is 'Array'. */
  function ToStr(v: Json): (s: string)
    ensures v.JStr? ==> s == v.s
    ensures v.JInt? ==> IntCast(s) == v.i
    ensures v.JNull? ==> s == ""
  {
    match v
    case JNull => ""
    case JBool(b) => if b then "1" else ""
    case JInt(i) => IntCastOfIntToString(i); IntToString(i)
    case JStr(s) => s
    case JList(_) => "Array"
    case JObject(_) => "Array"
  }

  // ---------------------------------------------------------------------
  // Array access on decoded JSON.

  /** The list index a string key denotes: PHP turns a key that is the
      canonical decimal rendering of an int into that int. */
  function CanonicalIndex(key: string): (k: Option<nat>)
    ensures k.Some? ==> IntToString(k.value) == key
  {
    var n := IntCast(key);
    if n >= 0 && IntToString(n) == key then Some(n) else None
  }

  /** `$v[$key]` on an array decoded from JSON, None when `$v` is not an
      array or has no such key. */
  function Lookup(v: Json, key: string): (r: Option<Json>)
    ensures !IsArray(v) ==> r == None
    ensures v.JObject? ==> (r.Some? <==> key in v.fields)
    ensures v.JObject? && key in v.fields ==> r == Some(v.fields[key])
  {
    match v
    case JObject(m) => if key in m then Some(m[key]) else None
    case JList(xs) =>
      (match CanonicalIndex(key)
       case Some(i) => if i < |xs| then Some(xs[i]) else None
       case None => None)
    case _ => None
  }

  /** A list element is reached through the decimal rendering of its index. */
  lemma LookupListIndex(xs: seq<Json>, i: nat)
    requires i < |xs|
    ensures Lookup(JList(xs), IntToString(i)) == Some(xs[i])
  {
    var key := IntToString(i);
    IntCastOfIntToString(i);
    assert CanonicalIndex(key) == Some(i);
  }

  /** `isset($v[$key])`: the key is there and its value is not null. */
  function IssetValue(v: Json, key: string): (r: Option<Json>)
    ensures r.Some? <==> Lookup(v, key).Some? && Lookup(v, key).value != JNull
    ensures r.Some? ==> r == Lookup(v, key)
  {
    match Lookup(v, key)
    case Some(x) => if x == JNull then None else Some(x)
    case None => None
  }

  // ---------------------------------------------------------------------
  // String building.

  /** The summed lengths of the parts. */
  function TotalLength(parts: seq<string>): nat {
    if parts == [] then 0 else |parts[0]| + TotalLength(parts[1..])
  }

  /** `implode($sep, $parts)`: every part once, in order, with one separator
      between neighbours: it starts with the first part, the separator
      follows it when there is more than one, and it ends with the last part. */
  function Join(parts: seq<string>, sep: string): (s: string)
    ensures parts == [] ==> s == ""
    ensures parts != [] ==> |s| == TotalLength(parts) + (|parts| - 1) * |sep|
    ensures parts != [] ==> parts[0] <= s
    ensures |parts| > 1 ==> s[|parts[0]|..|parts[0]| + |sep|] == sep
    ensures parts != [] ==> |parts[|parts| - 1]| <= |s| && s[|s| - |parts[|parts| - 1]|..] == parts[|parts| - 1]
  {
    if parts == [] then ""
    else if |parts| == 1 then parts[0]
    else
      var rest := Join(parts[1..], sep);
      var s := parts[0] + sep + rest;
      assert (|parts| - 1) * |sep| == |sep| + (|parts| - 2) * |sep|;
      assert parts[|parts| - 1] == parts[1..][|parts[1..]| - 1];
      assert s[|s| - |rest|..] == rest;
      s
  }

  /** Joining more than one part: the first part, the separator, then the rest joined. */
  lemma JoinCons(parts: seq<string>, sep: string)
    requires |parts| > 1
    ensures Join(parts, sep) == parts[0] + sep + Join(parts[1..], sep)
  {
  }

  /** `rtrim($s, $c)`: the longest prefix of `s` after which only `c` follows. */
  function RTrim(s: string, c: char): (r: string)
    ensures r <= s
    ensures r == [] || r[|r| - 1] != c
    ensures forall i :: |r| <= i < |s| ==> s[i] == c
  {
    if s != [] && s[|s| - 1] == c then RTrim(s[..|s| - 1], c) else s
  }

  /** The bytes of the UTF-8 encoding of a character. */
  function Utf8(c: char): (bytes: seq<nat>)
    ensures 1 <= |bytes| <= 4
    ensures forall i :: 0 <= i < |bytes| ==> bytes[i] < 256
    ensures (c as int < 128) <==> (bytes == [c as int])
  {
    var n := c as int;
    if n < 0x80 then [n]
    else if n < 0x800 then [0xC0 + n / 0x40, 0x80 + n % 0x40]
    else if n < 0x1_0000 then [0xE0 + n / 0x1000, 0x80 + (n / 0x40) % 0x40, 0x80 + n % 0x40]
    else [0xF0 + n / 0x4_0000, 0x80 + (n / 0x1000) % 0x40, 0x80 + (n / 0x40) % 0x40, 0x80 + n % 0x40]
  }

  /** The characters `urlencode` leaves alone. */
  predicate Unreserved(c: char) {
    ('a' <= c <= 'z') || ('A' <= c <= 'Z') || IsDigit(c) || c == '-' || c == '_' || c == '.'
  }

  predicate IsUpperHex(c: char) {
    IsDigit(c) || ('A' <= c <= 'F')
  }

  /** The characters `urlencode` can produce. */
  predicate UrlSafe(c: char) {
    Unreserved(c) || c == '+' || c == '%'
  }

  function HexDigit(d: nat): (c: char)
    requires d < 16
    ensures IsUpperHex(c)
  {
    if d < 10 then DigitChar(d) else ('A' as int + d - 10) as char
  }

  function PercentBytes(bytes: seq<nat>): (s: string)
    requires forall i :: 0 <= i < |bytes| ==> bytes[i] < 256
    ensures |s| == 3 * |bytes|
    ensures forall i :: 0 <= i < |s| ==> UrlSafe(s[i])
  {
    if bytes == [] then [] else ['%', HexDigit(bytes[0] / 16), HexDigit(bytes[0] % 16)] + PercentBytes(bytes[1..])
  }

  function EncodeChar(c: char): (s: string)
    ensures |s| >= 1 && forall i :: 0 <= i < |s| ==> UrlSafe(s[i])
  {
    if Unreserved(c) then [c] else if c == ' ' then "+" else PercentBytes(Utf8(c))
  }

  /** `urlencode($s)`: letters, digits and `-_.` stay, a space becomes '+',
      every other byte becomes '%' and two upper-case hex digits. */
  function UrlEncode(s: string): (r: string)
    ensures forall i :: 0 <= i < |r| ==> UrlSafe(r[i])
    ensures |r| >= |s|
  {
    if s == [] then [] else EncodeChar(s[0]) + UrlEncode(s[1..])
  }

  // ---------------------------------------------------------------------
  // The inverses used to read a query string back.

  predicate IsHex(c: char) {
    IsDigit(c) || ('A' <= c <= 'F') || ('a' <= c <= 'f')
  }

  function HexValue(c: char): (d: nat)
    requires IsHex(c)
    ensures d < 16
  {
    if IsDigit(c) then DigitValue(c) else if 'A' <= c <= 'F' then c as int - 'A' as int + 10 else c as int - 'a' as int + 10
  }

  lemma HexValueOfHexDigit(d: nat)
    requires d < 16
    ensures IsHex(HexDigit(d)) && HexValue(HexDigit(d)) == d
  {
  }

  predicate Ascii(s: string) {
    forall i :: 0 <= i < |s| ==> s[i] as int < 128
  }

  /** `urldecode($s)`: '+' is a space, '%' and two hex digits is that byte,
      anything else stands for itself. Bytes are read back as characters, so
      this inverts `urlencode` on ASCII text. */
  function UrlDecode(s: string): (r: string)
    ensures |r| <= |s|
  {
    if s == [] then []
    else if s[0] == '+' then " " + UrlDecode(s[1..])
    else if s[0] == '%' && |s| >= 3 && IsHex(s[1]) && IsHex(s[2]) then
      [(16 * HexValue(s[1]) + HexValue(s[2])) as char] + UrlDecode(s[3..])
    else [s[0]] + UrlDecode(s[1..])
  }

  lemma DecodeEncodeChar(c: char, rest: string)
    requires c as int < 128
    ensures UrlDecode(EncodeChar(c) + rest) == [c] + UrlDecode(rest)
  {
    if !Unreserved(c) && c != ' ' {
      var n := c as int;
      HexValueOfHexDigit(n / 16);
      HexValueOfHexDigit(n % 16);
      var e := EncodeChar(c);
      assert e == ['%', HexDigit(n / 16), HexDigit(n % 16)];
      assert (e + rest)[3..] == rest;
    } else {
      assert (EncodeChar(c) + rest)[1..] == rest;
    }
  }

  /** `urldecode` undoes `urlencode` on ASCII text. */
  lemma {:induction false} UrlDecodeEncode(s: string)
    requires Ascii(s)
    ensures UrlDecode(UrlEncode(s)) == s
  {
    if s != [] {
      DecodeEncodeChar(s[0], UrlEncode(s[1..]));
      UrlDecodeEncode(s[1..]);
    }
  }

  /** `explode($c, $s)`: the pieces between occurrences of `c`; at least one. */
  function Split(s: string, c: char): (parts: seq<string>)
    ensures |parts| >= 1
    ensures forall i :: 0 <= i < |parts| ==> c !in parts[i]
  {
    if s == [] then [""]
    else
      var rest := Split(s[1..], c);
      if s[0] == c then [""] + rest
      else [[s[0]] + rest[0]] + rest[1..]
  }

  lemma {:induction false} SplitNoSeparator(p: string, c: char)
    requires c !in p
    ensures Split(p, c) == [p]
  {
    if p != [] {
      assert p[0] in p && p[0] != c;
      assert c !in p[1..] by {
        forall i | 0 <= i < |p[1..]| ensures p[1..][i] != c {
          assert p[1..][i] == p[i + 1];
        }
      }
      SplitNoSeparator(p[1..], c);
      assert [p[0]] + p[1..] == p;
    }
  }

  lemma {:induction false} SplitPiece(p: string, c: char, t: string)
    requires c !in p
    ensures Split(p + [c] + t, c) == [p] + Split(t, c)
  {
    if p == [] {
      assert ([c] + t)[1..] == t;
    } else {
      assert p[0] in p && p[0] != c;
      assert c !in p[1..] by {
        forall i | 0 <= i < |p[1..]| ensures p[1..][i] != c {
          assert p[1..][i] == p[i + 1];
        }
      }
      SplitPiece(p[1..], c, t);
      var s := p + [c] + t;
      assert s[0] == p[0] && s[1..] == p[1..] + [c] + t;
      assert [p[0]] + p[1..] == p;
    }
  }

  /** `explode` undoes `implode` when no piece holds the separator. */
  lemma {:induction false} SplitJoin(parts: seq<string>, c: char)
    requires |parts| >= 1
    requires forall i :: 0 <= i < |parts| ==> c !in parts[i]
    ensures Split(Join(parts, [c]), c) == parts
  {
    if |parts| == 1 {
      SplitNoSeparator(parts[0], c);
    } else {
      JoinCons(parts, [c]);
      SplitJoin(parts[1..], c);
      SplitPiece(parts[0], c, Join(parts[1..], [c]));
    }
  }
}
