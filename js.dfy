/** The JavaScript built-ins that the server and the example client rely on, for the values
    JSON can carry plus `undefined`: truthiness, property reads, `String(v)`, `trim`,
    `parseInt`, `split`, `padStart`, `toLowerCase`, `endsWith`, and reading `.message`
    of a caught exception. */
module Js {

  datatype Option<T> = None | Some(value: T)

  /** A value produced by JSON.parse, or `undefined`. Numbers are integers in this model. */
  datatype JsValue =
    | JUndefined
    | JNull
    | JBool(b: bool)
    | JNumber(n: int)
    | JString(s: string)
    | JArray(elems: seq<JsValue>)
    | JObject(fields: map<string, JsValue>)

  /** Whether `if (v)` takes its then-branch. */
  predicate Truthy(v: JsValue) {
    match v
    case JUndefined => false
    case JNull => false
    case JBool(b) => b
    case JNumber(n) => n != 0
    case JString(s) => s != ""
    case JArray(_) => true
    case JObject(_) => true
  }

  predicate IsNullish(v: JsValue) {
    v.JUndefined? || v.JNull?
  }

  /** `typeof v === "object" && v !== null` */
  predicate IsNonNullObject(v: JsValue) {
    v.JArray? || v.JObject?
  }

  /** `v.key` on a value that is not null or undefined, for a key that is neither an array
      index, "length", nor a member of Object.prototype (every key read by the modelled code
      is such a name). */
  function Prop(v: JsValue, key: string): (r: JsValue)
    ensures !v.JObject? ==> r == JUndefined
    ensures v.JObject? ==> (r != JUndefined ==> key in v.fields && v.fields[key] == r)
  {
    if v.JObject? && key in v.fields then v.fields[key] else JUndefined
  }

  /** `v.key`, where reading a property of null or undefined throws a TypeError (None). */
  function Member(v: JsValue, key: string): (r: Option<JsValue>)
    ensures r.None? <==> IsNullish(v)
  {
    if IsNullish(v) then None else Some(Prop(v, key))
  }

  /** `v[0]`, throwing (None) on null or undefined. */
  function Element0(v: JsValue): (r: Option<JsValue>)
    ensures r.None? <==> IsNullish(v)
  {
    match v
    case JUndefined => None
    case JNull => None
    case JArray(es) => Some(if |es| > 0 then es[0] else JUndefined)
    case JString(s) => Some(if |s| > 0 then JString([s[0]]) else JUndefined)
    case JObject(m) => Some(if "0" in m then m["0"] else JUndefined)
    case JBool(_) => Some(JUndefined)
    case JNumber(_) => Some(JUndefined)
  }

  // ---------------------------------------------------------------------------
  // Decimal rendering of integers (Number.prototype.toString, String(n))

  function DigitChar(d: nat): (c: char)
    requires d < 10
    ensures '0' <= c <= '9'
  {
    (('0' as int) + d) as char
  }

  predicate IsDecimalDigit(c: char) {
    '0' <= c <= '9'
  }

  /** The decimal digits of n, most significant first, without leading zeros. */
  function NatDigits(n: nat): (s: string)
    decreases n
  {
    if n < 10 then [DigitChar(n)] else NatDigits(n / 10) + [DigitChar(n % 10)]
  }

  /** `String(n)` for an integer n. */
  function DecimalString(n: int): string {
    if n < 0 then "-" + NatDigits(-n) else NatDigits(n)
  }

  lemma {:induction false} NatDigitsShape(n: nat)
    ensures |NatDigits(n)| >= 1
    ensures forall i :: 0 <= i < |NatDigits(n)| ==> IsDecimalDigit(NatDigits(n)[i])
    ensures NatDigits(n)[0] == '0' <==> n == 0
    ensures |NatDigits(n)| == 1 <==> n < 10
    decreases n
  {
    if n >= 10 {
      NatDigitsShape(n / 10);
    }
  }

  /** Two-digit numbers are rendered with exactly two digits, and four-digit numbers with four. */
  lemma NatDigitsLength(n: nat)
    ensures 10 <= n < 100 ==> |NatDigits(n)| == 2
    ensures 1000 <= n < 10000 ==> |NatDigits(n)| == 4
    ensures n < 1000 ==> |NatDigits(n)| < 4
    ensures 10000 <= n ==> |NatDigits(n)| > 4
  {
    if n >= 10 {
      NatDigitsShape(n / 10);
      if n >= 100 {
        NatDigitsShape(n / 100);
        if n >= 1000 {
          NatDigitsShape(n / 1000);
          if n >= 10000 {
            NatDigitsShape(n / 10000);
          }
        }
      }
    }
  }

  // ---------------------------------------------------------------------------
  // String(v)

  /** The TypeError `String(v)` raises for an object it cannot turn into a primitive. */
  const ConvertError := "Cannot convert object to primitive value"

  /** Whether `String(v)` succeeds. An object with its own `toString` key cannot be
      converted: JSON gives that key a value that is not a function, so the conversion
      falls back to `valueOf`, which returns the object itself, and a TypeError is raised.
      An array converts when each of its elements that is not null or undefined does. */
  predicate Convertible(v: JsValue)
    decreases v
  {
    match v
    case JObject(m) => "toString" !in m
    case JArray(es) => forall i :: 0 <= i < |es| ==> IsNullish(es[i]) || Convertible(es[i])
    case _ => true
  }

  /** `String(v)`, None when it throws; an array renders as its elements joined by ",",
      null and undefined elements rendering as "". */
  function ToString(v: JsValue): (r: Option<string>)
    ensures r.Some? <==> Convertible(v)
    ensures v.JString? ==> r == Some(v.s)
    decreases v, 1
  {
    match v
    case JUndefined => Some("undefined")
    case JNull => Some("null")
    case JBool(b) => Some(if b then "true" else "false")
    case JNumber(n) => Some(DecimalString(n))
    case JString(s) => Some(s)
    case JArray(es) => JoinElements(es)
    case JObject(m) => if "toString" in m then None else Some("[object Object]")
  }

  /** `es.join()`, None when converting one of the elements throws. */
  function JoinElements(es: seq<JsValue>): (r: Option<string>)
    ensures r.Some? <==> forall i :: 0 <= i < |es| ==> IsNullish(es[i]) || Convertible(es[i])
    decreases es, 0
  {
    if es == [] then Some("")
    else
      var first := if IsNullish(es[0]) then Some("") else ToString(es[0]);
      if first.None? then None
      else if |es| == 1 then first
      else
        var rest := JoinElements(es[1..]);
        assert forall i :: 1 <= i < |es| ==> es[i] == es[1..][i - 1];
        if rest.None? then None else Some(first.value + "," + rest.value)
  }

  // ---------------------------------------------------------------------------
  // Whitespace and trim

  /** The WhiteSpace and LineTerminator characters of ECMAScript (what `trim` removes). */
  predicate IsWhitespace(c: char) {
    c == '\t' || c == '\n' || c == '\U{B}' || c == '\U{C}' || c == '\r' || c == ' '
    || c == '\U{A0}' || c == '\U{1680}' || ('\U{2000}' <= c <= '\U{200A}')
    || c == '\U{2028}' || c == '\U{2029}' || c == '\U{202F}' || c == '\U{205F}'
    || c == '\U{3000}' || c == '\U{FEFF}'
  }

  function TrimStart(s: string): (r: string)
    ensures |r| <= |s| && r == s[|s| - |r|..]
    ensures r == [] || !IsWhitespace(r[0])
    ensures forall i :: 0 <= i < |s| - |r| ==> IsWhitespace(s[i])
    decreases |s|
  {
    if |s| > 0 && IsWhitespace(s[0]) then TrimStart(s[1..]) else s
  }

  function TrimEnd(s: string): (r: string)
    ensures |r| <= |s| && r == s[..|r|]
    ensures r == [] || !IsWhitespace(r[|r| - 1])
    ensures forall i :: |r| <= i < |s| ==> IsWhitespace(s[i])
    decreases |s|
  {
    if |s| > 0 && IsWhitespace(s[|s| - 1]) then TrimEnd(s[..|s| - 1]) else s
  }

  /** `s.trim()` */
  function Trim(s: string): string {
    TrimEnd(TrimStart(s))
  }

  /** `s.trim() !== ""` exactly when s holds a character that is not whitespace. */
  lemma TrimNonEmpty(s: string)
    ensures Trim(s) != "" <==> exists i :: 0 <= i < |s| && !IsWhitespace(s[i])
  {
    var t := TrimStart(s);
    if t != [] {
      assert !IsWhitespace(t[0]);
      assert Trim(s) != [];
      assert !IsWhitespace(s[|s| - |t|]);
    } else {
      assert forall i :: 0 <= i < |s| ==> IsWhitespace(s[i]);
    }
  }

  // ---------------------------------------------------------------------------
  // parseInt

  /** The radix argument of parseInt: omitted, or 10. */
  datatype Radix = Unspecified | Ten

  /** A numeric result that may be NaN. */
  datatype Numeric = Num(n: int) | NaN

  predicate IsDigitIn(c: char, base: nat) {
    if base == 16 then IsDecimalDigit(c) || ('a' <= c <= 'f') || ('A' <= c <= 'F')
    else IsDecimalDigit(c)
  }

  function DigitValue(c: char): (d: nat)
    ensures IsDecimalDigit(c) ==> d < 10
    ensures IsDigitIn(c, 16) ==> d < 16
  {
    if IsDecimalDigit(c) then (c as int) - ('0' as int)
    else if 'a' <= c <= 'f' then (c as int) - ('a' as int) + 10
    else if 'A' <= c <= 'F' then (c as int) - ('A' as int) + 10
    else 0
  }

  /** The longest prefix of s made of digits of the given base. */
  function DigitPrefix(s: string, base: nat): (r: string)
    ensures |r| <= |s| && r == s[..|r|]
    ensures forall i :: 0 <= i < |r| ==> IsDigitIn(r[i], base)
    ensures |r| < |s| ==> !IsDigitIn(s[|r|], base)
    decreases |s|
  {
    if |s| > 0 && IsDigitIn(s[0], base) then [s[0]] + DigitPrefix(s[1..], base) else []
  }

  /** The value of a digit string in the given base, most significant digit first. */
  function DigitsValue(ds: string, base: nat): nat
    decreases |ds|
  {
    if ds == [] then 0 else DigitsValue(ds[..|ds| - 1], base) * base + DigitValue(ds[|ds| - 1])
  }

  /** `parseInt(s)` (radix omitted) or `parseInt(s, 10)`: skip leading whitespace, take an
      optional sign, with the radix omitted read "0x"/"0X" as a hexadecimal prefix, and
      read the longest run of digits; no digits gives NaN. */
  function ParseInt(s: string, radix: Radix): Numeric {
    var t := TrimStart(s);
    if |t| > 0 && t[0] == '-' then Negate(ParseUnsigned(t[1..], radix))
    else if |t| > 0 && t[0] == '+' then ParseUnsigned(t[1..], radix)
    else ParseUnsigned(t, radix)
  }

  predicate HasHexPrefix(u: string) {
    |u| >= 2 && u[0] == '0' && (u[1] == 'x' || u[1] == 'X')
  }

  function ParseUnsigned(u: string, radix: Radix): Numeric {
    if radix == Unspecified && HasHexPrefix(u) then DigitsNumber(DigitPrefix(u[2..], 16), 16)
    else DigitsNumber(DigitPrefix(u, 10), 10)
  }

  function DigitsNumber(ds: string, base: nat): Numeric {
    if ds == [] then NaN else Num(DigitsValue(ds, base))
  }

  function Negate(x: Numeric): Numeric {
    match x
    case NaN => NaN
    case Num(v) => Num(-v)
  }

  lemma {:induction false} NatDigitsValue(n: nat)
    ensures DigitsValue(NatDigits(n), 10) == n
    decreases n
  {
    if n >= 10 {
      NatDigitsValue(n / 10);
      var ds := NatDigits(n);
      assert ds[..|ds| - 1] == NatDigits(n / 10);
    }
  }

  lemma DigitPrefixOfDigits(s: string, base: nat)
    requires base == 10 || base == 16
    requires forall i :: 0 <= i < |s| ==> IsDecimalDigit(s[i])
    ensures DigitPrefix(s, base) == s
  {
  }

  /** A string that starts with something other than whitespace is not trimmed. */
  lemma TrimStartKeeps(s: string)
    requires |s| > 0 && !IsWhitespace(s[0])
    ensures TrimStart(s) == s
  {
  }

  /** parseInt skips nothing in front of a leading digit. */
  lemma ParseIntOfDigitFirst(s: string, radix: Radix)
    requires |s| >= 1 && IsDecimalDigit(s[0])
    ensures ParseInt(s, radix) == ParseUnsigned(s, radix)
  {
    TrimStartKeeps(s);
  }

  /** parseInt of a plain run of decimal digits that does not start with "0x". */
  lemma ParseDigitRun(ds: string, radix: Radix)
    requires (|ds| >= 1 && ds[0] != '0') || ds == "0"
    requires forall i :: 0 <= i < |ds| ==> IsDecimalDigit(ds[i])
    ensures ParseUnsigned(ds, radix) == DigitsNumber(ds, 10)
    ensures ParseInt(ds, radix) == DigitsNumber(ds, 10)
  {
    assert IsDecimalDigit(ds[0]);
    ParseIntOfDigitFirst(ds, radix);
    assert !HasHexPrefix(ds);
    DigitPrefixOfDigits(ds, 10);
  }

  /** Unsigned text that does not start with a digit has no digit run. */
  lemma ParseUnsignedWithoutDigits(u: string, radix: Radix)
    requires u == [] || !IsDecimalDigit(u[0])
    ensures ParseUnsigned(u, radix) == NaN
  {
    assert !HasHexPrefix(u);
    assert DigitPrefix(u, 10) == [];
  }

  /** Text that, after leading whitespace and an optional sign, does not start with a
      digit parses to NaN. */
  lemma ParseIntWithoutDigits(s: string, radix: Radix)
    requires var t := TrimStart(s);
      var u := if |t| > 0 && (t[0] == '+' || t[0] == '-') then t[1..] else t;
      u == [] || !IsDecimalDigit(u[0])
    ensures ParseInt(s, radix) == NaN
  {
    var t := TrimStart(s);
    if |t| > 0 && (t[0] == '+' || t[0] == '-') {
      ParseUnsignedWithoutDigits(t[1..], radix);
    } else {
      ParseUnsignedWithoutDigits(t, radix);
    }
  }

  /** A leading minus sign negates what follows it. */
  lemma ParseIntOfMinus(ds: string, radix: Radix)
    ensures ParseInt("-" + ds, radix) == Negate(ParseUnsigned(ds, radix))
  {
    var s := "-" + ds;
    assert s[0] == '-' && s[1..] == ds;
    TrimStartKeeps(s);
  }

  /** `parseInt(ds, 10)` of a run of decimal digits, leading zeros included. */
  lemma ParseDecimalDigits(ds: string)
    requires |ds| >= 1
    requires forall i :: 0 <= i < |ds| ==> IsDecimalDigit(ds[i])
    ensures ParseInt(ds, Ten) == DigitsNumber(ds, 10)
  {
    ParseIntOfDigitFirst(ds, Ten);
    DigitPrefixOfDigits(ds, 10);
  }

  /** The digit run of a string is its leading digits, whatever follows them. */
  lemma {:induction false} DigitPrefixStops(ds: string, rest: string, base: nat)
    requires forall i :: 0 <= i < |ds| ==> IsDigitIn(ds[i], base)
    requires rest == [] || !IsDigitIn(rest[0], base)
    ensures DigitPrefix(ds + rest, base) == ds
    decreases |ds|
  {
    if ds != [] {
      assert (ds + rest)[1..] == ds[1..] + rest;
      DigitPrefixStops(ds[1..], rest, base);
    } else {
      assert ds + rest == rest;
    }
  }

  /** `x.toString()` for a number. */
  function NumberString(x: Numeric): (r: string)
    ensures x.NaN? <==> r == "NaN"
  {
    match x
    case NaN => "NaN"
    case Num(n) =>
      NatDigitsShape(if n < 0 then -n else n);
      assert DecimalString(n)[0] != 'N';
      DecimalString(n)
  }

  /** parseInt reads back what String(n) renders, with or without radix 10. */
  lemma ParseDecimalString(n: int, radix: Radix)
    ensures ParseInt(DecimalString(n), radix) == Num(n)
  {
    var m: nat := if n < 0 then -n else n;
    var ds := NatDigits(m);
    NatDigitsShape(m);
    NatDigitsValue(m);
    ParseDigitRun(ds, radix);
    if n < 0 {
      ParseIntOfMinus(ds, radix);
    }
  }

  // ---------------------------------------------------------------------------
  // split, padStart, toLowerCase, endsWith

  /** `s.split(sep)` for a one-character separator. */
  function Split(s: string, sep: char): (parts: seq<string>)
    ensures |parts| >= 1
    decreases |s|
  {
    if |s| == 0 then [""]
    else if s[0] == sep then [""] + Split(s[1..], sep)
    else
      var rest := Split(s[1..], sep);
      [[s[0]] + rest[0]] + rest[1..]
  }

  lemma {:induction false} SplitNoSeparator(a: string, sep: char)
    requires sep !in a
    ensures Split(a, sep) == [a]
    decreases |a|
  {
    if |a| > 0 {
      SplitNoSeparator(a[1..], sep);
      assert [a[0]] + a[1..] == a;
    }
  }

  lemma {:induction false} SplitAt(a: string, sep: char, b: string)
    requires sep !in a
    ensures Split(a + [sep] + b, sep) == [a] + Split(b, sep)
    decreases |a|
  {
    var s := a + [sep] + b;
    if |a| == 0 {
      assert s[1..] == b;
    } else {
      assert s[1..] == a[1..] + [sep] + b;
      SplitAt(a[1..], sep, b);
      assert [a[0]] + a[1..] == a;
    }
  }

  function Zeros(n: nat): (s: string)
    ensures |s| == n && forall i :: 0 <= i < n ==> s[i] == '0'
  {
    if n == 0 then [] else Zeros(n - 1) + ['0']
  }

  /** `s.padStart(width, "0")` */
  function PadStartZero(s: string, width: nat): (r: string)
    ensures |r| == if |s| >= width then |s| else width
    ensures r[|r| - |s|..] == s
    ensures forall i :: 0 <= i < |r| - |s| ==> r[i] == '0'
  {
    if |s| >= width then s else Zeros(width - |s|) + s
  }

  function LowerAscii(c: char): (l: char)
    ensures !('A' <= c <= 'Z') ==> l == c
  {
    if 'A' <= c <= 'Z' then ((c as int) - ('A' as int) + ('a' as int)) as char else c
  }

  /** `s.toLowerCase()`, letter by letter on the ASCII range. */
  function ToLower(s: string): (r: string)
    ensures |r| == |s| && forall i :: 0 <= i < |s| ==> r[i] == LowerAscii(s[i])
  {
    seq(|s|, i requires 0 <= i < |s| => LowerAscii(s[i]))
  }

  /** `s.endsWith(suffix)` */
  predicate EndsWith(s: string, suffix: string) {
    |suffix| <= |s| && s[|s| - |suffix|..] == suffix
  }

  // ---------------------------------------------------------------------------
  // Caught exceptions

  /** A thrown value: one whose `.message` reads as a string, or null, or undefined. */
  datatype Exception = Thrown(message: string) | ThrewNull | ThrewUndefined

  /** Evaluating `(error as Error).message` in a catch block: the text, or the TypeError that
      reading a property of null or undefined raises. */
  datatype MessageRead = Text(text: string) | Raises(typeError: string)

  const NullMessageError := "Cannot read properties of null (reading 'message')"
  const UndefinedMessageError := "Cannot read properties of undefined (reading 'message')"

  function ReadMessage(e: Exception): (r: MessageRead)
    ensures r.Text? <==> e.Thrown?
    ensures e.Thrown? ==> r.text == e.message
  {
    match e
    case Thrown(m) => Text(m)
    case ThrewNull => Raises(NullMessageError)
    case ThrewUndefined => Raises(UndefinedMessageError)
  }
}
