/** JavaScript values as the in-memory stores and the pages handle them.

    A stored record is a plain JavaScript object; it is modelled as a map from
    property names to values, so that the object spread `{ ...a, ...b }` is the
    right-biased map union `a + b`. Numbers are integers (no fractions), and
    NaN is a value of its own because `===` never equates it with anything. */
module JsValues {

  datatype Option<T> = None | Some(value: T)

  /** The outcome of an operation that may throw: `Err` carries the message of the `Error`. */
  datatype Result<T> = Ok(value: T) | Err(message: string)

  datatype Value =
    | Undefined
    | Null
    | Bool(b: bool)
    | Num(n: int)
    | NaN
    | Str(s: string)
    | Arr(items: seq<Value>)

  type Record = map<string, Value>

  /** Property access `r.key`: a missing property reads as `undefined`. */
  function Field(r: Record, key: string): Value
  {
    if key in r then r[key] else Undefined
  }

  /** Strict equality `a === b`: structural on the scalar values compared; NaN equals nothing. */
  predicate StrictEq(a: Value, b: Value)
  {
    a == b && !a.NaN?
  }

  /** JavaScript truthiness, as used by `if (x)`, `x || y` and `filter(p => p.completed)`. */
  predicate Truthy(v: Value)
  {
    match v
    case Undefined => false
    case Null => false
    case Bool(b) => b
    case Num(n) => n != 0
    case NaN => false
    case Str(s) => s != ""
    case Arr(_) => true
  }

  // ---------------------------------------------------------------------------
  // Decimal text

  predicate IsDigit(c: char)
  {
    '0' <= c <= '9'
  }

  function DigitValue(c: char): nat
    requires IsDigit(c)
  {
    (c as int) - ('0' as int)
  }

  function DigitChar(d: nat): char
    requires d < 10
  {
    (('0' as int) + d) as char
  }

  /** The longest prefix of `s` made of decimal digits. */
  function LeadingDigits(s: string): (p: string)
    ensures p <= s
    ensures forall i :: 0 <= i < |p| ==> IsDigit(p[i])
    ensures |p| < |s| ==> !IsDigit(s[|p|])
  {
    if s == [] || !IsDigit(s[0]) then [] else [s[0]] + LeadingDigits(s[1..])
  }

  /** The number a string of decimal digits denotes (most significant digit first). */
  function DigitsValue(ds: string): nat
    requires forall i :: 0 <= i < |ds| ==> IsDigit(ds[i])
  {
    if ds == [] then 0 else DigitsValue(ds[..|ds| - 1]) * 10 + DigitValue(ds[|ds| - 1])
  }

  /** The decimal numeral of a natural number, without leading zeros. */
  function NatText(n: nat): (s: string)
    ensures |s| > 0
    ensures forall i :: 0 <= i < |s| ==> IsDigit(s[i])
  {
    if n < 10 then [DigitChar(n)] else NatText(n / 10) + [DigitChar(n % 10)]
  }

  /** `String(n)` for an integer. */
  function IntText(n: int): string
  {
    if n < 0 then "-" + NatText(-n) else NatText(n)
  }

  predicate IsSpace(c: char)
  {
    c == ' ' || c == '\t' || c == '\n' || c == '\r'
  }

  /** The text without its leading white space. */
  function SkipSpaces(s: string): (t: string)
    ensures |t| <= |s| && t == s[|s| - |t|..]
    ensures t != [] ==> !IsSpace(t[0])
    ensures forall i :: 0 <= i < |s| - |t| ==> IsSpace(s[i])
  {
    if s != [] && IsSpace(s[0]) then SkipSpaces(s[1..]) else s
  }

  /** The text without its trailing white space. */
  function SkipSpacesEnd(s: string): (t: string)
    ensures t <= s
    ensures t != [] ==> !IsSpace(t[|t| - 1])
    ensures forall i :: |t| <= i < |s| ==> IsSpace(s[i])
  {
    if s != [] && IsSpace(s[|s| - 1]) then SkipSpacesEnd(s[..|s| - 1]) else s
  }

  /** The text without a leading `-` or `+`. */
  function Unsigned(t: string): string
  {
    if t != [] && (t[0] == '-' || t[0] == '+') then t[1..] else t
  }

  predicate IsHexDigit(c: char)
  {
    IsDigit(c) || 'a' <= c <= 'f' || 'A' <= c <= 'F'
  }

  function HexDigitValue(c: char): nat
    requires IsHexDigit(c)
  {
    if IsDigit(c) then DigitValue(c)
    else if 'a' <= c <= 'f' then (c as int) - ('a' as int) + 10
    else (c as int) - ('A' as int) + 10
  }

  /** The longest prefix of `s` made of hexadecimal digits. */
  function LeadingHexDigits(s: string): (p: string)
    ensures p <= s
    ensures forall i :: 0 <= i < |p| ==> IsHexDigit(p[i])
  {
    if s == [] || !IsHexDigit(s[0]) then [] else [s[0]] + LeadingHexDigits(s[1..])
  }

  /** The number a string of hexadecimal digits denotes. */
  function HexValue(hs: string): nat
    requires forall i :: 0 <= i < |hs| ==> IsHexDigit(hs[i])
  {
    if hs == [] then 0 else HexValue(hs[..|hs| - 1]) * 16 + HexDigitValue(hs[|hs| - 1])
  }

  /** Text that starts with the hexadecimal prefix `0x` or `0X`. */
  predicate HexPrefixed(s: string)
  {
    |s| >= 2 && s[0] == '0' && (s[1] == 'x' || s[1] == 'X')
  }

  /** `String(v)`: numbers print as decimal numerals, and an array joins its items with
      commas, an `undefined` or `null` item printing as empty text. */
  function ToText(v: Value): string
  {
    match v
    case Undefined => "undefined"
    case Null => "null"
    case Bool(b) => if b then "true" else "false"
    case Num(n) => IntText(n)
    case NaN => "NaN"
    case Str(s) => s
    case Arr(items) => JoinItems(items)
  }

  /** `items.join(',')` */
  function JoinItems(items: seq<Value>): string
  {
    if items == [] then ""
    else
      var first := if items[0].Undefined? || items[0].Null? then "" else ToText(items[0]);
      if |items| == 1 then first else first + "," + JoinItems(items[1..])
  }

  /** `parseInt(s)` on text: leading white space, an optional sign, then either `0x` and the
      longest run of hexadecimal digits or the longest run of decimal digits; NaN when that
      run is empty. */
  function ParseIntText(s: string): (v: Value)
    ensures v.Num? || v.NaN?
    ensures var body := Unsigned(SkipSpaces(s));
            v.NaN? <==> if HexPrefixed(body) then LeadingHexDigits(body[2..]) == []
                        else LeadingDigits(body) == []
  {
    var t := SkipSpaces(s);
    var negative := t != [] && t[0] == '-';
    var body := Unsigned(t);
    var digits := if HexPrefixed(body) then LeadingHexDigits(body[2..]) else LeadingDigits(body);
    if digits == [] then NaN
    else
      var magnitude := if HexPrefixed(body) then HexValue(digits) else DigitsValue(digits);
      Num(if negative then 0 - magnitude else magnitude)
  }

  /** `parseInt(v)`, which reads the text `String(v)` (`ParseIntReadsText`): an integer comes
      back unchanged, and `undefined`, `null`, booleans and NaN print as words, which are NaN. */
  function ParseInt(v: Value): (r: Value)
    ensures r.Num? || r.NaN?
    ensures v.Num? ==> r == v
    ensures v.Str? ==> r == ParseIntText(v.s)
    ensures v.Undefined? || v.Null? || v.Bool? || v.NaN? ==> r == NaN
  {
    match v
    case Num(n) => Num(n)
    case Str(s) => ParseIntText(s)
    case Arr(items) => ParseIntText(JoinItems(items))
    case _ => NaN
  }

  /** `Number(s)` on text: surrounding white space is ignored and empty text is 0; otherwise
      the text must be an optionally signed decimal numeral or an unsigned `0x` numeral. */
  function NumberOfText(s: string): Value
  {
    var t := SkipSpacesEnd(SkipSpaces(s));
    if t == [] then Num(0) else if HexPrefixed(t) then HexNumeral(t[2..]) else DecimalNumeral(t)
  }

  /** The digits after `0x`, which must all be hexadecimal. */
  function HexNumeral(hs: string): Value
  {
    if hs != [] && LeadingHexDigits(hs) == hs then Num(HexValue(hs)) else NaN
  }

  /** An optionally signed run of decimal digits, and nothing else. */
  function DecimalNumeral(t: string): Value
  {
    var body := Unsigned(t);
    if body != [] && LeadingDigits(body) == body then
      Num(if t[0] == '-' then 0 - DigitsValue(body) as int else DigitsValue(body))
    else NaN
  }

  /** `Number(v)` as `Math.max`, `Math.min` and the comparisons apply it: `undefined` is NaN,
      `null` is 0, booleans are 0 and 1, and text and arrays convert through their text. */
  function ToNumber(v: Value): (r: Value)
    ensures r.Num? || r.NaN?
    ensures v.Num? || v.NaN? ==> r == v
    ensures v.Str? ==> r == NumberOfText(v.s)
    ensures v.Arr? ==> r == NumberOfText(ToText(v))
  {
    match v
    case Undefined => NaN
    case Null => Num(0)
    case Bool(b) => Num(if b then 1 else 0)
    case Num(n) => Num(n)
    case NaN => NaN
    case Str(s) => NumberOfText(s)
    case Arr(items) => NumberOfText(JoinItems(items))
  }

  /** `a + b` where both sides are added as numbers; NaN is absorbing. */
  function Plus(a: Value, b: Value): (r: Value)
    ensures r.Num? <==> ToNumber(a).Num? && ToNumber(b).Num?
    ensures r.Num? ==> r.n == ToNumber(a).n + ToNumber(b).n
  {
    match (ToNumber(a), ToNumber(b))
    case (Num(x), Num(y)) => Num(x + y)
    case _ => NaN
  }

  // ---------------------------------------------------------------------------
  // Lemmas

  lemma {:induction false} LeadingDigitsOfDigits(s: string)
    requires forall i :: 0 <= i < |s| ==> IsDigit(s[i])
    ensures LeadingDigits(s) == s
  {
    if s != [] {
      LeadingDigitsOfDigits(s[1..]);
    }
  }

  /** The digit run of a numeral followed by a character that is not a digit is the numeral. */
  lemma {:induction false} LeadingDigitsOfPrefix(ds: string, rest: string)
    requires forall i :: 0 <= i < |ds| ==> IsDigit(ds[i])
    requires rest == [] || !IsDigit(rest[0])
    ensures LeadingDigits(ds + rest) == ds
  {
    if ds != [] {
      assert (ds + rest)[1..] == ds[1..] + rest;
      LeadingDigitsOfPrefix(ds[1..], rest);
    }
  }

  lemma {:induction false} LeadingHexDigitsOfHex(s: string)
    requires forall i :: 0 <= i < |s| ==> IsHexDigit(s[i])
    ensures LeadingHexDigits(s) == s
  {
    if s != [] {
      LeadingHexDigitsOfHex(s[1..]);
    }
  }

  lemma {:induction false} DigitsValueOfNatText(n: nat)
    ensures DigitsValue(NatText(n)) == n
  {
    if n >= 10 {
      var s := NatText(n);
      assert s[..|s| - 1] == NatText(n / 10);
      DigitsValueOfNatText(n / 10);
    }
  }

  /** Text that does not start with white space has none to skip. */
  lemma SkipSpacesOfNonSpace(s: string)
    requires s != [] && !IsSpace(s[0])
    ensures SkipSpaces(s) == s
  {
  }

  /** Text that does not end with white space has none to drop. */
  lemma SkipSpacesEndOfNonSpace(s: string)
    requires s != [] && !IsSpace(s[|s| - 1])
    ensures SkipSpacesEnd(s) == s
  {
  }

  /** parseInt on text that is a digit run `ds`, possibly after a minus sign and possibly
      followed by text that is not part of the numeral, reads `ds`. */
  lemma ParseIntTextDecimal(s: string, body: string, ds: string, negative: bool)
    requires body != [] && IsDigit(body[0]) && !HexPrefixed(body) && LeadingDigits(body) == ds
    requires s == if negative then "-" + body else body
    ensures ParseIntText(s) == Num(if negative then 0 - DigitsValue(ds) else DigitsValue(ds))
  {
    if negative {
      assert s[1..] == body;
    }
    SkipSpacesOfNonSpace(s);
    assert Unsigned(s) == body;
  }

  /** A digit run followed by text that starts with neither a digit nor an `x`. */
  lemma NumeralThenRest(ds: string, rest: string)
    requires ds != [] && forall i :: 0 <= i < |ds| ==> IsDigit(ds[i])
    requires rest == [] || (!IsDigit(rest[0]) && rest[0] != 'x' && rest[0] != 'X')
    ensures var body := ds + rest;
            IsDigit(body[0]) && !HexPrefixed(body) && LeadingDigits(body) == ds
  {
    var body := ds + rest;
    assert body[0] == ds[0];
    if |ds| >= 2 {
      assert body[1] == ds[1];
    } else if |body| >= 2 {
      assert body[1] == rest[0];
    }
    LeadingDigitsOfPrefix(ds, rest);
  }

  /** parseInt reads a digit run, possibly after a minus sign, and stops at the first
      character after it that is neither a digit nor an `x`. */
  lemma ParseIntTextDigits(ds: string, rest: string, negative: bool)
    requires ds != [] && forall i :: 0 <= i < |ds| ==> IsDigit(ds[i])
    requires rest == [] || (!IsDigit(rest[0]) && rest[0] != 'x' && rest[0] != 'X')
    ensures ParseIntText((if negative then "-" + ds else ds) + rest)
         == Num(if negative then 0 - DigitsValue(ds) else DigitsValue(ds))
  {
    NumeralThenRest(ds, rest);
    if negative {
      ConcatAssoc("-", ds, rest);
      ParseIntTextDecimal(("-" + ds) + rest, ds + rest, ds, true);
    } else {
      ParseIntTextDecimal(ds + rest, ds + rest, ds, false);
    }
  }

  lemma ConcatAssoc(a: string, b: string, c: string)
    ensures (a + b) + c == a + (b + c)
  {
  }

  /** parseInt reads an integer's numeral and stops at the first character after it that is
      not a digit: `parseInt('12px')` is 12 and `parseInt('1,2')` is 1. */
  lemma ParseIntTextPrefix(n: int, rest: string)
    requires rest == [] || (!IsDigit(rest[0]) && rest[0] != 'x' && rest[0] != 'X')
    ensures ParseIntText(IntText(n) + rest) == Num(n)
  {
    var m := if n < 0 then -n else n;
    ParseIntTextDigits(NatText(m), rest, n < 0);
    DigitsValueOfNatText(m);
  }

  /** Text that starts with a letter has no numeral for parseInt to read. */
  lemma ParseIntTextOfWord(t: string)
    requires t != [] && ('a' <= t[0] <= 'z' || 'A' <= t[0] <= 'Z')
    ensures ParseIntText(t) == NaN
  {
    SkipSpacesOfNonSpace(t);
    assert LeadingDigits(t) == [];
  }

  /** parseInt reads what String prints, for every value. */
  lemma ParseIntReadsText(v: Value)
    ensures ParseInt(v) == ParseIntText(ToText(v))
  {
    match v
    case Num(n) =>
      ParseIntTextPrefix(n, []);
      assert IntText(n) + [] == IntText(n);
    case Undefined => ParseIntTextOfWord("undefined");
    case Null => ParseIntTextOfWord("null");
    case Bool(b) => ParseIntTextOfWord(if b then "true" else "false");
    case NaN => ParseIntTextOfWord("NaN");
    case Str(_) =>
    case Arr(_) =>
  }

  /** parseInt inverts String on integers: a record id read back from its text form is the
      same id, so `getById(String(id))` and `getById(id)` find the same record. */
  lemma ParseIntOfText(n: int)
    ensures ParseInt(Str(IntText(n))) == Num(n)
  {
    ParseIntTextPrefix(n, []);
    assert IntText(n) + [] == IntText(n);
  }

  /** A `0x` prefix reads the hexadecimal digits after it: `parseInt('0x1A')` is 26. */
  lemma ParseIntTextHex(hs: string)
    requires hs != [] && forall i :: 0 <= i < |hs| ==> IsHexDigit(hs[i])
    ensures ParseIntText("0x" + hs) == Num(HexValue(hs))
  {
    var s := "0x" + hs;
    SkipSpacesOfNonSpace(s);
    assert Unsigned(s) == s;
    assert s[2..] == hs;
    LeadingHexDigitsOfHex(hs);
  }

  /** `parseInt([x, …])` reads the numeral the array's text starts with: `parseInt([5])` is 5
      and `parseInt([1, 2])` is 1. */
  lemma ParseIntOfArray(items: seq<Value>)
    requires items != [] && items[0].Num?
    ensures ParseInt(Arr(items)) == items[0]
  {
    var n := items[0].n;
    if |items| == 1 {
      assert JoinItems(items) == IntText(n) + [];
      ParseIntTextPrefix(n, []);
    } else {
      var others := JoinItems(items[1..]);
      assert JoinItems(items) == IntText(n) + "," + others;
      ConcatAssoc(IntText(n), ",", others);
      ParseIntTextPrefix(n, "," + others);
    }
  }

  /** A decimal numeral has no white space around it. */
  lemma TrimNumeral(s: string, ds: string)
    requires ds != [] && forall i :: 0 <= i < |ds| ==> IsDigit(ds[i])
    requires s == ds || s == "-" + ds
    ensures SkipSpacesEnd(SkipSpaces(s)) == s
  {
    assert s[|s| - 1] == ds[|ds| - 1];
    TrimUnspaced(s);
  }

  /** Text that neither starts nor ends with white space is its own trimmed form. */
  lemma TrimUnspaced(s: string)
    requires s != [] && !IsSpace(s[0]) && !IsSpace(s[|s| - 1])
    ensures SkipSpacesEnd(SkipSpaces(s)) == s
  {
    SkipSpacesOfNonSpace(s);
    SkipSpacesEndOfNonSpace(s);
  }

  /** A decimal numeral has no `0x` prefix, and its digits follow the sign. */
  lemma UnsignedNumeral(s: string, ds: string)
    requires ds != [] && forall i :: 0 <= i < |ds| ==> IsDigit(ds[i])
    requires s == ds || s == "-" + ds
    ensures !HexPrefixed(s) && Unsigned(s) == ds
  {
    if s == ds {
      if |s| >= 2 {
        assert IsDigit(s[1]);
      }
    } else {
      assert s[1..] == ds;
    }
  }

  /** A decimal numeral, with or without a minus sign, reads as its value. */
  lemma NumberOfDecimal(s: string, ds: string)
    requires ds != [] && forall i :: 0 <= i < |ds| ==> IsDigit(ds[i])
    requires s == ds || s == "-" + ds
    ensures NumberOfText(s) == Num(if s[0] == '-' then 0 - DigitsValue(ds) else DigitsValue(ds))
  {
    TrimNumeral(s, ds);
    UnsignedNumeral(s, ds);
    NumberOfTrimmed(s);
    DecimalNumeralOfDigits(s, ds);
  }

  /** Trimmed text without the `0x` prefix is read as a decimal numeral. */
  lemma NumberOfTrimmed(s: string)
    requires s != [] && SkipSpacesEnd(SkipSpaces(s)) == s && !HexPrefixed(s)
    ensures NumberOfText(s) == DecimalNumeral(s)
  {
  }

  /** An optionally signed run of digits `ds` is read as the value of `ds`. */
  lemma DecimalNumeralOfDigits(t: string, ds: string)
    requires ds != [] && forall i :: 0 <= i < |ds| ==> IsDigit(ds[i])
    requires t != [] && Unsigned(t) == ds
    ensures DecimalNumeral(t) == Num(if t[0] == '-' then 0 - DigitsValue(ds) else DigitsValue(ds))
  {
    LeadingDigitsOfDigits(ds);
  }

  /** `Number(String(n)) === n` on integers. */
  lemma ToNumberOfText(n: int)
    ensures ToNumber(Str(IntText(n))) == Num(n)
  {
    var m := if n < 0 then -n else n;
    DigitsValueOfNatText(m);
    NumberOfDecimal(IntText(n), NatText(m));
  }

  /** Hexadecimal digits holding a comma are no numeral. */
  lemma HexNumeralOfComma(hs: string, j: int)
    requires 0 <= j < |hs| && hs[j] == ','
    ensures HexNumeral(hs) == NaN
  {
    assert !IsHexDigit(hs[j]);
  }

  /** A signed run of digits holding a comma is no numeral. */
  lemma DecimalNumeralOfComma(t: string, j: int)
    requires 0 <= j < |t| && t[j] == ','
    ensures DecimalNumeral(t) == NaN
  {
    var body := Unsigned(t);
    var i := if |body| < |t| then j - 1 else j;
    assert body[i] == ',';
  }

  /** Trimming white space keeps a comma, at a position shifted by the leading space. */
  lemma CommaSurvivesTrim(s: string, k: int)
    requires 0 <= k < |s| && s[k] == ','
    ensures var u := SkipSpaces(s);
            var j := k - (|s| - |u|);
            0 <= j < |SkipSpacesEnd(u)| && SkipSpacesEnd(u)[j] == ','
  {
    var u := SkipSpaces(s);
    var j := k - (|s| - |u|);
    assert 0 <= j < |u| && u[j] == ',';
  }

  /** Trimmed text holding a comma is neither a hexadecimal nor a decimal numeral. */
  lemma NumeralOfComma(t: string, j: int)
    requires 0 <= j < |t| && t[j] == ','
    ensures (if HexPrefixed(t) then HexNumeral(t[2..]) else DecimalNumeral(t)) == NaN
  {
    if HexPrefixed(t) {
      HexNumeralOfComma(t[2..], j - 2);
    } else {
      DecimalNumeralOfComma(t, j);
    }
  }

  /** Text holding a comma is no numeral. */
  lemma CommaIsNaN(s: string, k: int)
    requires 0 <= k < |s| && s[k] == ','
    ensures NumberOfText(s) == NaN
  {
    CommaSurvivesTrim(s, k);
    NumeralOfComma(SkipSpacesEnd(SkipSpaces(s)), k - (|s| - |SkipSpaces(s)|));
  }

  /** The text of a one-item array is the item's own text. */
  lemma JoinSingle(x: Value)
    requires x.Num? || x.Str?
    ensures ToText(Arr([x])) == ToText(x)
  {
    assert [x][0] == x;
  }

  /** An array of two or more items converts to NaN, since its text holds a comma. */
  lemma ToNumberOfLongArray(items: seq<Value>)
    requires |items| >= 2
    ensures ToNumber(Arr(items)) == NaN
  {
    var first := if items[0].Undefined? || items[0].Null? then "" else ToText(items[0]);
    var text := JoinItems(items);
    assert text == first + "," + JoinItems(items[1..]);
    assert text[|first|] == ',';
    CommaIsNaN(text, |first|);
  }

  /** Text that starts with a letter, as the catalogue's game ids do, is not a number. */
  lemma LetterIsNaN(s: string)
    requires s != [] && 'a' <= s[0] <= 'z'
    ensures NumberOfText(s) == NaN
  {
    SkipSpacesOfNonSpace(s);
    var t := SkipSpacesEnd(s);
    assert t != [] && t[0] == s[0];
    assert LeadingDigits(t) == [];
  }

  /** `Number([])` is 0, `Number([x])` is `Number(x)` for a number or text `x`, and an array of
      two or more items is NaN. */
  lemma ToNumberOfArray(items: seq<Value>)
    ensures items == [] ==> ToNumber(Arr(items)) == Num(0)
    ensures |items| == 1 && (items[0].Num? || items[0].Str?) ==> ToNumber(Arr(items)) == ToNumber(items[0])
    ensures |items| >= 2 ==> ToNumber(Arr(items)) == NaN
  {
    if items == [] {
      assert ToText(Arr(items)) == "";
      assert SkipSpacesEnd(SkipSpaces("")) == "";
    } else if |items| == 1 {
      if items[0].Num? || items[0].Str? {
        assert items == [items[0]];
        JoinSingle(items[0]);
        if items[0].Num? {
          ToNumberOfText(items[0].n);
        }
      }
    } else {
      ToNumberOfLongArray(items);
    }
  }
}
