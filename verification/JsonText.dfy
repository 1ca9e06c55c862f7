/** JSON values, the text JSON.stringify prints for them (section 25.5.2 of ECMA-262) and a parser
    for JSON texts (RFC 8259). Text is a sequence of UTF-16 code units. */
module JsonText {
  type Unit = u: int | 0 <= u < 0x10000
  type Text = seq<Unit>

  const TAB: Unit := 0x09
  const LF: Unit := 0x0A
  const CR: Unit := 0x0D
  const SPACE: Unit := 0x20
  const QUOTE: Unit := 0x22
  const AMP: Unit := 0x26
  const PLUS: Unit := 0x2B
  const COMMA: Unit := 0x2C
  const MINUS: Unit := 0x2D
  const DOT: Unit := 0x2E
  const SLASH: Unit := 0x2F
  const COLON: Unit := 0x3A
  const LT: Unit := 0x3C
  const GT: Unit := 0x3E
  const LBRACKET: Unit := 0x5B
  const BACKSLASH: Unit := 0x5C
  const RBRACKET: Unit := 0x5D
  const LOWER_F: Unit := 0x66
  const LOWER_N: Unit := 0x6E
  const LOWER_T: Unit := 0x74
  const LOWER_U: Unit := 0x75
  const LBRACE: Unit := 0x7B
  const RBRACE: Unit := 0x7D

  const NULL_TEXT: Text := [0x6E, 0x75, 0x6C, 0x6C]
  const TRUE_TEXT: Text := [0x74, 0x72, 0x75, 0x65]
  const FALSE_TEXT: Text := [0x66, 0x61, 0x6C, 0x73, 0x65]

  /** A value as JSON.stringify enumerates it; a number is the text of its token. */
  datatype Json =
    | Null
    | Bool(b: bool)
    | Num(token: Text)
    | Str(s: Text)
    | Arr(items: seq<Json>)
    | Obj(fields: seq<Field>)

  datatype Field = Field(key: Text, value: Json)

  // ----- numbers (section 6 of RFC 8259)

  predicate IsDigit(u: Unit) {
    0x30 <= u <= 0x39
  }

  predicate IsNumberUnit(u: Unit) {
    IsDigit(u) || u == MINUS || u == PLUS || u == DOT || u == 0x65 || u == 0x45
  }

  function Digits(s: Text): (n: nat)
    ensures n <= |s| && (forall i :: 0 <= i < n ==> IsDigit(s[i])) && (n < |s| ==> !IsDigit(s[n]))
  {
    if s == [] || !IsDigit(s[0]) then 0 else 1 + Digits(s[1..])
  }

  predicate IsExponent(s: Text) {
    s == [] ||
    ((s[0] == 0x65 || s[0] == 0x45) &&
     var d := if |s| > 1 && (s[1] == PLUS || s[1] == MINUS) then s[2..] else s[1..];
     d != [] && Digits(d) == |d|)
  }

  predicate IsFraction(s: Text) {
    if s != [] && s[0] == DOT then Digits(s[1..]) > 0 && IsExponent(s[1 + Digits(s[1..])..]) else IsExponent(s)
  }

  predicate IsNumber(t: Text) {
    var a := if t != [] && t[0] == MINUS then t[1..] else t;
    Digits(a) > 0 && (a[0] == 0x30 ==> Digits(a) == 1) && IsFraction(a[Digits(a)..])
  }

  ghost predicate WellFormed(v: Json) {
    match v
    case Num(t) => IsNumber(t)
    case Arr(items) => forall i :: 0 <= i < |items| ==> WellFormed(items[i])
    case Obj(fields) => forall i :: 0 <= i < |fields| ==> WellFormed(fields[i].value)
    case _ => true
  }

  // ----- printer

  function HexDigit(d: nat): Unit
    requires d < 16
  {
    if d < 10 then 0x30 + d else 0x57 + d
  }

  function UnicodeEscape(u: Unit): Text {
    [BACKSLASH, LOWER_U, HexDigit(u / 0x1000), HexDigit(u / 0x100 % 16), HexDigit(u / 16 % 16), HexDigit(u % 16)]
  }

  predicate IsHighSurrogate(u: Unit) {
    0xD800 <= u <= 0xDBFF
  }

  predicate IsLowSurrogate(u: Unit) {
    0xDC00 <= u <= 0xDFFF
  }

  function QuoteUnit(u: Unit): Text {
    if u == 0x08 then [BACKSLASH, 0x62]
    else if u == TAB then [BACKSLASH, 0x74]
    else if u == LF then [BACKSLASH, 0x6E]
    else if u == 0x0C then [BACKSLASH, 0x66]
    else if u == CR then [BACKSLASH, 0x72]
    else if u == QUOTE then [BACKSLASH, QUOTE]
    else if u == BACKSLASH then [BACKSLASH, BACKSLASH]
    else if u < SPACE || IsHighSurrogate(u) || IsLowSurrogate(u) then UnicodeEscape(u)
    else [u]
  }

  // The functions below print in front of a text that follows, so Print(v) is PrintOnto(v, []).

  /** A surrogate pair is printed as it is, an unpaired surrogate as an escape. */
  function QuoteOnto(s: Text, rest: Text): Text {
    if s == [] then [QUOTE] + rest
    else if |s| >= 2 && IsHighSurrogate(s[0]) && IsLowSurrogate(s[1]) then [s[0]] + ([s[1]] + QuoteOnto(s[2..], rest))
    else QuoteUnit(s[0]) + QuoteOnto(s[1..], rest)
  }

  function PrintOnto(v: Json, rest: Text): Text
    decreases v, 1
  {
    match v
    case Null => NULL_TEXT + rest
    case Bool(b) => if b then TRUE_TEXT + rest else FALSE_TEXT + rest
    case Num(t) => t + rest
    case Str(s) => [QUOTE] + QuoteOnto(s, rest)
    case Arr(items) => [LBRACKET] + ItemsOnto(items, rest)
    case Obj(fields) => [LBRACE] + FieldsOnto(fields, rest)
  }

  function ItemsOnto(items: seq<Json>, rest: Text): Text
    decreases items, 0
  {
    if items == [] then [RBRACKET] + rest
    else PrintOnto(items[0], if |items| == 1 then [RBRACKET] + rest else [COMMA] + ItemsOnto(items[1..], rest))
  }

  function FieldsOnto(fields: seq<Field>, rest: Text): Text
    decreases fields, 0
  {
    if fields == [] then [RBRACE] + rest
    else
      var tail := if |fields| == 1 then [RBRACE] + rest else [COMMA] + FieldsOnto(fields[1..], rest);
      [QUOTE] + QuoteOnto(fields[0].key, [COLON] + PrintOnto(fields[0].value, tail))
  }

  function Print(v: Json): Text {
    PrintOnto(v, [])
  }

  // ----- parser

  datatype Parsed<+T> = Fail | Ok(value: T, rest: Text)

  predicate IsSpace(u: Unit) {
    u == SPACE || u == TAB || u == LF || u == CR
  }

  function SkipSpace(s: Text): (r: Text)
    ensures |r| <= |s|
  {
    if s != [] && IsSpace(s[0]) then SkipSpace(s[1..]) else s
  }

  function HexValue(u: Unit): int {
    if IsDigit(u) then u - 0x30
    else if 0x61 <= u <= 0x66 then u - 0x57
    else if 0x41 <= u <= 0x46 then u - 0x37
    else -1
  }

  /** What a two-unit escape stands for, -1 when there is no such escape. */
  function EscapeValue(u: Unit): int {
    if u == QUOTE || u == BACKSLASH || u == SLASH then u
    else if u == 0x62 then 0x08
    else if u == 0x66 then 0x0C
    else if u == 0x6E then LF
    else if u == 0x72 then CR
    else if u == 0x74 then TAB
    else -1
  }

  predicate IsHex4(s: Text) {
    |s| >= 4 && HexValue(s[0]) >= 0 && HexValue(s[1]) >= 0 && HexValue(s[2]) >= 0 && HexValue(s[3]) >= 0
  }

  function Hex4(s: Text): Unit
    requires IsHex4(s)
  {
    HexValue(s[0]) * 0x1000 + HexValue(s[1]) * 0x100 + HexValue(s[2]) * 16 + HexValue(s[3])
  }

  /** One character of a string body (section 7 of RFC 8259). */
  function ParseChar(s: Text): (p: Parsed<Unit>)
    ensures p.Ok? ==> |p.rest| < |s|
  {
    if s == [] || s[0] < SPACE || s[0] == QUOTE then Fail
    else if s[0] != BACKSLASH then Ok(s[0], s[1..])
    else if |s| < 2 then Fail
    else if EscapeValue(s[1]) >= 0 then Ok(EscapeValue(s[1]), s[2..])
    else if s[1] == LOWER_U && IsHex4(s[2..]) then Ok(Hex4(s[2..]), s[6..])
    else Fail
  }

  /** The characters after the opening quotation mark, up to and over the closing one. */
  function ParseBody(s: Text): (p: Parsed<Text>)
    ensures p.Ok? ==> |p.rest| < |s|
    decreases |s|
  {
    if s != [] && s[0] == QUOTE then Ok([], s[1..])
    else
      match ParseChar(s)
      case Fail => Fail
      case Ok(u, r) =>
        match ParseBody(r)
        case Fail => Fail
        case Ok(t, r') => Ok([u] + t, r')
  }

  function NumberRun(s: Text): (n: nat)
    ensures n <= |s| && (forall i :: 0 <= i < n ==> IsNumberUnit(s[i])) && (n < |s| ==> !IsNumberUnit(s[n]))
  {
    if s == [] || !IsNumberUnit(s[0]) then 0 else 1 + NumberRun(s[1..])
  }

  function ParseNumber(s: Text): (p: Parsed<Json>)
    ensures p.Ok? ==> |p.rest| < |s|
  {
    var n := NumberRun(s);
    if IsNumber(s[..n]) then Ok(Num(s[..n]), s[n..]) else Fail
  }

  function ParseLiteral(s: Text, literal: Text, v: Json): (p: Parsed<Json>)
    requires literal != []
    ensures p.Ok? ==> |p.rest| < |s|
  {
    if literal <= s then Ok(v, s[|literal|..]) else Fail
  }

  function ParseValue(s: Text): (p: Parsed<Json>)
    ensures p.Ok? ==> |p.rest| < |s|
    decreases |s|, 1
  {
    ParseToken(SkipSpace(s))
  }

  /** A value that starts at once, told apart by its first unit. */
  function ParseToken(s: Text): (p: Parsed<Json>)
    ensures p.Ok? ==> |p.rest| < |s|
    decreases |s|, 0
  {
    if s == [] then Fail
    else if IsDigit(s[0]) || s[0] == MINUS then ParseNumber(s)
    else if s[0] == QUOTE then
      match ParseBody(s[1..])
      case Fail => Fail
      case Ok(t, r) => Ok(Str(t), r)
    else if s[0] == LBRACKET then ParseArray(s[1..])
    else if s[0] == LBRACE then ParseObject(s[1..])
    else if s[0] == LOWER_N then ParseLiteral(s, NULL_TEXT, Null)
    else if s[0] == LOWER_T then ParseLiteral(s, TRUE_TEXT, Bool(true))
    else if s[0] == LOWER_F then ParseLiteral(s, FALSE_TEXT, Bool(false))
    else Fail
  }

  function ParseArray(s: Text): (p: Parsed<Json>)
    ensures p.Ok? ==> |p.rest| <= |s|
    decreases |s|, 3
  {
    if Next(s, RBRACKET) then Ok(Arr([]), AfterNext(s, RBRACKET))
    else
      match ParseItems(s)
      case Fail => Fail
      case Ok(items, r) => Ok(Arr(items), r)
  }

  function ParseObject(s: Text): (p: Parsed<Json>)
    ensures p.Ok? ==> |p.rest| <= |s|
    decreases |s|, 3
  {
    if Next(s, RBRACE) then Ok(Obj([]), AfterNext(s, RBRACE))
    else
      match ParseFields(s)
      case Fail => Fail
      case Ok(fields, r) => Ok(Obj(fields), r)
  }

  /** The next unit after white space is u. */
  predicate Next(s: Text, u: Unit) {
    SkipSpace(s) != [] && SkipSpace(s)[0] == u
  }

  function AfterNext(s: Text, u: Unit): (r: Text)
    requires Next(s, u)
    ensures |r| < |s|
  {
    SkipSpace(s)[1..]
  }

  function ParseItems(s: Text): (p: Parsed<seq<Json>>)
    ensures p.Ok? ==> |p.rest| < |s|
    decreases |s|, 2
  {
    match ParseValue(s)
    case Fail => Fail
    case Ok(v, r) =>
      if Next(r, RBRACKET) then Ok([v], AfterNext(r, RBRACKET))
      else if Next(r, COMMA) then
        match ParseItems(AfterNext(r, COMMA))
        case Fail => Fail
        case Ok(items, r') => Ok([v] + items, r')
      else Fail
  }

  function ParseFields(s: Text): (p: Parsed<seq<Field>>)
    ensures p.Ok? ==> |p.rest| < |s|
    decreases |s|, 2
  {
    if !Next(s, QUOTE) then Fail
    else
      match ParseBody(AfterNext(s, QUOTE))
      case Fail => Fail
      case Ok(key, k) =>
        if !Next(k, COLON) then Fail
        else
          match ParseValue(AfterNext(k, COLON))
          case Fail => Fail
          case Ok(v, r) =>
            if Next(r, RBRACE) then Ok([Field(key, v)], AfterNext(r, RBRACE))
            else if Next(r, COMMA) then
              match ParseFields(AfterNext(r, COMMA))
              case Fail => Fail
              case Ok(fields, r') => Ok([Field(key, v)] + fields, r')
            else Fail
  }

  datatype Outcome = Malformed | Value(v: Json)

  /** A whole JSON text. */
  function Parse(text: Text): Outcome {
    match ParseValue(text)
    case Fail => Malformed
    case Ok(v, r) => if SkipSpace(r) == [] then Value(v) else Malformed
  }

  // ----- parsing what the printer prints

  lemma HexArithmetic(u: Unit)
    ensures u == u / 0x1000 * 0x1000 + u / 0x100 % 16 * 0x100 + u / 16 % 16 * 16 + u % 16
  {
    var a: int, b: int, c: int := u / 16, u / 0x100, u / 0x1000;
    assert u == a * 16 + u % 16;
    assert b == a / 16 && a == b * 16 + a % 16;
    assert c == b / 16 && b == c * 16 + b % 16;
  }

  lemma HexRoundTrip(u: Unit, rest: Text)
    ensures var h := UnicodeEscape(u)[2..] + rest; IsHex4(h) && Hex4(h) == u
  {
    HexArithmetic(u);
  }

  lemma CharRoundTrip(u: Unit, rest: Text)
    ensures ParseChar(QuoteUnit(u) + rest) == Ok(u, rest)
    ensures QuoteUnit(u) != [] && QuoteUnit(u)[0] != QUOTE
  {
    var q := QuoteUnit(u);
    var s := q + rest;
    assert s[|q|..] == rest;
    if |q| == 6 {
      HexRoundTrip(u, rest);
      assert s[2..] == UnicodeEscape(u)[2..] + rest;
    }
  }

  /** One step of ParseBody. */
  lemma BodyStep(s: Text, u: Unit, r: Text, t: Text, rest: Text)
    requires s != [] && s[0] != QUOTE && ParseChar(s) == Ok(u, r) && ParseBody(r) == Ok(t, rest)
    ensures ParseBody(s) == Ok([u] + t, rest)
  {
  }

  /** One unit, or one surrogate pair, in front of a body that parses. */
  lemma UnitStep(u: Unit, tail: Text, t: Text, rest: Text)
    requires ParseBody(tail) == Ok(t, rest)
    ensures ParseBody(QuoteUnit(u) + tail) == Ok([u] + t, rest)
  {
    CharRoundTrip(u, tail);
    BodyStep(QuoteUnit(u) + tail, u, tail, t, rest);
  }

  lemma RawStep(u: Unit, tail: Text, t: Text, rest: Text)
    requires u > BACKSLASH && ParseBody(tail) == Ok(t, rest)
    ensures ParseBody([u] + tail) == Ok([u] + t, rest)
  {
    BodyStep([u] + tail, u, tail, t, rest);
  }

  lemma {:induction false} BodyRoundTrip(s: Text, rest: Text)
    ensures ParseBody(QuoteOnto(s, rest)) == Ok(s, rest)
    decreases |s|
  {
    if s == [] {
      assert ([QUOTE] + rest)[1..] == rest;
    } else if |s| >= 2 && IsHighSurrogate(s[0]) && IsLowSurrogate(s[1]) {
      var tail := QuoteOnto(s[2..], rest);
      BodyRoundTrip(s[2..], rest);
      RawStep(s[1], tail, s[2..], rest);
      RawStep(s[0], [s[1]] + tail, [s[1]] + s[2..], rest);
      assert s == [s[0]] + ([s[1]] + s[2..]);
    } else {
      BodyRoundTrip(s[1..], rest);
      UnitStep(s[0], QuoteOnto(s[1..], rest), s[1..], rest);
      assert s == [s[0]] + s[1..];
    }
  }

  /** Only units a number token can have. */
  ghost predicate Units(s: Text) {
    forall i :: 0 <= i < |s| ==> IsNumberUnit(s[i])
  }

  lemma UnitsOfConcat(a: Text, b: Text)
    requires Units(a) && Units(b)
    ensures Units(a + b)
  {
  }

  /** The digits at the front, and what follows them. */
  lemma DigitsFront(s: Text) returns (front: Text, rest: Text)
    ensures |front| == Digits(s) && front == s[..Digits(s)] && rest == s[Digits(s)..] && s == front + rest
    ensures (forall i :: 0 <= i < |front| ==> IsDigit(front[i])) && Units(front)
  {
    var n := Digits(s);
    front, rest := s[..n], s[n..];
  }

  lemma ExponentUnits(s: Text)
    requires IsExponent(s)
    ensures Units(s)
  {
    if s != [] {
      var d := if |s| > 1 && (s[1] == PLUS || s[1] == MINUS) then s[2..] else s[1..];
      var front, rest := DigitsFront(d);
      assert front == d;
      assert s == s[..|s| - |d|] + d;
      UnitsOfConcat(s[..|s| - |d|], d);
    }
  }

  lemma FractionUnits(s: Text)
    requires IsFraction(s)
    ensures Units(s)
  {
    if s != [] && s[0] == DOT {
      var front, rest := DigitsFront(s[1..]);
      assert rest == s[1 + Digits(s[1..])..];
      ExponentUnits(rest);
      UnitsOfConcat(front, rest);
      UnitsOfConcat([DOT], s[1..]);
      assert s == [DOT] + s[1..];
    } else {
      ExponentUnits(s);
    }
  }

  lemma UnsignedUnits(a: Text)
    requires Digits(a) > 0 && IsFraction(a[Digits(a)..])
    ensures IsDigit(a[0]) && Units(a)
  {
    var front, rest := DigitsFront(a);
    FractionUnits(rest);
    UnitsOfConcat(front, rest);
  }

  lemma NumberUnits(t: Text)
    requires IsNumber(t)
    ensures t != [] && (IsDigit(t[0]) || t[0] == MINUS) && Units(t)
  {
    var a := if t != [] && t[0] == MINUS then t[1..] else t;
    UnsignedUnits(a);
    if t[0] == MINUS {
      assert t == [MINUS] + a;
      UnitsOfConcat([MINUS], a);
    }
  }

  ghost predicate DigitsOnly(s: Text) {
    s != [] && forall i :: 0 <= i < |s| ==> 0x30 <= s[i] <= 0x39
  }

  ghost predicate Exponent(e: Text) {
    e == [] || ((e[0] == 0x65 || e[0] == 0x45)
      && (DigitsOnly(e[1..]) || (|e| > 1 && (e[1] == 0x2B || e[1] == 0x2D) && DigitsOnly(e[2..]))))
  }

  /** The grammar of a number: an optional minus, digits without a leading zero, an optional fraction and an optional
      exponent. */
  ghost predicate Number(sign: Text, whole: Text, fraction: Text, exponent: Text) {
    && (sign == [] || sign == [0x2D])
    && DigitsOnly(whole) && (whole[0] == 0x30 ==> |whole| == 1)
    && (fraction == [] || (fraction[0] == 0x2E && DigitsOnly(fraction[1..])))
    && Exponent(exponent)
  }

  lemma {:induction false} DigitsEnd(s: Text, rest: Text)
    requires (forall i :: 0 <= i < |s| ==> IsDigit(s[i])) && (rest == [] || !IsDigit(rest[0]))
    ensures Digits(s + rest) == |s|
  {
    if s == [] {
      assert s + rest == rest;
    } else {
      DigitsEnd(s[1..], rest);
      assert (s + rest)[1..] == s[1..] + rest;
    }
  }

  lemma DigitsAreAll(d: Text)
    ensures d != [] && Digits(d) == |d| <==> DigitsOnly(d)
  {
    if DigitsOnly(d) {
      DigitsEnd(d, []);
      assert d + [] == d;
    }
  }

  lemma ExponentIff(e: Text)
    ensures IsExponent(e) <==> Exponent(e)
  {
    if e != [] { DigitsAreAll(e[1..]); }
    if |e| > 1 {
      DigitsAreAll(e[2..]);
      assert DigitsOnly(e[1..]) ==> 0x30 <= e[1..][0] <= 0x39;
    }
  }

  lemma FractionOf(fraction: Text, exponent: Text)
    requires Exponent(exponent) && (fraction == [] || (fraction[0] == 0x2E && DigitsOnly(fraction[1..])))
    ensures IsFraction(fraction + exponent)
  {
    ExponentIff(exponent);
    if fraction == [] {
      assert fraction + exponent == exponent;
    } else {
      var s := fraction + exponent;
      assert s[1..] == fraction[1..] + exponent;
      DigitsEnd(fraction[1..], exponent);
      assert s[1 + |fraction[1..]|..] == exponent;
    }
  }

  lemma AfterFirst(s: Text, front: Text, rest: Text)
    requires s != [] && s[1..] == front + rest
    ensures s == ([s[0]] + front) + rest && ([s[0]] + front)[1..] == front
    ensures 1 + |front| <= |s| && s[1 + |front|..] == rest
  {
  }

  lemma FractionParts(s: Text) returns (fraction: Text, exponent: Text)
    requires IsFraction(s)
    ensures s == fraction + exponent && Exponent(exponent)
    ensures fraction == [] || (fraction[0] == 0x2E && DigitsOnly(fraction[1..]))
  {
    if s != [] && s[0] == DOT {
      var front, rest := DigitsFront(s[1..]);
      AfterFirst(s, front, rest);
      fraction, exponent := [DOT] + front, rest;
    } else {
      fraction, exponent := [], s;
      assert [] + s == s;
    }
    ExponentIff(exponent);
  }

  lemma Regroup(sign: Text, whole: Text, fraction: Text, exponent: Text)
    ensures sign + whole + fraction + exponent == sign + (whole + (fraction + exponent))
  {
  }

  lemma UnsignedParts(a: Text) returns (whole: Text, fraction: Text, exponent: Text)
    requires Digits(a) > 0 && (a[0] == 0x30 ==> Digits(a) == 1) && IsFraction(a[Digits(a)..])
    ensures a == whole + (fraction + exponent) && Number([], whole, fraction, exponent)
  {
    var rest;
    whole, rest := DigitsFront(a);
    fraction, exponent := FractionParts(rest);
    assert whole[0] == a[0];
  }

  lemma NumberParts(t: Text) returns (sign: Text, whole: Text, fraction: Text, exponent: Text)
    requires IsNumber(t)
    ensures t == sign + whole + fraction + exponent && Number(sign, whole, fraction, exponent)
  {
    sign := if t != [] && t[0] == MINUS then [MINUS] else [];
    var a := if t != [] && t[0] == MINUS then t[1..] else t;
    whole, fraction, exponent := UnsignedParts(a);
    assert t == sign + a;
    Regroup(sign, whole, fraction, exponent);
  }

  lemma UnsignedOf(a: Text, whole: Text, fraction: Text, exponent: Text)
    requires a == whole + (fraction + exponent) && Number([], whole, fraction, exponent)
    ensures Digits(a) > 0 && (a[0] == 0x30 ==> Digits(a) == 1) && IsFraction(a[Digits(a)..]) && a[0] != MINUS
  {
    var rest := fraction + exponent;
    FractionOf(fraction, exponent);
    assert rest == [] || !IsDigit(rest[0]) by {
      if fraction == [] { assert rest == exponent; } else { assert rest[0] == fraction[0]; }
    }
    DigitsEnd(whole, rest);
    assert a[|whole|..] == rest && a[0] == whole[0];
  }

  lemma NumberOf(t: Text, sign: Text, whole: Text, fraction: Text, exponent: Text)
    requires t == sign + whole + fraction + exponent && Number(sign, whole, fraction, exponent)
    ensures IsNumber(t)
  {
    var a := whole + (fraction + exponent);
    Regroup(sign, whole, fraction, exponent);
    UnsignedOf(a, whole, fraction, exponent);
    if sign == [] {
      assert t == a;
    } else {
      assert t[0] == MINUS && t[1..] == a;
    }
  }

  /** A token is a number exactly when the grammar of section 6 of RFC 8259 has it. */
  lemma IsNumberIff(t: Text)
    ensures IsNumber(t) <==>
      exists sign, whole, fraction, exponent ::
        Number(sign, whole, fraction, exponent) && t == sign + whole + fraction + exponent
  {
    if IsNumber(t) {
      var sign, whole, fraction, exponent := NumberParts(t);
    }
    if sign, whole, fraction, exponent :|
      Number(sign, whole, fraction, exponent) && t == sign + whole + fraction + exponent
    {
      NumberOf(t, sign, whole, fraction, exponent);
    }
  }

  lemma {:induction false} NumberRunStops(t: Text, rest: Text)
    requires Units(t)
    requires rest == [] || !IsNumberUnit(rest[0])
    ensures NumberRun(t + rest) == |t|
  {
    if t == [] {
      assert t + rest == rest;
    } else {
      NumberRunStops(t[1..], rest);
      assert (t + rest)[1..] == t[1..] + rest;
    }
  }

  lemma NumberRoundTrip(t: Text, rest: Text)
    requires IsNumber(t) && (rest == [] || !IsNumberUnit(rest[0]))
    ensures ParseNumber(t + rest) == Ok(Num(t), rest)
  {
    NumberUnits(t);
    NumberRunStops(t, rest);
    assert (t + rest)[..|t|] == t && (t + rest)[|t|..] == rest;
  }

  /** No printed value starts with white space or with a separator. */
  lemma PrintStart(v: Json, rest: Text)
    requires WellFormed(v)
    ensures var s := PrintOnto(v, rest); s != [] && !IsSpace(s[0]) && s[0] != RBRACKET
  {
    if v.Num? { NumberUnits(v.token); }
  }

  lemma Cons(u: Unit, s: Text)
    requires !IsSpace(u)
    ensures ([u] + s)[1..] == s
    ensures forall x :: Next([u] + s, x) <==> u == x
    ensures AfterNext([u] + s, u) == s
  {
  }

  lemma AtToken(s: Text)
    requires s != [] && !IsSpace(s[0])
    ensures ParseValue(s) == ParseToken(s)
    ensures forall x :: Next(s, x) <==> s[0] == x
  {
  }

  lemma LiteralRoundTrip(v: Json, rest: Text)
    requires v.Null? || v.Bool?
    ensures ParseToken(PrintOnto(v, rest)) == Ok(v, rest)
  {
    var t := if v.Null? then NULL_TEXT else if v.b then TRUE_TEXT else FALSE_TEXT;
    assert t <= t + rest && (t + rest)[|t|..] == rest;
  }

  lemma NumberToken(s: Text)
    requires s != [] && (IsDigit(s[0]) || s[0] == MINUS)
    ensures ParseToken(s) == ParseNumber(s)
  {
  }

  lemma FirstUnit(t: Text, rest: Text)
    requires IsNumber(t)
    ensures t + rest != [] && (IsDigit((t + rest)[0]) || (t + rest)[0] == MINUS)
  {
    NumberUnits(t);
  }

  lemma {:induction false} ValueRoundTrip(v: Json, rest: Text)
    requires WellFormed(v) && (rest == [] || !IsNumberUnit(rest[0]))
    ensures ParseValue(PrintOnto(v, rest)) == Ok(v, rest)
    decreases v, 1
  {
    PrintStart(v, rest);
    AtToken(PrintOnto(v, rest));
    match v {
      case Null => LiteralRoundTrip(v, rest);
      case Bool(_) => LiteralRoundTrip(v, rest);
      case Num(t) => FirstUnit(t, rest); NumberToken(t + rest); NumberRoundTrip(t, rest);
      case Str(t) => BodyRoundTrip(t, rest); Cons(QUOTE, QuoteOnto(t, rest));
      case Arr(items) => ItemsRoundTrip(items, rest); Cons(LBRACKET, ItemsOnto(items, rest));
      case Obj(fields) => FieldsRoundTrip(fields, rest); Cons(LBRACE, FieldsOnto(fields, rest));
    }
  }

  lemma {:induction false} ItemsRoundTrip(items: seq<Json>, rest: Text)
    requires forall i :: 0 <= i < |items| ==> WellFormed(items[i])
    ensures ParseArray(ItemsOnto(items, rest)) == Ok(Arr(items), rest)
    ensures items != [] ==> ParseItems(ItemsOnto(items, rest)) == Ok(items, rest)
    decreases items, 0
  {
    if items == [] {
      Cons(RBRACKET, rest);
    } else if |items| == 1 {
      ValueRoundTrip(items[0], [RBRACKET] + rest);
      LastItem(items[0], rest);
      assert [items[0]] == items;
    } else {
      ValueRoundTrip(items[0], [COMMA] + ItemsOnto(items[1..], rest));
      ItemsRoundTrip(items[1..], rest);
      MoreItems(items[0], items[1..], rest);
      assert [items[0]] + items[1..] == items;
    }
  }

  /** One step of ParseItems. */
  lemma ItemsStep(v: Json, tail: Text)
    requires WellFormed(v) && ParseValue(PrintOnto(v, tail)) == Ok(v, tail)
    ensures var s := PrintOnto(v, tail);
      && !Next(s, RBRACKET)
      && (Next(tail, RBRACKET) ==> ParseItems(s) == Ok([v], AfterNext(tail, RBRACKET)))
      && (!Next(tail, RBRACKET) && Next(tail, COMMA) && ParseItems(AfterNext(tail, COMMA)).Ok? ==>
           var p := ParseItems(AfterNext(tail, COMMA)); ParseItems(s) == Ok([v] + p.value, p.rest))
  {
    PrintStart(v, tail);
    AtToken(PrintOnto(v, tail));
  }

  lemma LastItem(v: Json, rest: Text)
    requires WellFormed(v) && ParseValue(PrintOnto(v, [RBRACKET] + rest)) == Ok(v, [RBRACKET] + rest)
    ensures var s := PrintOnto(v, [RBRACKET] + rest);
      !Next(s, RBRACKET) && ParseItems(s) == Ok([v], rest)
  {
    ItemsStep(v, [RBRACKET] + rest);
    Cons(RBRACKET, rest);
  }

  lemma MoreItems(v: Json, more: seq<Json>, rest: Text)
    requires WellFormed(v)
    requires var tail := [COMMA] + ItemsOnto(more, rest); ParseValue(PrintOnto(v, tail)) == Ok(v, tail)
    requires ParseItems(ItemsOnto(more, rest)) == Ok(more, rest)
    ensures var s := PrintOnto(v, [COMMA] + ItemsOnto(more, rest));
      !Next(s, RBRACKET) && ParseItems(s) == Ok([v] + more, rest)
  {
    ItemsStep(v, [COMMA] + ItemsOnto(more, rest));
    Cons(COMMA, ItemsOnto(more, rest));
  }

  /** One step of ParseFields. */
  lemma FieldsStep(f: Field, tail: Text)
    requires ParseValue(PrintOnto(f.value, tail)) == Ok(f.value, tail)
    ensures var s := [QUOTE] + QuoteOnto(f.key, [COLON] + PrintOnto(f.value, tail));
      && (Next(tail, RBRACE) ==> ParseFields(s) == Ok([f], AfterNext(tail, RBRACE)))
      && (!Next(tail, RBRACE) && Next(tail, COMMA) && ParseFields(AfterNext(tail, COMMA)).Ok? ==>
           var p := ParseFields(AfterNext(tail, COMMA)); ParseFields(s) == Ok([f] + p.value, p.rest))
  {
    var value := PrintOnto(f.value, tail);
    Cons(QUOTE, QuoteOnto(f.key, [COLON] + value));
    BodyRoundTrip(f.key, [COLON] + value);
    Cons(COLON, value);
  }

  lemma LastField(f: Field, rest: Text)
    requires ParseValue(PrintOnto(f.value, [RBRACE] + rest)) == Ok(f.value, [RBRACE] + rest)
    ensures ParseFields(FieldsOnto([f], rest)) == Ok([f], rest)
  {
    FieldsStep(f, [RBRACE] + rest);
    Cons(RBRACE, rest);
  }

  lemma MoreFields(f: Field, more: seq<Field>, rest: Text)
    requires more != [] && ParseFields(FieldsOnto(more, rest)) == Ok(more, rest)
    requires var tail := [COMMA] + FieldsOnto(more, rest); ParseValue(PrintOnto(f.value, tail)) == Ok(f.value, tail)
    ensures ParseFields(FieldsOnto([f] + more, rest)) == Ok([f] + more, rest)
  {
    var tail := [COMMA] + FieldsOnto(more, rest);
    FieldsStep(f, tail);
    Cons(COMMA, FieldsOnto(more, rest));
    assert ([f] + more)[1..] == more;
  }

  lemma FieldsStart(fields: seq<Field>, rest: Text)
    requires fields != []
    ensures FieldsOnto(fields, rest) != [] && FieldsOnto(fields, rest)[0] == QUOTE && !Next(FieldsOnto(fields, rest), RBRACE)
  {
  }

  lemma {:induction false} FieldsRoundTrip(fields: seq<Field>, rest: Text)
    requires forall i :: 0 <= i < |fields| ==> WellFormed(fields[i].value)
    ensures ParseObject(FieldsOnto(fields, rest)) == Ok(Obj(fields), rest)
    ensures fields != [] ==> ParseFields(FieldsOnto(fields, rest)) == Ok(fields, rest)
    decreases fields, 0
  {
    if fields == [] {
      Cons(RBRACE, rest);
    } else {
      FieldsStart(fields, rest);
      var f := fields[0];
      if |fields| == 1 {
        ValueRoundTrip(f.value, [RBRACE] + rest);
        LastField(f, rest);
        assert [f] == fields;
      } else {
        ValueRoundTrip(f.value, [COMMA] + FieldsOnto(fields[1..], rest));
        FieldsRoundTrip(fields[1..], rest);
        MoreFields(f, fields[1..], rest);
        assert [f] + fields[1..] == fields;
      }
    }
  }

  /** At an explicit array: [null,true,1]. */
  lemma ArrayText()
    ensures Print(Arr([Null, Bool(true), Num([0x31])])) ==
      [0x5B, 0x6E, 0x75, 0x6C, 0x6C, 0x2C, 0x74, 0x72, 0x75, 0x65, 0x2C, 0x31, 0x5D]
  {
    assert [Null, Bool(true), Num([0x31])][1..] == [Bool(true), Num([0x31])];
    assert [Bool(true), Num([0x31])][1..] == [Num([0x31])];
    assert ItemsOnto([Num([0x31])], []) == [0x31, 0x5D];
    assert ItemsOnto([Bool(true), Num([0x31])], []) == [0x74, 0x72, 0x75, 0x65, 0x2C, 0x31, 0x5D];
    assert ItemsOnto([Null, Bool(true), Num([0x31])], []) ==
      [0x6E, 0x75, 0x6C, 0x6C, 0x2C, 0x74, 0x72, 0x75, 0x65, 0x2C, 0x31, 0x5D];
  }

  lemma LineFeedKey(rest: Text)
    ensures QuoteOnto([LF], rest) == [BACKSLASH, 0x6E, QUOTE] + rest
  {
    assert [LF][1..] == [];
    assert QuoteOnto([], rest) == [QUOTE] + rest;
    assert QuoteUnit(LF) + ([QUOTE] + rest) == [BACKSLASH, 0x6E, QUOTE] + rest;
  }

  /** At an explicit object, with a line feed for its key: {"\n":null}. */
  lemma ObjectText()
    ensures Print(Obj([Field([LF], Null)])) == [0x7B, 0x22, 0x5C, 0x6E, 0x22, 0x3A, 0x6E, 0x75, 0x6C, 0x6C, 0x7D]
  {
    var tail: Text := [COLON] + PrintOnto(Null, [RBRACE]);
    assert [RBRACE] + [] == [RBRACE];
    LineFeedKey(tail);
    assert FieldsOnto([Field([LF], Null)], []) == [QUOTE] + QuoteOnto([LF], tail);
    assert tail == [0x3A, 0x6E, 0x75, 0x6C, 0x6C, 0x7D];
  }

  /** Every surrogate is half of a pair. */
  ghost predicate Paired(s: Text) {
    s == [] ||
    if 0xD800 <= s[0] <= 0xDBFF then |s| >= 2 && 0xDC00 <= s[1] <= 0xDFFF && Paired(s[2..])
    else !(0xDC00 <= s[0] <= 0xDFFF) && Paired(s[1..])
  }

  lemma {:induction false} PlainIsPaired(a: Text, rest: Text)
    requires Paired(rest) && forall i :: 0 <= i < |a| ==> a[i] < 0xD800
    ensures Paired(a + rest)
  {
    if a == [] {
      assert a + rest == rest;
    } else {
      PlainIsPaired(a[1..], rest);
      assert (a + rest)[1..] == a[1..] + rest && (a + rest)[0] == a[0];
    }
  }

  /** One unit below the surrogates in front. */
  lemma UnitPaired(u: Unit, rest: Text)
    requires Paired(rest) && u < 0xD800
    ensures Paired([u] + rest)
  {
    assert ([u] + rest)[1..] == rest;
  }

  lemma QuotedUnit(u: Unit, rest: Text)
    requires Paired(rest)
    ensures Paired(QuoteUnit(u) + rest)
  {
    if QuoteUnit(u) == [u] {
      assert (QuoteUnit(u) + rest)[1..] == rest;
    } else {
      PlainIsPaired(QuoteUnit(u), rest);
    }
  }

  lemma {:induction false} QuotedText(s: Text, rest: Text)
    requires Paired(rest)
    ensures Paired(QuoteOnto(s, rest))
  {
    if s == [] {
      UnitPaired(QUOTE, rest);
    } else if |s| >= 2 && IsHighSurrogate(s[0]) && IsLowSurrogate(s[1]) {
      QuotedText(s[2..], rest);
      var tail := QuoteOnto(s[2..], rest);
      var t := [s[0]] + ([s[1]] + tail);
      assert t[0] == s[0] && t[1] == s[1] && t[2..] == tail;
    } else {
      QuotedText(s[1..], rest);
      QuotedUnit(s[0], QuoteOnto(s[1..], rest));
    }
  }

  lemma NumberPaired(t: Text, rest: Text)
    requires IsNumber(t) && Paired(rest)
    ensures Paired(t + rest)
  {
    NumberUnits(t);
    forall i | 0 <= i < |t| ensures t[i] < 0xD800 {
      assert IsNumberUnit(t[i]);
    }
    PlainIsPaired(t, rest);
  }

  lemma WordPaired(v: Json, rest: Text)
    requires Paired(rest) && (v.Null? || v.Bool?)
    ensures Paired(PrintOnto(v, rest))
  {
    PlainIsPaired(NULL_TEXT, rest);
    PlainIsPaired(TRUE_TEXT, rest);
    PlainIsPaired(FALSE_TEXT, rest);
  }

  lemma {:induction false} PrintedPaired(v: Json, rest: Text)
    requires WellFormed(v) && Paired(rest)
    ensures Paired(PrintOnto(v, rest))
    decreases v, 1
  {
    match v {
      case Num(t) => NumberPaired(t, rest);
      case Str(s) =>
        QuotedText(s, rest);
        UnitPaired(QUOTE, QuoteOnto(s, rest));
      case Arr(items) =>
        ItemsPaired(items, rest);
        UnitPaired(LBRACKET, ItemsOnto(items, rest));
      case Obj(fields) =>
        FieldsPaired(fields, rest);
        UnitPaired(LBRACE, FieldsOnto(fields, rest));
      case _ => WordPaired(v, rest);
    }
  }

  lemma {:induction false} ItemsPaired(items: seq<Json>, rest: Text)
    requires (forall i :: 0 <= i < |items| ==> WellFormed(items[i])) && Paired(rest)
    ensures Paired(ItemsOnto(items, rest))
    decreases items, 0
  {
    UnitPaired(RBRACKET, rest);
    if items != [] {
      if |items| > 1 {
        ItemsPaired(items[1..], rest);
        UnitPaired(COMMA, ItemsOnto(items[1..], rest));
      }
      PrintedPaired(items[0], if |items| == 1 then [RBRACKET] + rest else [COMMA] + ItemsOnto(items[1..], rest));
    }
  }

  lemma {:induction false} FieldsPaired(fields: seq<Field>, rest: Text)
    requires (forall i :: 0 <= i < |fields| ==> WellFormed(fields[i].value)) && Paired(rest)
    ensures Paired(FieldsOnto(fields, rest))
    decreases fields, 0
  {
    UnitPaired(RBRACE, rest);
    if fields != [] {
      if |fields| > 1 {
        FieldsPaired(fields[1..], rest);
        UnitPaired(COMMA, FieldsOnto(fields[1..], rest));
      }
      var tail := if |fields| == 1 then [RBRACE] + rest else [COMMA] + FieldsOnto(fields[1..], rest);
      PrintedPaired(fields[0].value, tail);
      var value := [COLON] + PrintOnto(fields[0].value, tail);
      UnitPaired(COLON, PrintOnto(fields[0].value, tail));
      QuotedText(fields[0].key, value);
      UnitPaired(QUOTE, QuoteOnto(fields[0].key, value));
    }
  }

  /** Well-formed JSON.stringify: the text has no lone surrogate, whatever strings the value holds. */
  lemma PrintIsWellFormed(v: Json)
    requires WellFormed(v)
    ensures Paired(Print(v))
  {
    PrintedPaired(v, []);
  }

  /** Parsing inverts printing. */
  lemma PrintRoundTrip(v: Json)
    requires WellFormed(v)
    ensures Parse(Print(v)) == Value(v)
  {
    ValueRoundTrip(v, []);
  }
}
