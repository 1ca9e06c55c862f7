/** safeJsonLd: a JSON text with '<', '>' and '&' replaced by escapes for embedding in a script element. */
module JsonLd {
  import opened Wrappers
  import opened JsonText

  const LT_ESCAPE: Text := [BACKSLASH, LOWER_U, 0x30, 0x30, 0x33, 0x63]
  const GT_ESCAPE: Text := [BACKSLASH, LOWER_U, 0x30, 0x30, 0x33, 0x65]
  const AMP_ESCAPE: Text := [BACKSLASH, LOWER_U, 0x30, 0x30, 0x32, 0x36]

  predicate IsMarkup(u: Unit) {
    u == LT || u == GT || u == AMP
  }

  function EscapeOf(u: Unit): Text
    requires IsMarkup(u)
  {
    if u == LT then LT_ESCAPE else if u == GT then GT_ESCAPE else AMP_ESCAPE
  }

  /** String.prototype.replace with a global one-character pattern. */
  function Replace(s: Text, u: Unit, sub: Text): Text {
    if s == [] then [] else (if s[0] == u then sub else [s[0]]) + Replace(s[1..], u, sub)
  }

  /** data is None when JSON.stringify returns undefined. */
  function SafeJsonLd(data: Option<Json>): Text {
    match data
    case None => [LBRACE, RBRACE]
    case Some(v) => Replace(Replace(Replace(Print(v), LT, LT_ESCAPE), GT, GT_ESCAPE), AMP, AMP_ESCAPE)
  }

  /** The same escapes in a single pass. */
  function Escape(s: Text): Text {
    if s == [] then [] else (if IsMarkup(s[0]) then EscapeOf(s[0]) else [s[0]]) + Escape(s[1..])
  }

  // ----- three replacements are one pass

  lemma TailOfConcat(a: Text, b: Text)
    requires a != []
    ensures a + b != [] && (a + b)[0] == a[0] && (a + b)[1..] == a[1..] + b
  {
  }

  lemma {:induction false} ReplaceConcat(a: Text, b: Text, u: Unit, sub: Text)
    ensures Replace(a + b, u, sub) == Replace(a, u, sub) + Replace(b, u, sub)
  {
    if a == [] {
      assert a + b == b;
    } else {
      ReplaceConcat(a[1..], b, u, sub);
      TailOfConcat(a, b);
    }
  }

  lemma {:induction false} ReplaceNothing(a: Text, u: Unit, sub: Text)
    requires u !in a
    ensures Replace(a, u, sub) == a
  {
    if a != [] {
      ReplaceNothing(a[1..], u, sub);
    }
  }

  /** One character through the three passes. */
  lemma UnitAnyOrder(x: Unit, u: Unit, v: Unit, w: Unit)
    requires {u, v, w} == {LT, GT, AMP}
    ensures Replace(Replace(Replace([x], u, EscapeOf(u)), v, EscapeOf(v)), w, EscapeOf(w)) ==
      if IsMarkup(x) then EscapeOf(x) else [x]
  {
    assert IsMarkup(u) && IsMarkup(v) && IsMarkup(w) && u != v && v != w && u != w by {
      assert u in {u, v, w} && v in {u, v, w} && w in {u, v, w};
      assert LT in {u, v, w} && GT in {u, v, w} && AMP in {u, v, w};
    }
    assert [x][1..] == [];
    var first := if x == u then EscapeOf(u) else [x];
    assert Replace([x], u, EscapeOf(u)) == first;
    var second := if x == v then EscapeOf(v) else first;
    assert Replace(first, v, EscapeOf(v)) == second by {
      if x != v { ReplaceNothing(first, v, EscapeOf(v)); }
    }
    if x != w { ReplaceNothing(second, w, EscapeOf(w)); }
    assert x == u || x == v || x == w <==> IsMarkup(x) by {
      assert x in {u, v, w} <==> x in {LT, GT, AMP};
    }
  }

  /** The three sequential replacements equal one single-pass escape, in any order. */
  lemma {:induction false} AnyOrder(s: Text, u: Unit, v: Unit, w: Unit)
    requires {u, v, w} == {LT, GT, AMP} && IsMarkup(u) && IsMarkup(v) && IsMarkup(w)
    ensures Replace(Replace(Replace(s, u, EscapeOf(u)), v, EscapeOf(v)), w, EscapeOf(w)) == Escape(s)
  {
    if s != [] {
      AnyOrder(s[1..], u, v, w);
      UnitAnyOrder(s[0], u, v, w);
      assert s == [s[0]] + s[1..];
      ReplaceConcat([s[0]], s[1..], u, EscapeOf(u));
      var a, b := Replace([s[0]], u, EscapeOf(u)), Replace(s[1..], u, EscapeOf(u));
      ReplaceConcat(a, b, v, EscapeOf(v));
      ReplaceConcat(Replace(a, v, EscapeOf(v)), Replace(b, v, EscapeOf(v)), w, EscapeOf(w));
    }
  }

  /** No markup character is left. */
  lemma {:induction false} NoMarkup(s: Text)
    ensures 0x3C !in Escape(s) && 0x3E !in Escape(s) && 0x26 !in Escape(s)
  {
    if s != [] {
      NoMarkup(s[1..]);
    }
  }

  // ----- the escape keeps the meaning of every JSON text

  /** A unit the escape leaves alone. */
  lemma PlainHead(s: Text)
    requires s != []
    ensures Escape(s) != []
    ensures !IsMarkup(s[0]) ==> Escape(s)[0] == s[0] && Escape(s)[1..] == Escape(s[1..])
    ensures IsMarkup(s[0]) ==> Escape(s)[0] == BACKSLASH
  {
  }

  lemma {:induction false} PlainPrefix(p: Text, s: Text)
    requires p <= s && forall u :: u in p ==> !IsMarkup(u)
    ensures p <= Escape(s) && Escape(s)[|p|..] == Escape(s[|p|..])
  {
    if p != [] {
      PlainHead(s);
      PlainPrefix(p[1..], s[1..]);
      assert s[|p|..] == s[1..][|p| - 1..];
      assert Escape(s)[|p|..] == Escape(s)[1..][|p| - 1..];
    }
  }

  lemma {:induction false} EscapedSpace(s: Text)
    ensures SkipSpace(Escape(s)) == Escape(SkipSpace(s))
  {
    if s != [] {
      PlainHead(s);
      EscapedSpace(s[1..]);
    }
  }

  lemma EscapedNext(s: Text, u: Unit)
    requires !IsMarkup(u) && u != BACKSLASH
    ensures Next(Escape(s), u) <==> Next(s, u)
    ensures Next(s, u) ==> AfterNext(Escape(s), u) == Escape(AfterNext(s, u))
  {
    EscapedSpace(s);
    if SkipSpace(s) != [] { PlainHead(SkipSpace(s)); }
  }

  lemma MarkupChar(u: Unit, rest: Text)
    requires IsMarkup(u)
    ensures ParseChar(EscapeOf(u) + rest) == Ok(u, rest)
  {
    var s := EscapeOf(u) + rest;
    assert s[2..] == EscapeOf(u)[2..] + rest && s[6..] == rest;
  }

  /** A character of a string body is read to the same unit, and the reader stays aligned: it never
      starts inside an escape, whatever run of backslashes comes before. */
  lemma EscapedChar(s: Text)
    ensures ParseChar(s).Ok? ==> ParseChar(Escape(s)) == Ok(ParseChar(s).value, Escape(ParseChar(s).rest))
  {
    if ParseChar(s).Ok? {
      PlainHead(s);
      if IsMarkup(s[0]) {
        MarkupChar(s[0], Escape(s[1..]));
      } else if s[0] == BACKSLASH {
        var n := |s| - |ParseChar(s).rest|;
        PlainPrefix(s[..n], s);
        var e := Escape(s);
        assert forall i :: 0 <= i < n ==> e[i] == s[..n][i];
      }
    }
  }

  lemma {:induction false} EscapedBody(s: Text)
    ensures ParseBody(s).Ok? ==> ParseBody(Escape(s)) == Ok(ParseBody(s).value, Escape(ParseBody(s).rest))
    decreases |s|
  {
    if ParseBody(s).Ok? {
      PlainHead(s);
      if s[0] != QUOTE {
        EscapedChar(s);
        EscapedBody(ParseChar(s).rest);
        assert Escape(s)[0] != QUOTE;
      }
    }
  }

  lemma SlicesOfCons(u: Unit, t: Text, m: nat)
    requires m <= |t|
    ensures ([u] + t)[..m + 1] == [u] + t[..m] && ([u] + t)[m + 1..] == t[m..]
  {
  }

  lemma {:induction false} EscapedNumberRun(s: Text)
    ensures NumberRun(Escape(s)) == NumberRun(s)
    ensures var n := NumberRun(s); Escape(s)[..n] == s[..n] && Escape(s)[n..] == Escape(s[n..])
  {
    if s != [] {
      PlainHead(s);
      if IsNumberUnit(s[0]) {
        EscapedNumberRun(s[1..]);
        var m := NumberRun(s[1..]);
        assert s == [s[0]] + s[1..];
        SlicesOfCons(s[0], s[1..], m);
        SlicesOfCons(s[0], Escape(s[1..]), m);
      }
    }
  }

  lemma EscapedLiteral(s: Text, literal: Text, v: Json)
    requires literal != [] && forall u :: u in literal ==> !IsMarkup(u)
    ensures ParseLiteral(s, literal, v).Ok? ==>
      ParseLiteral(Escape(s), literal, v) == Ok(v, Escape(ParseLiteral(s, literal, v).rest))
  {
    if literal <= s { PlainPrefix(literal, s); }
  }

  lemma {:induction false} EscapedValue(s: Text)
    ensures ParseValue(s).Ok? ==> ParseValue(Escape(s)) == Ok(ParseValue(s).value, Escape(ParseValue(s).rest))
    decreases |s|, 1
  {
    EscapedSpace(s);
    EscapedToken(SkipSpace(s));
  }

  lemma {:induction false} EscapedToken(s: Text)
    ensures ParseToken(s).Ok? ==> ParseToken(Escape(s)) == Ok(ParseToken(s).value, Escape(ParseToken(s).rest))
    decreases |s|, 0
  {
    if ParseToken(s).Ok? {
      PlainHead(s);
      if IsDigit(s[0]) || s[0] == MINUS { EscapedNumber(s); }
      else if s[0] == QUOTE { EscapedBody(s[1..]); }
      else if s[0] == LBRACKET { EscapedArray(s[1..]); }
      else if s[0] == LBRACE { EscapedObject(s[1..]); }
      else if s[0] == LOWER_N { EscapedLiteral(s, NULL_TEXT, Null); }
      else if s[0] == LOWER_T { EscapedLiteral(s, TRUE_TEXT, Bool(true)); }
      else { EscapedLiteral(s, FALSE_TEXT, Bool(false)); }
    }
  }

  lemma EscapedNumber(s: Text)
    requires ParseNumber(s).Ok?
    ensures s != [] && !IsMarkup(s[0])
    ensures ParseNumber(Escape(s)) == Ok(ParseNumber(s).value, Escape(ParseNumber(s).rest))
  {
    EscapedNumberRun(s);
    NumberUnits(s[..NumberRun(s)]);
  }

  lemma {:induction false} EscapedArray(s: Text)
    ensures ParseArray(s).Ok? ==> ParseArray(Escape(s)) == Ok(ParseArray(s).value, Escape(ParseArray(s).rest))
    decreases |s|, 3
  {
    EscapedNext(s, RBRACKET);
    EscapedItems(s);
  }

  lemma {:induction false} EscapedObject(s: Text)
    ensures ParseObject(s).Ok? ==> ParseObject(Escape(s)) == Ok(ParseObject(s).value, Escape(ParseObject(s).rest))
    decreases |s|, 3
  {
    EscapedNext(s, RBRACE);
    EscapedFields(s);
  }

  lemma {:induction false} EscapedItems(s: Text)
    ensures ParseItems(s).Ok? ==> ParseItems(Escape(s)) == Ok(ParseItems(s).value, Escape(ParseItems(s).rest))
    decreases |s|, 2
  {
    if ParseItems(s).Ok? {
      EscapedValue(s);
      var r := ParseValue(s).rest;
      EscapedNext(r, RBRACKET);
      EscapedNext(r, COMMA);
      if !Next(r, RBRACKET) { EscapedItems(AfterNext(r, COMMA)); }
    }
  }

  lemma {:induction false} EscapedFields(s: Text)
    ensures ParseFields(s).Ok? ==> ParseFields(Escape(s)) == Ok(ParseFields(s).value, Escape(ParseFields(s).rest))
    decreases |s|, 2
  {
    if ParseFields(s).Ok? {
      EscapedNext(s, QUOTE);
      EscapedBody(AfterNext(s, QUOTE));
      var k := ParseBody(AfterNext(s, QUOTE)).rest;
      EscapedNext(k, COLON);
      EscapedValue(AfterNext(k, COLON));
      var r := ParseValue(AfterNext(k, COLON)).rest;
      EscapedNext(r, RBRACE);
      EscapedNext(r, COMMA);
      if !Next(r, RBRACE) { EscapedFields(AfterNext(r, COMMA)); }
    }
  }

  /** Escaping changes no JSON text's value, wherever the markup characters are and whoever printed it. */
  lemma EscapeKeepsMeaning(text: Text)
    ensures Parse(text).Value? ==> Parse(Escape(text)) == Parse(text)
  {
    EscapedValue(text);
    if ParseValue(text).Ok? { EscapedSpace(ParseValue(text).rest); }
  }

  lemma QuoteStep(u: Unit, s: Text)
    requires u < 0x80
    ensures QuoteOnto([u] + s, []) == QuoteUnit(u) + QuoteOnto(s, [])
  {
    assert ([u] + s)[1..] == s;
  }

  /** A JSON string with a stray backslash in front of '<', and what the escape makes of it. */
  const STRAY: Text := [QUOTE, BACKSLASH, LT, QUOTE]
  const STRAY_ESCAPED: Text := [QUOTE, BACKSLASH, BACKSLASH, LOWER_U, 0x30, 0x30, 0x33, 0x63, QUOTE]

  lemma StrayEscape()
    ensures Escape(STRAY) == STRAY_ESCAPED
  {
    assert STRAY[1..] == [BACKSLASH, LT, QUOTE] && [BACKSLASH, LT, QUOTE][1..] == [LT, QUOTE] && [LT, QUOTE][1..] == [QUOTE];
    assert Escape([QUOTE]) == [QUOTE];
    assert Escape([LT, QUOTE]) == LT_ESCAPE + Escape([QUOTE]);
    assert Escape([BACKSLASH, LT, QUOTE]) == [BACKSLASH] + Escape([LT, QUOTE]);
  }

  lemma StrayDigits()
    ensures QuoteOnto([0x30, 0x30, 0x33, 0x63], []) == [0x30, 0x30, 0x33, 0x63, QUOTE]
  {
    assert [0x63] + [] == [0x63];
    QuoteStep(0x63, []);
    QuoteStep(0x33, [0x63]);
    assert QuoteOnto([0x33, 0x63], []) == [0x33, 0x63, QUOTE];
    QuoteStep(0x30, [0x33, 0x63]);
    QuoteStep(0x30, [0x30, 0x33, 0x63]);
  }

  lemma StrayPrint()
    ensures Print(Str(LT_ESCAPE)) == STRAY_ESCAPED
  {
    StrayDigits();
    QuoteStep(LOWER_U, [0x30, 0x30, 0x33, 0x63]);
    QuoteStep(BACKSLASH, [LOWER_U, 0x30, 0x30, 0x33, 0x63]);
    assert LT_ESCAPE == [BACKSLASH] + [LOWER_U, 0x30, 0x30, 0x33, 0x63];
  }

  /** Only of JSON texts: a stray backslash in front of '<' is an error before and a string after. */
  lemma MalformedTextMayChange()
    ensures Parse(STRAY) == Malformed && Parse(Escape(STRAY)) == Value(Str(LT_ESCAPE))
  {
    AtToken(STRAY);
    assert ParseBody(STRAY[1..]) == Fail;
    StrayEscape();
    StrayPrint();
    PrintRoundTrip(Str(LT_ESCAPE));
  }

  /** Parsing inverts safeJsonLd, and its output contains no markup character. */
  lemma SafeJsonLdRoundTrip(data: Option<Json>)
    requires data.Some? ==> WellFormed(data.value)
    ensures Parse(SafeJsonLd(data)) == Value(if data.Some? then data.value else Obj([]))
    ensures 0x3C !in SafeJsonLd(data) && 0x3E !in SafeJsonLd(data) && 0x26 !in SafeJsonLd(data)
  {
    if data.Some? {
      AnyOrder(Print(data.value), LT, GT, AMP);
      PrintRoundTrip(data.value);
      EscapeKeepsMeaning(Print(data.value));
      NoMarkup(Print(data.value));
    } else {
      Cons(LBRACE, [RBRACE]);
      AtToken([LBRACE, RBRACE]);
      assert [LBRACE, RBRACE] == [LBRACE] + [RBRACE];
      Cons(RBRACE, []);
      assert [RBRACE] == [RBRACE] + [];
    }
  }
}
