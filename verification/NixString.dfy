/** String literals of the rendered NixOS snippet.  Text is a sequence of code points,
    lone surrogates included.  `NixString` renders a value as a Nix string literal by way
    of a JSON string; `NixDecode` reads such a literal back as the Nix language does. */
module NixString {
  import opened Contracts

  type Code = c: int | 0 <= c <= 0x10FFFF

  type Text = seq<Code>

  const TAB: Code := 9
  const NEWLINE: Code := 10
  const RETURN: Code := 13
  const QUOTE: Code := 34
  const DOLLAR: Code := 36
  const SLASH: Code := 47
  const BACKSLASH: Code := 92
  const BRACE: Code := 123
  const LETTER_B: Code := 98
  const LETTER_F: Code := 102
  const LETTER_N: Code := 110
  const LETTER_R: Code := 114
  const LETTER_T: Code := 116
  const LETTER_U: Code := 117

  // ------------------------------------------------------------------ JSON strings

  function HexDigit(d: int): Code
    requires 0 <= d < 16
  {
    if d < 10 then 48 + d else 87 + d
  }

  function Hex4(c: Code): Text
    requires c < 0x10000
  {
    [HexDigit(c / 16 / 16 / 16), HexDigit(c / 16 / 16 % 16), HexDigit(c / 16 % 16), HexDigit(c % 16)]
  }

  function Unicode(c: Code): Text
    requires c < 0x10000
  {
    [BACKSLASH, LETTER_U] + Hex4(c)
  }

  function HighHalf(c: Code): Code
    requires c >= 0x10000
  { 0xD800 + (c - 0x10000) / 1024 }

  function LowHalf(c: Code): Code
    requires c >= 0x10000
  { 0xDC00 + (c - 0x10000) % 1024 }

  /** The letter of a two-character escape, for the code points that have one. */
  function Short(c: Code): Option<Code> {
    if c == QUOTE || c == BACKSLASH then Some(c)
    else if c == NEWLINE then Some(LETTER_N)
    else if c == RETURN then Some(LETTER_R)
    else if c == TAB then Some(LETTER_T)
    else if c == 8 then Some(LETTER_B)
    else if c == 12 then Some(LETTER_F)
    else None
  }

  /** One code point of a JSON string; `ascii` is the default form with \u escapes. */
  function JsonChar(c: Code, ascii: bool): Text {
    if Short(c).Some? then [BACKSLASH, Short(c).value]
    else if c < 32 then Unicode(c)
    else if ascii && c > 126 then
      if c < 0x10000 then Unicode(c) else Unicode(HighHalf(c)) + Unicode(LowHalf(c))
    else [c]
  }

  function JsonBody(s: Text, ascii: bool): Text
  {
    if s == [] then [] else JsonChar(s[0], ascii) + JsonBody(s[1..], ascii)
  }

  function JsonString(s: Text, ascii: bool): Text
  {
    [QUOTE] + JsonBody(s, ascii) + [QUOTE]
  }

  // ------------------------------------------------------------------- Nix literals

  /** Replacing every `${` by `\${`, left to right. */
  function Guarded(s: Text): Text {
    if s == [] then []
    else if |s| >= 2 && s[0] == DOLLAR && s[1] == BRACE then [BACKSLASH, DOLLAR, BRACE] + Guarded(s[2..])
    else [s[0]] + Guarded(s[1..])
  }

  function NixLiteral(s: Text): Text
  {
    Guarded(JsonString(s, false))
  }

  function Unescaped(c: Code): Code {
    if c == LETTER_N then NEWLINE else if c == LETTER_R then RETURN else if c == LETTER_T then TAB else c
  }

  function Cons(c: Code, rest: Option<Text>): Option<Text> {
    if rest.None? then None else Some([c] + rest.value)
  }

  /** The rest of a double-quoted Nix string up to its closing quote, which must be the
      last character; `None` for an interpolation or an unterminated literal.  Two dollars
      in a row stand for themselves, and a raw carriage return reads as a newline. */
  function NixRest(s: Text): Option<Text>
    decreases |s|
  {
    if s == [] then None
    else if s[0] == QUOTE then if |s| == 1 then Some([]) else None
    else if s[0] == BACKSLASH then if |s| < 2 then None else Cons(Unescaped(s[1]), NixRest(s[2..]))
    else if s[0] == DOLLAR && |s| >= 2 && s[1] == BRACE then None
    else if s[0] == DOLLAR && |s| >= 2 && s[1] == DOLLAR then Cons(DOLLAR, Cons(DOLLAR, NixRest(s[2..])))
    else if s[0] == RETURN then Cons(NEWLINE, NixRest(if |s| >= 2 && s[1] == NEWLINE then s[2..] else s[1..]))
    else Cons(s[0], NixRest(s[1..]))
  }

  function NixDecode(literal: Text): Option<Text> {
    if literal != [] && literal[0] == QUOTE then NixRest(literal[1..]) else None
  }

  // ------------------------------------------------------- what Nix reads of a literal

  predicate Control(c: Code) {
    c < 32 && c != TAB && c != NEWLINE && c != RETURN
  }

  /** The escape of any other control character loses its backslash. */
  function NixSees(c: Code): Text
  {
    if Control(c) then JsonChar(c, false)[1..] else [c]
  }

  function NixReads(s: Text): Text
  {
    if s == [] then [] else NixSees(s[0]) + NixReads(s[1..])
  }

  function Tail(s: Text): Text
  {
    Guarded(JsonBody(s, false) + [QUOTE])
  }

  lemma {:induction false} GuardedPlain(a: Text, b: Text)
    requires DOLLAR !in a
    ensures Guarded(a + b) == a + Guarded(b)
    decreases |a|
  {
    if a == [] {
      assert a + b == b;
    } else {
      assert (a + b)[0] == a[0] && (a + b)[1..] == a[1..] + b;
      GuardedPlain(a[1..], b);
    }
  }

  lemma BodyUnfolds(s: Text)
    requires s != []
    ensures JsonBody(s, false) + [QUOTE] == JsonChar(s[0], false) + (JsonBody(s[1..], false) + [QUOTE])
  {
  }

  lemma TailEnds()
    ensures Tail([]) == [QUOTE]
  {
    assert JsonBody([], false) + [QUOTE] == [QUOTE];
    assert [QUOTE][1..] == [];
    assert Guarded([QUOTE]) == [QUOTE] + Guarded([]);
  }

  /** One step of the guard at a dollar. */
  lemma GuardedDollar(body: Text)
    ensures body != [] && body[0] == BRACE ==> Guarded([DOLLAR] + body) == [BACKSLASH, DOLLAR, BRACE] + Guarded(body[1..])
    ensures !(body != [] && body[0] == BRACE) ==> Guarded([DOLLAR] + body) == [DOLLAR] + Guarded(body)
  {
    var all := [DOLLAR] + body;
    assert all[1..] == body;
    if body != [] { assert all[1] == body[0] && all[2..] == body[1..]; }
  }

  lemma DollarUnfolds(s: Text)
    requires s != [] && s[0] == DOLLAR
    ensures |s| > 1 && s[1] == BRACE ==> Tail(s) == [BACKSLASH, DOLLAR, BRACE] + Tail(s[2..])
    ensures !(|s| > 1 && s[1] == BRACE) ==> Tail(s) == [DOLLAR] + Tail(s[1..])
  {
    BodyUnfolds(s);
    var body := JsonBody(s[1..], false) + [QUOTE];
    assert JsonBody(s, false) + [QUOTE] == [DOLLAR] + body;
    hide Guarded;
    GuardedDollar(body);
    if |s| > 1 {
      BodyUnfolds(s[1..]);
      assert s[1..][0] == s[1] && s[1..][1..] == s[2..];
      if s[1] == BRACE { assert body[1..] == JsonBody(s[2..], false) + [QUOTE]; }
    }
  }

  /** The literal seen from code point to code point. */
  lemma TailUnfolds(s: Text)
    ensures s == [] ==> Tail(s) == [QUOTE]
    ensures s != [] && s[0] != DOLLAR ==> Tail(s) == JsonChar(s[0], false) + Tail(s[1..])
    ensures s != [] && s[0] == DOLLAR && |s| > 1 && s[1] == BRACE ==>
              Tail(s) == [BACKSLASH, DOLLAR, BRACE] + Tail(s[2..])
    ensures s != [] && s[0] == DOLLAR && !(|s| > 1 && s[1] == BRACE) ==> Tail(s) == [DOLLAR] + Tail(s[1..])
  {
    if s == [] {
      TailEnds();
    } else if s[0] == DOLLAR {
      DollarUnfolds(s);
    } else {
      BodyUnfolds(s);
      assert DOLLAR !in JsonChar(s[0], false);
      GuardedPlain(JsonChar(s[0], false), JsonBody(s[1..], false) + [QUOTE]);
    }
  }

  predicate HexDigits(s: Text) {
    forall i :: 0 <= i < |s| ==> 48 <= s[i] <= 57 || 97 <= s[i] <= 102
  }

  lemma Hex4Shape(c: Code)
    requires c < 0x10000
    ensures |Hex4(c)| == 4 && HexDigits(Hex4(c))
  {
  }

  function Before(prefix: Text, rest: Option<Text>): Option<Text> {
    if rest.None? then None else Some(prefix + rest.value)
  }

  lemma NixRestOfEscape(rest: Text)
    ensures NixRest([BACKSLASH, LETTER_U] + rest) == Before([LETTER_U], NixRest(rest))
  {
    var all := [BACKSLASH, LETTER_U] + rest;
    assert all[0] == BACKSLASH && all[1] == LETTER_U && all[2..] == rest;
  }

  lemma ControlSpelled(c: Code)
    requires c < 32 && Short(c).None?
    ensures JsonChar(c, false) == [BACKSLASH, LETTER_U] + Hex4(c) && NixSees(c) == [LETTER_U] + Hex4(c)
  {
    hide Hex4;
  }

  lemma BeforeTwice(a: Text, b: Text, rest: Option<Text>)
    ensures Before(a, Before(b, rest)) == Before(a + b, rest)
  {
    if rest.Some? { assert a + (b + rest.value) == a + b + rest.value; }
  }

  lemma NixRestOfControl(c: Code, rest: Text)
    requires c < 32 && Short(c).None?
    ensures NixRest(JsonChar(c, false) + rest) == Before(NixSees(c), NixRest(rest))
  {
    hide Hex4, JsonChar, NixSees, NixRest, Before, HexDigits;
    Hex4Shape(c);
    NixRestOfDigits(Hex4(c), rest);
    ControlSpelled(c);
    NixRestOfEscape(Hex4(c) + rest);
    assert JsonChar(c, false) + rest == [BACKSLASH, LETTER_U] + (Hex4(c) + rest);
    BeforeTwice([LETTER_U], Hex4(c), NixRest(rest));
  }

  lemma NixRestOfShort(c: Code, rest: Text)
    requires Short(c).Some?
    ensures NixRest(JsonChar(c, false) + rest) == Before(NixSees(c), NixRest(rest))
  {
    var all := JsonChar(c, false) + rest;
    assert all[0] == BACKSLASH && all[1] == Short(c).value && all[2..] == rest;
  }

  lemma NixRestOfChar(c: Code, rest: Text)
    requires c != DOLLAR
    ensures NixRest(JsonChar(c, false) + rest) == Before(NixSees(c), NixRest(rest))
  {
    if Short(c).Some? {
      hide NixRest, JsonChar, NixSees;
      NixRestOfShort(c, rest);
    } else if c < 32 {
      hide NixRest, JsonChar, NixSees;
      NixRestOfControl(c, rest);
    } else {
      hide Hex4;
      var all := [c] + rest;
      assert JsonChar(c, false) + rest == all;
      assert all[0] == c && all[1..] == rest;
    }
  }

  lemma {:induction false} NixRestOfDigits(digits: Text, rest: Text)
    requires HexDigits(digits)
    ensures NixRest(digits + rest) == Before(digits, NixRest(rest))
    decreases |digits|
  {
    if digits == [] {
      assert digits + rest == rest;
      if NixRest(rest).Some? { assert digits + NixRest(rest).value == NixRest(rest).value; }
    } else {
      assert (digits + rest)[0] == digits[0] && (digits + rest)[1..] == digits[1..] + rest;
      NixRestOfDigits(digits[1..], rest);
      if NixRest(rest).Some? {
        assert [digits[0]] + (digits[1..] + NixRest(rest).value) == digits + NixRest(rest).value;
      }
    }
  }

  lemma NixRestOfDollar(rest: Text)
    requires rest != [] && rest[0] != BRACE && rest[0] != DOLLAR
    ensures NixRest([DOLLAR] + rest) == Before([DOLLAR], NixRest(rest))
  {
    var all := [DOLLAR] + rest;
    assert all[0] == DOLLAR && all[1] == rest[0] && all[1..] == rest;
  }

  lemma NixRestOfDollars(rest: Text)
    ensures NixRest([DOLLAR, DOLLAR] + rest) == Before([DOLLAR, DOLLAR], NixRest(rest))
  {
    var all := [DOLLAR, DOLLAR] + rest;
    assert all[0] == DOLLAR && all[1] == DOLLAR && all[2..] == rest;
    if NixRest(rest).Some? {
      assert [DOLLAR] + ([DOLLAR] + NixRest(rest).value) == [DOLLAR, DOLLAR] + NixRest(rest).value;
    }
  }

  lemma NixRestOfGuard(rest: Text)
    ensures NixRest([BACKSLASH, DOLLAR, BRACE] + rest) == Before([DOLLAR, BRACE], NixRest(rest))
  {
    var all := [BACKSLASH, DOLLAR, BRACE] + rest;
    assert all[0] == BACKSLASH && all[1] == DOLLAR && all[2..] == [BRACE] + rest;
    assert ([BRACE] + rest)[0] == BRACE && ([BRACE] + rest)[1..] == rest;
    if NixRest(rest).Some? {
      assert [DOLLAR] + ([BRACE] + NixRest(rest).value) == [DOLLAR, BRACE] + NixRest(rest).value;
    }
  }

  lemma NixReadsTwo(s: Text)
    requires |s| > 1 && !Control(s[0]) && !Control(s[1])
    ensures NixReads(s) == [s[0], s[1]] + NixReads(s[2..])
  {
    hide JsonChar;
    assert s[1..][0] == s[1] && s[1..][1..] == s[2..];
    assert NixReads(s) == [s[0]] + ([s[1]] + NixReads(s[2..]));
  }

  /** The first character of what follows: never an opening brace where the text has none. */
  lemma TailStarts(s: Text)
    ensures Tail(s) != []
    ensures s == [] || s[0] != BRACE ==> Tail(s)[0] != BRACE
    ensures Tail(s)[0] == DOLLAR ==> s != [] && s[0] == DOLLAR && !(|s| > 1 && s[1] == BRACE)
  {
    hide Tail, Hex4;
    TailUnfolds(s);
    if s != [] && s[0] != DOLLAR {
      assert JsonChar(s[0], false) != [] && Tail(s)[0] == JsonChar(s[0], false)[0];
    }
  }

  lemma {:induction false} NixReadsTail(s: Text)
    ensures NixRest(Tail(s)) == Some(NixReads(s))
    decreases |s|
  {
    hide Tail, NixRest, JsonChar;
    TailUnfolds(s);
    if s == [] {
      assert NixRest([QUOTE]) == Some([]) by { EmptyLiteral(); }
    } else if s[0] != DOLLAR {
      NixReadsTail(s[1..]);
      NixRestOfChar(s[0], Tail(s[1..]));
    } else if |s| > 1 && s[1] == BRACE {
      NixReadsTail(s[2..]);
      NixRestOfGuard(Tail(s[2..]));
      NixReadsTwo(s);
    } else {
      TailStarts(s[1..]);
      if Tail(s[1..])[0] == DOLLAR {
        NixReadsTail(s[2..]);
        TailUnfolds(s[1..]);
        assert s[1..][1..] == s[2..];
        NixRestOfDollars(Tail(s[2..]));
        assert Tail(s) == [DOLLAR, DOLLAR] + Tail(s[2..]);
        NixReadsTwo(s);
      } else {
        NixReadsTail(s[1..]);
        NixRestOfDollar(Tail(s[1..]));
      }
    }
  }

  lemma EmptyLiteral()
    ensures NixRest([QUOTE]) == Some([])
  {
  }

  lemma NixReadsLiteral(s: Text)
    ensures NixDecode(NixLiteral(s)) == Some(NixReads(s))
  {
    var all := JsonString(s, false);
    assert all == [QUOTE] + (JsonBody(s, false) + [QUOTE]);
    GuardedPlain([QUOTE], JsonBody(s, false) + [QUOTE]);
    NixReadsTail(s);
  }

  lemma {:induction false} NixReadsSame(s: Text)
    ensures NixReads(s) == s <==> forall c :: c in s ==> !Control(c)
    decreases |s|
  {
    if s != [] {
      NixReadsSame(s[1..]);
      if Control(s[0]) {
        assert NixReads(s)[0] == JsonChar(s[0], false)[1];
        assert s[0] in s;
      } else {
        assert NixReads(s) == [s[0]] + NixReads(s[1..]) && s == [s[0]] + s[1..];
        assert NixReads(s)[1..] == NixReads(s[1..]);
      }
    }
  }

  /** A rendered string never interpolates, and Nix reads it back unchanged exactly when
      its only control characters are newline, carriage return and tab. */
  lemma NixRoundTrip(s: Text)
    ensures NixDecode(NixLiteral(s)).Some?
    ensures NixDecode(NixLiteral(s)) == Some(s) <==> forall c :: c in s ==> !Control(c)
  {
    NixReadsLiteral(s);
    NixReadsSame(s);
  }

  /** Any other control character comes back as its escape without the backslash. */
  lemma ControlIsLost(c: Code)
    requires Control(c)
    ensures NixDecode(NixLiteral([c])) == Some(JsonChar(c, false)[1..]) && JsonChar(c, false)[1..] != [c]
  {
    hide NixDecode, NixLiteral;
    NixReadsLiteral([c]);
    NixReadsSame([c]);
    assert [c][1..] == [] && NixReads([]) == [];
    assert c in [c] && NixReads([c]) == NixSees(c) + [] == NixSees(c);
  }

  // ------------------------------------------------------------- reading JSON strings

  function HexValue(d: Code): Option<Code> {
    if 48 <= d <= 57 then Some(d - 48)
    else if 97 <= d <= 102 then Some(d - 87)
    else if 65 <= d <= 70 then Some(d - 55)
    else None
  }

  function Hex4Value(s: Text): Option<Code> {
    if |s| < 4 then None
    else
      var a, b, c, d := HexValue(s[0]), HexValue(s[1]), HexValue(s[2]), HexValue(s[3]);
      if a.None? || b.None? || c.None? || d.None? then None
      else Some(((a.value * 16 + b.value) * 16 + c.value) * 16 + d.value)
  }

  predicate High(c: Code) { 0xD800 <= c <= 0xDBFF }

  predicate Low(c: Code) { 0xDC00 <= c <= 0xDFFF }

  function Joined(high: Code, low: Code): Code
    requires High(high) && Low(low)
  {
    0x10000 + (high - 0xD800) * 1024 + (low - 0xDC00)
  }

  /** The low half that follows a high one, if an escape for it comes next. */
  function NextLow(s: Text): Option<Code> {
    if |s| >= 6 && s[0] == BACKSLASH && s[1] == LETTER_U && Hex4Value(s[2..]).Some? && Low(Hex4Value(s[2..]).value)
    then Hex4Value(s[2..]) else None
  }

  /** The code point a two-character escape stands for. */
  function Long(letter: Code): Option<Code> {
    if letter == QUOTE || letter == BACKSLASH || letter == SLASH then Some(letter)
    else if letter == LETTER_B then Some(8)
    else if letter == LETTER_F then Some(12)
    else if letter == LETTER_N then Some(NEWLINE)
    else if letter == LETTER_R then Some(RETURN)
    else if letter == LETTER_T then Some(TAB)
    else None
  }

  /** The rest of a JSON string (section 7 of RFC 8259) with the text after its quote. */
  function JsonRest(s: Text): (r: Option<(Text, Text)>)
    ensures r.Some? ==> |r.value.1| < |s|
    decreases |s|
  {
    if s == [] || s[0] < 32 then None
    else if s[0] == QUOTE then Some(([], s[1..]))
    else if s[0] != BACKSLASH then Put(s[0], JsonRest(s[1..]))
    else if |s| < 2 then None
    else if s[1] == LETTER_U then
      var code := Hex4Value(s[2..]);
      if code.None? then None
      else if High(code.value) && NextLow(s[6..]).Some?
      then Put(Joined(code.value, NextLow(s[6..]).value), JsonRest(s[12..]))
      else Put(code.value, JsonRest(s[6..]))
    else if Long(s[1]).Some? then Put(Long(s[1]).value, JsonRest(s[2..]))
    else None
  }

  function Put(c: Code, rest: Option<(Text, Text)>): Option<(Text, Text)> {
    if rest.None? then None else Some(([c] + rest.value.0, rest.value.1))
  }

  /** Adjacent halves of a surrogate pair read back as the one code point they spell. */
  function Merged(s: Text): Text
    decreases |s|
  {
    if s == [] then []
    else if |s| >= 2 && High(s[0]) && Low(s[1]) then [Joined(s[0], s[1])] + Merged(s[2..])
    else [s[0]] + Merged(s[1..])
  }

  predicate NoSplitPair(s: Text) {
    forall k :: 0 <= k < |s| - 1 ==> !(High(s[k]) && Low(s[k + 1]))
  }

  lemma DigitRoundTrip(d: int)
    requires 0 <= d < 16
    ensures HexValue(HexDigit(d)) == Some(d)
  {
  }

  lemma Hex4RoundTrip(c: Code, rest: Text)
    requires c < 0x10000
    ensures Hex4Value(Hex4(c) + rest) == Some(c)
  {
    hide HexDigit, HexValue;
    var h := Hex4(c) + rest;
    var p, q, r := c / 16, c / 16 / 16, c / 16 / 16 / 16;
    DigitRoundTrip(r);
    DigitRoundTrip(q % 16);
    DigitRoundTrip(p % 16);
    DigitRoundTrip(c % 16);
    assert h[0] == HexDigit(r) && h[1] == HexDigit(q % 16) && h[2] == HexDigit(p % 16) && h[3] == HexDigit(c % 16);
    assert q == r * 16 + q % 16 && p == q * 16 + p % 16 && c == p * 16 + c % 16;
  }

  lemma HalvesJoin(c: Code)
    requires c >= 0x10000
    ensures High(HighHalf(c)) && Low(LowHalf(c)) && Joined(HighHalf(c), LowHalf(c)) == c
  {
  }

  lemma JsonRestOfUnicode(c: Code, rest: Text)
    requires c < 0x10000
    ensures JsonRest(Unicode(c) + rest) ==
            (if High(c) && NextLow(rest).Some? then Put(Joined(c, NextLow(rest).value), JsonRest(rest[6..]))
             else Put(c, JsonRest(rest)))
  {
    hide Hex4, Hex4Value;
    Hex4Shape(c);
    var all := Unicode(c) + rest;
    assert all[0] == BACKSLASH && all[1] == LETTER_U && all[2..] == Hex4(c) + rest && all[6..] == rest;
    Hex4RoundTrip(c, rest);
    if NextLow(rest).Some? { assert all[12..] == rest[6..]; }
  }

  lemma NextLowOfUnicode(c: Code, rest: Text)
    requires c < 0x10000
    ensures NextLow(Unicode(c) + rest) == if Low(c) then Some(c) else None
  {
    hide Hex4, Hex4Value;
    Hex4Shape(c);
    var all := Unicode(c) + rest;
    assert all[0] == BACKSLASH && all[1] == LETTER_U && all[2..] == Hex4(c) + rest;
    Hex4RoundTrip(c, rest);
  }

  predicate Escaped(c: Code) {
    Short(c).None? && (c < 32 || c > 126)
  }

  lemma NextLowOfPlain(c: Code, after: Text)
    requires !Escaped(c)
    ensures NextLow(JsonChar(c, true) + after).None? && !Low(c)
  {
    hide Hex4Value;
    var t := JsonChar(c, true) + after;
    assert t[0] == JsonChar(c, true)[0];
    if Short(c).Some? { assert t[1] == Short(c).value; }
  }

  lemma NextLowOfWide(c: Code, after: Text)
    requires c >= 0x10000
    ensures NextLow(JsonChar(c, true) + after).None? && !Low(c)
  {
    hide Unicode, NextLow, HighHalf, LowHalf;
    HalvesJoin(c);
    assert JsonChar(c, true) + after == Unicode(HighHalf(c)) + (Unicode(LowHalf(c)) + after);
    NextLowOfUnicode(HighHalf(c), Unicode(LowHalf(c)) + after);
  }

  /** What follows in a body starts with the escape of a low half exactly when the text does. */
  lemma NextLowOfBody(s: Text, rest: Text)
    ensures NextLow(JsonBody(s, true) + [QUOTE] + rest) == if s != [] && Low(s[0]) then Some(s[0]) else None
  {
    var t := JsonBody(s, true) + [QUOTE] + rest;
    if s == [] {
      assert t[0] == QUOTE;
    } else {
      hide NextLow, Unicode, Short;
      var c := s[0];
      var after := JsonBody(s[1..], true) + [QUOTE] + rest;
      assert t == JsonChar(c, true) + after;
      if !Escaped(c) { NextLowOfPlain(c, after); }
      else if c < 0x10000 { NextLowOfUnicode(c, after); }
      else { NextLowOfWide(c, after); }
    }
  }

  lemma JsonReadsWide(c: Code, after: Text)
    requires c >= 0x10000
    ensures JsonRest(JsonChar(c, true) + after) == Put(c, JsonRest(after))
  {
    hide Hex4, Hex4Value, HighHalf, LowHalf;
    HalvesJoin(c);
    var low := Unicode(LowHalf(c)) + after;
    assert JsonChar(c, true) + after == Unicode(HighHalf(c)) + low;
    NextLowOfUnicode(LowHalf(c), after);
    JsonRestOfUnicode(HighHalf(c), low);
    Hex4Shape(LowHalf(c));
    assert low[6..] == after;
  }

  lemma JsonReadsPlain(c: Code, after: Text)
    requires !Escaped(c)
    ensures JsonRest(JsonChar(c, true) + after) == Put(c, JsonRest(after))
  {
    var t := JsonChar(c, true) + after;
    if Short(c).Some? {
      assert t[0] == BACKSLASH && t[1] == Short(c).value && t[2..] == after;
    } else {
      assert t[0] == c && t[1..] == after;
    }
  }

  lemma {:induction false} JsonReadsBody(s: Text, rest: Text)
    ensures JsonRest(JsonBody(s, true) + [QUOTE] + rest) == Some((Merged(s), rest))
    decreases |s|
  {
    hide Hex4, Hex4Value, HighHalf, LowHalf, NextLow;
    var t := JsonBody(s, true) + [QUOTE] + rest;
    if s == [] {
      assert t[0] == QUOTE && t[1..] == rest;
    } else {
      hide JsonRest;
      var c := s[0];
      var after := JsonBody(s[1..], true) + [QUOTE] + rest;
      assert t == JsonChar(c, true) + after;
      JsonReadsBody(s[1..], rest);
      if c >= 0x10000 {
        JsonReadsWide(c, after);
      } else if !Escaped(c) {
        JsonReadsPlain(c, after);
      } else {
        NextLowOfBody(s[1..], rest);
        JsonRestOfUnicode(c, after);
        if High(c) && |s| > 1 && Low(s[1]) {
          JsonReadsBody(s[2..], rest);
          AfterEscape(s[1..], rest);
        }
      }
    }
  }

  lemma AfterEscape(s: Text, rest: Text)
    requires s != [] && Low(s[0])
    ensures (JsonBody(s, true) + [QUOTE] + rest)[6..] == JsonBody(s[1..], true) + [QUOTE] + rest
  {
    hide Hex4;
    Hex4Shape(s[0]);
    assert JsonBody(s, true) + [QUOTE] + rest == Unicode(s[0]) + (JsonBody(s[1..], true) + [QUOTE] + rest);
  }

  lemma {:induction false} MergedSame(s: Text)
    ensures |Merged(s)| <= |s|
    ensures Merged(s) == s <==> NoSplitPair(s)
    decreases |s|
  {
    if s == [] {
    } else if |s| >= 2 && High(s[0]) && Low(s[1]) {
      MergedSame(s[2..]);
      assert |Merged(s)| < |s|;
    } else {
      MergedSame(s[1..]);
      assert Merged(s)[1..] == Merged(s[1..]);
      assert s == [s[0]] + s[1..];
      SplitPairTail(s);
    }
  }

  lemma SplitPairTail(s: Text)
    requires s != [] && !(|s| >= 2 && High(s[0]) && Low(s[1]))
    ensures NoSplitPair(s) <==> NoSplitPair(s[1..])
  {
    var t := s[1..];
    if NoSplitPair(s) {
      forall k | 0 <= k < |t| - 1 ensures !(High(t[k]) && Low(t[k + 1])) {
        assert t[k] == s[k + 1] && t[k + 1] == s[k + 1 + 1];
      }
    }
    if NoSplitPair(t) {
      forall k | 0 <= k < |s| - 1 ensures !(High(s[k]) && Low(s[k + 1])) {
        if k > 0 { assert t[k - 1] == s[k] && t[k - 1 + 1] == s[k + 1]; }
      }
    }
  }

  predicate Printable(s: Text) {
    forall c :: c in s ==> 32 <= c <= 126
  }

  lemma AsciiUnicode(c: Code)
    requires c < 0x10000
    ensures Printable(Unicode(c))
  {
    hide Hex4;
    Hex4Shape(c);
  }

  lemma {:induction false} AsciiBody(s: Text)
    ensures Printable(JsonBody(s, true))
    decreases |s|
  {
    hide Unicode, HighHalf, LowHalf;
    if s != [] {
      AsciiBody(s[1..]);
      if s[0] < 0x10000 {
        AsciiUnicode(s[0]);
      } else {
        HalvesJoin(s[0]);
        AsciiUnicode(HighHalf(s[0]));
        AsciiUnicode(LowHalf(s[0]));
      }
    }
  }

  /** A JSON string inside a Nix string: Nix gives back the JSON text, and reading that
      JSON gives back the original text exactly when no surrogate pair is split in it. */
  lemma JsonInNixRoundTrip(s: Text)
    ensures var json := JsonString(s, true);
            && NixDecode(NixLiteral(json)) == Some(json)
            && json[0] == QUOTE && JsonRest(json[1..]) == Some((Merged(s), []))
            && (Merged(s) == s <==> NoSplitPair(s))
  {
    var json := JsonString(s, true);
    AsciiBody(s);
    assert Printable(json);
    NixRoundTrip(json);
    JsonReadsBody(s, []);
    assert json[1..] == JsonBody(s, true) + [QUOTE] + [];
    MergedSame(s);
  }
}
