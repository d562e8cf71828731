/** Reading the Retry-After header the way the client does: as a plain integer, over ASCII. */
module RetryAfter {
  import opened Decimals
  import opened Wrappers

  /** What a number text may be surrounded with, over ASCII. */
  predicate IsSpace(c: char) {
    c == ' ' || '\t' <= c <= '\r' || (28 as char) <= c <= (31 as char)
  }

  function StripLeft(s: string): string {
    if s != [] && IsSpace(s[0]) then StripLeft(s[1..]) else s
  }

  function StripRight(s: string): string {
    if s != [] && IsSpace(s[|s| - 1]) then StripRight(s[..|s| - 1]) else s
  }

  function Strip(s: string): string {
    StripRight(StripLeft(s))
  }

  predicate IsDigit(c: char) { '0' <= c <= '9' }

  /** Digits, with single underscores allowed between them. */
  predicate IsNumeral(s: string) {
    && s != [] && IsDigit(s[0]) && IsDigit(s[|s| - 1])
    && (forall i :: 0 <= i < |s| ==> IsDigit(s[i]) || s[i] == '_')
    && (forall i :: 0 < i < |s| && s[i] == '_' ==> s[i - 1] != '_')
  }

  function WithoutUnderscores(s: string): string {
    if s == [] then [] else (if s[0] == '_' then [] else [s[0]]) + WithoutUnderscores(s[1..])
  }

  /** Longer numerals are refused by the interpreter's own conversion limit. */
  const MAX_DIGITS := 4300

  function Magnitude(body: string): Option<int> {
    var digits := WithoutUnderscores(body);
    if IsNumeral(body) && |digits| <= MAX_DIGITS then Some(Value(digits)) else None
  }

  function ParseSigned(s: string): Option<int> {
    var signed := s != [] && (s[0] == '-' || s[0] == '+');
    match Magnitude(if signed then s[1..] else s)
    case None => None
    case Some(m) => Some(if signed && s[0] == '-' then -m else m)
  }

  function ParseInt(text: string): Option<int> {
    ParseSigned(Strip(text))
  }

  /** The least integer that a float conversion rejects: 2^1024 - 2^970. */
  const FLOAT_LIMIT := 0xFFFFFFFFFFFFFC00000000000000000000000000000000000000000000000000000000000000000000000000000000000000000000000000000000000000000000000000000000000000000000000000000000000000000000000000000000000000000000000000000000000000000000000000000000000000000000000000

  /** `Overflows` stands for the conversion error that nothing catches. */
  datatype Header = Unusable | Usable(seconds: int) | Overflows

  function ParseRetryAfter(value: Option<string>): Header {
    if value == None then Unusable else
      match ParseInt(value.value)
      case None => Unusable
      case Some(n) => if -FLOAT_LIMIT < n < FLOAT_LIMIT then Usable(n) else Overflows
  }

  lemma {:induction false} NoUnderscores(s: string)
    requires forall c :: c in s ==> IsDigit(c)
    ensures WithoutUnderscores(s) == s
  {
    if s != [] {
      assert s[0] in s && forall c :: c in s[1..] ==> c in s;
      NoUnderscores(s[1..]);
      assert [s[0]] + s[1..] == s;
    }
  }

  lemma DigitsRead(body: string)
    requires body != [] && (forall c :: c in body ==> IsDigit(c)) && |body| <= MAX_DIGITS
    ensures Magnitude(body) == Some(Value(body))
  {
    NoUnderscores(body);
    assert forall i :: 0 <= i < |body| ==> body[i] in body;
  }

  function Signed(negative: bool, body: string): string {
    if negative then ['-'] + body else body
  }

  function Spelled(n: int): string {
    Signed(n < 0, Decimal(if n < 0 then -n else n))
  }

  lemma SignedReads(negative: bool, body: string, m: int)
    requires body != [] && IsDigit(body[0]) && Magnitude(body) == Some(m)
    ensures ParseSigned(Signed(negative, body)) == Some(if negative then -m else m)
  {
    assert (['-'] + body)[1..] == body;
  }

  lemma SpelledReads(n: int)
    requires |Decimal(if n < 0 then -n else n)| <= MAX_DIGITS
    ensures ParseSigned(Spelled(n)) == Some(n)
  {
    var m := if n < 0 then -n else n;
    DecimalReads(m);
    DigitsRead(Decimal(m));
    assert Decimal(m)[0] in Decimal(m);
    SignedReads(n < 0, Decimal(m), m);
  }

  /** A header that spells an integer in decimal, with any blanks around it, means that integer: a
      negative one too. One that is too large for a float makes the conversion raise. */
  lemma HeaderRoundTrip(n: int, before: string, after: string)
    requires forall c :: c in before || c in after ==> IsSpace(c)
    requires |Decimal(if n < 0 then -n else n)| <= MAX_DIGITS
    ensures ParseRetryAfter(Some(before + Spelled(n) + after)) == if -FLOAT_LIMIT < n < FLOAT_LIMIT then Usable(n) else Overflows
  {
    var body := Decimal(if n < 0 then -n else n);
    DecimalReads(if n < 0 then -n else n);
    assert body[0] in body && body[|body| - 1] in body;
    StripsBlanks(before, Spelled(n), after);
    SpelledReads(n);
  }

  lemma {:induction false} StripsBlanks(before: string, s: string, after: string)
    requires s != [] && !IsSpace(s[0]) && !IsSpace(s[|s| - 1])
    requires forall c :: c in before || c in after ==> IsSpace(c)
    ensures Strip(before + s + after) == s
    decreases |before|
  {
    var text := before + s + after;
    if before == [] {
      assert text == s + after;
      StripsAfter(s, after);
    } else {
      assert before[0] in before;
      assert text[1..] == before[1..] + s + after;
      StripsBlanks(before[1..], s, after);
    }
  }

  lemma {:induction false} StripsAfter(s: string, after: string)
    requires s != [] && !IsSpace(s[|s| - 1]) && forall c :: c in after ==> IsSpace(c)
    ensures StripRight(s + after) == s
    decreases |after|
  {
    if after == [] {
      assert s + after == s;
    } else {
      assert after[|after| - 1] in after;
      assert (s + after)[..|s + after| - 1] == s + after[..|after| - 1];
      StripsAfter(s, after[..|after| - 1]);
    }
  }

  // ---- which headers can be read ----------------------------------------------------------------------

  predicate Blank(s: string) {
    forall c :: c in s ==> c in {' ', '\t', '\n', 11 as char, 12 as char, '\r', 28 as char, 29 as char, 30 as char, 31 as char}
  }

  /** Decimal digits, at most 4300, perhaps with single underscores between them. */
  predicate Digits(body: string) {
    && body != [] && '0' <= body[0] <= '9' && '0' <= body[|body| - 1] <= '9'
    && (forall i :: 0 <= i < |body| ==> '0' <= body[i] <= '9' || body[i] == '_')
    && (forall i :: 0 < i < |body| && body[i] == '_' ==> body[i - 1] != '_')
    && |body| - multiset(body)['_'] <= 4300
  }

  /** The text is an integer in decimal, perhaps with a sign, and with blanks around it. */
  predicate Spells(text: string, before: string, sign: string, body: string, after: string) {
    text == before + (sign + body) + after && Blank(before) && Blank(after) && sign in {"", "+", "-"} && Digits(body)
  }

  lemma {:induction false} DigitsCounted(s: string)
    ensures |WithoutUnderscores(s)| == |s| - multiset(s)['_']
  {
    if s != [] {
      DigitsCounted(s[1..]);
      assert s == [s[0]] + s[1..];
    }
  }

  lemma {:induction false} LeftBlanks(s: string) returns (before: string)
    ensures Blank(before) && s == before + StripLeft(s)
    decreases |s|
  {
    before := [];
    if s != [] && IsSpace(s[0]) {
      before := LeftBlanks(s[1..]);
      before := [s[0]] + before;
    }
  }

  lemma {:induction false} RightBlanks(s: string) returns (after: string)
    ensures Blank(after) && s == StripRight(s) + after
    decreases |s|
  {
    after := [];
    if s != [] && IsSpace(s[|s| - 1]) {
      after := RightBlanks(s[..|s| - 1]);
      after := after + [s[|s| - 1]];
    }
  }

  /** An absent header gives no number of seconds, and one that is there gives one, or overflows, exactly if it
      spells an integer of at most 4300 digits. A date, say, gives none. */
  lemma ReadableIff(text: string)
    ensures ParseRetryAfter(None) == Unusable
    ensures ParseRetryAfter(Some(text)) != Unusable <==> exists before, sign, body, after :: Spells(text, before, sign, body, after)
  {
    if ParseRetryAfter(Some(text)) != Unusable { SpelledIfRead(text); }
    if before, sign, body, after :| Spells(text, before, sign, body, after) { ReadIfSpelled(text, before, sign, body, after); }
  }

  lemma DigitsIff(body: string)
    ensures Digits(body) <==> Magnitude(body).Some?
    ensures Magnitude(body).Some? ==> Magnitude(body).value == Value(WithoutUnderscores(body))
  {
    DigitsCounted(body);
  }

  /** The sign is the first character, if it is one. */
  lemma SignIff(s: string, sign: string, body: string)
    requires s == sign + body && (sign == "" || sign == "+" || sign == "-") && (sign == "" ==> body == [] || (body[0] != '+' && body[0] != '-'))
    ensures ParseSigned(s) == match Magnitude(body) case None => None case Some(m) => Some(if sign == "-" then -m else m)
  {
    assert sign != "" ==> s[1..] == body;
    assert sign == "" ==> s == body;
  }

  function PowTwo(k: nat): nat {
    if k == 0 then 1 else 2 * PowTwo(k - 1)
  }

  lemma Twice(x: nat, y: nat)
    ensures 2 * (x * y) == (2 * x) * y
  {
  }

  lemma {:induction false} TwosAdd(a: nat, b: nat)
    ensures PowTwo(a + b) == PowTwo(a) * PowTwo(b)
    decreases a
  {
    if a > 0 {
      TwosAdd(a - 1, b);
      Twice(PowTwo(a - 1), PowTwo(b));
    }
  }

  /** Doubling the exponent of a power that is known. */
  lemma TwosSquare(k: nat, value: nat)
    requires PowTwo(k) == value
    ensures PowTwo(k + k) == value * value
  {
    TwosAdd(k, k);
  }

  lemma TwosTo(k: nat, value: nat, extra: nat, more: nat)
    requires PowTwo(k) == value && PowTwo(extra) == more
    ensures PowTwo(k + extra) == value * more
  {
    TwosAdd(k, extra);
  }

  lemma SmallPowers()
    ensures PowTwo(10) == 0x400 && PowTwo(60) == 0x1000_0000_0000_0000 && PowTwo(54) == 0x40_0000_0000_0000
  {
    assert PowTwo(5) == 32;
    TwosSquare(5, 32);
    assert PowTwo(3) == 8 && PowTwo(2) == 4 && PowTwo(4) == 16;
    TwosTo(10, 0x400, 5, 32);
    TwosSquare(15, 0x8000);
    TwosSquare(30, 0x4000_0000);
    TwosTo(10, 0x400, 3, 8);
    TwosSquare(13, 0x2000);
    TwosSquare(26, 0x400_0000);
    TwosTo(52, 0x10_0000_0000_0000, 2, 4);
  }

  const TWO_TO_THE_240 := 0x1000000000000000000000000000000000000000000000000000000000000
  const TWO_TO_THE_970 := 0x400000000000000000000000000000000000000000000000000000000000000000000000000000000000000000000000000000000000000000000000000000000000000000000000000000000000000000000000000000000000000000000000000000000000000000000000000000000000000000000000000

  lemma LargePower()
    ensures PowTwo(970) == TWO_TO_THE_970
  {
    SmallPowers();
    TwosSquare(60, 0x1000_0000_0000_0000);
    TwosSquare(120, 0x1000000000000000000000000000000);
    TwosSquare(240, TWO_TO_THE_240);
    TwosSquare(480, TWO_TO_THE_240 * TWO_TO_THE_240);
    TwosTo(960, TWO_TO_THE_240 * TWO_TO_THE_240 * (TWO_TO_THE_240 * TWO_TO_THE_240), 10, 0x400);
  }

  /** Where a float ends: 54 binary ones and 970 zeros. */
  lemma FloatLimitIs()
    ensures FLOAT_LIMIT == PowTwo(1024) - PowTwo(970)
  {
    SmallPowers();
    LargePower();
    TwosTo(970, TWO_TO_THE_970, 54, 0x40_0000_0000_0000);
  }

  /** And what it then means: the digits' value with its sign, unless a float cannot hold it. */
  lemma ReadAs(text: string, before: string, sign: string, body: string, after: string)
    requires Spells(text, before, sign, body, after)
    ensures var m: int := Value(WithoutUnderscores(body));
            var n: int := if sign == "-" then -m else m;
            ParseRetryAfter(Some(text)) == if -FLOAT_LIMIT < n < FLOAT_LIMIT then Usable(n) else Overflows
  {
    ReadIfSpelled(text, before, sign, body, after);
  }

  lemma StripParts(text: string) returns (before: string, after: string)
    ensures text == before + Strip(text) + after && Blank(before) && Blank(after)
  {
    before := LeftBlanks(text);
    after := RightBlanks(StripLeft(text));
    assert text == before + (Strip(text) + after);
  }

  lemma SignParts(s: string) returns (sign: string, body: string)
    ensures s == sign + body && sign in {"", "+", "-"} && (sign == "" ==> body == [] || body[0] !in {'+', '-'})
  {
    if s != [] && s[0] in {'-', '+'} {
      sign, body := [s[0]], s[1..];
    } else {
      sign, body := "", s;
    }
  }

  lemma SpelledIfRead(text: string)
    requires ParseInt(text).Some?
    ensures exists before, sign, body, after :: Spells(text, before, sign, body, after)
  {
    var before, after := StripParts(text);
    var sign, body := SignParts(Strip(text));
    SignIff(Strip(text), sign, body);
    DigitsIff(body);
    assert Spells(text, before, sign, body, after);
  }

  lemma BlankIsSpace(s: string)
    requires Blank(s)
    ensures forall c :: c in s ==> IsSpace(c)
  {
  }

  lemma ReadIfSpelled(text: string, before: string, sign: string, body: string, after: string)
    requires Spells(text, before, sign, body, after)
    ensures var m: int := Value(WithoutUnderscores(body)); ParseInt(text) == Some(if sign == "-" then -m else m)
  {
    var s := sign + body;
    BlankIsSpace(before);
    BlankIsSpace(after);
    EndsBare(s, sign, body);
    StripsBlanks(before, s, after);
    SpelledSigned(s, sign, body);
  }

  lemma SpelledSigned(s: string, sign: string, body: string)
    requires s == sign + body && sign in {"", "+", "-"} && Digits(body)
    ensures var m: int := Value(WithoutUnderscores(body)); ParseSigned(s) == Some(if sign == "-" then -m else m)
  {
    DigitsIff(body);
    DigitFirst(body);
    SignIff(s, sign, body);
  }

  lemma DigitFirst(body: string)
    requires Digits(body)
    ensures body != [] && body[0] != '+' && body[0] != '-'
  {
  }

  lemma EndsBare(s: string, sign: string, body: string)
    requires s == sign + body && sign in {"", "+", "-"} && Digits(body)
    ensures s != [] && !IsSpace(s[0]) && !IsSpace(s[|s| - 1])
  {
    assert s[|s| - 1] == body[|body| - 1];
  }

  // ---- an integer that is too large ---------------------------------------------------------------

  lemma {:induction false} PowAdds(a: nat, b: nat)
    ensures Pow10(a + b) == Pow10(a) * Pow10(b)
    decreases a
  {
    if a > 0 {
      PowAdds(a - 1, b);
      assert Pow10(a + b) == 10 * Pow10(a - 1 + b);
      assert 10 * (Pow10(a - 1) * Pow10(b)) == (10 * Pow10(a - 1)) * Pow10(b);
    }
  }

  lemma {:induction false} PowTenDecimal(k: nat)
    ensures Decimal(Pow10(k)) == "1" + seq(k, _ => '0')
  {
    if k > 0 {
      PowTenDecimal(k - 1);
      assert Pow10(k) >= 10 by { PowGrows(k); }
      assert Pow10(k) / 10 == Pow10(k - 1) && Pow10(k) % 10 == 0;
      assert "1" + seq(k - 1, _ => '0') + ['0'] == "1" + seq(k, _ => '0');
    }
  }

  lemma HugePower(k: nat)
    requires Pow10(k) == 100000
    ensures Pow10(64 * k) >= FLOAT_LIMIT
  {
    PowAdds(k, k);
    PowAdds(2 * k, 2 * k);
    PowAdds(4 * k, 4 * k);
    PowAdds(8 * k, 8 * k);
    PowAdds(16 * k, 16 * k);
    PowAdds(32 * k, 32 * k);
  }

  lemma HugeOverflows(zeros: nat)
    requires zeros == 64 * 5
    ensures ParseRetryAfter(Some("1" + seq(zeros, _ => '0'))) == Overflows
  {
    var n := Pow10(zeros);
    var text := "1" + seq(zeros, _ => '0');
    PowTenDecimal(zeros);
    HugePower(5);
    HeaderRoundTrip(n, "", "");
    assert "" + text + "" == text;
  }
}
