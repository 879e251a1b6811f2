/** Exact native-currency amounts of backend/app/core/money.py: decimals read from text, their
    canonical text, and sums under a 256-digit context that rounds half to even. */
module Money {
  import opened Prelude
  import opened Texts
  import opened Powers

  /** A finite decimal: coefficient times ten to the exponent. Zero keeps its sign. */
  datatype Dec = Dec(neg: bool, coeff: nat, exp: int)

  const PLACES: nat := 96
  const WHOLE: nat := 64
  const PRECISION: nat := 256

  /* ---- Reading ---- */

  predicate IsSpace(c: char) { c == ' ' || 9 <= c as int <= 13 }

  function StripLeft(s: string): string { if s != [] && IsSpace(s[0]) then StripLeft(s[1..]) else s }

  function StripRight(s: string): string
    decreases |s|
  {
    if s != [] && IsSpace(s[|s| - 1]) then StripRight(s[..|s| - 1]) else s
  }

  function WithoutUnderscores(s: string): string {
    if s == [] then [] else (if s[0] == '_' then [] else [s[0]]) + WithoutUnderscores(s[1..])
  }

  function Clean(s: string): string { WithoutUnderscores(StripRight(StripLeft(s))) }

  function Unsigned(s: string): string { if s != [] && (s[0] == '-' || s[0] == '+') then s[1..] else s }

  /** Nothing, or an exponent mark, a sign and at least one digit. */
  function Exponent(s: string): Option<int> {
    if s == [] then Some(0)
    else if s[0] != 'e' && s[0] != 'E' then None
    else
      var digits := Unsigned(s[1..]);
      if digits == [] || Span(digits) != |digits| then None
      else
        var n := Number(digits[..Span(digits)]);
        Some(if s[1] == '-' then -(n as int) else n)
  }

  /** `Decimal(str(value))`; nothing for text that is not a finite decimal. */
  function Parse(text: string): Option<Dec> {
    var s := Clean(text);
    var u := Unsigned(s);
    var i := Span(u);
    var point := i < |u| && u[i] == '.';
    var f := if point then u[i + 1..] else [];
    var j := Span(f);
    var e := Exponent(if point then f[j..] else u[i..]);
    if i + j == 0 || e.None? then None
    else Some(Dec(s[0] == '-', DigitsOf(u[..i], f[..j]), e.value - j))
  }

  function DigitsOf(a: string, b: string): nat
    requires AllDigits(a) && AllDigits(b)
  {
    Number(a + b)
  }

  /** The checks of `decimal_amount`, in terms of digits and exponent. */
  predicate Accepted(d: Dec) {
    && !(d.neg && d.coeff > 0)
    && |NatText(d.coeff)| <= 192 && |NatText(d.coeff)| - 1 + d.exp <= WHOLE - 1 && d.exp + PLACES >= 0
  }

  function DecimalAmount(text: string): Option<Dec> {
    var d := Parse(text);
    if d.Some? && Accepted(d.value) then d else None
  }

  /* ---- Writing ---- */

  function RStrip(s: string, c: char): string
    decreases |s|
  {
    if s != [] && s[|s| - 1] == c then RStrip(s[..|s| - 1], c) else s
  }

  function Trim(s: string): string { RStrip(RStrip(s, '0'), '.') }

  /** The digits before and behind the point of `c` in units of ten to the `-k`. */
  function Before(c: nat, k: nat): nat { Quotient(c, Pow10(k)) }

  function Behind(c: nat, k: nat): nat { Remainder(c, Pow10(k)) }

  function TextOf(d: Dec): string {
    if d.coeff == 0 then "0"
    else if d.exp >= 0 then NatText(d.coeff) + Zeros(d.exp)
    else
      var k := -d.exp;
      Trim(NatText(Before(d.coeff, k)) + ['.'] + Pad(Behind(d.coeff, k), k))
  }

  function AmountText(text: string): Option<string> {
    var d := DecimalAmount(text);
    if d.Some? then Some(TextOf(d.value)) else None
  }

  /* ---- Adding ---- */

  function Min(a: int, b: int): int { if a < b then a else b }

  /** Round a coefficient to the precision, half to even; a carry may add a digit. */
  function Rounded(coeff: nat, exp: int): Dec {
    var excess := |NatText(coeff)| - PRECISION;
    if excess <= 0 then Dec(false, coeff, exp)
    else
      var q, r, half := Before(coeff, excess), Behind(coeff, excess), 5 * Pow10(excess - 1);
      var c := if r > half || (r == half && q % 2 == 1) then q + 1 else q;
      if c == Pow10(PRECISION) then Dec(false, c / 10, exp + excess + 1) else Dec(false, c, exp + excess)
  }

  /** The sum of two amounts at the smaller exponent, then rounded. */
  function Add(a: Dec, b: Dec): Dec {
    var e := Min(a.exp, b.exp);
    Rounded(a.coeff * Pow10(a.exp - e) + b.coeff * Pow10(b.exp - e), e)
  }

  function SumFrom(sum: Dec, values: seq<Option<string>>): Option<Dec>
    decreases |values|
  {
    if values == [] then Some(sum)
    else if values[0].None? then SumFrom(sum, values[1..])
    else
      var d := DecimalAmount(values[0].value);
      if d.None? then None else SumFrom(Add(sum, d.value), values[1..])
  }

  const NOTHING: Dec := Dec(false, 0, 0)

  function SumAmounts(values: seq<Option<string>>): Option<string> {
    var sum := SumFrom(NOTHING, values);
    if sum.Some? && Accepted(sum.value) then Some(TextOf(sum.value)) else None
  }

  /* ---- The value of an amount, in units of ten to the -96 ---- */

  function Value(d: Dec): nat
    requires d.exp + PLACES >= 0
  {
    d.coeff * Pow10(d.exp + PLACES)
  }

  /** The text that a value has, however it was spelled. */
  function Canonical(v: nat): string {
    if v == 0 then "0" else Trim(NatText(Before(v, PLACES)) + ['.'] + Pad(Behind(v, PLACES), PLACES))
  }

  lemma ValueBound(d: Dec)
    requires d.exp + PLACES >= 0 && d.coeff > 0
    ensures |NatText(d.coeff)| - 1 + d.exp <= WHOLE - 1 <==> Value(d) < Pow10(WHOLE + PLACES)
  {
    var k := WHOLE - d.exp;
    var m := d.exp + PLACES;
    hide NatText, Pow10;
    if k >= 1 {
      FitsIff(d.coeff, k);
      PowAdd(k, m);
      assert k + m == WHOLE + PLACES;
      if d.coeff < Pow10(k) { Less(d.coeff, Pow10(k), Pow10(m)); } else { MulMono(Pow10(k), d.coeff, Pow10(m)); }
    } else {
      DigitsBound(d.coeff);
      if m > WHOLE + PLACES { PowGrows(WHOLE + PLACES, m); }
      MulMono(1, d.coeff, Pow10(m));
    }
  }

  lemma Less(a: nat, b: nat, m: nat)
    requires a < b && m > 0
    ensures a * m < b * m
  {
    MulMono(a + 1, b, m);
  }

  /** Main result 1. The checks accept exactly the non-negative decimals with at most 96 places that
      are below ten to the 64; the limit of 192 digits never decides. A zero is bounded by its
      exponent. */
  lemma AcceptedIff(d: Dec)
    ensures Accepted(d) <==>
              && !(d.neg && d.coeff > 0) && d.exp + PLACES >= 0
              && if d.coeff == 0 then d.exp < WHOLE else Value(d) < Pow10(WHOLE + PLACES)
  {
    hide Pow10;
    if d.coeff == 0 { assert |NatText(0)| == 1; }
    if d.coeff > 0 && d.exp + PLACES >= 0 { ValueBound(d); }
  }

  /* ---- The text is canonical ---- */

  lemma {:induction false} StripZeros(s: string, j: nat)
    ensures RStrip(s + Zeros(j), '0') == RStrip(s, '0')
    decreases j
  {
    if j == 0 {
      assert s + Zeros(0) == s;
    } else {
      ZerosGrow(j - 1);
      var t := s + Zeros(j);
      assert t == (s + Zeros(j - 1)) + ['0'] && t[..|t| - 1] == s + Zeros(j - 1);
      StripZeros(s, j - 1);
    }
  }

  /** A whole number followed by nothing but zeros behind its point is that number. */
  lemma TrimWhole(q: nat, j: nat)
    ensures Trim(NatText(q) + ['.'] + Zeros(j)) == NatText(q)
  {
    NatTextReads(q);
    var s := NatText(q) + ['.'];
    StripZeros(s, j);
    assert RStrip(s, '0') == s;
    assert s[..|s| - 1] == NatText(q);
    assert IsDigit(NatText(q)[|NatText(q)| - 1]);
    assert RStrip(NatText(q), '.') == NatText(q);
    assert RStrip(s, '.') == NatText(q);
  }

  lemma {:induction false} PadZero(k: nat)
    ensures Pad(0, k) == Zeros(k)
    decreases k
  {
    if k == 0 { ZerosGrow(0); } else {
      PadZero(k - 1);
      ZerosGrow(k - 1);
    }
  }

  /** Main result 2. The text of an amount is a function of its value alone. */
  lemma TextIsCanonical(d: Dec)
    requires Accepted(d)
    ensures TextOf(d) == Canonical(Value(d))
  {
    hide Pow10, NatText, Pad, Zeros;
    if d.coeff == 0 {
      assert Value(d) == 0;
    } else if d.exp >= 0 {
      WholeText(d);
    } else {
      FractionText(d);
    }
  }

  lemma WholeText(d: Dec)
    requires d.coeff > 0 && d.exp >= 0
    ensures NatText(d.coeff) + Zeros(d.exp) == Canonical(Value(d))
  {
    hide Pow10, NatText, Pad, Zeros, Trim;
    NatZeros(d.coeff, d.exp);
    var q := d.coeff * Pow10(d.exp);
    PowAdd(d.exp, PLACES);
    MulAssoc(d.coeff, Pow10(d.exp), Pow10(PLACES));
    MulMono(1, q, Pow10(PLACES));
    UniqueDivision(q * Pow10(PLACES), Pow10(PLACES), q, 0);
    PadZero(PLACES);
    TrimWhole(q, PLACES);
  }

  lemma MulAssoc(a: nat, b: nat, c: nat)
    ensures a * (b * c) == a * b * c
  {
  }

  lemma FractionText(d: Dec)
    requires d.coeff > 0 && d.exp + PLACES >= 0 > d.exp
    ensures TextOf(d) == Canonical(Value(d))
  {
    hide Pow10, NatText, Pad, Zeros, RStrip;
    var k := -d.exp;
    var j := d.exp + PLACES;
    PowAdd(k, j);
    assert k + j == PLACES;
    ScaleDivision(d.coeff, Pow10(k), Pow10(j));
    MulMono(1, Pow10(j), d.coeff);
    assert Value(d) > 0 by { Less(0, d.coeff, Pow10(j)); }
    var r := Behind(d.coeff, k);
    PadZeros(r, k, j);
    var s := NatText(Before(d.coeff, k)) + ['.'] + Pad(r, k);
    assert NatText(Before(d.coeff, k)) + ['.'] + (Pad(r, k) + Zeros(j)) == s + Zeros(j);
    StripZeros(s, j);
  }

  /* ---- The text reads back ---- */

  /** A decimal as it is written. Each part but the digits may be missing. */
  datatype Form = Form(sign: string, whole: string, point: bool, places: string, power: Option<Power>)

  datatype Power = Power(mark: char, sign: string, digits: string)

  predicate IsSign(s: string) { s == "" || s == "+" || s == "-" }

  predicate IsPower(p: Power) {
    (p.mark == 'e' || p.mark == 'E') && IsSign(p.sign) && AllDigits(p.digits) && p.digits != ""
  }

  predicate WellFormed(f: Form) {
    && IsSign(f.sign) && AllDigits(f.whole) && AllDigits(f.places) && f.whole + f.places != ""
    && (!f.point ==> f.places == "") && (f.power.Some? ==> IsPower(f.power.value))
  }

  function PowerText(p: Option<Power>): string {
    if p.None? then "" else [p.value.mark] + p.value.sign + p.value.digits
  }

  /** What follows the digits before the point. */
  function Rest(f: Form): string { (if f.point then "." + f.places else "") + PowerText(f.power) }

  function Spelling(f: Form): string { f.sign + (f.whole + Rest(f)) }

  function Signed(sign: string, n: int): int { if sign == "-" then -n else n }

  function PowerOf(p: Option<Power>): int
    requires p.Some? ==> IsPower(p.value)
  {
    if p.None? then 0 else Signed(p.value.sign, Number(p.value.digits))
  }

  /** The decimal that a form denotes: its digits without the point, moved by its exponent. */
  function Denotes(f: Form): Dec
    requires WellFormed(f)
  {
    assert AllDigits(f.whole + f.places);
    Dec(f.sign == "-", Number(f.whole + f.places), PowerOf(f.power) - |f.places|)
  }

  lemma SignedText(sign: string, body: string)
    requires IsSign(sign) && body != [] && body[0] != '-' && body[0] != '+'
    ensures Unsigned(sign + body) == body && ((sign + body)[0] == '-' <==> sign == "-")
  {
    if sign == "" { assert sign + body == body; }
  }

  lemma ExponentReads(p: Option<Power>)
    requires p.Some? ==> IsPower(p.value)
    ensures Exponent(PowerText(p)) == Some(PowerOf(p))
    ensures PowerText(p) == [] || (PowerText(p)[0] != '.' && !IsDigit(PowerText(p)[0]))
  {
    hide Number;
    if p.Some? {
      var d := p.value.digits;
      assert IsDigit(d[0]);
      SignedText(p.value.sign, d);
      assert PowerText(p)[1..] == p.value.sign + d;
      SpanOfDigits(d, []);
      assert d + [] == d && d[..|d|] == d;
    }
  }

  lemma BodyReads(f: Form)
    requires WellFormed(f)
    ensures var u := f.whole + Rest(f);
            && u != [] && u[0] != '-' && u[0] != '+'
            && Span(u) == |f.whole| && u[..|f.whole|] == f.whole && u[|f.whole|..] == Rest(f)
            && (|f.whole| < |u| && u[|f.whole|] == '.' <==> f.point)
  {
    hide Span, Exponent;
    ExponentReads(f.power);
    SpanOfDigits(f.whole, Rest(f));
    if f.whole != [] { assert IsDigit(f.whole[0]); }
  }

  lemma PlacesRead(f: Form)
    requires WellFormed(f) && f.point
    ensures var v := f.places + PowerText(f.power);
            Rest(f)[1..] == v && Span(v) == |f.places| && v[..|f.places|] == f.places && v[|f.places|..] == PowerText(f.power)
  {
    hide Span, Exponent;
    ExponentReads(f.power);
    SpanOfDigits(f.places, PowerText(f.power));
  }

  lemma ParseReads(text: string, f: Form)
    requires WellFormed(f) && Clean(text) == Spelling(f)
    ensures Parse(text) == Some(Denotes(f))
  {
    hide Clean, Number, Span, Exponent, IsPower, PowerText;
    var u := f.whole + Rest(f);
    BodyReads(f);
    SignedText(f.sign, u);
    ExponentReads(f.power);
    if f.point {
      PlacesRead(f);
      assert u[|f.whole| + 1..] == Rest(f)[1..];
    } else {
      assert f.places == [] && Rest(f) == PowerText(f.power);
      assert f.whole + f.places == f.whole;
      assert Span([]) == 0;
    }
  }

  /** The form of a text that was read. */
  lemma FormOfPower(s: string) returns (p: Option<Power>)
    requires Exponent(s).Some?
    ensures (p.Some? ==> IsPower(p.value)) && PowerText(p) == s
  {
    hide Number;
    if s == [] {
      p := None;
    } else {
      var d := Unsigned(s[1..]);
      p := Some(Power(s[0], if d == s[1..] then "" else [s[1]], d));
      assert d[..|d|] == d;
    }
  }

  lemma WellFormedParts(sign: string, whole: string, point: bool, places: string, p: Option<Power>)
    requires IsSign(sign) && AllDigits(whole) && AllDigits(places) && |whole| + |places| > 0 && (!point ==> places == "")
    requires p.Some? ==> IsPower(p.value)
    ensures WellFormed(Form(sign, whole, point, places, p))
  {
  }

  lemma Cut(u: string, i: nat)
    requires i <= |u|
    ensures u[..i] + u[i..] == u
    ensures i < |u| && u[i] == '.' ==> "." + u[i + 1..] == u[i..]
  {
  }

  lemma FormOfTail(sign: string, u: string) returns (f: Form)
    requires IsSign(sign)
    requires var i := Span(u);
             if i < |u| && u[i] == '.'
             then i + Span(u[i + 1..]) > 0 && Exponent(u[i + 1..][Span(u[i + 1..])..]).Some?
             else i > 0 && Exponent(u[i..]).Some?
    ensures WellFormed(f) && Spelling(f) == sign + u
  {
    hide Number, Exponent, IsPower, PowerText, IsSign, WellFormed, Span;
    var i := Span(u);
    Cut(u, i);
    if i < |u| && u[i] == '.' {
      var v := u[i + 1..];
      var j := Span(v);
      var p := FormOfPower(v[j..]);
      Cut(v, j);
      WellFormedParts(sign, u[..i], true, v[..j], p);
      f := Form(sign, u[..i], true, v[..j], p);
      Regrouped(v[..j], v[j..]);
    } else {
      var p := FormOfPower(u[i..]);
      WellFormedParts(sign, u[..i], false, "", p);
      f := Form(sign, u[..i], false, "", p);
      assert "" + u[i..] == u[i..];
    }
  }

  lemma Regrouped(a: string, b: string)
    ensures "." + a + b == "." + (a + b)
  {
  }

  lemma FormOf(text: string) returns (f: Form)
    requires Parse(text).Some?
    ensures WellFormed(f) && Clean(text) == Spelling(f)
  {
    hide Clean, Number, Exponent, Span, WellFormed, Spelling;
    var s := Clean(text);
    var u := Unsigned(s);
    var sign := if u == s then "" else [s[0]];
    assert s == sign + u && IsSign(sign);
    f := FormOfTail(sign, u);
  }

  /** Main result 3. A text is read exactly when it is, without surrounding spaces and underscores,
      the spelling of a form, and then it is the decimal that the form denotes. */
  lemma ParseReadsIff(text: string)
    ensures forall f :: WellFormed(f) && Clean(text) == Spelling(f) ==> Parse(text) == Some(Denotes(f))
    ensures Parse(text).Some? <==> exists f :: WellFormed(f) && Clean(text) == Spelling(f)
  {
    hide Clean, Parse, Spelling, WellFormed;
    if Parse(text).Some? {
      var f := FormOf(text);
      assert WellFormed(f) && Clean(text) == Spelling(f);
    }
    forall f | WellFormed(f) && Clean(text) == Spelling(f) ensures Parse(text) == Some(Denotes(f)) {
      ParseReads(text, f);
    }
  }

  lemma {:induction false} NoUnderscores(s: string)
    requires forall i :: 0 <= i < |s| ==> s[i] != '_'
    ensures WithoutUnderscores(s) == s
    decreases |s|
  {
    if s != [] { NoUnderscores(s[1..]); }
  }

  predicate Figure(c: char) { c != '_' && !IsSpace(c) }

  lemma CleanFigures(s: string)
    requires forall i :: 0 <= i < |s| ==> Figure(s[i])
    ensures Clean(s) == s
  {
    if s != [] { assert Figure(s[0]) && Figure(s[|s| - 1]); }
    NoUnderscores(s);
  }

  predicate AllSpaces(s: string) { forall i :: 0 <= i < |s| ==> IsSpace(s[i]) }

  lemma {:induction false} StripLeftOf(pre: string, s: string)
    requires AllSpaces(pre) && s != [] && !IsSpace(s[0])
    ensures StripLeft(pre + s) == s
    decreases |pre|
  {
    if pre == [] {
      assert pre + s == s;
    } else {
      assert (pre + s)[1..] == pre[1..] + s;
      StripLeftOf(pre[1..], s);
    }
  }

  lemma {:induction false} StripRightOf(s: string, post: string)
    requires AllSpaces(post) && s != [] && !IsSpace(s[|s| - 1])
    ensures StripRight(s + post) == s
    decreases |post|
  {
    if post == [] {
      assert s + post == s;
    } else {
      assert (s + post)[..|s + post| - 1] == s + post[..|post| - 1];
      StripRightOf(s, post[..|post| - 1]);
    }
  }

  lemma {:induction false} UnderscoreIgnored(a: string, b: string)
    ensures WithoutUnderscores(a + "_" + b) == WithoutUnderscores(a + b)
    decreases |a|
  {
    if a == [] {
      assert (a + "_" + b)[1..] == b && a + b == b;
    } else {
      assert (a + "_" + b)[1..] == a[1..] + "_" + b && (a + b)[1..] == a[1..] + b;
      UnderscoreIgnored(a[1..], b);
    }
  }

  /** Cleaning removes the spaces around a text and any underscore within it, and nothing else. */
  lemma CleanText(pre: string, a: string, b: string, post: string)
    requires AllSpaces(pre) && AllSpaces(post) && a != [] && !IsSpace(a[0]) && b != [] && !IsSpace(b[|b| - 1])
    ensures Clean(pre + (a + b) + post) == WithoutUnderscores(a + b)
    ensures Clean(pre + (a + "_" + b) + post) == Clean(pre + (a + b) + post)
    ensures (forall i :: 0 <= i < |a + b| ==> (a + b)[i] != '_') ==> Clean(pre + (a + b) + post) == a + b
  {
    hide StripLeft, StripRight, WithoutUnderscores, IsSpace, AllSpaces;
    forall s | s == a + b || s == a + "_" + b ensures Clean(pre + s + post) == WithoutUnderscores(s) {
      assert pre + s + post == pre + (s + post);
      StripLeftOf(pre, s + post);
      StripRightOf(s, post);
    }
    UnderscoreIgnored(a, b);
    if forall i :: 0 <= i < |a + b| ==> (a + b)[i] != '_' { NoUnderscores(a + b); }
  }

  /** A spelling is clean, so it is read as it stands. */
  lemma SpellingReads(f: Form)
    requires WellFormed(f)
    ensures Clean(Spelling(f)) == Spelling(f) && Parse(Spelling(f)) == Some(Denotes(f))
  {
    hide Clean, Parse, Number;
    forall t | t == f.sign || t == f.whole || t == Rest(f) ensures forall i :: 0 <= i < |t| ==> Figure(t[i]) {
      FiguresOf(f);
    }
    CleanFigures(Spelling(f));
    ParseReads(Spelling(f), f);
  }

  lemma FiguresOf(f: Form)
    requires WellFormed(f)
    ensures forall i :: 0 <= i < |f.sign| ==> Figure(f.sign[i])
    ensures forall i :: 0 <= i < |f.whole| ==> Figure(f.whole[i])
    ensures forall i :: 0 <= i < |Rest(f)| ==> Figure(Rest(f)[i])
  {
    forall i | 0 <= i < |f.whole| ensures Figure(f.whole[i]) { assert IsDigit(f.whole[i]); }
    forall i | 0 <= i < |f.places| ensures Figure(f.places[i]) { assert IsDigit(f.places[i]); }
    if f.power.Some? {
      var d := f.power.value.digits;
      forall i | 0 <= i < |d| ensures Figure(d[i]) { assert IsDigit(d[i]); }
    }
  }

  lemma Joined(a: string, b: string, c: string, d: string, e: string, f: string)
    ensures a + (b + (c + d + (e + f))) == a + b + c + d + e + f
    ensures a + (b + (e + f)) == a + b + e + f
    ensures a + (b + (c + d)) == a + b + c + d
  {
  }

  lemma FormsSpell(sign: string, a: string, b: string, mark: char, esign: string, x: string)
    ensures var p := Some(Power(mark, esign, x));
            && Spelling(Form(sign, a, true, b, p)) == sign + a + "." + b + ([mark] + esign) + x
            && Spelling(Form(sign, a, true, b, None)) == sign + a + "." + b
            && Spelling(Form(sign, a, false, "", p)) == sign + a + ([mark] + esign) + x
            && Spelling(Form(sign, a, false, "", None)) == sign + a
  {
    Joined(sign, a, ".", b, [mark] + esign, x);
    assert "." + b + "" == "." + b && "" + ([mark] + esign + x) == [mark] + esign + x;
    assert a + ("" + "") == a;
  }

  lemma DenotesParts(f: Form)
    requires WellFormed(f)
    ensures AllDigits(f.whole + f.places) && (f.power.Some? ==> IsPower(f.power.value))
    ensures Denotes(f) == Dec(f.sign == "-", Number(f.whole + f.places), PowerOf(f.power) - |f.places|)
  {
  }

  /** Main result 4. Scientific notation, written out: the exponent moves the point by its number,
      to the left when its sign is a minus. */
  lemma ScientificReads(sign: string, a: string, b: string, mark: char, esign: string, x: string)
    requires IsSign(sign) && AllDigits(a) && AllDigits(b) && |a| + |b| > 0 && AllDigits(a + b)
    requires (mark == 'e' || mark == 'E') && IsSign(esign) && AllDigits(x) && x != ""
    ensures Parse(sign + a + "." + b + ([mark] + esign) + x) ==
            Some(Dec(sign == "-", Number(a + b), Signed(esign, Number(x)) - |b|))
  {
    hide Parse, Number, Clean, IsSign, Spelling, WellFormed, Denotes;
    FormsSpell(sign, a, b, mark, esign, x);
    var f := Form(sign, a, true, b, Some(Power(mark, esign, x)));
    WellFormedParts(sign, a, true, b, f.power);
    DenotesParts(f);
    SpellingReads(f);
  }

  lemma PointedReads(sign: string, a: string, b: string)
    requires IsSign(sign) && AllDigits(a) && AllDigits(b) && |a| + |b| > 0 && AllDigits(a + b)
    ensures Parse(sign + a + "." + b) == Some(Dec(sign == "-", Number(a + b), -|b|))
  {
    hide Parse, Number, Clean, IsSign, Spelling, WellFormed, Denotes;
    FormsSpell(sign, a, b, 'e', "", "");
    var f := Form(sign, a, true, b, None);
    WellFormedParts(sign, a, true, b, None);
    DenotesParts(f);
    SpellingReads(f);
  }

  lemma WholeReads(sign: string, a: string, mark: char, esign: string, x: string)
    requires IsSign(sign) && AllDigits(a) && a != ""
    requires (mark == 'e' || mark == 'E') && IsSign(esign) && AllDigits(x) && x != ""
    ensures Parse(sign + a + ([mark] + esign) + x) == Some(Dec(sign == "-", Number(a), Signed(esign, Number(x))))
    ensures Parse(sign + a) == Some(Dec(sign == "-", Number(a), 0))
  {
    hide Parse, Number, Clean, IsSign, Spelling;
    assert a + "" == a;
    FormsSpell(sign, a, "", mark, esign, x);
    SpellingReads(Form(sign, a, false, "", Some(Power(mark, esign, x))));
    SpellingReads(Form(sign, a, false, "", None));
  }

  lemma {:induction false} StripsSome(s: string) returns (t: string, j: nat)
    requires AllDigits(s)
    ensures AllDigits(t) && s == t + Zeros(j) && (t != [] ==> t[|t| - 1] != '0')
    decreases |s|
  {
    if s != [] && s[|s| - 1] == '0' {
      t, j := StripsSome(s[..|s| - 1]);
      ZerosGrow(j);
      assert s == s[..|s| - 1] + ['0'];
      assert t + (Zeros(j) + ['0']) == t + Zeros(j) + ['0'];
      j := j + 1;
    } else {
      t, j := s, 0;
      ZerosGrow(0);
      assert s + [] == s;
    }
  }

  /** The canonical text of a value is its whole part, and a point only before a last digit other
      than zero. */
  lemma CanonicalShape(v: nat) returns (t: string, j: nat)
    requires v > 0
    ensures AllDigits(t) && |t| + j == PLACES
    ensures Pad(Behind(v, PLACES), PLACES) == t + Zeros(j)
    ensures Canonical(v) == NatText(Before(v, PLACES)) + if t == [] then [] else ['.'] + t
  {
    var q, r := Before(v, PLACES), Behind(v, PLACES);
    hide Pow10, Pad, Number, NatText, Zeros;
    PadReads(r, PLACES);
    t, j := StripsSome(Pad(r, PLACES));
    assert |Zeros(j)| == j by { ZerosLength(j); }
    var s := NatText(q) + ['.'] + t;
    assert NatText(q) + ['.'] + (t + Zeros(j)) == s + Zeros(j);
    StripZeros(s, j);
    if t == [] {
      TrimWhole(q, 0);
      ZerosGrow(0);
      assert s + [] == s;
    } else {
      assert s[|s| - 1] == t[|t| - 1] && IsDigit(t[|t| - 1]);
      assert s == NatText(q) + (['.'] + t);
    }
  }

  lemma ZerosLength(j: nat)
    ensures |Zeros(j)| == j
  {
  }

  /** The value of the digits before and behind the point. */
  lemma PartsMakeTheValue(v: nat, t: string, j: nat)
    requires AllDigits(t) && |t| + j == PLACES && Pad(Behind(v, PLACES), PLACES) == t + Zeros(j)
    ensures NatText(Before(v, PLACES)) != [] && AllDigits(NatText(Before(v, PLACES)) + t)
    ensures Number(NatText(Before(v, PLACES)) + t) * Pow10(j) == v
  {
    var q, r := Before(v, PLACES), Behind(v, PLACES);
    hide Pow10, Pad, Number, NatText, Zeros;
    NatTextReads(q);
    PadReads(r, PLACES);
    NumberConcat(NatText(q), t);
    NumberZeros(j);
    ZerosLength(j);
    NumberConcat(t, Zeros(j));
    PowAdd(|t|, j);
    Regroup(q, Pow10(|t|), Number(t), Pow10(j));
    assert v == q * Pow10(PLACES) + r;
  }

  /** Main result 5. The canonical text of a value is accepted again, as that value. */
  lemma CanonicalReadsBack(v: nat)
    requires v < Pow10(WHOLE + PLACES)
    ensures DecimalAmount(Canonical(v)).Some? && Value(DecimalAmount(Canonical(v)).value) == v
  {
    hide Pow10, Number, NatText, Pad, Zeros, Parse;
    if v == 0 {
      ZeroReads();
    } else {
      var t, j := CanonicalShape(v);
      PartsMakeTheValue(v, t, j);
      var q := NatText(Before(v, PLACES));
      NatTextReads(Before(v, PLACES));
      if t == [] {
        WholeReads("", q, 'e', "", "0");
        assert q + t == q && j == PLACES;
        assert "" + q == q;
      } else {
        PointedReads("", q, t);
        assert "" + q + "." + t == q + (['.'] + t);
      }
      var d := Dec(false, Number(q + t), -|t|);
      assert Parse(Canonical(v)) == Some(d);
      assert Value(d) == v;
      PositiveFactor(d.coeff, Pow10(j));
      AcceptedIff(d);
    }
  }

  lemma PositiveFactor(a: nat, b: nat)
    requires a * b > 0
    ensures a > 0
  {
  }

  lemma ZeroReads()
    ensures DecimalAmount("0") == Some(Dec(false, 0, 0)) && Value(Dec(false, 0, 0)) == 0
  {
    WholeReads("", "0", 'e', "", "0");
    assert "" + "0" == "0";
    assert Number("0") == 0 by { assert "0"[..0] == []; }
    AcceptedIff(Dec(false, 0, 0));
  }

  lemma AcceptedValueBound(d: Dec)
    requires Accepted(d)
    ensures Value(d) < Pow10(WHOLE + PLACES)
  {
    AcceptedIff(d);
    hide Pow10;
    if d.coeff == 0 { assert Value(d) == 0; }
  }

  /** Main result 6. Two accepted texts denote equal values exactly when their amount texts are
      equal, and an amount text is accepted, keeps the value and is its own amount text. */
  lemma AmountTextIsCanonical(a: string, b: string)
    requires DecimalAmount(a).Some? && DecimalAmount(b).Some?
    ensures Value(DecimalAmount(a).value) == Value(DecimalAmount(b).value) <==> AmountText(a) == AmountText(b)
    ensures AmountText(a).Some? && DecimalAmount(AmountText(a).value).Some?
    ensures Value(DecimalAmount(AmountText(a).value).value) == Value(DecimalAmount(a).value)
    ensures AmountText(AmountText(a).value) == AmountText(a)
  {
    hide Pow10, Parse, Canonical, TextOf, Accepted, Value;
    AmountReads(a);
    AmountReads(b);
    AmountReads(AmountText(a).value);
  }

  lemma AmountReads(a: string)
    requires DecimalAmount(a).Some?
    ensures Accepted(DecimalAmount(a).value) && AmountText(a) == Some(Canonical(Value(DecimalAmount(a).value)))
    ensures DecimalAmount(AmountText(a).value).Some?
    ensures Value(DecimalAmount(AmountText(a).value).value) == Value(DecimalAmount(a).value)
  {
    var d := DecimalAmount(a).value;
    hide Pow10, Parse, Canonical, TextOf;
    TextIsCanonical(d);
    AcceptedValueBound(d);
    CanonicalReadsBack(Value(d));
  }

  /* ---- Sums ---- */

  /** The exact sum of the amounts that are not missing. */
  function Total(values: seq<Option<string>>): nat
    requires AllAccepted(values)
  {
    if values == [] then 0
    else
      assert values[0] in values;
      Share(values[0]) + Total(values[1..])
  }

  predicate AllAccepted(values: seq<Option<string>>) {
    forall v :: v in values ==> v.None? || DecimalAmount(v.value).Some?
  }

  function Share(v: Option<string>): nat
    requires v.None? || DecimalAmount(v.value).Some?
  {
    if v.None? then 0 else Value(DecimalAmount(v.value).value)
  }

  /** What every partial sum looks like after `k` amounts. */
  ghost predicate Partial(sum: Dec, k: nat) {
    !sum.neg && sum.exp + PLACES >= 0 >= sum.exp && Value(sum) <= k * Pow10(WHOLE + PLACES)
  }

  lemma Aligned(d: Dec, e: int)
    requires d.exp + PLACES >= 0 && e + PLACES >= 0 && e <= d.exp
    ensures d.coeff * Pow10(d.exp - e) * Pow10(e + PLACES) == Value(d)
  {
    hide Pow10;
    PowAdd(d.exp - e, e + PLACES);
    MulAssoc(d.coeff, Pow10(d.exp - e), Pow10(e + PLACES));
  }

  /** No partial sum is rounded: after fewer than ten to the 96 amounts it fits 256 digits. */
  lemma AddIsExact(sum: Dec, d: Dec, k: nat)
    requires Partial(sum, k) && Accepted(d) && k < Pow10(PLACES)
    ensures Partial(Add(sum, d), k + 1) && Value(Add(sum, d)) == Value(sum) + Value(d)
  {
    hide Pow10, NatText, Rounded;
    AcceptedValueBound(d);
    var e := Min(sum.exp, d.exp);
    var c := sum.coeff * Pow10(sum.exp - e) + d.coeff * Pow10(d.exp - e);
    AlignedSum(sum, d, e);
    hide Value, Accepted;
    Distribute(k, Pow10(WHOLE + PLACES));
    SmallEnough(c, e, k, Value(sum) + Value(d));
    FitsUnrounded(c, e);
    ValueOf(c, e);
  }

  lemma AlignedSum(a: Dec, b: Dec, e: int)
    requires a.exp + PLACES >= 0 && b.exp + PLACES >= 0 && e + PLACES >= 0 && e <= a.exp && e <= b.exp
    ensures (a.coeff * Pow10(a.exp - e) + b.coeff * Pow10(b.exp - e)) * Pow10(e + PLACES) == Value(a) + Value(b)
  {
    hide Pow10, Value;
    Aligned(a, e);
    Aligned(b, e);
    Regroup(a.coeff, Pow10(a.exp - e), b.coeff * Pow10(b.exp - e), Pow10(e + PLACES));
    MulAssoc(a.coeff, Pow10(a.exp - e), Pow10(e + PLACES));
  }

  lemma SmallEnough(c: nat, e: int, k: nat, v: nat)
    requires e + PLACES >= 0 && c * Pow10(e + PLACES) == v < (k + 1) * Pow10(WHOLE + PLACES) && k < Pow10(PLACES)
    ensures c < Pow10(PRECISION)
  {
    hide Pow10;
    MulMono(k + 1, Pow10(PLACES), Pow10(WHOLE + PLACES));
    PowAdd(PLACES, WHOLE + PLACES);
    MulMono(1, Pow10(e + PLACES), c);
  }

  lemma ValueOf(c: nat, e: int)
    requires e + PLACES >= 0
    ensures Value(Dec(false, c, e)) == c * Pow10(e + PLACES)
  {
  }

  lemma Distribute(k: nat, p: nat)
    ensures (k + 1) * p == k * p + p
  {
  }

  lemma FitsUnrounded(c: nat, e: int)
    requires c < Pow10(PRECISION)
    ensures Rounded(c, e) == Dec(false, c, e)
  {
    hide Pow10, NatText;
    FitsIff(c, PRECISION);
  }

  lemma {:induction false} SumIsTotal(sum: Dec, values: seq<Option<string>>, k: nat)
    requires Partial(sum, k) && AllAccepted(values) && k + |values| <= Pow10(PLACES)
    ensures SumFrom(sum, values).Some? && Partial(SumFrom(sum, values).value, k + |values|)
    ensures Value(SumFrom(sum, values).value) == Value(sum) + Total(values)
    decreases |values|
  {
    hide Pow10, Value, Accepted, Parse, Partial, Add;
    if values != [] {
      assert values[0] in values;
      assert AllAccepted(values[1..]);
      if values[0].None? {
        PartialGrows(sum, k);
        SumIsTotal(sum, values[1..], k + 1);
      } else {
        var d := DecimalAmount(values[0].value).value;
        AddIsExact(sum, d, k);
        SumIsTotal(Add(sum, d), values[1..], k + 1);
      }
    }
  }

  lemma PartialGrows(sum: Dec, k: nat)
    requires Partial(sum, k)
    ensures Partial(sum, k + 1)
  {
    hide Pow10;
    Distribute(k, Pow10(WHOLE + PLACES));
  }

  lemma {:induction false} SumFailsOn(sum: Dec, values: seq<Option<string>>)
    requires !AllAccepted(values)
    ensures SumFrom(sum, values) == None
    decreases |values|
  {
    hide DecimalAmount, Add;
    if values[0].None? || DecimalAmount(values[0].value).Some? {
      assert values == [values[0]] + values[1..];
      assert !AllAccepted(values[1..]);
      SumFailsOn(if values[0].None? then sum else Add(sum, DecimalAmount(values[0].value).value), values[1..]);
    }
  }

  lemma NothingIsPartial()
    ensures Partial(NOTHING, 0) && Value(NOTHING) == 0
  {
    hide Pow10;
  }

  lemma PartialAccepted(sum: Dec, k: nat)
    requires Partial(sum, k)
    ensures Accepted(sum) <==> Value(sum) < Pow10(WHOLE + PLACES)
  {
    hide Pow10, Accepted;
    AcceptedIff(sum);
    if sum.coeff == 0 { assert Value(sum) == 0; }
  }

  /** Main result 7. For every list of at most ten to the 96 amounts, the sum is the canonical text
      of the exact total, or an error, and it is an error exactly when some amount is not accepted
      or the total is too large. No step rounds. */
  lemma SumIsExact(values: seq<Option<string>>)
    requires |values| <= Pow10(PLACES)
    ensures SumAmounts(values) == if AllAccepted(values) && Total(values) < Pow10(WHOLE + PLACES)
                                  then Some(Canonical(Total(values))) else None
  {
    hide Pow10, Canonical, TextOf, DecimalAmount, Value, Accepted, Add;
    if AllAccepted(values) {
      NothingIsPartial();
      SumIsTotal(NOTHING, values, 0);
      var sum := SumFrom(NOTHING, values).value;
      PartialAccepted(sum, |values|);
      if Accepted(sum) { TextIsCanonical(sum); }
    } else {
      SumFailsOn(NOTHING, values);
    }
  }

  /* ---- The order of the amounts does not matter ---- */

  lemma {:induction false} TotalWithout(values: seq<Option<string>>, i: nat)
    requires i < |values| && AllAccepted(values)
    ensures values[i] in values && AllAccepted(values[..i] + values[i + 1..])
    ensures Total(values) == Share(values[i]) + Total(values[..i] + values[i + 1..])
    decreases |values|
  {
    hide DecimalAmount, Share;
    var rest := values[..i] + values[i + 1..];
    assert forall v :: v in rest ==> v in values;
    if i == 0 {
      assert rest == values[1..];
    } else {
      assert AllAccepted(values[1..]);
      TotalWithout(values[1..], i - 1);
      assert rest[0] == values[0] && rest[1..] == values[1..][..i - 1] + values[1..][i..];
    }
  }

  lemma RemoveFirst<T>(a: seq<T>, b: seq<T>) returns (i: nat)
    requires multiset(a) == multiset(b) && a != []
    ensures i < |b| && b[i] == a[0] && multiset(b[..i] + b[i + 1..]) == multiset(a[1..])
  {
    assert a[0] in multiset(b);
    i :| 0 <= i < |b| && b[i] == a[0];
    assert b == b[..i] + [b[i]] + b[i + 1..];
    assert a == [a[0]] + a[1..];
    var rest := multiset(b[..i] + b[i + 1..]);
    assert multiset(b) == rest + multiset{a[0]};
    assert multiset(a) == multiset(a[1..]) + multiset{a[0]};
    assert rest == (rest + multiset{a[0]}) - multiset{a[0]};
    assert multiset(a[1..]) == (multiset(a[1..]) + multiset{a[0]}) - multiset{a[0]};
  }

  lemma SameMembers<T>(a: seq<T>, b: seq<T>)
    requires multiset(a) == multiset(b)
    ensures |a| == |b| && forall v :: v in b ==> v in a
  {
    assert |multiset(a)| == |a| && |multiset(b)| == |b|;
    forall v | v in b ensures v in a { assert v in multiset(b); }
  }

  lemma {:induction false} TotalOfPermutation(a: seq<Option<string>>, b: seq<Option<string>>)
    requires multiset(a) == multiset(b) && AllAccepted(a)
    ensures |a| == |b| && AllAccepted(b) && Total(a) == Total(b)
    decreases |a|
  {
    hide DecimalAmount, Share;
    SameMembers(a, b);
    assert AllAccepted(b);
    if a != [] {
      var i := RemoveFirst(a, b);
      TotalWithout(b, i);
      assert AllAccepted(a[1..]);
      TotalOfPermutation(a[1..], b[..i] + b[i + 1..]);
    }
  }

  /** Main result 8. Any order of the amounts gives the same answer. */
  lemma SumIgnoresOrder(a: seq<Option<string>>, b: seq<Option<string>>)
    requires multiset(a) == multiset(b) && |a| <= Pow10(PLACES)
    ensures SumAmounts(a) == SumAmounts(b)
  {
    hide Pow10, DecimalAmount, SumAmounts, Canonical;
    SameMembers(a, b);
    SumIsExact(a);
    SumIsExact(b);
    if AllAccepted(a) { TotalOfPermutation(a, b); }
    if AllAccepted(b) { TotalOfPermutation(b, a); }
  }
}
