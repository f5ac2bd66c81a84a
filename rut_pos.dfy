/** The point-of-sale client editor's RUT checks
    (l10n_cl_dte_point_of_sale/static/src/js/ClientDetailsEdit.js):
    stripping of separators, the modulo-11 check digit computed from the
    right with weights 2..7, and the normalised display form written back
    into the partner's document number. Error popups are user-interface
    effects; here a popup path is a failed validation. */
module RutPos {
  import opened Common

  predicate IsSeparator(c: char)
  {
    c == ' ' || c == '.' || c == '-'
  }

  /** The characters validar_rut accepts after stripping: digits and k/K. */
  predicate IsRutChar(c: char)
  {
    IsDigit(c) || c == 'k' || c == 'K'
  }

  function ToLower(c: char): char
  {
    if 'A' <= c <= 'Z' then (c as int + 32) as char else c
  }

  function ToUpper(c: char): char
  {
    if 'a' <= c <= 'z' then (c as int - 32) as char else c
  }

  /** The text with every ' ', '.' and '-' removed, order kept. */
  function Stripped(s: string): string
  {
    if s == [] then []
    else Stripped(s[..|s| - 1]) + (if IsSeparator(s[|s| - 1]) then [] else [s[|s| - 1]])
  }

  lemma {:induction false} StrippedAppend(a: string, b: string)
    ensures Stripped(a + b) == Stripped(a) + Stripped(b)
    decreases |b|
  {
    if b != [] {
      assert (a + b)[..|a + b| - 1] == a + b[..|b| - 1];
      StrippedAppend(a, b[..|b| - 1]);
    } else {
      assert a + b == a;
    }
  }

  /** Stripping leaves no separator behind and keeps every other
      character: a text without separators is its own stripped form. */
  lemma {:induction false} StrippedRemovesExactlySeparators(s: string)
    ensures forall i :: 0 <= i < |Stripped(s)| ==> !IsSeparator(Stripped(s)[i])
    ensures (forall i :: 0 <= i < |s| ==> !IsSeparator(s[i])) ==> Stripped(s) == s
    ensures |Stripped(s)| <= |s|
    decreases |s|
  {
    if s != [] {
      StrippedRemovesExactlySeparators(s[..|s| - 1]);
      assert s == s[..|s| - 1] + [s[|s| - 1]];
    }
  }

  /** The weight revisarDigito2 gives the k-th digit counted from the right:
      2, 3, 4, 5, 6, 7, then 2 again. */
  function Weight(k: nat): nat
  {
    2 + k % 6
  }

  /** The weighted sum of a body of digits, rightmost digit first, the
      rightmost carrying Weight(k). */
  function JsSum(body: string, k: nat): nat
    requires forall i :: 0 <= i < |body| ==> IsDigit(body[i])
    decreases |body|
  {
    if body == [] then 0
    else DigitValue(body[|body| - 1]) * Weight(k) + JsSum(body[..|body| - 1], k + 1)
  }

  /** The expected check digit for a remainder modulo 11, as
      revisarDigito2 spells it (lower-case 'k'). */
  function ExpectedDigit(res: nat): (dv: char)
    requires res < 11
    ensures res == 1 ==> dv == 'k'
    ensures res == 0 ==> dv == '0'
    ensures 2 <= res ==> IsDigit(dv) && DigitValue(dv) == 11 - res
  {
    if res == 1 then 'k' else if res == 0 then '0' else DigitChar(11 - res)
  }

  predicate AllDigits(s: string)
  {
    forall i :: 0 <= i < |s| ==> IsDigit(s[i])
  }

  /** What revisarDigito2 accepts for a stripped RUT: at least two
      characters, a body of digits (a 'k' in the body makes JavaScript's
      product NaN, which never matches), and a last character equal, ignoring
      case, to the expected digit. */
  predicate CheckDigitOk(crut: string)
  {
    |crut| >= 2 && AllDigits(crut[..|crut| - 1]) &&
    ExpectedDigit(JsSum(crut[..|crut| - 1], 0) % 11) == ToLower(crut[|crut| - 1])
  }

  /** What validar_rut accepts, popups counted as failures. */
  predicate RutValid(texto: string)
  {
    var t := Stripped(texto);
    |t| >= 2 && (forall i :: 0 <= i < |t| ==> IsRutChar(t[i])) && CheckDigitOk(t)
  }

  /** The stripping loop of validar_rut. */
  method StripSeparators(texto: string) returns (tmpstr: string)
    ensures tmpstr == Stripped(texto)
  {
    tmpstr := "";
    var i := 0;
    while i < |texto|
      invariant 0 <= i <= |texto|
      invariant tmpstr == Stripped(texto[..i])
    {
      assert texto[..i + 1][..i] == texto[..i];
      if !IsSeparator(texto[i]) {
        tmpstr := tmpstr + [texto[i]];
      }
      i := i + 1;
    }
    assert texto[..i] == texto;
  }

  /** revisarDigito2: the modulo-11 check of a stripped RUT whose characters
      are all digits or k/K. */
  method RevisarDigito2(crut: string) returns (ok: bool)
    requires forall i :: 0 <= i < |crut| ==> IsRutChar(crut[i])
    ensures ok <==> CheckDigitOk(crut)
  {
    var largo := |crut|;
    if largo < 2 {
      return false;
    }
    var rut := crut[..largo - 1];
    var dv := crut[largo - 1];
    var suma := 0;
    var mul := 2;
    var nan := false;
    var i := |rut| - 1;
    assert rut[..i + 1] == rut;
    while i >= 0
      invariant -1 <= i < |rut|
      invariant mul == Weight(|rut| - 1 - i)
      invariant nan <==> !AllDigits(rut[i + 1..])
      invariant !nan ==> AllDigits(rut[i + 1..])
      invariant !nan && AllDigits(rut) ==>
        suma + JsSum(rut[..i + 1], |rut| - 1 - i) == JsSum(rut, 0)
    {
      DigitsFrom(rut, i);
      if AllDigits(rut) {
        JsSumLast(rut[..i + 1], |rut| - 1 - i);
        assert rut[..i + 1][..i] == rut[..i];
      }
      WeightNext(|rut| - 1 - i);
      if IsDigit(rut[i]) {
        suma := suma + DigitValue(rut[i]) * mul;
      } else {
        nan := true;
      }
      if mul == 7 {
        mul := 2;
      } else {
        mul := mul + 1;
      }
      i := i - 1;
    }
    assert rut[0..] == rut;
    if nan {
      return false;
    }
    var dvr := ExpectedDigit(suma % 11);
    ok := dvr == ToLower(dv);
  }

  /** The weights run 2, 3, …, 7 and start again at 2. */
  lemma WeightNext(k: nat)
    ensures Weight(k + 1) == if Weight(k) == 7 then 2 else Weight(k) + 1
  {
  }

  /** JsSum, unfolded once. */
  lemma JsSumLast(body: string, k: nat)
    requires body != [] && AllDigits(body)
    ensures JsSum(body, k) == DigitValue(body[|body| - 1]) * Weight(k) + JsSum(body[..|body| - 1], k + 1)
  {
  }

  /** The digits from position i on: the one at i and those after it. */
  lemma DigitsFrom(s: string, i: nat)
    requires i < |s|
    ensures AllDigits(s[i..]) <==> IsDigit(s[i]) && AllDigits(s[i + 1..])
  {
    assert forall j :: 0 < j < |s[i..]| ==> s[i..][j] == s[i + 1..][j - 1];
  }

  /** validar_rut: strip separators, demand two characters, demand
      [0-9kK] only, then check the digit. (The reversed and dotted copies the
      source builds between these steps are never used.) */
  method ValidarRut(texto: string) returns (ok: bool)
    ensures ok <==> RutValid(texto)
  {
    var t := StripSeparators(texto);
    var largo := |t|;
    if largo < 2 {
      return false;
    }
    var i := 0;
    while i < largo
      invariant 0 <= i <= largo
      invariant forall j :: 0 <= j < i ==> IsRutChar(t[j])
    {
      if !IsRutChar(t[i]) {
        return false;
      }
      i := i + 1;
    }
    ok := RevisarDigito2(t);
  }

  lemma StrippedDigits(s: string)
    requires AllDigits(s)
    ensures Stripped(s) == s
  {
    StrippedRemovesExactlySeparators(s);
  }

  /** The weighted sum of the body 12345678 is 138 (remainder 6, digit 5). */
  lemma JsSumExample()
    ensures JsSum("12345678", 0) == 138
  {
    assert "12345678"[..7] == "1234567";
    assert "1234567"[..6] == "123456";
    assert "123456"[..5] == "12345";
    assert "12345"[..4] == "1234";
    assert "1234"[..3] == "123";
    assert "123"[..2] == "12";
    assert "12"[..1] == "1";
    assert "1"[..0] == [];
  }

  lemma StrippedSeparator(c: char)
    requires IsSeparator(c)
    ensures Stripped([c]) == []
  {
    assert [c][..0] == [];
  }

  lemma StrippedDigitsThenSeparator(s: string, c: char)
    requires AllDigits(s) && IsSeparator(c)
    ensures Stripped(s + [c]) == s
  {
    StrippedDigits(s);
    StrippedSeparator(c);
    StrippedAppend(s, [c]);
  }

  /** A body of digits, a dash and a digit strip to the body and the digit. */
  lemma StrippedBodyDashDigit(body: string, d: char)
    requires AllDigits(body) && IsDigit(d)
    ensures Stripped(body + ['-', d]) == body + [d]
  {
    StrippedDigitsThenSeparator(body, '-');
    StrippedDigits([d]);
    assert body + ['-', d] == (body + ['-']) + [d];
    StrippedAppend(body + ['-'], [d]);
  }

  /** A RUT in dotted form strips to its digits and check digit. */
  lemma StrippedDotted(a: string, b: string, c: string, d: char)
    requires AllDigits(a) && AllDigits(b) && AllDigits(c) && IsDigit(d)
    ensures Stripped(a + ['.'] + b + ['.'] + c + ['-', d]) == a + b + c + [d]
  {
    StrippedDigitsThenSeparator(a, '.');
    StrippedDigitsThenSeparator(b, '.');
    StrippedBodyDashDigit(c, d);
    StrippedAppend(a + ['.'], b + ['.']);
    assert a + ['.'] + b + ['.'] == (a + ['.']) + (b + ['.']);
    StrippedAppend(a + ['.'] + b + ['.'], c + ['-', d]);
    assert a + ['.'] + b + ['.'] + c + ['-', d] == (a + ['.'] + b + ['.']) + (c + ['-', d]);
  }

  /** A text that strips to a body of digits and a digit is a valid RUT
      exactly when the digit is the body's expected check digit. */
  lemma RutValidOfDigits(texto: string, body: string, d: char)
    requires Stripped(texto) == body + [d] && body != [] && AllDigits(body) && IsDigit(d)
    ensures RutValid(texto) <==> ExpectedDigit(JsSum(body, 0) % 11) == d
  {
    var t := body + [d];
    assert t[..|t| - 1] == body;
    assert forall i :: 0 <= i < |t| ==> IsRutChar(t[i]);
  }

  /** Lemma: the worked example 12.345.678-5 is a valid RUT and 12345678-4 is not. */
  lemma CheckDigitExample()
    ensures RutValid("12.345.678-5")
    ensures !RutValid("12345678-4")
  {
    JsSumExample();
    assert ExpectedDigit(138 % 11) == '5';
    StrippedDotted("12", "345", "678", '5');
    assert "12" + ['.'] + "345" + ['.'] + "678" + ['-', '5'] == "12.345.678-5";
    assert "12" + "345" + "678" == "12345678";
    RutValidOfDigits("12.345.678-5", "12345678", '5');
    StrippedBodyDashDigit("12345678", '4');
    assert "12345678" + ['-', '4'] == "12345678-4";
    RutValidOfDigits("12345678-4", "12345678", '4');
  }

  /** validar_rut as the source literally returns it: every error popup
      returns the popup's Promise, which is truthy, so the only false
      results are the two alert-less early exits. */
  function ValidarRutAsWritten(texto: string, alert: bool): (truthy: bool)
  {
    var t := Stripped(texto);
    if |t| < 2 then alert
    else if !(forall i :: 0 <= i < |t| ==> IsRutChar(t[i])) then alert
    else true
  }

  /** The as-written validator accepts a wrong check digit: 12345678-4 is
      truthy without an alert, while the check digit of 12345678 is 5. */
  lemma AsWrittenAcceptsWrongDigit()
    ensures ValidarRutAsWritten("12345678-4", false)
    ensures !RutValid("12345678-4")
  {
    CheckDigitExample();
    StrippedBodyDashDigit("12345678", '4');
    assert "12345678" + ['-', '4'] == "12345678-4";
    var t := Stripped("12345678-4");
    assert t == "123456784";
    assert forall i :: 0 <= i < |t| ==> IsRutChar(t[i]);
  }

  /** Left-pad with '0' to at least n characters (underscore.string's lpad). */
  function LPadZero(s: string, n: nat): (r: string)
    ensures |r| == if |s| >= n then |s| else n
    ensures |s| >= n ==> r == s
    ensures |s| < n ==> r == seq(n - |s|, _ => '0') + s
  {
    if |s| >= n then s else seq(n - |s|, _ => '0') + s
  }

  /** The characters the regular expression /[^1234567890Kk]/g keeps, upper-cased. */
  function KeepRutCharsUpper(s: string): (r: string)
    ensures forall i :: 0 <= i < |r| ==> IsDigit(r[i]) || r[i] == 'K'
  {
    if s == [] then []
    else
      var kept := if IsRutChar(s[|s| - 1]) then [ToUpper(s[|s| - 1])] else [];
      KeepRutCharsUpper(s[..|s| - 1]) + kept
  }

  /** '%s.%s.%s-%s' of slices 0..2, 2..5, 5..8 and the last character. */
  function DottedForm(p: string): (r: string)
    requires |p| >= 9
  {
    p[0..2] + "." + p[2..5] + "." + p[5..8] + "-" + [p[|p| - 1]]
  }

  /** captureChange's normalisation of a typed document number. */
  function Normalise(value: string): (r: string)
    ensures |r| == 12
  {
    DottedForm(LPadZero(KeepRutCharsUpper(value), 9))
  }

  /** Lemma: for nine characters, stripping the dotted form gives back the nine. */
  lemma {:induction false} DottedFormStripsBack(p: string)
    requires |p| == 9
    requires forall i :: 0 <= i < 9 ==> !IsSeparator(p[i])
    ensures Stripped(DottedForm(p)) == p
  {
    var a, b, c := p[0..2], p[2..5], p[5..8];
    var s1 := [] + a + ['.'];
    var s2 := s1 + b + ['.'];
    var s3 := s2 + c + ['-'];
    StrippedPieceThenSeparator([], a, '.');
    StrippedPieceThenSeparator(s1, b, '.');
    StrippedPieceThenSeparator(s2, c, '-');
    assert Stripped(s3) == a + b + c;
    StrippedPieceThenSeparator(s3, [p[8]], '.');
    StrippedAppend(s3, [p[8]]);
    assert DottedForm(p) == s3 + [p[8]];
    assert p == a + b + c + [p[8]];
  }

  /** A piece without separators followed by a separator adds the piece. */
  lemma StrippedPieceThenSeparator(acc: string, piece: string, sep: char)
    requires IsSeparator(sep)
    requires forall i :: 0 <= i < |piece| ==> !IsSeparator(piece[i])
    ensures Stripped(piece) == piece
    ensures Stripped(acc + piece + [sep]) == Stripped(acc) + piece
  {
    StrippedRemovesExactlySeparators(piece);
    StrippedAppend(acc, piece);
    assert (acc + piece + [sep])[..|acc + piece|] == acc + piece;
  }

  /** Lemma: a normalised document number has the 2.3.3-1 shape and, when the kept
      characters are at most nine, strips back to them left-padded with
      zeros, so validating it validates exactly those characters. */
  lemma NormaliseShape(value: string)
    ensures var r := Normalise(value);
      |r| == 12 && r[2] == '.' && r[6] == '.' && r[10] == '-'
    ensures |KeepRutCharsUpper(value)| <= 9 ==>
      Stripped(Normalise(value)) == LPadZero(KeepRutCharsUpper(value), 9)
  {
    var p := LPadZero(KeepRutCharsUpper(value), 9);
    if |KeepRutCharsUpper(value)| <= 9 {
      assert forall i :: 0 <= i < 9 ==> !IsSeparator(p[i]);
      DottedFormStripsBack(p);
    }
  }
}
