/** The CAF record (dte.caf): the folio range, document class, issuer and
    dates read from an uploaded authorisation file, and its use level. */
module CafFile {
  import opened Common

  /** A calendar date (proleptic Gregorian, as Python's date). */
  datatype Date = Date(year: int, month: int, day: int)

  predicate IsLeap(y: int)
  {
    y % 4 == 0 && (y % 100 != 0 || y % 400 == 0)
  }

  function DaysInMonth(y: int, m: int): (r: int)
    requires 1 <= m <= 12
    ensures 28 <= r <= 31
  {
    if m == 2 then (if IsLeap(y) then 29 else 28)
    else if m == 4 || m == 6 || m == 9 || m == 11 then 30
    else 31
  }

  /** The dates Python's date constructor accepts. */
  predicate ValidDate(d: Date)
  {
    1 <= d.year <= 9999 && 1 <= d.month <= 12 && 1 <= d.day <= DaysInMonth(d.year, d.month)
  }

  /** Strictly earlier. */
  predicate Before(a: Date, b: Date)
  {
    a.year < b.year || (a.year == b.year && (a.month < b.month || (a.month == b.month && a.day < b.day)))
  }

  /** date + relativedelta(months=n): the month moves by n and the day is
      clamped to the last day of the month reached; a year past 9999 is a
      ValueError. */
  function AddMonths(d: Date, n: nat): (r: Result<Date>)
    requires ValidDate(d)
    ensures r.Ok? ==> ValidDate(r.value)
    ensures r.Ok? ==> r.value.day <= d.day && (d.day <= 28 ==> r.value.day == d.day)
    ensures r.Ok? ==> (r.value.year - d.year) * 12 + (r.value.month - d.month) == n
  {
    var total := d.month - 1 + n;
    var y := d.year + total / 12;
    var m := total % 12 + 1;
    if y > 9999 then Err(ValueError)
    else
      var dim := DaysInMonth(y, m);
      Ok(Date(y, m, if d.day <= dim then d.day else dim))
  }

  /** Lemma: adding a positive number of months gives a later date. */
  lemma AddMonthsIsLater(d: Date, n: nat)
    requires ValidDate(d) && n > 0
    requires AddMonths(d, n).Ok?
    ensures Before(d, AddMonths(d, n).value)
  {
  }

  /** Python's s[i:j] for 0 <= i <= j: out-of-range ends are clamped. */
  function Slice(s: string, i: nat, j: nat): (r: string)
    requires i <= j
    ensures |r| <= j - i
  {
    if |s| <= i then [] else if |s| <= j then s[i..] else s[i..j]
  }

  /** int(s) for a string of decimal digits; anything else (the empty
      string included) is a ValueError. */
  function ParseDigits(s: string): (r: Result<nat>)
    ensures r.Ok? <==> s != [] && forall i :: 0 <= i < |s| ==> IsDigit(s[i])
  {
    if s != [] && forall i :: 0 <= i < |s| ==> IsDigit(s[i]) then Ok(DigitsValue(s)) else Err(ValueError)
  }

  /** date(int(fa[:4]), int(fa[5:7]), int(fa[8:10])). */
  function ParseFa(fa: string): (r: Result<Date>)
    ensures r.Ok? ==> ValidDate(r.value)
  {
    var y := ParseDigits(Slice(fa, 0, 4));
    var m := ParseDigits(Slice(fa, 5, 7));
    var d := ParseDigits(Slice(fa, 8, 10));
    if y.Err? || m.Err? || d.Err? then Err(ValueError)
    else
      var date := Date(y.value, m.value, d.value);
      if ValidDate(date) then Ok(date) else Err(ValueError)
  }

  /** The expiry rule: six months after the authorisation date, except for
      document codes 34 and 52 and for boletas, which do not expire. */
  predicate Expires(siiCode: int, isBoleta: bool)
    ensures isBoleta || siiCode == 34 || siiCode == 52 ==> !Expires(siiCode, isBoleta)
    ensures siiCode == 33 && !isBoleta ==> Expires(siiCode, isBoleta)
  {
    siiCode != 34 && siiCode != 52 && !isBoleta
  }

  /** The parts of the decoded CAF XML that load_caf reads (CAF/DA). */
  datatype CafXml = CafXml(d: int, h: int, td: int, fa: string, re: string)

  /** The document class of the CAF's sequence. */
  datatype SequenceClass = SequenceClass(siiCode: int, isBoleta: bool)

  datatype Status = Draft | InUse | Spent

  /** The RUT the CAF was issued to, in vat form: 'CL' + RE without hyphens. */
  function RutN(re: string): string
  {
    "CL" + ReplaceAll(re, "-", "")
  }

  /** The company vat as compared with a CAF: 'L0' replaced by 'L', which
      drops the zero padding of an eight-character RUT. */
  function CompanyRut(vat: string): (r: string)
    ensures |r| <= |vat|
    ensures 'L' !in vat ==> r == vat
  {
    ReplaceAllShorter(vat, "L0", "L");
    if 'L' !in vat then ReplaceAllAbsent(vat, "L0", "L"); ReplaceAll(vat, "L0", "L")
    else ReplaceAll(vat, "L0", "L")
  }

  /** Lemma: for a company stored as 'CL' + nine characters with no 'L'
      (the normalised partner form) the comparison form drops exactly the
      padding zero, and a CAF issued to body-digit matches it when the nine
      characters are that RUT left-padded with zeros to nine. */
  lemma CafMatchesPaddedCompany(body: string, digit: char)
    requires |body| == 7
    requires forall i :: 0 <= i < |body| ==> body[i] != '-' && body[i] != 'L'
    requires digit != '-' && digit != 'L'
    ensures CompanyRut("CL0" + body + [digit]) == RutN(body + "-" + [digit])
  {
    var t := body + [digit];
    assert 'L' !in t by {
      assert forall i :: 0 <= i < |t| ==> t[i] != 'L';
    }
    CompanyRutDropsPad(t);
    assert "CL0" + body + [digit] == "CL0" + t;
    assert '-' !in body by {
      assert forall i :: 0 <= i < |body| ==> body[i] != '-';
    }
    ReplaceAllConcat(body, "-" + [digit]);
    assert body + "-" + [digit] == body + ("-" + [digit]);
  }

  /** Lemma: 'CL0' + t compares as 'CL' + t when t holds no 'L'. */
  lemma CompanyRutDropsPad(t: string)
    requires 'L' !in t
    ensures CompanyRut("CL0" + t) == "CL" + t
  {
    ReplaceAllAbsent(t, "L0", "L");
    var s := "CL0" + t;
    assert s[..2] != "L0" && s[0] == 'C';
    assert s[1..][..2] == "L0" && s[1..][2..] == t;
    assert CompanyRut(s) == [s[0]] + ReplaceAll(s[1..], "L0", "L");
    assert ReplaceAll(s[1..], "L0", "L") == "L" + ReplaceAll(t, "L0", "L");
  }

  /** Lemma: removing hyphens from body + "-" + tail when body has none. */
  lemma {:induction false} ReplaceAllConcat(body: string, rest: string)
    requires '-' !in body && |rest| == 2 && rest[0] == '-' && rest[1] != '-'
    ensures ReplaceAll(body + rest, "-", "") == body + [rest[1]]
    decreases |body|
  {
    if body == [] {
      var last := [rest[1]];
      assert rest[..1] == "-" && rest[1..] == last;
      assert last[..1] != "-" && last[1..] == [];
      calc {
        ReplaceAll(body + rest, "-", "");
        { assert body + rest == rest; }
        "" + ReplaceAll(last, "-", "");
        [rest[1]] + ReplaceAll([], "-", "");
      }
    } else {
      var s := body + rest;
      assert s[..1] == [body[0]];
      assert s[1..] == body[1..] + rest;
      assert '-' !in body[1..];
      ReplaceAllConcat(body[1..], rest);
    }
  }

  /** use_level: 100 once the sequence has passed the range, 0 before it,
      else the share of the range used, as a percentage. */
  function UseLevel(folio: int, start: int, final: int): (r: real)
    ensures 0.0 <= r <= 100.0
    ensures r == 100.0 <==> folio > final
    ensures folio <= final && folio < start ==> r == 0.0
  {
    if folio > final then 100.0
    else if folio < start then 0.0
    else
      var divisor := final - start + 1;
      if divisor == 0 then 0.0
      else
        var q := (folio - start) as real / divisor as real;
        assert 0.0 <= q < 1.0 by {
          assert q * divisor as real == (folio - start) as real;
        }
        100.0 * q
  }

  /** Lemma: the zero-divisor guard is never reached: inside the range the
      divisor is at least one. */
  lemma UseLevelDivisorPositive(folio: int, start: int, final: int)
    requires start <= folio <= final
    ensures final - start + 1 >= 1
    ensures UseLevel(folio, start, final) == 100.0 * ((folio - start) as real / (final - start + 1) as real)
  {
  }

  class DteCaf {
    var startNm: int
    var finalNm: int
    var siiDocumentClass: int
    var issuedDate: string
    var expirationDate: Option<Date>
    var rutN: string
    var status: Status
    var useLevel: real

    constructor ()
      ensures startNm == 0 && finalNm == 0 && status == Draft && expirationDate == None
    {
      startNm := 0;
      finalNm := 0;
      siiDocumentClass := 0;
      issuedDate := "";
      expirationDate := None;
      rutN := "";
      status := Draft;
      useLevel := 0.0;
    }

    /** load_caf: copies the range, class, date and issuer from the file,
        sets the expiry, then refuses a CAF of another company or of another
        document class than its sequence. Without a file or a sequence it
        does nothing. Ok(true) is the `flags` early return. */
    method LoadCaf(xml: Option<CafXml>, seqClass: Option<SequenceClass>, companyVat: string, flags: bool)
      returns (r: Result<bool>)
      modifies this
      ensures xml.None? || seqClass.None? ==> r == Ok(false) && unchanged(this)
      ensures xml.Some? && seqClass.Some? ==>
        var x, sc := xml.value, seqClass.value;
        && startNm == x.d && finalNm == x.h && siiDocumentClass == x.td && issuedDate == x.fa
        && useLevel == old(useLevel)
        && (if !Expires(sc.siiCode, sc.isBoleta) then
              expirationDate == old(expirationDate)
              && r == CheckCaf(x, sc, companyVat, flags)
              && rutN == RutN(x.re)
              && status == (if r == Ok(false) then InUse else old(status))
            else match ParseFa(x.fa)
              case Err(e) => r == Err(e) && status == old(status) && rutN == old(rutN)
              case Ok(fa) => match AddMonths(fa, 6)
                case Err(e) => r == Err(e) && status == old(status) && rutN == old(rutN)
                case Ok(exp) =>
                  expirationDate == Some(exp)
                  && r == CheckCaf(x, sc, companyVat, flags)
                  && rutN == RutN(x.re)
                  && status == (if r == Ok(false) then InUse else old(status)))
    {
      if xml.None? || seqClass.None? {
        return Ok(false);
      }
      var x, sc := xml.value, seqClass.value;
      startNm := x.d;
      finalNm := x.h;
      siiDocumentClass := x.td;
      issuedDate := x.fa;
      var e := SetExpiration(x.fa, sc);
      if e.Err? {
        return Err(e.error);
      }
      r := CheckIssuer(x, sc, companyVat, flags);
    }

    /** The expiry step of load_caf: six months after the issue date, for
        classes other than 34, 52 and boletas; a malformed date raises. */
    method SetExpiration(fa: string, sc: SequenceClass) returns (r: Result<()>)
      modifies this
      ensures !Expires(sc.siiCode, sc.isBoleta) ==> r == Ok(()) && expirationDate == old(expirationDate)
      ensures Expires(sc.siiCode, sc.isBoleta) ==>
        match ParseFa(fa)
        case Err(e) => r == Err(e)
        case Ok(d) => match AddMonths(d, 6)
          case Err(e) => r == Err(e)
          case Ok(exp) => r == Ok(()) && expirationDate == Some(exp)
      ensures startNm == old(startNm) && finalNm == old(finalNm) && siiDocumentClass == old(siiDocumentClass)
      ensures issuedDate == old(issuedDate) && rutN == old(rutN) && status == old(status) && useLevel == old(useLevel)
    {
      if Expires(sc.siiCode, sc.isBoleta) {
        var d := ParseFa(fa);
        if d.Err? {
          return Err(d.error);
        }
        var exp := AddMonths(d.value, 6);
        if exp.Err? {
          return Err(exp.error);
        }
        expirationDate := Some(exp.value);
      }
      r := Ok(());
    }

    /** The closing checks of load_caf: the issuer's RUT against the
        company's, the file's class against the sequence's, then `in_use`
        unless `flags`. */
    method CheckIssuer(x: CafXml, sc: SequenceClass, companyVat: string, flags: bool) returns (r: Result<bool>)
      requires siiDocumentClass == x.td
      modifies this
      ensures r == CheckCaf(x, sc, companyVat, flags)
      ensures rutN == RutN(x.re)
      ensures status == (if r == Ok(false) then InUse else old(status))
      ensures startNm == old(startNm) && finalNm == old(finalNm) && siiDocumentClass == old(siiDocumentClass)
      ensures issuedDate == old(issuedDate) && expirationDate == old(expirationDate) && useLevel == old(useLevel)
    {
      rutN := RutN(x.re);
      if rutN != CompanyRut(companyVat) {
        return Err(UserError(VatMismatch));
      } else if siiDocumentClass != sc.siiCode {
        return Err(UserError(ClassMismatch));
      }
      if flags {
        return Ok(true);
      }
      status := InUse;
      r := Ok(false);
    }

    /** _set_level. */
    method SetLevel(numberNextActual: int)
      modifies this
      ensures useLevel == UseLevel(numberNextActual, startNm, finalNm)
      ensures startNm == old(startNm) && finalNm == old(finalNm) && status == old(status)
      ensures expirationDate == old(expirationDate) && rutN == old(rutN)
      ensures siiDocumentClass == old(siiDocumentClass) && issuedDate == old(issuedDate)
    {
      var folio := numberNextActual;
      if folio > finalNm {
        useLevel := 100.0;
      } else if folio < startNm {
        useLevel := 0.0;
      } else {
        useLevel := 100.0 * ((folio - startNm) as real / (finalNm - startNm + 1) as real);
      }
    }
  }

  const VatMismatch := "Company vat should be the same that assigned company's vat"
  const ClassMismatch := "SII Document Type for this CAF differs from the sequence's document class"

  /** The two checks at the end of load_caf, and the flags early return. */
  function CheckCaf(x: CafXml, sc: SequenceClass, companyVat: string, flags: bool): (r: Result<bool>)
    ensures r.Err? <==> RutN(x.re) != CompanyRut(companyVat) || x.td != sc.siiCode
    ensures r.Ok? ==> r.value == flags
  {
    if RutN(x.re) != CompanyRut(companyVat) then
      Err(UserError(VatMismatch))
    else if x.td != sc.siiCode then
      Err(UserError(ClassMismatch))
    else Ok(flags)
  }
}
