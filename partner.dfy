/** The server side of the partner's RUT (l10n_cl_fe/models/res_partner.py):
    check_vat_cl's modulo-11 check, the normalisation and display form written
    by onchange_document, and the _rut_unique constraint. The database searches
    become sequences of partner records in search order. */
module Partner {
  import opened Common
  import RutPos

  /** The weights check_vat_cl zips with the reversed body. */
  const Vali: seq<nat> := [2, 3, 4, 5, 6, 7, 2, 3]

  /** The expected check digit for a weighted sum: '0123456789K0'[11 - s % 11]. */
  function PyExpected(s: nat): char
  {
    "0123456789K0"[11 - s % 11]
  }

  function Reverse(s: string): (r: string)
    ensures |r| == |s|
    ensures forall i :: 0 <= i < |s| ==> r[i] == s[|s| - 1 - i]
  {
    if s == [] then [] else [s[|s| - 1]] + Reverse(s[..|s| - 1])
  }

  /** sum(int(d) * w for d, w in zip(ds, ws)); int() of a character that is
      not a digit raises ValueError. */
  function ZipSum(ds: string, ws: seq<nat>): (r: Result<nat>)
    ensures r.Err? <==> exists i :: 0 <= i < |ds| && i < |ws| && !IsDigit(ds[i])
    ensures r.Err? ==> r.error == ValueError
  {
    if ds == [] || ws == [] then Ok(0)
    else if !IsDigit(ds[0]) then Err(ValueError)
    else
      var rest := ZipSum(ds[1..], ws[1..]);
      assert forall i :: 1 <= i < |ds| && i < |ws| ==> ds[1..][i - 1] == ds[i];
      if rest.Err? then
        assert exists i :: 0 <= i < |ds[1..]| && i < |ws[1..]| && !IsDigit(ds[1..][i]);
        Err(rest.error)
      else Ok(DigitValue(ds[0]) * ws[0] + rest.value)
  }

  /** check_vat_cl: a nine-character text whose last character, upper-cased,
      is the check digit of the eight before it. A text of another length is
      rejected; a non-digit in the body is an uncaught ValueError. */
  function CheckVatCl(vat: string): (r: Result<bool>)
    ensures |vat| != 9 ==> r == Ok(false)
    ensures r.Err? <==> |vat| == 9 && !RutPos.AllDigits(vat[..8])
    ensures r.Err? ==> r.error == ValueError
  {
    if |vat| != 9 then Ok(false)
    else
      var body := vat[..8];
      var vdig := RutPos.ToUpper(vat[8]);
      var rb := Reverse(body);
      match ZipSum(rb, Vali)
      case Err(e) =>
        assert exists i :: 0 <= i < 8 && !IsDigit(rb[i]);
        Err(e)
      case Ok(s) =>
        assert forall i :: 0 <= i < 8 ==> body[i] == rb[7 - i] && IsDigit(rb[7 - i]);
        Ok(PyExpected(s) == vdig)
  }

  /** Lemma: zipping the reversed body with the weights from position k gives
      the point-of-sale weighted sum started at weight index k. */
  lemma {:induction false} ZipSumIsJsSum(body: string, k: nat)
    requires RutPos.AllDigits(body)
    requires k + |body| <= 8
    ensures ZipSum(Reverse(body), Vali[k..]) == Ok(RutPos.JsSum(body, k))
    decreases |body|
  {
    if body != [] {
      var n := |body|;
      var rb := Reverse(body);
      var prefix := body[..n - 1];
      assert rb[1..] == Reverse(prefix);
      assert Vali[k..][1..] == Vali[k + 1..];
      ValiIsWeight(k);
      ZipSumIsJsSum(prefix, k + 1);
      assert rb[0] == body[n - 1];
      ZipSumCons(rb, Vali[k..]);
    } else {
      assert Reverse(body) == [];
    }
  }

  /** ZipSum, unfolded once at a digit. */
  lemma ZipSumCons(ds: string, ws: seq<nat>)
    requires ds != [] && ws != [] && IsDigit(ds[0]) && ZipSum(ds[1..], ws[1..]).Ok?
    ensures ZipSum(ds, ws) == Ok(DigitValue(ds[0]) * ws[0] + ZipSum(ds[1..], ws[1..]).value)
  {
  }

  /** The weights are the point of sale's, position by position. */
  lemma ValiIsWeight(k: nat)
    requires k < 8
    ensures Vali[k] == RutPos.Weight(k)
  {
    if k == 6 {
      assert RutPos.Weight(6) == 2;
    } else if k == 7 {
      assert RutPos.Weight(7) == 3;
    }
  }

  /** Lemma: the two spellings of the expected digit ('k' against 'K') agree,
      and comparing lower-cased or upper-cased with the typed character
      decides the same. */
  lemma ExpectedDigitsAgree(s: nat, c: char)
    ensures PyExpected(s) == RutPos.ToUpper(RutPos.ExpectedDigit(s % 11))
    ensures RutPos.ExpectedDigit(s % 11) == RutPos.ToLower(c) <==> PyExpected(s) == RutPos.ToUpper(c)
  {
    var res := s % 11;
    if res == 0 {
      assert PyExpected(s) == '0';
    } else if res == 1 {
      assert PyExpected(s) == 'K';
    } else {
      assert PyExpected(s) == "0123456789K0"[11 - res];
      assert "0123456789K0"[11 - res] == DigitChar(11 - res);
    }
  }

  /** Lemma: on nine characters the server check and the point-of-sale check
      agree; where the server raises (a non-digit in the body) the point of
      sale rejects. */
  lemma CheckDigitsAgree(vat: string)
    requires |vat| == 9
    ensures CheckVatCl(vat) == Ok(true) <==> RutPos.CheckDigitOk(vat)
    ensures CheckVatCl(vat).Err? ==> !RutPos.CheckDigitOk(vat)
  {
    var body := vat[..8];
    if RutPos.AllDigits(body) {
      ZipSumIsJsSum(body, 0);
      assert Vali[0..] == Vali;
      ExpectedDigitsAgree(RutPos.JsSum(body, 0), vat[8]);
    }
  }

  /** The normalisation of onchange_document: re.sub('[^1234567890Kk]', '', ·),
      then zfill(9) and upper(). The kept characters carry no sign, so zfill is
      a left pad with '0', and upper-casing commutes with padding. */
  function Normalised(documentNumber: string): (r: string)
    ensures |r| >= 9
    ensures forall i :: 0 <= i < |r| ==> IsDigit(r[i]) || r[i] == 'K'
  {
    RutPos.LPadZero(RutPos.KeepRutCharsUpper(documentNumber), 9)
  }

  /** Lemma: the point of sale accepts a typed document number exactly when the
      server's check accepts its normalisation, provided at most nine RUT
      characters were typed (beyond nine the server rejects on length while the
      point of sale checks a nine-character excerpt). */
  lemma PosAcceptsIffServerAccepts(value: string)
    requires |RutPos.KeepRutCharsUpper(value)| <= 9
    ensures RutPos.RutValid(RutPos.Normalise(value)) <==> CheckVatCl(Normalised(value)) == Ok(true)
  {
    var p := Normalised(value);
    RutPos.NormaliseShape(value);
    assert forall i :: 0 <= i < |p| ==> RutPos.IsRutChar(p[i]);
    CheckDigitsAgree(p);
  }

  /** The server's display form '%s.%s.%s-%s' of a normalised number is the
      point of sale's normalised form of the same input. */
  lemma DisplayFormAgrees(value: string)
    ensures RutPos.DottedForm(Normalised(value)) == RutPos.Normalise(value)
    ensures var d := RutPos.DottedForm(Normalised(value));
      |d| == 12 && d[2] == '.' && d[6] == '.' && d[10] == '-'
  {
    RutPos.NormaliseShape(value);
  }

  /** The identification document types onchange_document tells apart. */
  datatype DocType = DtRut | DtRun | DtSigd | DtOther

  /** A partner as seen by a database search. */
  datatype PartnerRec = PartnerRec(
    id: int, name: string, vat: string, commercialPartnerId: int, parentId: Option<int>)

  datatype Warning = Warning(title: string, message: string)

  const GenericVat: string := "CL555555555"

  /** The first partner of a search on vat = v, vat != CL555555555 and another
      commercial partner (search(..., limit=1)). */
  function FirstHolder(db: seq<PartnerRec>, v: string, commercialPartnerId: int): (r: Option<PartnerRec>)
    ensures r.Some? ==>
              r.value in db && r.value.vat == v && v != GenericVat &&
              r.value.commercialPartnerId != commercialPartnerId
    ensures r.None? ==>
              v == GenericVat ||
              forall i :: 0 <= i < |db| ==> db[i].vat != v || db[i].commercialPartnerId == commercialPartnerId
  {
    if v == GenericVat || db == [] then None
    else if db[0].vat == v && db[0].commercialPartnerId != commercialPartnerId then Some(db[0])
    else FirstHolder(db[1..], v, commercialPartnerId)
  }

  const RutWarning: Warning := Warning("Rut Erróneo", "Rut Erróneo")

  function HolderWarning(holder: PartnerRec): Warning
  {
    Warning("Informacion para el Usuario", "El usuario " + holder.name + " está utilizando este documento")
  }

  /** A partner form being edited. */
  class PartnerForm {
    var vat: string
    var documentNumber: string
    var documentType: DocType
    var commercialPartnerId: int

    constructor(vat: string, documentNumber: string, documentType: DocType, commercialPartnerId: int)
      ensures this.vat == vat && this.documentNumber == documentNumber
      ensures this.documentType == documentType && this.commercialPartnerId == commercialPartnerId
    {
      this.vat := vat;
      this.documentNumber := documentNumber;
      this.documentType := documentType;
      this.commercialPartnerId := commercialPartnerId;
    }

    /** onchange_document: for a RUT or RUN, normalise and check the number; a
        failed check warns and changes nothing; a number another commercial
        partner already holds clears vat and number and names the holder;
        otherwise vat becomes 'CL' + the normalised number and the number its
        display form. A Sigd document clears the number; any other case clears
        the vat. */
    method OnchangeDocument(db: seq<PartnerRec>) returns (res: Result<Option<Warning>>)
      modifies this
      ensures documentType == old(documentType) && commercialPartnerId == old(commercialPartnerId)
      ensures old(documentNumber) != "" && old(documentType) in {DtRut, DtRun} ==>
        var p := Normalised(old(documentNumber));
        var holder := FirstHolder(db, "CL" + p, commercialPartnerId);
        match CheckVatCl(p)
        case Err(e) => res == Err(e) && vat == old(vat) && documentNumber == old(documentNumber)
        case Ok(false) => res == Ok(Some(RutWarning)) && vat == old(vat) && documentNumber == old(documentNumber)
        case Ok(true) =>
          if holder.Some? then
            res == Ok(Some(HolderWarning(holder.value))) && vat == "" && documentNumber == ""
          else
            res == Ok(None) && vat == "CL" + p && documentNumber == RutPos.DottedForm(p)
      ensures old(documentNumber) != "" && old(documentType) == DtSigd ==>
        res == Ok(None) && vat == old(vat) && documentNumber == ""
      ensures old(documentNumber) == "" || old(documentType) == DtOther ==>
        res == Ok(None) && vat == "" && documentNumber == old(documentNumber)
    {
      if documentNumber != "" && documentType in {DtRut, DtRun} {
        var p := Normalised(documentNumber);
        var check := CheckVatCl(p);
        if check.Err? {
          return Err(check.error);
        }
        if !check.value {
          return Ok(Some(RutWarning));
        }
        var v := "CL" + p;
        var exist := FirstHolder(db, v, commercialPartnerId);
        if exist.Some? {
          vat := "";
          documentNumber := "";
          return Ok(Some(HolderWarning(exist.value)));
        }
        vat := v;
        documentNumber := RutPos.DottedForm(p);
        res := Ok(None);
      } else if documentNumber != "" && documentType == DtSigd {
        documentNumber := "";
        res := Ok(None);
      } else {
        vat := "";
        res := Ok(None);
      }
    }
  }

  /** Lemma: a number accepted by onchange_document is stored as a vat that
      passes check_vat_cl after its 'CL' prefix, and as the display form the
      point of sale writes for the same input. */
  lemma AcceptedNumberRoundTrip(documentNumber: string)
    requires CheckVatCl(Normalised(documentNumber)) == Ok(true)
    ensures var v := "CL" + Normalised(documentNumber);
      v[..2] == "CL" && CheckVatCl(v[2..]) == Ok(true)
    ensures RutPos.DottedForm(Normalised(documentNumber)) == RutPos.Normalise(documentNumber)
    ensures |Normalised(documentNumber)| == 9
  {
    var v := "CL" + Normalised(documentNumber);
    assert v[2..] == Normalised(documentNumber);
    DisplayFormAgrees(documentNumber);
  }

  /** What _rut_unique refuses for one record: a non-empty vat other than the
      generic CL555555555, on a partner without a parent, that another record
      of another commercial partner also carries. */
  predicate VatConflict(r: PartnerRec, db: seq<PartnerRec>)
  {
    r.vat != "" && r.parentId.None? && r.vat != GenericVat &&
    exists j :: 0 <= j < |db| && db[j].vat == r.vat && db[j].id != r.id &&
                db[j].commercialPartnerId != r.commercialPartnerId
  }

  /** Lemma: uniqueness is never enforced for an empty vat, the generic
      CL555555555 or a child contact, and is enforced against any other
      partner of a different commercial entity. */
  lemma UniquenessExemptions(r: PartnerRec, db: seq<PartnerRec>)
    ensures r.vat == "" || r.vat == GenericVat || r.parentId.Some? ==> !VatConflict(r, db)
    ensures (r.vat != "" && r.vat != GenericVat && r.parentId.None? &&
             exists j :: 0 <= j < |db| && db[j].vat == r.vat && db[j].id != r.id &&
                         db[j].commercialPartnerId != r.commercialPartnerId) ==> VatConflict(r, db)
  {
  }

  function UniqueError(vat: string): Error
  {
    UserError("El rut: " + vat + " debe ser único")
  }

  /** _rut_unique over the records being written: the first conflicting record
      raises, naming its vat. */
  method RutUnique(recs: seq<PartnerRec>, db: seq<PartnerRec>) returns (err: Option<Error>)
    ensures err.None? <==> forall i :: 0 <= i < |recs| ==> !VatConflict(recs[i], db)
    ensures err.Some? ==>
              exists i :: 0 <= i < |recs| && VatConflict(recs[i], db) &&
                          err.value == UniqueError(recs[i].vat) &&
                          forall k :: 0 <= k < i ==> !VatConflict(recs[k], db)
  {
    var i := 0;
    while i < |recs|
      invariant 0 <= i <= |recs|
      invariant forall k :: 0 <= k < i ==> !VatConflict(recs[k], db)
    {
      var r := recs[i];
      if r.vat != "" && r.parentId.None? {
        var found := false;
        var j := 0;
        while j < |db|
          invariant 0 <= j <= |db|
          invariant found <==> exists m :: 0 <= m < j && db[m].vat == r.vat && db[m].id != r.id &&
                                           db[m].commercialPartnerId != r.commercialPartnerId
        {
          if db[j].vat == r.vat && db[j].id != r.id && db[j].commercialPartnerId != r.commercialPartnerId {
            found := true;
          }
          j := j + 1;
        }
        if r.vat != GenericVat && found {
          return Some(UniqueError(r.vat));
        }
      }
      i := i + 1;
    }
    return None;
  }
}
