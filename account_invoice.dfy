/** The Chilean rules of account.invoice: the RUT as the SII wants it,
    text truncation, the global discount factor, the document checks, the
    document totals, the global discount lines of the DTE and the rounding
    fix of the journal entry. */
module Invoice {
  import opened Common
  import GlobalDr

  /** format_vat: a missing value is the generic "CL666666666"; a hyphen
      goes before the eleventh character; then "CL0" (unless `conCero`) and
      "CL" are removed. An unset value and "" are both falsy. */
  function FormatVat(value: string, conCero: bool): (r: string)
    ensures value != "" ==> |r| <= |value| + 1
  {
    var v := if value == "" then "CL666666666" else value;
    var rut := Take(v, 10) + "-" + Drop(v, 10);
    var rut2 := if !conCero then ReplaceAll(rut, "CL0", "") else rut;
    ReplaceAllShorter(rut, "CL0", "");
    ReplaceAllShorter(rut2, "CL", "");
    ReplaceAll(rut2, "CL", "")
  }

  /** Lemma: format_vat adds exactly one hyphen; the removals never touch
      one. */
  lemma FormatVatAddsOneHyphen(value: string, conCero: bool)
    requires value != ""
    ensures multiset(FormatVat(value, conCero))['-'] == multiset(value)['-'] + 1
  {
    var rut := Take(value, 10) + "-" + Drop(value, 10);
    assert multiset(rut) == multiset(Take(value, 10) + Drop(value, 10)) + multiset{'-'};
    var rut2 := if !conCero then ReplaceAll(rut, "CL0", "") else rut;
    ReplaceAllKeepsCount(rut, "CL0", '-');
    ReplaceAllKeepsCount(rut2, "CL", '-');
  }

  /** Lemma: without a value, the generic RUT 66666666-6 is used. */
  lemma FormatVatDefault()
    ensures FormatVat("", false) == "66666666-6"
  {
    var p := "666666666";
    assert "CL666666666" == "CL" + p;
    FormatVatOfNormalised(p, false);
  }

  /** Lemma: for a partner RUT stored as "CL" + nine characters (the
      normalised form), format_vat gives the body, a hyphen and the check
      digit, dropping the padding zero unless `conCero`. */
  lemma FormatVatOfNormalised(p: string, conCero: bool)
    requires |p| == 9 && 'C' !in p
    ensures FormatVat("CL" + p, conCero)
      == (if p[0] == '0' && !conCero then p[1..8] else p[..8]) + "-" + [p[8]]
  {
    var tail := p[..8] + "-" + [p[8]];
    var rut := "CL" + tail;
    assert Take("CL" + p, 10) == "CL" + p[..8];
    assert Drop("CL" + p, 10) == [p[8]];
    assert Take("CL" + p, 10) + "-" + Drop("CL" + p, 10) == rut;
    assert 'C' !in p[..8] by {
      forall i | 0 <= i < 8 ensures p[..8][i] != 'C' {
        assert p[..8][i] == p[i];
      }
    }
    assert 'C' !in tail;
    if !conCero && p[0] == '0' {
      var short := p[1..8] + "-" + [p[8]];
      assert 'C' !in p[1..8] by {
        forall i | 0 <= i < 7 ensures p[1..8][i] != 'C' {
          assert p[1..8][i] == p[i + 1];
        }
      }
      assert rut[..3] == "CL0" && rut[3..] == short;
      ReplaceAllAbsent(short, "CL0", "");
      assert ReplaceAll(rut, "CL0", "") == short;
      ReplaceAllAbsent(short, "CL", "");
    } else {
      if !conCero {
        assert rut[2] == p[0];
        assert rut[..3] != "CL0";
        var r1 := rut[1..];
        assert r1[0] == 'L' && r1[..3] != "CL0";
        assert r1[1..] == tail;
        ReplaceAllAbsent(tail, "CL0", "");
        assert ReplaceAll(r1, "CL0", "") == [r1[0]] + tail;
        assert ReplaceAll(rut, "CL0", "") == [rut[0]] + ReplaceAll(r1, "CL0", "");
        assert ReplaceAll(rut, "CL0", "") == rut;
      }
      assert rut[..2] == "CL" && rut[2..] == tail;
      ReplaceAllAbsent(tail, "CL", "");
    }
  }

  /** _acortar_str: the text cut to at most `size` characters, character
      by character. */
  method AcortarStr(texto: string, size: int) returns (cadena: string)
    ensures |cadena| == (if size <= 0 then 0 else if size < |texto| then size else |texto|)
    ensures cadena <= texto
  {
    var c := 0;
    cadena := "";
    while c < size && c < |texto|
      invariant 0 <= c <= |texto|
      invariant c <= size || c == 0
      invariant cadena == texto[..c]
    {
      cadena := cadena + [texto[c]];
      c := c + 1;
    }
  }

  /** A tax of the invoice as get_taxes_values reports it. */
  datatype TaxValue = TaxValue(rate: real, base: real)

  /** The taxed base (positive-rate taxes) and the exempt base (the
      others). */
  function SplitBases(taxes: seq<TaxValue>): (real, real)
  {
    if taxes == [] then (0.0, 0.0)
    else
      var (a, e) := SplitBases(taxes[..|taxes| - 1]);
      var t := taxes[|taxes| - 1];
      if t.rate > 0.0 then (a + t.base, e) else (a, e + t.base)
  }

  /** The factor that spreads a net surcharge (negative for a discount)
      over a base: 1 unless there is something to spread and a positive
      base to spread it over. */
  function Factor(monto: real, base: real): real
  {
    if monto != 0.0 && base > 0.0 then 1.0 + ((100.0 * monto) / base) / 100.0 else 1.0
  }

  /** Lemma: over a positive base, the factor turns the base into the base
      plus the net surcharge. */
  lemma FactorSpreadsAmount(monto: real, base: real)
    requires base > 0.0
    ensures Factor(monto, base) * base == base + monto
  {
    if monto != 0.0 {
      calc {
        Factor(monto, base) * base;
        (1.0 + ((100.0 * monto) / base) / 100.0) * base;
        base + (((100.0 * monto) / base) / 100.0) * base;
        { assert ((100.0 * monto) / base) / 100.0 == monto / base; }
        base + (monto / base) * base;
      }
    }
  }

  /** porcentaje_dr: the factors for the taxed and the exempt side. */
  function PorcentajeDrSpec(entries: seq<GlobalDr.Gdr>, taxes: seq<TaxValue>): (real, real)
  {
    if entries == [] then (1.0, 1.0)
    else
      var (afecto, exento) := SplitBases(taxes);
      var g := GlobalDr.Agrupar(entries);
      (Factor(g.r - g.d, afecto), Factor(g.rExe - g.dExe, exento))
  }

  method PorcentajeDr(entries: seq<GlobalDr.Gdr>, taxes: seq<TaxValue>) returns (gdr: real, gdrExe: real)
    ensures (gdr, gdrExe) == PorcentajeDrSpec(entries, taxes)
  {
    if entries == [] {
      return 1.0, 1.0;
    }
    var afecto, exento := 0.0, 0.0;
    gdr, gdrExe := 1.0, 1.0;
    var i := 0;
    while i < |taxes|
      invariant 0 <= i <= |taxes|
      invariant (afecto, exento) == SplitBases(taxes[..i])
    {
      assert taxes[..i + 1][..i] == taxes[..i];
      if taxes[i].rate > 0.0 {
        afecto := afecto + taxes[i].base;
      } else {
        exento := exento + taxes[i].base;
      }
      i := i + 1;
    }
    assert taxes[..i] == taxes;
    var agrupados := GlobalDr.GetAgrupados(entries);
    var monto := agrupados.r - agrupados.d;
    if monto != 0.0 && afecto > 0.0 {
      var porcentaje := (100.0 * monto) / afecto;
      gdr := 1.0 + (porcentaje / 100.0);
    }
    monto := agrupados.rExe - agrupados.dExe;
    if monto != 0.0 && exento > 0.0 {
      var porcentaje := (100.0 * monto) / exento;
      gdrExe := 1.0 + (porcentaje / 100.0);
    }
  }

  /** Lemma: with a positive taxed base, the factor applied to it adds
      exactly the surcharges less the discounts of the non-exempt entries. */
  lemma PorcentajeDrSpreadsEntries(entries: seq<GlobalDr.Gdr>, taxes: seq<TaxValue>)
    requires entries != [] && SplitBases(taxes).0 > 0.0
    ensures var g := GlobalDr.Agrupar(entries);
      PorcentajeDrSpec(entries, taxes).0 * SplitBases(taxes).0 == SplitBases(taxes).0 + (g.r - g.d)
  {
    var g := GlobalDr.Agrupar(entries);
    FactorSpreadsAmount(g.r - g.d, SplitBases(taxes).0);
  }

  /** Credit notes, debit notes and the exempt document classes. */
  const CreditNoteCodes: seq<int> := [60, 61, 112, 802]
  const DebitNoteCodes: seq<int> := [55, 56, 111]
  const ExemptCodes: seq<int> := [32, 34, 41, 110, 111, 112]
  const ExemptReferenceCodes: seq<int> := [32, 34, 41]

  /** _es_exento: an exempt document class, or a first reference to an
      exempt class. Exempt invoices (34) and exempt boletas (41) are exempt
      whatever they refer to; a factura (33) is exempt only through its first
      reference. */
  predicate EsExento(code: int, referenceCodes: seq<int>)
    ensures code == 34 || code == 41 ==> EsExento(code, referenceCodes)
    ensures code == 33 ==> (EsExento(code, referenceCodes) <==> |referenceCodes| > 0 && referenceCodes[0] in ExemptReferenceCodes)
  {
    code in ExemptCodes || (|referenceCodes| > 0 && referenceCodes[0] in ExemptReferenceCodes)
  }

  datatype InvoiceType = OutInvoice | InInvoice | OutRefund | InRefund

  /** What _validaciones_uso_dte looks at. The digital signature of the
      user and the activation of es_CL and CLP are lookups, given here as
      flags. */
  datatype UsoDte = UsoDte(
    code: int, hasReferences: bool, hasSignature: bool, langActive: bool, clpActive: bool,
    invoiceType: InvoiceType, gdrValores: seq<real>, roundGlobally: bool)

  /** A credit or debit note, which must reference the document it amends. */
  predicate IsNote(code: int)
  {
    code in CreditNoteCodes + DebitNoteCodes
  }

  predicate IsRefund(t: InvoiceType)
  {
    t == OutRefund || t == InRefund
  }

  const NoReference := "Las Notas deben llevar por obligación una referencia al documento que están afectando"
  const NoSignature := "Usuario no autorizado a usar firma electrónica para esta compañia"
  const LangInactive := "Lang es_CL must be enabled"
  const ClpInactive := "Currency CLP must be enabled"
  const NotRefundClass := "no es de tipo Rectificativo"
  const NotDocumentClass := "no es de tipo Documento"
  const NonPositiveGdr := "No puede ir una línea igual o menor que 0, elimine la línea o verifique el valor ingresado"
  const NotGlobalRounding := "El método de redondeo debe ser Estríctamente Global"

  /** _validaciones_uso_dte: the first check that fails, in the source's
      order. */
  function ValidacionesUsoDte(u: UsoDte): (r: Result<()>)
    ensures r.Err? ==>
              r.error.UserError? && r.error.reason in [NoReference, NoSignature, LangInactive, ClpInactive, NotRefundClass, NotDocumentClass,
                                                       NonPositiveGdr, NotGlobalRounding]
    ensures IsNote(u.code) && !u.hasReferences ==> r == Err(UserError(NoReference))
  {
    if IsNote(u.code) && !u.hasReferences then
      Err(UserError(NoReference))
    else if !u.hasSignature then
      Err(UserError(NoSignature))
    else if !u.langActive then Err(UserError(LangInactive))
    else if !u.clpActive then Err(UserError(ClpInactive))
    else if IsRefund(u.invoiceType) && u.code !in CreditNoteCodes then
      Err(UserError(NotRefundClass))
    else if !IsRefund(u.invoiceType) && u.code in CreditNoteCodes then
      Err(UserError(NotDocumentClass))
    else if exists i :: 0 <= i < |u.gdrValores| && u.gdrValores[i] <= 0.0 then
      Err(UserError(NonPositiveGdr))
    else if !u.roundGlobally then Err(UserError(NotGlobalRounding))
    else Ok(())
  }

  /** Lemma: a document passes exactly when every rule holds: notes carry
      references, refunds are credit notes and only refunds are, every
      global entry is positive, rounding is global, and the signature,
      language and currency are in place. */
  lemma ValidacionesOkIff(u: UsoDte)
    ensures ValidacionesUsoDte(u).Ok? <==>
      (IsNote(u.code) ==> u.hasReferences)
      && u.hasSignature && u.langActive && u.clpActive
      && (IsRefund(u.invoiceType) <==> u.code in CreditNoteCodes)
      && (forall i :: 0 <= i < |u.gdrValores| ==> u.gdrValores[i] > 0.0)
      && u.roundGlobally
  {
  }

  /** A tax line of the invoice as _totales reads it. */
  datatype TaxLine = TaxLine(code: int, base: real, amount: real, rate: real)

  predicate IsIva(t: TaxLine)
  {
    t.code == 14 || t.code == 15
  }

  /** The loop of _totales over the tax lines: the last IVA line, the sum
      of the IVA bases, and the base of code-17 lines (the base of the IVA
      line seen last, an AttributeError when none was seen yet). */
  datatype Scan = Scan(iva: Option<TaxLine>, neto: real, base: real)

  function TaxScan(lines: seq<TaxLine>): (r: Result<Scan>)
    ensures r.Err? ==> r.error == AttributeError
  {
    if lines == [] then Ok(Scan(None, 0.0, 0.0))
    else
      var n := |lines| - 1;
      var t := lines[n];
      match TaxScan(lines[..n])
      case Err(e) => Err(e)
      case Ok(s) =>
        var iva := if IsIva(t) then Some(t) else s.iva;
        var neto := if IsIva(t) then s.neto + t.base else s.neto;
        if t.code == 17 then
          if iva.None? then Err(AttributeError)
          else Ok(Scan(iva, neto, s.base + iva.value.base))
        else Ok(Scan(iva, neto, s.base))
  }

  /** Lemma: the IVA line of the scan is the last line with code 14 or
      15, and the scan fails exactly when a code-17 line comes before any
      IVA line. */
  lemma {:induction false} TaxScanFacts(lines: seq<TaxLine>)
    ensures var r := TaxScan(lines);
      && (r.Ok? ==> (r.value.iva.None? <==> forall i :: 0 <= i < |lines| ==> !IsIva(lines[i])))
      && (r.Ok? && r.value.iva.Some? ==>
            exists i :: 0 <= i < |lines| && lines[i] == r.value.iva.value && IsIva(lines[i])
              && forall j :: i < j < |lines| ==> !IsIva(lines[j]))
      && (r.Err? <==> exists i :: 0 <= i < |lines| && lines[i].code == 17
                        && forall j :: 0 <= j < i ==> !IsIva(lines[j]))
  {
    if lines != [] {
      var n := |lines| - 1;
      TaxScanFacts(lines[..n]);
      assert forall i :: 0 <= i < n ==> lines[..n][i] == lines[i];
    }
  }

  /** The tuple _totales returns; `tasaIva` is None where the source
      returns False. */
  datatype Totales = Totales(mntExe: real, mntNeto: real, mntIva: real, tasaIva: Option<real>, mntTotal: real, mntBase: real)

  /** The document as _totales reads it. */
  datatype TotalesInput = TotalesInput(
    exento: bool, amountTotal: real, amountTax: real, amountUntaxed: real,
    taxLines: seq<TaxLine>, mntExe: real, noProduct: bool)

  const AfectoEnExento := "NO pueden ir productos afectos en documentos exentos"
  const SinAfecto := "Debe ir almenos un producto afecto"

  /** _totales. */
  function TotalesSpec(d: TotalesInput): Result<Totales>
  {
    var exe := if d.exento then (if d.noProduct then 0.0 else d.amountTotal) else d.mntExe;
    if d.exento && d.amountTax > 0.0 then Err(UserError(AfectoEnExento))
    else
      match (if !d.exento && d.amountUntaxed != 0.0 then TaxScan(d.taxLines) else Ok(Scan(None, 0.0, 0.0)))
      case Err(e) => Err(e)
      case Ok(s) =>
        if d.amountTax == 0.0 && exe > 0.0 && !d.exento then Err(UserError(SinAfecto))
        else
          var tasa := if s.iva.Some? then Some(PyRound(s.iva.value.rate, 2)) else None;
          var iva := if s.iva.Some? then s.iva.value.amount else 0.0;
          if d.noProduct then Ok(Totales(exe, 0.0, 0.0, Some(0.0), 0.0, s.base))
          else Ok(Totales(exe, s.neto, iva, tasa, d.amountTotal, s.base))
  }

  /** The loop of _totales over the tax lines. */
  method ScanTaxLines(lines: seq<TaxLine>) returns (r: Result<Scan>)
    ensures r == TaxScan(lines)
  {
    var mntNeto, mntBase := 0.0, 0.0;
    var iva: Option<TaxLine> := None;
    var i := 0;
    while i < |lines|
      invariant 0 <= i <= |lines|
      invariant TaxScan(lines[..i]) == Ok(Scan(iva, mntNeto, mntBase))
    {
      TaxScanSnoc(lines, i);
      var t := lines[i];
      if IsIva(t) {
        iva := Some(t);
      }
      if IsIva(t) {
        mntNeto := mntNeto + t.base;
      }
      if t.code == 17 {
        if iva.None? {
          TaxScanErrPrefix(lines, i + 1);
          return Err(AttributeError);
        }
        mntBase := mntBase + iva.value.base;
      }
      i := i + 1;
    }
    assert lines[..i] == lines;
    r := Ok(Scan(iva, mntNeto, mntBase));
  }

  /** TaxScan of one more line. */
  lemma TaxScanSnoc(lines: seq<TaxLine>, i: nat)
    requires i < |lines|
    ensures var t := lines[i];
      TaxScan(lines[..i + 1]) ==
        match TaxScan(lines[..i])
        case Err(e) => Err(e)
        case Ok(s) =>
          var iva := if IsIva(t) then Some(t) else s.iva;
          var neto := if IsIva(t) then s.neto + t.base else s.neto;
          if t.code == 17 then
            if iva.None? then Err(AttributeError)
            else Ok(Scan(iva, neto, s.base + iva.value.base))
          else Ok(Scan(iva, neto, s.base))
  {
    assert lines[..i + 1][..i] == lines[..i];
  }

  /** A scan that fails on a prefix fails on the whole. */
  lemma TaxScanErrPrefix(lines: seq<TaxLine>, k: nat)
    requires k <= |lines| && TaxScan(lines[..k]).Err?
    ensures TaxScan(lines).Err?
  {
    TaxScanFacts(lines[..k]);
    TaxScanFacts(lines);
    var i :| 0 <= i < k && lines[..k][i].code == 17 && forall j :: 0 <= j < i ==> !IsIva(lines[..k][j]);
    assert lines[i].code == 17;
    assert forall j :: 0 <= j < i ==> lines[..k][j] == lines[j];
  }

  /** _totales. */
  method ComputeTotales(d: TotalesInput) returns (r: Result<Totales>)
    ensures r == TotalesSpec(d)
  {
    var mntNeto, mntBase := 0.0, 0.0;
    var iva: Option<TaxLine> := None;
    var mntExe := d.mntExe;
    if d.exento {
      mntExe := d.amountTotal;
      if d.noProduct {
        mntExe := 0.0;
      }
      if d.amountTax > 0.0 {
        return Err(UserError(AfectoEnExento));
      }
    } else if d.amountUntaxed != 0.0 {
      var scan := ScanTaxLines(d.taxLines);
      if scan.Err? {
        return Err(scan.error);
      }
      iva, mntNeto, mntBase := scan.value.iva, scan.value.neto, scan.value.base;
    }
    if d.amountTax == 0.0 && mntExe > 0.0 && !d.exento {
      return Err(UserError(SinAfecto));
    }
    var tasaIva: Option<real> := None;
    var mntIva := 0.0;
    if iva.Some? {
      tasaIva := Some(PyRound(iva.value.rate, 2));
      mntIva := iva.value.amount;
    }
    var mntTotal := d.amountTotal;
    if d.noProduct {
      mntNeto, tasaIva, mntIva, mntTotal := 0.0, Some(0.0), 0.0, 0.0;
    }
    r := Ok(Totales(mntExe, mntNeto, mntIva, tasaIva, mntTotal, mntBase));
  }

  /** Lemma: an exempt document with tax is refused, and so is a
      non-exempt one with an exempt amount and no tax. */
  lemma TotalesRefusals(d: TotalesInput)
    ensures d.exento && d.amountTax > 0.0 ==> TotalesSpec(d) == Err(UserError(AfectoEnExento))
    ensures !d.exento && d.amountTax == 0.0 && d.mntExe > 0.0 && (d.amountUntaxed == 0.0 || TaxScan(d.taxLines).Ok?)
            ==> TotalesSpec(d) == Err(UserError(SinAfecto))
  {
  }

  /** Lemma: a document without products declares no net, no IVA, no
      rate and no total, and an exempt one no exempt amount either. */
  lemma NoProductZeroes(d: TotalesInput)
    requires d.noProduct && TotalesSpec(d).Ok?
    ensures var t := TotalesSpec(d).value;
      t.mntNeto == 0.0 && t.mntIva == 0.0 && t.tasaIva == Some(0.0) && t.mntTotal == 0.0
      && (d.exento ==> t.mntExe == 0.0)
  {
  }

  /** Lemma: the IVA declared is that of the last IVA tax line, and a
      non-exempt document whose lines have no IVA line declares no rate. */
  lemma TotalesIvaFromLastIvaLine(d: TotalesInput)
    requires !d.noProduct && !d.exento && d.amountUntaxed != 0.0 && TotalesSpec(d).Ok?
    ensures var t := TotalesSpec(d).value;
      (t.tasaIva.None? <==> forall i :: 0 <= i < |d.taxLines| ==> !IsIva(d.taxLines[i]))
      && (t.tasaIva.Some? ==>
            exists i :: (0 <= i < |d.taxLines| && IsIva(d.taxLines[i])
              && t.mntIva == d.taxLines[i].amount && t.tasaIva.value == PyRound(d.taxLines[i].rate, 2)
              && forall j :: i < j < |d.taxLines| ==> !IsIva(d.taxLines[j])))
  {
    TaxScanFacts(d.taxLines);
  }

  /** A global discount or surcharge line of the DTE (DscRcgGlobal). */
  datatype DrLine = DrLine(nroLinDr: nat, tpoMov: char, glosaDr: Option<string>, tpoValor: char, valorDr: real, indExeDr: bool)

  /** Python's == between an int and a str: never equal. */
  predicate IntEqualsStr(i: int, s: string)
  {
    false
  }

  /** The IndExeDR test of _gdr as written: the reference's class code (an
      int) is compared with the string "34". */
  predicate IndExeAsWritten(code: int, referenceCodes: seq<int>)
  {
    code == 34 && |referenceCodes| > 0 && IntEqualsStr(referenceCodes[0], "34")
  }

  /** The IndExeDR test as intended: an exempt invoice (34) that refers
      to an exempt invoice. */
  predicate IndExe(code: int, referenceCodes: seq<int>)
  {
    code == 34 && |referenceCodes| > 0 && referenceCodes[0] == 34
  }

  /** Lemma (the source as written): IndExeDR is never set, even on an
      exempt invoice that refers to an exempt invoice. */
  lemma IndExeNeverSetAsWritten()
    ensures IndExe(34, [34]) && !IndExeAsWritten(34, [34])
    ensures forall code, refs :: !IndExeAsWritten(code, refs)
  {
  }

  /** Lemma (the corrected test): IndExeDR marks only exempt documents. */
  lemma IndExeOnlyOnExempt(code: int, referenceCodes: seq<int>)
    requires IndExe(code, referenceCodes)
    ensures EsExento(code, referenceCodes)
  {
    assert ExemptCodes[1] == 34;
  }

  function KindChar(k: GlobalDr.DrKind): char
  {
    if k == GlobalDr.Descuento then 'D' else 'R'
  }

  /** The IndExeDR test _gdr applies: as written when asWritten holds,
      corrected otherwise. */
  predicate IndExeTest(code: int, referenceCodes: seq<int>, asWritten: bool)
  {
    if asWritten then IndExeAsWritten(code, referenceCodes) else IndExe(code, referenceCodes)
  }

  /** One line of _gdr (in the company currency; CLP rounds to whole
      pesos). */
  function DrLineOf(n: nat, dr: GlobalDr.Gdr, code: int, referenceCodes: seq<int>, asWritten: bool): DrLine
  {
    DrLine(n, KindChar(dr.kind), if dr.detail != "" then Some(dr.detail) else None,
           if dr.calculo == GlobalDr.Monto then '$' else '%', RoundPr(dr.valor, 1.0),
           IndExeTest(code, referenceCodes, asWritten))
  }

  /** _gdr, numbering the lines from 1; asWritten selects the IndExeDR test
      of the source as written or the corrected one. */
  method Gdr(entries: seq<GlobalDr.Gdr>, code: int, referenceCodes: seq<int>, asWritten: bool) returns (result: seq<DrLine>)
    ensures |result| == |entries|
    ensures forall i :: 0 <= i < |result| ==> result[i] == DrLineOf(i + 1, entries[i], code, referenceCodes, asWritten)
  {
    result := [];
    var linDr := 1;
    var i := 0;
    while i < |entries|
      invariant 0 <= i <= |entries| && linDr == i + 1 && |result| == i
      invariant forall k :: 0 <= k < i ==> result[k] == DrLineOf(k + 1, entries[k], code, referenceCodes, asWritten)
    {
      var dr := entries[i];
      var glosa: Option<string> := None;
      if dr.detail != "" {
        glosa := Some(dr.detail);
      }
      var discType := '%';
      if dr.calculo == GlobalDr.Monto {
        discType := '$';
      }
      var ind := false;
      if code == 34 && |referenceCodes| > 0 {
        if asWritten {
          ind := IntEqualsStr(referenceCodes[0], "34");
        } else {
          ind := referenceCodes[0] == 34;
        }
      }
      result := result + [DrLine(linDr, KindChar(dr.kind), glosa, discType, RoundPr(dr.valor, 1.0), ind)];
      linDr := linDr + 1;
      i := i + 1;
    }
  }

  /** Lemma: the lines are numbered 1, 2, … in order, and an amount entry
      is marked "$" and a percent entry "%". */
  lemma GdrNumbering(entries: seq<GlobalDr.Gdr>, code: int, referenceCodes: seq<int>, asWritten: bool, i: nat)
    requires i < |entries|
    ensures DrLineOf(i + 1, entries[i], code, referenceCodes, asWritten).nroLinDr == i + 1
    ensures DrLineOf(i + 1, entries[i], code, referenceCodes, asWritten).tpoValor == '$' <==> entries[i].calculo == GlobalDr.Monto
  {
  }

  /** Lemma (the source as written): no line of _gdr carries IndExeDR, even
      for an exempt invoice that refers to an exempt invoice. */
  lemma GdrNeverMarksAsWritten(entries: seq<GlobalDr.Gdr>, code: int, referenceCodes: seq<int>, i: nat)
    requires i < |entries|
    ensures !DrLineOf(i + 1, entries[i], code, referenceCodes, true).indExeDr
    ensures code == 34 && referenceCodes == [34] ==> DrLineOf(i + 1, entries[i], code, referenceCodes, false).indExeDr
  {
  }

  /** Lemma (the corrected test): a line carries IndExeDR exactly when the
      invoice is a 34 whose first reference is a 34, and then the invoice is
      exempt. */
  lemma GdrMarksOnlyExempt(entries: seq<GlobalDr.Gdr>, code: int, referenceCodes: seq<int>, i: nat)
    requires i < |entries|
    ensures DrLineOf(i + 1, entries[i], code, referenceCodes, false).indExeDr <==>
      code == 34 && |referenceCodes| > 0 && referenceCodes[0] == 34
    ensures DrLineOf(i + 1, entries[i], code, referenceCodes, false).indExeDr ==> EsExento(code, referenceCodes)
  {
    if IndExe(code, referenceCodes) {
      IndExeOnlyOnExempt(code, referenceCodes);
    }
  }

  /** A line of the journal entry being built: its amount, whether it is a
      tax line, and whether any of its taxes has amount 0 (exempt). */
  datatype MoveLine = MoveLine(price: real, isTaxLine: bool, exempt: bool)

  /** A line's amount after the global factor (non-tax, non-exempt lines
      only) and the currency rounding. */
  function RoundedPrice(l: MoveLine, gdr: real, rounding: real): real
  {
    RoundPr(Scaled(l, gdr), rounding)
  }

  function Scaled(l: MoveLine, gdr: real): real
  {
    if !l.isTaxLine && !l.exempt then l.price * gdr else l.price
  }

  function RoundedSum(lines: seq<MoveLine>, gdr: real, rounding: real): real
  {
    if lines == [] then 0.0
    else RoundedSum(lines[..|lines| - 1], gdr, rounding) + RoundedPrice(lines[|lines| - 1], gdr, rounding)
  }

  function PriceSum(lines: seq<MoveLine>): real
  {
    if lines == [] then 0.0 else PriceSum(lines[..|lines| - 1]) + lines[|lines| - 1].price
  }

  /** Customer invoices and vendor refunds put the lines on the credit
      side (their amounts negated). */
  function Signed(l: MoveLine, gdr: real, rounding: real, outward: bool): MoveLine
  {
    var p := RoundedPrice(l, gdr, rounding);
    l.(price := if outward then -p else p)
  }

  /** Every line scaled, rounded and put on its side. */
  function SignedLines(lines: seq<MoveLine>, gdr: real, rounding: real, outward: bool): seq<MoveLine>
  {
    seq(|lines|, i requires 0 <= i < |lines| => Signed(lines[i], gdr, rounding, outward))
  }

  /** compute_invoice_totals in the company currency: the total and the
      lines, the first of which absorbs the difference between the
      invoice total and the sum of the rounded lines. */
  function InvoiceTotalsSpec(lines: seq<MoveLine>, outward: bool, amountTotal: real, gdr: real, rounding: real): Result<(real, seq<MoveLine>)>
  {
    var sum := RoundedSum(lines, gdr, rounding);
    var diff := amountTotal - sum;
    var total := if outward then sum else -sum;
    var signed := SignedLines(lines, gdr, rounding, outward);
    if diff == 0.0 then Ok((total, signed))
    else if |lines| == 0 then Err(IndexError)
    else
      var first := signed[0].(price := if outward then signed[0].price - diff else signed[0].price + diff);
      Ok((if outward then total + diff else total - diff, signed[0 := first]))
  }

  /** compute_invoice_totals, updating the lines in place. */
  method ComputeInvoiceTotals(a: array<MoveLine>, outward: bool, amountTotal: real, gdr: real, rounding: real)
    returns (r: Result<real>)
    modifies a
    ensures r.Err? <==> InvoiceTotalsSpec(old(a[..]), outward, amountTotal, gdr, rounding).Err?
    ensures r.Ok? ==> InvoiceTotalsSpec(old(a[..]), outward, amountTotal, gdr, rounding) == Ok((r.value, a[..]))
  {
    var total, amountDiff := SignLines(a, outward, amountTotal, gdr, rounding);
    ghost var signed := a[..];
    if amountDiff != 0.0 {
      if a.Length == 0 {
        return Err(IndexError);
      }
      if outward {
        a[0] := a[0].(price := a[0].price - amountDiff);
        total := total + amountDiff;
      } else {
        a[0] := a[0].(price := a[0].price + amountDiff);
        total := total - amountDiff;
      }
      assert a[..] == signed[0 := a[0]];
    }
    r := Ok(total);
  }

  /** The loop of compute_invoice_totals: each line scaled, rounded and
      put on its side in place, with the running total and the part of the
      invoice total not yet covered. */
  method SignLines(a: array<MoveLine>, outward: bool, amountTotal: real, gdr: real, rounding: real)
    returns (total: real, amountDiff: real)
    modifies a
    ensures a[..] == SignedLines(old(a[..]), gdr, rounding, outward)
    ensures amountDiff == amountTotal - RoundedSum(old(a[..]), gdr, rounding)
    ensures total == (if outward then RoundedSum(old(a[..]), gdr, rounding) else -RoundedSum(old(a[..]), gdr, rounding))
  {
    ghost var orig := a[..];
    total := 0.0;
    amountDiff := amountTotal;
    var i := 0;
    while i < a.Length
      invariant 0 <= i <= a.Length
      invariant forall k :: 0 <= k < i ==> a[k] == Signed(orig[k], gdr, rounding, outward)
      invariant forall k :: i <= k < a.Length ==> a[k] == orig[k]
      invariant amountDiff == amountTotal - RoundedSum(orig[..i], gdr, rounding)
      invariant total == (if outward then RoundedSum(orig[..i], gdr, rounding) else -RoundedSum(orig[..i], gdr, rounding))
    {
      RoundedSumSnoc(orig, i, gdr, rounding);
      var line := a[i];
      var price := LinePrice(line, gdr, rounding);
      amountDiff := amountDiff - price;
      if outward {
        total := total + price;
        price := -price;
      } else {
        total := total - price;
      }
      a[i] := line.(price := price);
      i := i + 1;
    }
    assert orig[..i] == orig;
    assert a[..] == SignedLines(orig, gdr, rounding, outward);
  }

  /** One line's amount in the loop of compute_invoice_totals: the global
      factor on non-tax, non-exempt lines, then the currency rounding. */
  method LinePrice(line: MoveLine, gdr: real, rounding: real) returns (price: real)
    ensures price == RoundedPrice(line, gdr, rounding)
  {
    price := line.price;
    if !line.isTaxLine && !line.exempt {
      price := price * gdr;
    }
    assert price == Scaled(line, gdr);
    price := RoundPr(price, rounding);
  }

  /** RoundedSum of one more line. */
  lemma RoundedSumSnoc(lines: seq<MoveLine>, i: nat, gdr: real, rounding: real)
    requires i < |lines|
    ensures RoundedSum(lines[..i + 1], gdr, rounding) == RoundedSum(lines[..i], gdr, rounding) + RoundedPrice(lines[i], gdr, rounding)
  {
    assert lines[..i + 1][..i] == lines[..i];
  }

  lemma {:induction false} PriceSumSigned(lines: seq<MoveLine>, gdr: real, rounding: real, outward: bool)
    ensures PriceSum(SignedLines(lines, gdr, rounding, outward))
      == (if outward then -RoundedSum(lines, gdr, rounding) else RoundedSum(lines, gdr, rounding))
  {
    if lines != [] {
      var n := |lines| - 1;
      var s := SignedLines(lines, gdr, rounding, outward);
      assert s[..n] == SignedLines(lines[..n], gdr, rounding, outward);
      PriceSumSigned(lines[..n], gdr, rounding, outward);
    }
  }

  /** Changing the first amount changes the sum by the same amount. */
  lemma {:induction false} PriceSumUpdateFirst(lines: seq<MoveLine>, p: real)
    requires |lines| > 0
    ensures PriceSum(lines[0 := lines[0].(price := p)]) == PriceSum(lines) + (p - lines[0].price)
  {
    var n := |lines| - 1;
    var u := lines[0 := lines[0].(price := p)];
    if n > 0 {
      assert u[..n] == lines[..n][0 := lines[0].(price := p)];
      PriceSumUpdateFirst(lines[..n], p);
    } else {
      assert u[..n] == lines[..n];
    }
  }

  /** Lemma: after the fix the total is the invoice total, the lines add up
      to it (on the side of the document), and only the first line differs
      from its own rounded amount. */
  lemma DifferenceAbsorbedByFirstLine(lines: seq<MoveLine>, outward: bool, amountTotal: real, gdr: real, rounding: real)
    requires InvoiceTotalsSpec(lines, outward, amountTotal, gdr, rounding).Ok?
    ensures var (total, out) := InvoiceTotalsSpec(lines, outward, amountTotal, gdr, rounding).value;
      total == (if outward then amountTotal else -amountTotal)
      && PriceSum(out) == (if outward then -amountTotal else amountTotal)
      && |out| == |lines|
      && forall i :: 1 <= i < |lines| ==> out[i] == Signed(lines[i], gdr, rounding, outward)
  {
    var signed := SignedLines(lines, gdr, rounding, outward);
    PriceSumSigned(lines, gdr, rounding, outward);
    var diff := amountTotal - RoundedSum(lines, gdr, rounding);
    if diff != 0.0 {
      var p := if outward then signed[0].price - diff else signed[0].price + diff;
      PriceSumUpdateFirst(signed, p);
    }
  }
}
