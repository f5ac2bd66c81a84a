/** The server side of the point of sale: the DTE totals and detail lines
    of a pos.order, the session counters _process_order keeps, and the folio
    taken when an order is paid. format_vat and _acortar_str are the
    invoice's (Invoice.FormatVat with con_cero false, Invoice.AcortarStr). */
module PosDte {
  import opened Common
  import Invoice
  import PosOrder

  /** A tax of an order line. */
  datatype LineTax = LineTax(amount: real, siiCode: int, priceInclude: bool)

  predicate IsIva(t: LineTax)
  {
    t.siiCode == 14 || t.siiCode == 15
  }

  /** Exempt as the lines see it: a zero rate or SII code 0. */
  predicate IsExempt(t: LineTax)
  {
    t.amount == 0.0 || t.siiCode == 0
  }

  function Abs(x: real): (r: real)
    ensures r >= 0.0 && (r == x || r == -x)
  {
    if x < 0.0 then -x else x
  }

  // ---------------------------------------------------------------------
  // _totales

  /** The rate the IVA scan leaves: the last IVA tax of the first j taxes
      of a line, else what the earlier lines left. */
  function LatestIva(prev: Option<real>, taxes: seq<LineTax>, j: nat): Option<real>
    requires j <= |taxes|
  {
    if j == 0 then prev
    else if IsIva(taxes[j - 1]) then Some(PyRound(taxes[j - 1].amount, 2))
    else LatestIva(prev, taxes, j - 1)
  }

  /** The IVA rate over the first i lines (rounded to two decimals), None
      when none of them carries IVA. */
  function IvaRate(lineTaxes: seq<seq<LineTax>>, i: nat): Option<real>
    requires i <= |lineTaxes|
  {
    if i == 0 then None else LatestIva(IvaRate(lineTaxes, i - 1), lineTaxes[i - 1], |lineTaxes[i - 1]|)
  }

  /** The IVA loop of _totales. */
  method ScanIva(lineTaxes: seq<seq<LineTax>>) returns (iva: Option<real>)
    ensures iva == IvaRate(lineTaxes, |lineTaxes|)
  {
    iva := None;
    var i := 0;
    while i < |lineTaxes|
      invariant 0 <= i <= |lineTaxes|
      invariant iva == IvaRate(lineTaxes, i)
    {
      var taxes := lineTaxes[i];
      ghost var prev := iva;
      var j := 0;
      while j < |taxes|
        invariant 0 <= j <= |taxes|
        invariant iva == LatestIva(prev, taxes, j)
      {
        if IsIva(taxes[j]) {
          iva := Some(PyRound(taxes[j].amount, 2));
        }
        j := j + 1;
      }
      i := i + 1;
    }
  }

  lemma {:induction false} LatestIvaFound(prev: Option<real>, taxes: seq<LineTax>, j: nat)
    requires j <= |taxes|
    ensures var r := LatestIva(prev, taxes, j);
      (r == prev <== forall k :: 0 <= k < j ==> !IsIva(taxes[k]))
      && (r != prev ==> exists k :: 0 <= k < j && IsIva(taxes[k]) && r == Some(PyRound(taxes[k].amount, 2)))
      && (r.None? ==> prev.None?)
      && ((exists k :: 0 <= k < j && IsIva(taxes[k])) ==> r.Some?)
  {
    if j > 0 {
      LatestIvaFound(prev, taxes, j - 1);
    }
  }

  /** Lemma: the scan finds a rate exactly when some line carries an IVA
      tax (code 14 or 15), and the rate is such a tax's rounded to two
      decimals. */
  lemma {:induction false} IvaRateFromIvaTax(lineTaxes: seq<seq<LineTax>>, i: nat)
    requires i <= |lineTaxes|
    ensures IvaRate(lineTaxes, i).Some? <==>
      exists a, k :: 0 <= a < i && 0 <= k < |lineTaxes[a]| && IsIva(lineTaxes[a][k])
    ensures IvaRate(lineTaxes, i).Some? ==>
      exists a, k :: 0 <= a < i && 0 <= k < |lineTaxes[a]| && IsIva(lineTaxes[a][k])
        && IvaRate(lineTaxes, i).value == PyRound(lineTaxes[a][k].amount, 2)
  {
    if i > 0 {
      IvaRateFromIvaTax(lineTaxes, i - 1);
      var prev := IvaRate(lineTaxes, i - 1);
      var taxes := lineTaxes[i - 1];
      LatestIvaFound(prev, taxes, |taxes|);
      if exists k :: 0 <= k < |taxes| && IsIva(taxes[k]) {
        var k :| 0 <= k < |taxes| && IsIva(taxes[k]);
        assert IsIva(lineTaxes[i - 1][k]);
      }
    }
  }

  /** The Totales block of a POS DTE; None marks a key _totales leaves out. */
  datatype PosTotales = PosTotales(
    mntNeto: Option<real>,
    mntExe: Option<real>,
    tasaIva: Option<real>,
    iva: Option<real>,
    mntTotal: real)

  /** What _totales reads: the order's amounts and document code, whether
      that class is a boleta, the tax_detail context flag, the taxes of its
      lines and the currency's rounding. */
  datatype TotalesInput = TotalesInput(
    amountTotal: real,
    amountTax: real,
    siiCode: int,
    esBoleta: bool,
    taxDetail: bool,
    lineTaxes: seq<seq<LineTax>>,
    rounding: real)

  const SinProductoAfecto := "Debe ir almenos un Producto Afecto"

  predicate AfectoEnExento(inp: TotalesInput)
  {
    (inp.siiCode == 34 || inp.siiCode == 41) && inp.amountTax > 0.0
  }

  predicate BoletaSinAfecto(inp: TotalesInput)
  {
    inp.amountTax == 0.0 && inp.siiCode == 39
  }

  /** The net of _totales: |total - tax| less |MntExe|. */
  function Neto(inp: TotalesInput, mntExe: real): real
  {
    Abs(inp.amountTotal - inp.amountTax) - Abs(mntExe)
  }

  /** Whether _totales looks for IVA taxes at all. */
  predicate ScansIva(inp: TotalesInput, mntExe: real)
  {
    Neto(inp, mntExe) > 0.0 && (!inp.esBoleta || inp.taxDetail)
  }

  function FoundIva(inp: TotalesInput, mntExe: real): Option<real>
  {
    if ScansIva(inp, mntExe) then IvaRate(inp.lineTaxes, |inp.lineTaxes|) else None
  }

  /** _totales. The IVA rate is read whenever tax_detail is set or the
      document is not a boleta and IVA was found; without IVA that read is
      of a local never assigned. */
  function TotalesSpec(inp: TotalesInput, mntExe: real, noProduct: bool): Result<PosTotales>
  {
    var total := Abs(RoundPr(inp.amountTotal, inp.rounding));
    if noProduct then Ok(PosTotales(None, None, None, None, 0.0))
    else if AfectoEnExento(inp) then Err(UserError(Invoice.AfectoEnExento))
    else if BoletaSinAfecto(inp) then Err(UserError(SinProductoAfecto))
    else
      var iva := FoundIva(inp, mntExe);
      var neto := if iva.Some? then Some(RoundPr(Neto(inp, mntExe), inp.rounding)) else None;
      var exe := if Abs(mntExe) > 0.0 then Some(RoundPr(Abs(mntExe), inp.rounding)) else None;
      if (iva.Some? && !inp.esBoleta) || inp.taxDetail then
        if iva.None? then Err(UnboundLocalError)
        else Ok(PosTotales(neto, exe, iva, Some(Abs(RoundPr(inp.amountTax, inp.rounding))), total))
      else Ok(PosTotales(neto, exe, None, None, total))
  }

  method Totales(inp: TotalesInput, mntExe: real, noProduct: bool) returns (r: Result<PosTotales>)
    ensures r == TotalesSpec(inp, mntExe, noProduct)
  {
    var total := RoundPr(inp.amountTotal, inp.rounding);
    if total < 0.0 {
      total := -total;
    }
    if noProduct {
      return Ok(PosTotales(None, None, None, None, 0.0));
    }
    if (inp.siiCode == 34 || inp.siiCode == 41) && inp.amountTax > 0.0 {
      return Err(UserError(Invoice.AfectoEnExento));
    }
    var untaxed := inp.amountTotal - inp.amountTax;
    if untaxed < 0.0 {
      untaxed := -untaxed;
    }
    var exe := mntExe;
    if exe < 0.0 {
      exe := -exe;
    }
    if inp.amountTax == 0.0 && inp.siiCode == 39 {
      return Err(UserError(SinProductoAfecto));
    }
    var neto := untaxed - exe;
    var iva: Option<real> := None;
    var mntNeto: Option<real> := None;
    if neto > 0.0 && (!inp.esBoleta || inp.taxDetail) {
      iva := ScanIva(inp.lineTaxes);
      if iva.Some? {
        mntNeto := Some(RoundPr(neto, inp.rounding));
      }
    }
    var mntExeOut: Option<real> := None;
    if exe > 0.0 {
      mntExeOut := Some(RoundPr(exe, inp.rounding));
    }
    if (iva.Some? && !inp.esBoleta) || inp.taxDetail {
      if iva.None? {
        return Err(UnboundLocalError);
      }
      var tax := RoundPr(inp.amountTax, inp.rounding);
      if tax < 0.0 {
        tax := -tax;
      }
      return Ok(PosTotales(mntNeto, mntExeOut, iva, Some(tax), total));
    }
    r := Ok(PosTotales(mntNeto, mntExeOut, None, None, total));
  }

  /** Lemma: _totales refuses a taxed exempt document, a boleta without a
      taxed product, and (reading an unassigned local) a tax_detail request
      or taxed factura with no IVA found; it succeeds otherwise. */
  lemma TotalesRefusals(inp: TotalesInput, mntExe: real, noProduct: bool)
    ensures var r := TotalesSpec(inp, mntExe, noProduct);
      (r.Err? && r.error.UserError? <==> !noProduct && (AfectoEnExento(inp) || BoletaSinAfecto(inp)))
      && (r == Err(UnboundLocalError) <==>
            !noProduct && !AfectoEnExento(inp) && !BoletaSinAfecto(inp)
            && inp.taxDetail && FoundIva(inp, mntExe).None?)
      && (r.Err? ==> r.error.UserError? || r.error == UnboundLocalError)
  {
  }

  /** Lemma: MntTotal is the rounded order total without its sign, or 0
      for a NO_PRODUCT order. */
  lemma TotalesMntTotal(inp: TotalesInput, mntExe: real, noProduct: bool)
    requires TotalesSpec(inp, mntExe, noProduct).Ok?
    ensures var t := TotalesSpec(inp, mntExe, noProduct).value;
      t.mntTotal >= 0.0
      && t.mntTotal == (if noProduct then 0.0 else Abs(RoundPr(inp.amountTotal, inp.rounding)))
  {
  }

  /** Lemma: a net amount is declared only with IVA found in the lines; a
      factura (not a boleta) then also declares the rate and the tax, and a
      boleta without tax_detail declares none of the three. */
  lemma TotalesNetoNeedsIva(inp: TotalesInput, mntExe: real, noProduct: bool)
    requires TotalesSpec(inp, mntExe, noProduct).Ok?
    ensures var t := TotalesSpec(inp, mntExe, noProduct).value;
      (t.mntNeto.Some? ==>
         (exists a, k :: 0 <= a < |inp.lineTaxes| && 0 <= k < |inp.lineTaxes[a]| && IsIva(inp.lineTaxes[a][k])))
      && (t.mntNeto.Some? && !inp.esBoleta ==> t.tasaIva.Some? && t.iva.Some?)
      && (inp.esBoleta && !inp.taxDetail ==> t.mntNeto.None? && t.tasaIva.None? && t.iva.None?)
  {
    IvaRateFromIvaTax(inp.lineTaxes, |inp.lineTaxes|);
  }

  // ---------------------------------------------------------------------
  // _invoice_lines

  const NoProductCode := "NO_PRODUCT"

  /** An order line as _invoice_lines reads it. */
  datatype PosLine = PosLine(
    defaultCode: string,
    productName: string,
    name: string,
    taxes: seq<LineTax>,
    qty: real,
    uomName: string,
    priceUnit: real,
    discount: real,
    priceSubtotal: real,
    priceSubtotalIncl: real)

  /** A Detalle entry; None marks a key the line does not carry. */
  datatype Detalle = Detalle(
    nroLinDet: int,
    cdgItem: Option<string>,
    indExe: bool,
    nmbItem: string,
    dscItem: string,
    qtyItem: Option<real>,
    unmdItem: Option<string>,
    prcItem: Option<real>,
    descuentoPct: Option<real>,
    descuentoMonto: Option<real>,
    montoItem: real)

  /** The locals _invoice_lines carries from line to line; None for one
      not yet assigned. */
  datatype LinesState = LinesState(
    detalle: seq<Detalle>,
    mntExe: real,
    noProduct: bool,
    taxInclude: Option<bool>,
    price: Option<real>)

  datatype LinesResult = LinesResult(detalle: seq<Detalle>, mntExe: real, noProduct: bool, taxInclude: bool)

  /** What the tax loop of one line leaves. */
  datatype TaxFlags = TaxFlags(indExe: bool, exeAdded: real, taxInclude: bool)

  /** The tax loop over the first j taxes of a line: each exempt tax marks
      the line exempt and adds the rounded amount again; any other sets
      taxInclude to its own price_include. */
  function LineTaxFlags(taxes: seq<LineTax>, j: nat, exeAmount: real): TaxFlags
    requires j <= |taxes|
  {
    if j == 0 then TaxFlags(false, 0.0, true)
    else
      var p := LineTaxFlags(taxes, j - 1, exeAmount);
      if IsExempt(taxes[j - 1]) then p.(indExe := true, exeAdded := p.exeAdded + exeAmount)
      else p.(taxInclude := taxes[j - 1].priceInclude)
  }

  method ScanLineTaxes(taxes: seq<LineTax>, exeAmount: real) returns (f: TaxFlags)
    ensures f == LineTaxFlags(taxes, |taxes|, exeAmount)
  {
    f := TaxFlags(false, 0.0, true);
    var j := 0;
    while j < |taxes|
      invariant 0 <= j <= |taxes|
      invariant f == LineTaxFlags(taxes, j, exeAmount)
    {
      if IsExempt(taxes[j]) {
        f := f.(indExe := true, exeAdded := f.exeAdded + exeAmount);
      } else {
        f := f.(taxInclude := taxes[j].priceInclude);
      }
      j := j + 1;
    }
  }

  /** DescuentoMonto: the rounded discount on the line's rounded price. */
  function DescuentoMonto(discount: real, prc: real, qty: real, rounding: real): real
  {
    RoundPr(discount / 100.0 * prc * qty, rounding)
  }

  /** NmbItem: the product name without its "[code] " prefix, cut to 80. */
  function NmbItem(l: PosLine): string
  {
    if l.defaultCode != "" then Take(ReplaceAll(l.productName, "[" + l.defaultCode + "] ", ""), 80)
    else Take(l.productName, 80)
  }

  /** The quantity _invoice_lines works with: rounded to 4 decimals, sign
      dropped. */
  function Qty(l: PosLine): real
  {
    Abs(PyRound(l.qty, 4))
  }

  /** One pass of the loop of _invoice_lines. As written, a line that
      reaches `price` before any line has assigned it fails; corrected, a
      NO_PRODUCT line needs no price. */
  function LineStep(st: LinesState, l: PosLine, rounding: real, asWritten: bool): Result<LinesState>
  {
    var noProduct := st.noProduct || l.defaultCode == NoProductCode;
    var f := LineTaxFlags(l.taxes, |l.taxes|, RoundPr(l.priceSubtotalIncl, rounding));
    var cdg := if l.defaultCode != "" && !noProduct then Some(l.defaultCode) else None;
    var qty := Qty(l);
    var prc := if noProduct then None else Some(PyRound(l.priceUnit, 4));
    if l.discount > 0.0 && prc.None? then Err(KeyError)
    else
      var price := if noProduct then st.price
                   else Some(RoundPr(if f.taxInclude then l.priceSubtotalIncl else l.priceSubtotal, rounding));
      if asWritten && price.None? then Err(UnboundLocalError)
      else
        var d := Detalle(
          |st.detalle| + 1,
          cdg,
          f.indExe,
          NmbItem(l),
          Take(l.name, 1000),
          if noProduct then None else if qty == 0.0 then Some(1.0) else Some(qty),
          if noProduct then None else Some(Take(l.uomName, 4)),
          if prc == Some(0.0) then None else prc,
          if l.discount > 0.0 then Some(l.discount) else None,
          if l.discount > 0.0 then Some(DescuentoMonto(l.discount, prc.value, qty, rounding)) else None,
          if noProduct || price.None? then 0.0 else Abs(price.value));
        Ok(LinesState(st.detalle + [d], st.mntExe + f.exeAdded, noProduct, Some(f.taxInclude), price))
  }

  function LinesFold(lines: seq<PosLine>, k: nat, rounding: real, asWritten: bool): Result<LinesState>
    requires k <= |lines|
  {
    if k == 0 then Ok(LinesState([], 0.0, false, None, None))
    else
      match LinesFold(lines, k - 1, rounding, asWritten)
      case Err(e) => Err(e)
      case Ok(st) => LineStep(st, lines[k - 1], rounding, asWritten)
  }

  /** _invoice_lines; an order without lines ends reading the unassigned
      tax_include. */
  function InvoiceLinesSpec(lines: seq<PosLine>, rounding: real, asWritten: bool): Result<LinesResult>
  {
    match LinesFold(lines, |lines|, rounding, asWritten)
    case Err(e) => Err(e)
    case Ok(st) =>
      if st.taxInclude.None? then Err(UnboundLocalError)
      else Ok(LinesResult(st.detalle, st.mntExe, st.noProduct, st.taxInclude.value))
  }

  /** A prefix of the right length is the prefix. */
  lemma TakeOfPrefix(s: string, n: int, c: string)
    requires c <= s && |c| == (if n <= 0 then 0 else if n < |s| then n else |s|)
    ensures c == Take(s, n)
  {
    var t := Take(s, n);
    assert forall i :: 0 <= i < |c| ==> c[i] == s[i] == t[i];
  }

  /** One line of _invoice_lines. */
  method BuildLine(st: LinesState, l: PosLine, rounding: real, asWritten: bool) returns (r: Result<LinesState>)
    ensures r == LineStep(st, l, rounding, asWritten)
  {
    var noProduct := st.noProduct || l.defaultCode == NoProductCode;
    var cdg: Option<string> := None;
    if l.defaultCode != "" && !noProduct {
      cdg := Some(l.defaultCode);
    }
    var f := ScanLineTaxes(l.taxes, RoundPr(l.priceSubtotalIncl, rounding));
    var nmb := Invoice.AcortarStr(l.productName, 80);
    TakeOfPrefix(l.productName, 80, nmb);
    var dsc := Invoice.AcortarStr(l.name, 1000);
    TakeOfPrefix(l.name, 1000, dsc);
    if l.defaultCode != "" {
      var stripped := ReplaceAll(l.productName, "[" + l.defaultCode + "] ", "");
      nmb := Invoice.AcortarStr(stripped, 80);
      TakeOfPrefix(stripped, 80, nmb);
    }
    var qty := PyRound(l.qty, 4);
    if qty < 0.0 {
      qty := -qty;
    }
    var qtyItem: Option<real> := None;
    var unmd: Option<string> := None;
    var prc: Option<real> := None;
    if !noProduct {
      qtyItem := Some(qty);
      if qty == 0.0 {
        qtyItem := Some(1.0);
      }
      unmd := Some(Take(l.uomName, 4));
      prc := Some(PyRound(l.priceUnit, 4));
    }
    var pct: Option<real> := None;
    var monto: Option<real> := None;
    if l.discount > 0.0 {
      if prc.None? {
        return Err(KeyError);
      }
      pct := Some(l.discount);
      monto := Some(DescuentoMonto(l.discount, prc.value, qty, rounding));
    }
    var price := st.price;
    if !noProduct && !f.taxInclude {
      price := Some(RoundPr(l.priceSubtotal, rounding));
    } else if !noProduct {
      price := Some(RoundPr(l.priceSubtotalIncl, rounding));
    }
    if asWritten && price.None? {
      return Err(UnboundLocalError);
    }
    var montoItem := 0.0;
    if !noProduct && price.Some? {
      montoItem := Abs(price.value);
    }
    if prc == Some(0.0) {
      prc := None;
    }
    var d := Detalle(|st.detalle| + 1, cdg, f.indExe, nmb, dsc, qtyItem, unmd, prc, pct, monto, montoItem);
    r := Ok(LinesState(st.detalle + [d], st.mntExe + f.exeAdded, noProduct, Some(f.taxInclude), price));
  }

  method InvoiceLines(lines: seq<PosLine>, rounding: real, asWritten: bool) returns (r: Result<LinesResult>)
    ensures r == InvoiceLinesSpec(lines, rounding, asWritten)
  {
    var folded := FoldLines(lines, rounding, asWritten);
    if folded.Err? {
      return Err(folded.error);
    }
    var st := folded.value;
    if st.taxInclude.None? {
      return Err(UnboundLocalError);
    }
    r := Ok(LinesResult(st.detalle, st.mntExe, st.noProduct, st.taxInclude.value));
  }

  /** The loop of _invoice_lines, stopping at the first line that fails. */
  method FoldLines(lines: seq<PosLine>, rounding: real, asWritten: bool) returns (r: Result<LinesState>)
    ensures r == LinesFold(lines, |lines|, rounding, asWritten)
  {
    var st := LinesState([], 0.0, false, None, None);
    var k := 0;
    while k < |lines|
      invariant 0 <= k <= |lines|
      invariant LinesFold(lines, k, rounding, asWritten) == Ok(st)
    {
      var next := NextLine(lines, k, rounding, asWritten, st);
      if next.Err? {
        FoldStaysFailed(lines, k + 1, |lines|, rounding, asWritten);
        return next;
      }
      st := next.value;
      k := k + 1;
    }
    r := Ok(st);
  }

  /** The k-th pass of the loop of _invoice_lines. */
  method NextLine(lines: seq<PosLine>, k: nat, rounding: real, asWritten: bool, st: LinesState) returns (next: Result<LinesState>)
    requires k < |lines| && LinesFold(lines, k, rounding, asWritten) == Ok(st)
    ensures next == LinesFold(lines, k + 1, rounding, asWritten)
  {
    next := BuildLine(st, lines[k], rounding, asWritten);
  }

  lemma {:induction false} FoldStaysFailed(lines: seq<PosLine>, k: nat, n: nat, rounding: real, asWritten: bool)
    requires k <= n <= |lines| && LinesFold(lines, k, rounding, asWritten).Err?
    ensures LinesFold(lines, n, rounding, asWritten) == Err(LinesFold(lines, k, rounding, asWritten).error)
    decreases n - k
  {
    if k < n {
      FoldStaysFailed(lines, k, n - 1, rounding, asWritten);
    }
  }

  /** Whether some of the first k lines is the NO_PRODUCT one. */
  predicate SeenNoProduct(lines: seq<PosLine>, k: nat)
    requires k <= |lines|
  {
    exists j :: 0 <= j < k && lines[j].defaultCode == NoProductCode
  }

  /** The fold's invariant: one numbered entry per line, and NO_PRODUCT
      sticks once seen, blanking quantity, unit price and amount. */
  lemma {:induction false} FoldShape(lines: seq<PosLine>, k: nat, rounding: real, asWritten: bool)
    requires k <= |lines| && LinesFold(lines, k, rounding, asWritten).Ok?
    ensures var st := LinesFold(lines, k, rounding, asWritten).value;
      |st.detalle| == k
      && (st.noProduct <==> SeenNoProduct(lines, k))
      && (st.taxInclude.Some? <==> k > 0)
      && forall i :: 0 <= i < k ==>
           st.detalle[i].nroLinDet == i + 1
           && st.detalle[i].montoItem >= 0.0
           && (st.detalle[i].qtyItem.Some? ==> st.detalle[i].qtyItem.value > 0.0)
           && (st.detalle[i].prcItem.Some? ==> st.detalle[i].prcItem.value != 0.0)
           && (SeenNoProduct(lines, i + 1) <==> st.detalle[i].qtyItem.None?)
           && (SeenNoProduct(lines, i + 1) ==>
                 st.detalle[i].montoItem == 0.0 && st.detalle[i].prcItem.None? && st.detalle[i].cdgItem.None?)
  {
    if k > 0 {
      var prev := LinesFold(lines, k - 1, rounding, asWritten);
      assert prev.Ok?;
      FoldShape(lines, k - 1, rounding, asWritten);
      SeenNoProductNext(lines, k);
    }
  }

  /** Lemma: the Detalle entries are numbered 1, 2, … one per line; amounts
      are unsigned, a quantity is never 0 and a zero unit price is left
      out; from the NO_PRODUCT line on, lines carry no code, quantity or
      unit price and a 0 amount. */
  lemma InvoiceLinesShape(lines: seq<PosLine>, rounding: real, asWritten: bool)
    requires InvoiceLinesSpec(lines, rounding, asWritten).Ok?
    ensures var r := InvoiceLinesSpec(lines, rounding, asWritten).value;
      |r.detalle| == |lines| && (r.noProduct <==> SeenNoProduct(lines, |lines|))
      && forall i :: 0 <= i < |lines| ==>
           r.detalle[i].nroLinDet == i + 1
           && r.detalle[i].montoItem >= 0.0
           && (r.detalle[i].qtyItem.Some? ==> r.detalle[i].qtyItem.value > 0.0)
           && (r.detalle[i].prcItem.Some? ==> r.detalle[i].prcItem.value != 0.0)
           && (SeenNoProduct(lines, i + 1) ==>
                 r.detalle[i].montoItem == 0.0 && r.detalle[i].qtyItem.None? && r.detalle[i].cdgItem.None?)
  {
    FoldShape(lines, |lines|, rounding, asWritten);
  }

  /** Lemma (as written): an order whose first line is the NO_PRODUCT one
      fails. With a discount the missing PrcItem is read; without one, the
      never assigned price. */
  lemma NoProductFirstFailsAsWritten(lines: seq<PosLine>, rounding: real)
    requires |lines| > 0 && lines[0].defaultCode == NoProductCode
    ensures InvoiceLinesSpec(lines, rounding, true)
      == Err(if lines[0].discount > 0.0 then KeyError else UnboundLocalError)
  {
    FoldStaysFailed(lines, 1, |lines|, rounding, true);
  }

  /** Lemma (corrected): the detail fails exactly for an order without
      lines or a discount on a line from NO_PRODUCT on; otherwise the
      NO_PRODUCT line is stamped with amount 0. */
  lemma {:induction false} CorrectedFailsOnlyOnDiscount(lines: seq<PosLine>, k: nat, rounding: real)
    requires k <= |lines|
    ensures LinesFold(lines, k, rounding, false).Err? <==>
      exists i :: 0 <= i < k && SeenNoProduct(lines, i + 1) && lines[i].discount > 0.0
  {
    if k > 0 {
      CorrectedFailsOnlyOnDiscount(lines, k - 1, rounding);
      var prev := LinesFold(lines, k - 1, rounding, false);
      if prev.Ok? {
        FoldNoProduct(lines, k - 1, rounding, false);
        SeenNoProductNext(lines, k);
        CorrectedStepFails(prev.value, lines[k - 1], rounding);
        if LinesFold(lines, k, rounding, false).Err? {
          assert SeenNoProduct(lines, (k - 1) + 1) && lines[k - 1].discount > 0.0;
        }
      } else {
        var i :| 0 <= i < k - 1 && SeenNoProduct(lines, i + 1) && lines[i].discount > 0.0;
        assert 0 <= i < k;
      }
    }
  }

  /** Corrected, one pass fails exactly on a discount from NO_PRODUCT on. */
  lemma CorrectedStepFails(st: LinesState, l: PosLine, rounding: real)
    ensures LineStep(st, l, rounding, false).Err? <==>
      (st.noProduct || l.defaultCode == NoProductCode) && l.discount > 0.0
  {
  }

  /** The NO_PRODUCT line is among the first k exactly when it is among the
      first k - 1 or is the k-th. */
  lemma SeenNoProductNext(lines: seq<PosLine>, k: nat)
    requires 0 < k <= |lines|
    ensures SeenNoProduct(lines, k) <==> SeenNoProduct(lines, k - 1) || lines[k - 1].defaultCode == NoProductCode
  {
    if lines[k - 1].defaultCode == NoProductCode {
      assert SeenNoProduct(lines, k);
    } else if SeenNoProduct(lines, k) {
      var j :| 0 <= j < k && lines[j].defaultCode == NoProductCode;
      assert SeenNoProduct(lines, k - 1);
    }
  }

  /** The fold's NO_PRODUCT flag is set exactly from the NO_PRODUCT line on. */
  lemma {:induction false} FoldNoProduct(lines: seq<PosLine>, k: nat, rounding: real, asWritten: bool)
    requires k <= |lines| && LinesFold(lines, k, rounding, asWritten).Ok?
    ensures LinesFold(lines, k, rounding, asWritten).value.noProduct <==> SeenNoProduct(lines, k)
  {
    if k > 0 {
      FoldNoProduct(lines, k - 1, rounding, asWritten);
      SeenNoProductNext(lines, k);
    }
  }

  /** Lemma: without exempt taxes no line is marked IndExe and MntExe is 0. */
  lemma {:induction false} NoExemptNoMntExe(lines: seq<PosLine>, k: nat, rounding: real, asWritten: bool)
    requires k <= |lines| && LinesFold(lines, k, rounding, asWritten).Ok?
    requires forall i, t :: 0 <= i < k && t in lines[i].taxes ==> !IsExempt(t)
    ensures var st := LinesFold(lines, k, rounding, asWritten).value;
      st.mntExe == 0.0 && forall i :: 0 <= i < |st.detalle| ==> !st.detalle[i].indExe
  {
    if k > 0 {
      NoExemptNoMntExe(lines, k - 1, rounding, asWritten);
      NoExemptFlags(lines[k - 1].taxes, |lines[k - 1].taxes|, RoundPr(lines[k - 1].priceSubtotalIncl, rounding));
    }
  }

  lemma {:induction false} NoExemptFlags(taxes: seq<LineTax>, j: nat, exeAmount: real)
    requires j <= |taxes| && forall t :: t in taxes ==> !IsExempt(t)
    ensures !LineTaxFlags(taxes, j, exeAmount).indExe && LineTaxFlags(taxes, j, exeAmount).exeAdded == 0.0
  {
    if j > 0 {
      NoExemptFlags(taxes, j - 1, exeAmount);
      assert taxes[j - 1] in taxes;
    }
  }

  // ---------------------------------------------------------------------
  // _process_order and action_pos_order_paid

  /** The part of the order dict _process_order reads: orden_numero (0
      when absent), the SII code of the sequence's document class (None
      without a sequence), the folio, the signature and the invoice flags. */
  datatype IncomingOrder = IncomingOrder(
    ordenNumero: int,
    sequenceClass: Option<int>,
    siiDocumentNumber: int,
    signature: string,
    toInvoice: bool,
    exenta: bool)

  /** A stored pos.order: its document class (SII code, 0 for none), folio
      (0 for none), signature ("" for none), whether it has a sequence and
      an XML request, and its session. */
  class ServerOrder {
    var documentClass: int
    var siiDocumentNumber: int
    var signature: string
    var hasSequence: bool
    var hasXmlRequest: bool
    var session: PosOrder.Session

    constructor(session: PosOrder.Session)
      ensures this.session == session
      ensures documentClass == 0 && siiDocumentNumber == 0 && signature == ""
      ensures !hasSequence && !hasXmlRequest
    {
      this.session := session;
      documentClass := 0;
      siiDocumentNumber := 0;
      signature := "";
      hasSequence := false;
      hasXmlRequest := false;
    }

    /** _process_order: an order numbered under a boleta (39) or exempt
        boleta (41) sequence raises that session counter to its number;
        it keeps the client's folio and, when the session can sign, the
        client's signature, and then takes a folio from the sequence
        (`consumes`). An order to invoice gets class 34 or 33. */
    method ProcessOrder(o: IncomingOrder, canSign: bool) returns (consumes: bool)
      modifies this, session
      ensures session == old(session)
      ensures var numbered := o.ordenNumero != 0 && o.sequenceClass.Some?;
        && (session.numeroOrdenes ==
              if numbered && o.sequenceClass.value == 39 && o.ordenNumero > old(session.numeroOrdenes)
              then o.ordenNumero else old(session.numeroOrdenes))
        && (session.numeroOrdenesExentas ==
              if numbered && o.sequenceClass.value == 41 && o.ordenNumero > old(session.numeroOrdenesExentas)
              then o.ordenNumero else old(session.numeroOrdenesExentas))
        && session.startNumber == old(session.startNumber)
        && session.startNumberExentas == old(session.startNumberExentas)
        && session.companyDocumentNumber == old(session.companyDocumentNumber)
        && hasSequence == (numbered || old(hasSequence))
        && documentClass ==
             (if numbered then o.sequenceClass.value
              else if o.toInvoice then (if o.exenta then 34 else 33)
              else old(documentClass))
        && siiDocumentNumber == (if numbered then o.siiDocumentNumber else old(siiDocumentNumber))
        && signature == (if numbered && canSign then o.signature else old(signature))
        && consumes == (numbered && canSign)
        && hasXmlRequest == old(hasXmlRequest)
    {
      consumes := false;
      if o.ordenNumero != 0 && o.sequenceClass.Some? {
        hasSequence := true;
        documentClass := o.sequenceClass.value;
        if documentClass == 39 && o.ordenNumero > session.numeroOrdenes {
          session.numeroOrdenes := o.ordenNumero;
        } else if documentClass == 41 && o.ordenNumero > session.numeroOrdenesExentas {
          session.numeroOrdenesExentas := o.ordenNumero;
        }
        siiDocumentNumber := o.siiDocumentNumber;
        if canSign {
          signature := o.signature;
          consumes := true;
        }
      } else if o.toInvoice {
        documentClass := if o.exenta then 34 else 33;
      }
    }

    /** action_pos_order_paid: a paid order with a sequence and no XML
        request takes the sequence's next folio, but only when it has
        neither a folio nor a signature. */
    method ActionPosOrderPaid(paid: bool, nextFolio: int) returns (consumed: bool)
      modifies this
      ensures consumed == (paid && old(hasSequence) && !old(hasXmlRequest)
                           && old(siiDocumentNumber) == 0 && old(signature) == "")
      ensures siiDocumentNumber == if consumed then nextFolio else old(siiDocumentNumber)
      ensures documentClass == old(documentClass) && signature == old(signature)
      ensures hasSequence == old(hasSequence) && hasXmlRequest == old(hasXmlRequest)
      ensures session == old(session)
    {
      consumed := false;
      if paid && hasSequence && !hasXmlRequest {
        if siiDocumentNumber == 0 && signature == "" {
          siiDocumentNumber := nextFolio;
          consumed := true;
        }
      }
    }
  }

  /** Paying an order twice takes one folio at most: once it has a
      (non-zero) folio, a second call leaves it alone. */
  method PaidTwiceTakesOneFolio(o: ServerOrder, first: int, second: int) returns (c1: bool, c2: bool)
    requires first != 0
    modifies o
    ensures !c2
    ensures c1 ==> o.siiDocumentNumber == first
  {
    c1 := o.ActionPosOrderPaid(true, first);
    c2 := o.ActionPosOrderPaid(true, second);
  }
}
