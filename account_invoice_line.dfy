/** The invoice line as the Chilean localisation extends it: the discount
    in whole pesos, the line's subtotal and total from the taxes' totals
    after the tax-mix and unit-of-measure checks, and the tax detail the
    DTE's Detalle and totals read. */
module InvoiceLine {
  import opened Common
  import ServerTaxes

  // ---------------------------------------------------------------------
  // set_discount_amount

  /** The discount's share of a total. */
  function Share(total: real, discount: real): real
  {
    total * (discount / 100.0)
  }

  /** set_discount_amount: the discount on the rounded line amount, as a
      whole number rounded half away from zero. */
  function DiscountAmount(quantity: real, priceUnit: real, discount: real, rounding: real): int
  {
    RoundHalfUp(Share(RoundPr(quantity * priceUnit, rounding), discount))
  }

  /** Lemma: the discount amount is within half a peso of the discount's
      share of the rounded amount; it is 0 without a discount, never
      negative for a non-negative amount and discount, and the whole
      amount at 100% of a whole-peso amount. */
  lemma DiscountAmountBounds(quantity: real, priceUnit: real, discount: real, rounding: real)
    ensures var total := RoundPr(quantity * priceUnit, rounding);
      var r := DiscountAmount(quantity, priceUnit, discount, rounding);
      Share(total, discount) - 0.5 <= r as real <= Share(total, discount) + 0.5
      && (discount == 0.0 ==> r == 0)
      && (total >= 0.0 && discount >= 0.0 ==> r >= 0)
      && (discount == 100.0 && total == total.Floor as real ==> r == total.Floor)
  {
    var total := RoundPr(quantity * priceUnit, rounding);
    if discount >= 0.0 && total >= 0.0 {
      assert Share(total, discount) >= 0.0;
    }
    if discount == 100.0 && total == total.Floor as real {
      assert Share(total, discount) == total;
      RoundHalfUpOfInt(total.Floor);
    }
  }

  // ---------------------------------------------------------------------
  // _compute_price

  /** A tax of the line as _compute_price reads it: whether its price is
      included and its unit-of-measure category (None without a unit). */
  datatype PriceTax = PriceTax(priceInclude: bool, uomCategory: Option<int>, uomCategoryName: string)

  const UomMessage := "Con este tipo de impuesto, solamente deben ir unidades de medida de la categoría "
  const MixedMessage := "No se puede hacer timbrado mixto, todos los impuestos en este pedido deben ser uno de estos dos:  1.- precio incluído, 2.-  precio sin incluir"

  /** The tax loop of _compute_price from tax i on, `included` being the
      previous tax's price_include (None before the first tax). */
  function CheckFrom(taxes: seq<PriceTax>, lineCategory: Option<int>, i: nat, included: Option<bool>): Result<()>
    requires i <= |taxes|
    decreases |taxes| - i
  {
    if i == |taxes| then Ok(())
    else
      var t := taxes[i];
      if t.uomCategory.Some? && t.uomCategory != lineCategory then Err(UserError(UomMessage + t.uomCategoryName))
      else if included.Some? && t.priceInclude != included.value then Err(UserError(MixedMessage))
      else CheckFrom(taxes, lineCategory, i + 1, Some(t.priceInclude))
  }

  method CheckTaxes(taxes: seq<PriceTax>, lineCategory: Option<int>) returns (r: Result<()>)
    ensures r == CheckFrom(taxes, lineCategory, 0, None)
  {
    var included: Option<bool> := None;
    var i := 0;
    while i < |taxes|
      invariant 0 <= i <= |taxes|
      invariant CheckFrom(taxes, lineCategory, 0, None) == CheckFrom(taxes, lineCategory, i, included)
    {
      var t := taxes[i];
      if t.uomCategory.Some? && t.uomCategory != lineCategory {
        return Err(UserError(UomMessage + t.uomCategoryName));
      }
      if included.Some? && t.priceInclude != included.value {
        return Err(UserError(MixedMessage));
      }
      included := Some(t.priceInclude);
      i := i + 1;
    }
    r := Ok(());
  }

  /** All taxes from i on are of the line's unit category (or have none). */
  ghost predicate UomsMatch(taxes: seq<PriceTax>, lineCategory: Option<int>, i: nat)
  {
    forall j :: i <= j < |taxes| ==> taxes[j].uomCategory.None? || taxes[j].uomCategory == lineCategory
  }

  /** All taxes from i on have price_include b. */
  ghost predicate AllInclude(taxes: seq<PriceTax>, i: nat, b: bool)
  {
    forall j :: i <= j < |taxes| ==> taxes[j].priceInclude == b
  }

  lemma {:induction false} CheckFromOkIff(taxes: seq<PriceTax>, lineCategory: Option<int>, i: nat, included: Option<bool>)
    requires i <= |taxes|
    ensures CheckFrom(taxes, lineCategory, i, included).Ok? <==>
      UomsMatch(taxes, lineCategory, i)
      && (i == |taxes| || AllInclude(taxes, i, if included.Some? then included.value else taxes[i].priceInclude))
    decreases |taxes| - i
  {
    if i < |taxes| {
      CheckFromOkIff(taxes, lineCategory, i + 1, Some(taxes[i].priceInclude));
    }
  }

  /** Lemma: the line's taxes pass exactly when each tax with a unit of
      measure shares the line's unit category and all of them agree on
      price_include; a failure is a UserError. */
  lemma CheckTaxesOkIff(taxes: seq<PriceTax>, lineCategory: Option<int>)
    ensures CheckFrom(taxes, lineCategory, 0, None).Ok? <==>
      (forall j :: 0 <= j < |taxes| ==> taxes[j].uomCategory.None? || taxes[j].uomCategory == lineCategory)
      && (forall j :: 0 <= j < |taxes| ==> taxes[j].priceInclude == taxes[0].priceInclude)
    ensures CheckFrom(taxes, lineCategory, 0, None).Err? ==> CheckFrom(taxes, lineCategory, 0, None).error.UserError?
  {
    CheckFromOkIff(taxes, lineCategory, 0, None);
    CheckFromErr(taxes, lineCategory, 0, None);
  }

  lemma {:induction false} CheckFromErr(taxes: seq<PriceTax>, lineCategory: Option<int>, i: nat, included: Option<bool>)
    requires i <= |taxes|
    ensures CheckFrom(taxes, lineCategory, i, included).Err? ==> CheckFrom(taxes, lineCategory, i, included).error.UserError?
    decreases |taxes| - i
  {
    if i < |taxes| {
      CheckFromErr(taxes, lineCategory, i + 1, Some(taxes[i].priceInclude));
    }
  }

  /** An account.invoice.line with the fields the two compute methods
      write. `refund` is whether the invoice is a refund. */
  class AccountInvoiceLine {
    var quantity: real
    var priceUnit: real
    var discount: real
    var rounding: real
    var uomCategory: Option<int>
    var taxes: seq<PriceTax>
    var refund: bool
    var discountAmount: int
    var priceSubtotal: real
    var priceSubtotalSigned: real
    var priceTotal: real

    constructor(quantity: real, priceUnit: real, discount: real, rounding: real,
                uomCategory: Option<int>, taxes: seq<PriceTax>, refund: bool)
      ensures this.quantity == quantity && this.priceUnit == priceUnit && this.discount == discount
      ensures this.rounding == rounding && this.uomCategory == uomCategory
      ensures this.taxes == taxes && this.refund == refund
      ensures discountAmount == 0 && priceSubtotal == 0.0 && priceSubtotalSigned == 0.0 && priceTotal == 0.0
    {
      this.quantity := quantity;
      this.priceUnit := priceUnit;
      this.discount := discount;
      this.rounding := rounding;
      this.uomCategory := uomCategory;
      this.taxes := taxes;
      this.refund := refund;
      discountAmount := 0;
      priceSubtotal := 0.0;
      priceSubtotalSigned := 0.0;
      priceTotal := 0.0;
    }

    /** set_discount_amount. */
    method SetDiscountAmount()
      modifies this
      ensures discountAmount == DiscountAmount(quantity, priceUnit, discount, rounding)
      ensures quantity == old(quantity) && priceUnit == old(priceUnit) && discount == old(discount)
      ensures rounding == old(rounding) && uomCategory == old(uomCategory) && taxes == old(taxes) && refund == old(refund)
      ensures priceSubtotal == old(priceSubtotal) && priceSubtotalSigned == old(priceSubtotalSigned)
      ensures priceTotal == old(priceTotal)
    {
      discountAmount := DiscountAmount(quantity, priceUnit, discount, rounding);
    }

    /** _compute_price, given what the taxes' compute_all returned. The
        result of compute_all is a non-empty dict, so the subtotal is
        always its total_excluded and the local `total` stays 0: the line
        total is total_included when positive and 0 otherwise. */
    method ComputePrice(computed: Result<ServerTaxes.ServerResult>) returns (r: Result<()>)
      modifies this
      ensures discountAmount == DiscountAmount(quantity, priceUnit, discount, rounding)
      ensures quantity == old(quantity) && priceUnit == old(priceUnit) && discount == old(discount)
      ensures rounding == old(rounding) && uomCategory == old(uomCategory) && taxes == old(taxes) && refund == old(refund)
      ensures var check := CheckFrom(taxes, uomCategory, 0, None);
        r == (if check.Err? then check else if computed.Err? then Err(computed.error) else Ok(()))
      ensures r.Ok? ==>
        priceSubtotal == computed.value.totalExcluded
        && priceSubtotalSigned == (if refund then -computed.value.totalExcluded else computed.value.totalExcluded)
        && priceTotal == (if computed.value.totalIncluded > 0.0 then computed.value.totalIncluded else 0.0)
      ensures r.Err? ==>
        priceSubtotal == old(priceSubtotal) && priceSubtotalSigned == old(priceSubtotalSigned) && priceTotal == old(priceTotal)
    {
      SetDiscountAmount();
      r := CheckTaxes(taxes, uomCategory);
      if r.Err? {
        return;
      }
      if computed.Err? {
        return Err(computed.error);
      }
      var total := 0.0;
      priceSubtotal := computed.value.totalExcluded;
      var signed := priceSubtotal;
      if refund {
        signed := -signed;
      }
      priceSubtotalSigned := signed;
      priceTotal := if computed.value.totalIncluded > total then computed.value.totalIncluded else total;
      r := Ok(());
    }
  }

  // ---------------------------------------------------------------------
  // get_tax_detail

  /** A tax of the line as get_tax_detail reads it; `factor` is what its
      compute_factor gives for the line's unit (used for codes 28 and 35). */
  datatype DetailTax = DetailTax(
    siiCode: int,
    amount: real,
    priceInclude: bool,
    siiDetailed: bool,
    description: string,
    factor: real)

  /** An entry of the detail's impuestos; `name` only on the entry added
      after the loop. */
  datatype Impuesto = Impuesto(name: Option<string>, codImp: int, priceInclude: bool, tasaImp: real)

  /** The detail dict; codImpAdic and indExe are keys that may be absent. */
  datatype TaxDetail = TaxDetail(
    impuestos: seq<Impuesto>,
    taxInclude: bool,
    mntExe: real,
    indExe: bool,
    codImpAdic: Option<int>)

  /** What else get_tax_detail reads: whether the invoice is a boleta or a
      credit note of one, the line's subtotal and total, and the base
      currency's rounding. */
  datatype DetailInput = DetailInput(boleta: bool, ncBoleta: bool, priceSubtotal: real, priceTotal: real, rounding: real)

  const AdditionalCodes: seq<int> := [26, 27, 28, 35, 271]

  predicate IsExempt(t: DetailTax)
  {
    t.amount == 0.0 || t.siiCode == 0
  }

  function TasaOf(t: DetailTax): real
  {
    if t.siiCode == 28 || t.siiCode == 35 then t.factor else t.amount
  }

  function TaxIncludeOf(t: DetailTax, inp: DetailInput): bool
  {
    t.priceInclude || ((inp.boleta || inp.ncBoleta) && !t.siiDetailed)
  }

  /** The loop's locals: the detail, amount_total and the last taxed rate. */
  datatype DetailState = DetailState(d: TaxDetail, amountTotal: real, amount: Option<real>)

  function DetailStep(st: DetailState, t: DetailTax, inp: DetailInput): DetailState
  {
    var b := inp.boleta || inp.ncBoleta;
    var adic := if !b && t.siiCode in AdditionalCodes then Some(t.siiCode) else st.d.codImpAdic;
    var inc := TaxIncludeOf(t, inp);
    if IsExempt(t) then
      DetailState(st.d.(codImpAdic := adic, taxInclude := inc, indExe := true,
                        mntExe := st.d.mntExe + RoundPr(inp.priceSubtotal, inp.rounding)),
                  st.amountTotal, st.amount)
    else
      DetailState(st.d.(codImpAdic := adic, taxInclude := inc,
                        impuestos := st.d.impuestos + [Impuesto(None, t.siiCode, inc, TasaOf(t))]),
                  if b then st.amountTotal + inp.priceTotal else st.amountTotal,
                  Some(TasaOf(t)))
  }

  function DetailFold(taxes: seq<DetailTax>, k: nat, inp: DetailInput): DetailState
    requires k <= |taxes|
  {
    if k == 0 then DetailState(TaxDetail([], false, 0.0, false, None), 0.0, None)
    else DetailStep(DetailFold(taxes, k - 1, inp), taxes[k - 1], inp)
  }

  lemma {:induction false} FoldAmountSet(taxes: seq<DetailTax>, k: nat, inp: DetailInput)
    requires k <= |taxes|
    ensures DetailFold(taxes, k, inp).amountTotal != 0.0 ==> DetailFold(taxes, k, inp).amount.Some?
  {
    if k > 0 {
      FoldAmountSet(taxes, k - 1, inp);
    }
  }

  /** get_tax_detail: after the loop, a positive amount_total (boletas
      only) appends one more entry, named by the last tax and carrying the
      last taxed rate. */
  function TaxDetailSpec(taxes: seq<DetailTax>, inp: DetailInput): TaxDetail
  {
    var st := DetailFold(taxes, |taxes|, inp);
    if st.amountTotal > 0.0 then
      FoldAmountSet(taxes, |taxes|, inp);
      var t := taxes[|taxes| - 1];
      st.d.(impuestos := st.d.impuestos + [Impuesto(Some(t.description), t.siiCode, st.d.taxInclude, st.amount.value)])
    else st.d
  }

  method GetTaxDetail(taxes: seq<DetailTax>, inp: DetailInput) returns (d: TaxDetail)
    ensures d == TaxDetailSpec(taxes, inp)
  {
    var b := inp.boleta || inp.ncBoleta;
    var amountTotal := 0.0;
    var amount: Option<real> := None;
    d := TaxDetail([], false, 0.0, false, None);
    var k := 0;
    while k < |taxes|
      invariant 0 <= k <= |taxes|
      invariant DetailFold(taxes, k, inp) == DetailState(d, amountTotal, amount)
    {
      var t := taxes[k];
      if !b && t.siiCode in AdditionalCodes {
        d := d.(codImpAdic := Some(t.siiCode));
      }
      var inc := t.priceInclude || (b && !t.siiDetailed);
      d := d.(taxInclude := inc);
      if t.amount == 0.0 || t.siiCode == 0 {
        d := d.(indExe := true, mntExe := d.mntExe + RoundPr(inp.priceSubtotal, inp.rounding));
      } else {
        if b {
          amountTotal := amountTotal + inp.priceTotal;
        }
        var rate := t.amount;
        if t.siiCode == 28 || t.siiCode == 35 {
          rate := t.factor;
        }
        amount := Some(rate);
        d := d.(impuestos := d.impuestos + [Impuesto(None, t.siiCode, inc, rate)]);
      }
      k := k + 1;
    }
    if amountTotal > 0.0 {
      FoldAmountSet(taxes, |taxes|, inp);
      var t := taxes[|taxes| - 1];
      d := d.(impuestos := d.impuestos + [Impuesto(Some(t.description), t.siiCode, d.taxInclude, amount.value)]);
    }
  }

  /** How many of the first k taxes are exempt. */
  function ExemptCount(taxes: seq<DetailTax>, k: nat): (r: nat)
    requires k <= |taxes|
    ensures r <= k
  {
    if k == 0 then 0 else ExemptCount(taxes, k - 1) + (if IsExempt(taxes[k - 1]) then 1 else 0)
  }

  /** The fold's invariant on the exempt taxes: each adds the rounded
      subtotal to MntExe and marks the line exempt. */
  lemma {:induction false} FoldExempt(taxes: seq<DetailTax>, k: nat, inp: DetailInput)
    requires k <= |taxes|
    ensures var st := DetailFold(taxes, k, inp);
      st.d.mntExe == Times(ExemptCount(taxes, k), RoundPr(inp.priceSubtotal, inp.rounding))
      && (st.d.indExe <==> ExemptCount(taxes, k) > 0)
  {
    if k > 0 {
      FoldExempt(taxes, k - 1, inp);
    }
  }

  /** The fold's invariant on the taxed taxes: each adds one unnamed
      entry with its code and rate, and, for boletas, the line total to
      amount_total. */
  lemma {:induction false} FoldTaxed(taxes: seq<DetailTax>, k: nat, inp: DetailInput)
    requires k <= |taxes|
    ensures var st := DetailFold(taxes, k, inp);
      |st.d.impuestos| == k - ExemptCount(taxes, k)
      && (forall e :: e in st.d.impuestos ==>
            e.name.None? && exists j :: 0 <= j < k && !IsExempt(taxes[j]) && e.codImp == taxes[j].siiCode && e.tasaImp == TasaOf(taxes[j]))
  {
    if k > 0 {
      FoldTaxed(taxes, k - 1, inp);
      var prev := DetailFold(taxes, k - 1, inp);
      var st := DetailFold(taxes, k, inp);
      forall e | e in st.d.impuestos
        ensures e.name.None? && exists j :: 0 <= j < k && !IsExempt(taxes[j]) && e.codImp == taxes[j].siiCode && e.tasaImp == TasaOf(taxes[j])
      {
        if e !in prev.d.impuestos {
          assert !IsExempt(taxes[k - 1]) && e == Impuesto(None, taxes[k - 1].siiCode, TaxIncludeOf(taxes[k - 1], inp), TasaOf(taxes[k - 1]));
        }
      }
    }
  }

  lemma {:induction false} FoldAmountTotal(taxes: seq<DetailTax>, k: nat, inp: DetailInput)
    requires k <= |taxes|
    ensures var st := DetailFold(taxes, k, inp);
      (!(inp.boleta || inp.ncBoleta) ==> st.amountTotal == 0.0)
      && ((inp.boleta || inp.ncBoleta) ==> st.amountTotal == Times(k - ExemptCount(taxes, k), inp.priceTotal))
  {
    if k > 0 {
      FoldAmountTotal(taxes, k - 1, inp);
    }
  }

  /** n copies of x added up. */
  function Times(n: nat, x: real): real
  {
    if n == 0 then 0.0 else Times(n - 1, x) + x
  }

  lemma {:induction false} TimesIsProduct(n: nat, x: real)
    ensures Times(n, x) == n as real * x
    ensures Times(n, x) > 0.0 <==> n > 0 && x > 0.0
  {
    if n > 0 {
      TimesIsProduct(n - 1, x);
    }
  }

  /** Lemma: MntExe is the rounded subtotal once per exempt tax, and
      IndExe is set exactly when some tax is exempt. */
  lemma TaxDetailExempt(taxes: seq<DetailTax>, inp: DetailInput)
    ensures var d := TaxDetailSpec(taxes, inp);
      d.mntExe == Times(ExemptCount(taxes, |taxes|), RoundPr(inp.priceSubtotal, inp.rounding))
      && (d.indExe <==> ExemptCount(taxes, |taxes|) > 0)
  {
    FoldExempt(taxes, |taxes|, inp);
  }

  /** Whether get_tax_detail appends its extra entry: a boleta or its
      credit note, a positive line total and some taxed tax. */
  predicate Extra(taxes: seq<DetailTax>, inp: DetailInput)
  {
    (inp.boleta || inp.ncBoleta) && inp.priceTotal > 0.0 && ExemptCount(taxes, |taxes|) < |taxes|
  }

  lemma ExtraIffPositive(taxes: seq<DetailTax>, inp: DetailInput)
    ensures DetailFold(taxes, |taxes|, inp).amountTotal > 0.0 <==> Extra(taxes, inp)
  {
    FoldAmountTotal(taxes, |taxes|, inp);
    TimesIsProduct(|taxes| - ExemptCount(taxes, |taxes|), inp.priceTotal);
  }

  /** Lemma: the impuestos are the taxed taxes (code and rate, or
      compute_factor's value for codes 28 and 35), one unnamed entry each,
      plus, for a boleta or its credit note with a positive line total and
      some taxed tax, one entry named by the last tax. */
  lemma TaxDetailEntries(taxes: seq<DetailTax>, inp: DetailInput)
    ensures var d := TaxDetailSpec(taxes, inp);
      var n := |taxes| - ExemptCount(taxes, |taxes|);
      |d.impuestos| == n + (if Extra(taxes, inp) then 1 else 0)
      && (forall i :: 0 <= i < n ==>
            d.impuestos[i].name.None?
            && exists j :: 0 <= j < |taxes| && !IsExempt(taxes[j])
                 && d.impuestos[i].codImp == taxes[j].siiCode && d.impuestos[i].tasaImp == TasaOf(taxes[j]))
      && (Extra(taxes, inp) ==> d.impuestos[n].name == Some(taxes[|taxes| - 1].description))
  {
    FoldTaxed(taxes, |taxes|, inp);
    ExtraIffPositive(taxes, inp);
    var st := DetailFold(taxes, |taxes|, inp);
    var d := TaxDetailSpec(taxes, inp);
    var n := |taxes| - ExemptCount(taxes, |taxes|);
    assert d.impuestos[..n] == st.d.impuestos;
    forall i | 0 <= i < n
      ensures d.impuestos[i] in st.d.impuestos
    {
      assert d.impuestos[i] == d.impuestos[..n][i];
    }
  }

  /** Whether some of the taxes is an additional tax. */
  predicate HasAdditional(taxes: seq<DetailTax>)
  {
    exists j :: 0 <= j < |taxes| && taxes[j].siiCode in AdditionalCodes
  }

  lemma {:induction false} FoldAdditional(taxes: seq<DetailTax>, k: nat, inp: DetailInput)
    requires k <= |taxes|
    ensures var c := DetailFold(taxes, k, inp).d.codImpAdic;
      (c.Some? <==> !(inp.boleta || inp.ncBoleta) && exists j :: 0 <= j < k && taxes[j].siiCode in AdditionalCodes)
      && (c.Some? ==> c.value in AdditionalCodes)
  {
    if k > 0 {
      FoldAdditional(taxes, k - 1, inp);
    }
  }

  /** Lemma: the additional-tax code is reported only on invoices that
      are neither boletas nor their credit notes, exactly when some tax is
      an additional one (codes 26, 27, 28, 35, 271), and is such a code. */
  lemma TaxDetailAdditional(taxes: seq<DetailTax>, inp: DetailInput)
    ensures var c := TaxDetailSpec(taxes, inp).codImpAdic;
      (c.Some? <==> !(inp.boleta || inp.ncBoleta) && HasAdditional(taxes))
      && (c.Some? ==> c.value in AdditionalCodes)
  {
    FoldAdditional(taxes, |taxes|, inp);
  }
}
