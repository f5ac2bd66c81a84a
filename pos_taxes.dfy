/** The point of sale's tax engine for an order line
    (l10n_cl_dte_point_of_sale/static/src/js/models.js: _compute_factor,
    _compute_all, _fix_composed_included_tax and compute_all). Amounts are
    reals; round_pr is Common.RoundPr. The fiscal position is a parameter
    mapping a tax to its replacement, or to nothing. */
module PosTaxes {
  import opened Common

  datatype AmountType = Fixed | Percent | Division | Group | OtherType

  /** An account.tax as the point of sale loads it; uomFactor is the factor of
      the tax's unit of measure, None for a tax without one. */
  datatype TaxRule = TaxRule(
    id: int, name: string, amountType: AmountType, amount: real,
    priceInclude: bool, includeBaseAmount: bool, uomFactor: Option<real>,
    children: seq<TaxRule>)

  /** One entry of the result's taxes list. */
  datatype TaxLine = TaxLine(id: int, amount: real, name: string)

  datatype TaxesResult = TaxesResult(
    taxes: seq<TaxLine>, totalExcluded: real, totalIncluded: real, notRound: Option<real>)

  function Size(t: TaxRule): nat
    decreases t
  {
    1 + SizeList(t.children)
  }

  function SizeList(ts: seq<TaxRule>): nat
    decreases ts
  {
    if ts == [] then 0 else Size(ts[0]) + SizeList(ts[1..])
  }

  lemma {:induction false} SizeListElem(ts: seq<TaxRule>, i: nat)
    requires i < |ts|
    ensures Size(ts[i]) <= SizeList(ts)
    decreases i
  {
    if i > 0 {
      SizeListElem(ts[1..], i - 1);
    }
  }

  /** A fiscal-position mapping never replaces a tax by a larger tax tree. */
  ghost predicate MapShrinks(fpos: TaxRule -> Option<TaxRule>)
  {
    forall t :: fpos(t).Some? ==> Size(fpos(t).value) <= Size(t)
  }

  /** _compute_factor. The source compares the tax's unit (an [id, name] pair,
      or false) with the line's unit by identity, which never holds, so the
      conversion amount / (1 / factor) always applies; a zero factor gives
      JavaScript's amount / Infinity, that is 0. A tax without a unit finds
      no unit record, and reading its factor is a TypeError. */
  function ComputeFactor(t: TaxRule): (r: Result<real>)
    ensures r.Err? <==> t.uomFactor.None?
    ensures r.Err? ==> r.error == TypeError
    ensures t.uomFactor.Some? && t.uomFactor.value != 0.0 ==> r.Ok? && r.value == t.amount * t.uomFactor.value
  {
    match t.uomFactor
    case None => Err(TypeError)
    case Some(f) =>
      if f == 0.0 then Ok(0.0)
      else
        assert t.amount / (1.0 / f) == t.amount * f;
        Ok(t.amount / (1.0 / f))
  }

  /** Math.sign(x) || 1. */
  function SignOr1(x: real): real
  {
    if x < 0.0 then -1.0 else 1.0
  }

  function Abs(x: real): real
  {
    if x < 0.0 then -x else x
  }

  /** _compute_all: the tax of one tax on a base. The inner None is the
      source's `false` for an amount type it does not compute, and also stands
      for a division by zero (a rate of exactly -100% included or 100% by
      division); a fixed tax without a unit fails in _compute_factor. */
  function TaxAmount(t: TaxRule, base: real, quantity: real): (r: Result<Option<real>>)
    ensures r.Err? <==> t.amountType == Fixed && t.uomFactor.None?
    ensures r.Err? ==> r.error == TypeError
    ensures t.amountType == Fixed && r.Ok? ==>
              r.value.Some? && r.value.value == ComputeFactor(t).value * SignOr1(base) * Abs(quantity)
    ensures (t.amountType == Percent && !t.priceInclude) || (t.amountType == Division && t.priceInclude) ==>
              r == Ok(Some(base * t.amount / 100.0))
  {
    match t.amountType
    case Fixed =>
      var f := ComputeFactor(t);
      if f.Err? then Err(f.error) else Ok(Some(f.value * SignOr1(base) * Abs(quantity)))
    case Percent =>
      if !t.priceInclude then Ok(Some(base * t.amount / 100.0))
      else if 1.0 + t.amount / 100.0 == 0.0 then Ok(None)
      else Ok(Some(base - base / (1.0 + t.amount / 100.0)))
    case Division =>
      if t.priceInclude then Ok(Some(base * t.amount / 100.0))
      else if 1.0 - t.amount / 100.0 == 0.0 then Ok(None)
      else Ok(Some(base / (1.0 - t.amount / 100.0) - base))
    case _ => Ok(None)
  }

  /** Lemma: an included percentage is carved out of the price: the price
      less the tax, grossed up by the rate, is the price again. */
  lemma IncludedPercentRecoversBase(t: TaxRule, base: real, quantity: real)
    requires t.amountType == Percent && t.priceInclude
    requires 1.0 + t.amount / 100.0 != 0.0
    ensures TaxAmount(t, base, quantity).Ok? && TaxAmount(t, base, quantity).value.Some?
    ensures (base - TaxAmount(t, base, quantity).value.value) * (1.0 + t.amount / 100.0) == base
  {
    var g := 1.0 + t.amount / 100.0;
    assert (base - (base - base / g)) * g == (base / g) * g;
  }

  /** Lemma: an excluded division tax is what, added to the base and reduced
      by the rate, gives the base back. */
  lemma ExcludedDivisionRecoversBase(t: TaxRule, base: real, quantity: real)
    requires t.amountType == Division && !t.priceInclude
    requires 1.0 - t.amount / 100.0 != 0.0
    ensures TaxAmount(t, base, quantity).Ok? && TaxAmount(t, base, quantity).value.Some?
    ensures (base + TaxAmount(t, base, quantity).value.value) * (1.0 - t.amount / 100.0) == base
  {
    var g := 1.0 - t.amount / 100.0;
    assert (base + (base / g - base)) * g == (base / g) * g;
  }

  /** Lemma: a fixed tax with a positive factor follows the sign of the base
      (zero counting as positive) and scales with the absolute quantity. */
  lemma FixedTaxSign(t: TaxRule, base: real, quantity: real)
    requires t.amountType == Fixed && quantity != 0.0
    ensures ComputeFactor(t).Ok? && ComputeFactor(t).value > 0.0 ==>
      TaxAmount(t, base, quantity).Ok? && TaxAmount(t, base, quantity).value.Some? &&
      (base >= 0.0 <==> TaxAmount(t, base, quantity).value.value > 0.0)
  {
    if ComputeFactor(t).Ok? && ComputeFactor(t).value > 0.0 {
      var f := ComputeFactor(t).value;
      if base >= 0.0 {
        assert f * 1.0 * Abs(quantity) > 0.0;
      } else {
        assert f * -1.0 * Abs(quantity) < 0.0;
      }
    }
  }

  /** Sum of the rates of the included percent taxes. */
  function IncludedPercent(taxes: seq<TaxRule>): real
  {
    if taxes == [] then 0.0
    else
      var t := taxes[|taxes| - 1];
      IncludedPercent(taxes[..|taxes| - 1]) +
      (if t.priceInclude && t.amountType == Percent then t.amount else 0.0)
  }

  /** The fixed part of the included taxes that are not percentages, or the
      TypeError of the first such tax without a unit. */
  function IncludedRec(taxes: seq<TaxRule>, quantity: real): (r: Result<real>)
    ensures r.Err? ==> r.error == TypeError
  {
    if taxes == [] then Ok(0.0)
    else
      var t := taxes[|taxes| - 1];
      var prev := IncludedRec(taxes[..|taxes| - 1], quantity);
      if prev.Err? then prev
      else if t.priceInclude && t.amountType != Percent then
        var f := ComputeFactor(t);
        if f.Err? then Err(f.error) else Ok(prev.value + quantity * f.value)
      else prev
  }

  /** An included tax that is not a percentage and has no unit. */
  predicate IncludedWithoutUnit(t: TaxRule)
  {
    t.priceInclude && t.amountType != Percent && t.uomFactor.None?
  }

  /** Lemma: the fixed part of the included taxes fails exactly when some
      included tax that is not a percentage has no unit. */
  lemma {:induction false} IncludedRecFails(taxes: seq<TaxRule>, quantity: real)
    ensures IncludedRec(taxes, quantity).Err? <==> exists i :: 0 <= i < |taxes| && IncludedWithoutUnit(taxes[i])
  {
    if taxes != [] {
      var n := |taxes| - 1;
      IncludedRecFails(taxes[..n], quantity);
      if IncludedRec(taxes[..n], quantity).Err? {
        var i :| 0 <= i < n && IncludedWithoutUnit(taxes[..n][i]);
        assert IncludedWithoutUnit(taxes[i]);
      } else if !IncludedWithoutUnit(taxes[n]) {
        forall i | 0 <= i < |taxes|
          ensures !IncludedWithoutUnit(taxes[i])
        {
          if i < n {
            assert taxes[..n][i] == taxes[i];
          }
        }
      }
    }
  }

  /** Some tax of the list is included in the price. */
  predicate AnyIncluded(taxes: seq<TaxRule>)
  {
    taxes != [] && (AnyIncluded(taxes[..|taxes| - 1]) || taxes[|taxes| - 1].priceInclude)
  }

  lemma {:induction false} IncludedMakesAnyIncluded(taxes: seq<TaxRule>, i: nat)
    requires i < |taxes| && taxes[i].priceInclude
    ensures AnyIncluded(taxes)
  {
    var n := |taxes| - 1;
    if i < n {
      assert taxes[..n][i] == taxes[i];
      IncludedMakesAnyIncluded(taxes[..n], i);
    }
  }

  /** An amount grossed up by a percentage rate. */
  function GrossUp(amount: real, rate: real): real
  {
    amount * (1.0 + rate / 100.0)
  }

  /** Every percent tax among the first k, included or not, mapped to the
      common base grossed up by its own rate; a later tax with the same id
      overwrites. */
  function PercentMap(taxes: seq<TaxRule>, k: nat, commonBase: real): map<int, real>
    requires k <= |taxes|
  {
    if k == 0 then map[]
    else
      var t := taxes[k - 1];
      var m := PercentMap(taxes, k - 1, commonBase);
      if t.amountType == Percent then m[t.id := GrossUp(commonBase, t.amount)] else m
  }

  /** _fix_composed_included_tax: the bases to use for percent taxes when
      some tax is price-included. A percent sum of exactly -100% would divide
      by zero; the model then leaves the map empty. */
  function FixComposed(taxes: seq<TaxRule>, base: real, quantity: real): (m: Result<map<int, real>>)
    ensures !AnyIncluded(taxes) ==> m == Ok(map[])
  {
    if !AnyIncluded(taxes) then Ok(map[])
    else
      match IncludedRec(taxes, quantity)
      case Err(e) => Err(e)
      case Ok(rec) =>
        var d := 1.0 + IncludedPercent(taxes) / 100.0;
        if d == 0.0 then Ok(map[])
        else Ok(PercentMap(taxes, |taxes|, (base - rec) / d))
  }

  /** Lemma: _fix_composed_included_tax raises the TypeError exactly when some
      included tax that is not a percentage has no unit. */
  lemma FixComposedFails(taxes: seq<TaxRule>, base: real, quantity: real)
    ensures FixComposed(taxes, base, quantity).Err? <==> exists i :: 0 <= i < |taxes| && IncludedWithoutUnit(taxes[i])
    ensures FixComposed(taxes, base, quantity).Err? ==> FixComposed(taxes, base, quantity).error == TypeError
  {
    IncludedRecFails(taxes, quantity);
    if exists i :: 0 <= i < |taxes| && IncludedWithoutUnit(taxes[i]) {
      var i :| 0 <= i < |taxes| && IncludedWithoutUnit(taxes[i]);
      IncludedMakesAnyIncluded(taxes, i);
    }
  }

  /** Lemma: the composed bases share one common base which, grossed up by
      all the included percentages together, is the price less the included
      fixed amounts; with distinct ids, each percent tax's base is that common
      base grossed up by its own rate. */
  lemma ComposedCommonBase(taxes: seq<TaxRule>, base: real, quantity: real, i: nat)
    requires AnyIncluded(taxes)
    requires 1.0 + IncludedPercent(taxes) / 100.0 != 0.0
    requires i < |taxes| && taxes[i].amountType == Percent
    requires forall j, l :: 0 <= j < l < |taxes| ==> taxes[j].id != taxes[l].id
    ensures FixComposed(taxes, base, quantity).Ok? ==>
      var rec := IncludedRec(taxes, quantity).value;
      var cb := (base - rec) / (1.0 + IncludedPercent(taxes) / 100.0);
      cb * (1.0 + IncludedPercent(taxes) / 100.0) == base - rec &&
      taxes[i].id in FixComposed(taxes, base, quantity).value &&
      FixComposed(taxes, base, quantity).value[taxes[i].id] == GrossUp(cb, taxes[i].amount)
  {
    if IncludedRec(taxes, quantity).Ok? {
      var cb := (base - IncludedRec(taxes, quantity).value) / (1.0 + IncludedPercent(taxes) / 100.0);
      PercentMapEntry(taxes, |taxes|, cb, i);
    }
  }

  lemma {:induction false} PercentMapEntry(taxes: seq<TaxRule>, k: nat, cb: real, i: nat)
    requires k <= |taxes| && i < k && taxes[i].amountType == Percent
    requires forall j, l :: 0 <= j < l < |taxes| ==> taxes[j].id != taxes[l].id
    ensures taxes[i].id in PercentMap(taxes, k, cb)
    ensures PercentMap(taxes, k, cb)[taxes[i].id] == GrossUp(cb, taxes[i].amount)
    decreases k
  {
    if i < k - 1 {
      PercentMapEntry(taxes, k - 1, cb, i);
    }
  }

  /** The first loop of _fix_composed_included_tax and then the second. */
  method FixComposedIncludedTax(taxes: seq<TaxRule>, base: real, quantity: real) returns (r: Result<map<int, real>>)
    ensures r == FixComposed(taxes, base, quantity)
  {
    var priceIncluded := false;
    var percent := 0.0;
    var rec := 0.0;
    var i := 0;
    while i < |taxes|
      invariant 0 <= i <= |taxes|
      invariant priceIncluded <==> AnyIncluded(taxes[..i])
      invariant percent == IncludedPercent(taxes[..i])
      invariant IncludedRec(taxes[..i], quantity).Ok? && IncludedRec(taxes[..i], quantity).value == rec
    {
      assert taxes[..i + 1][..i] == taxes[..i];
      var t := taxes[i];
      if t.priceInclude {
        priceIncluded := true;
        if t.amountType == Percent {
          percent := percent + t.amount;
        } else {
          var f := ComputeFactor(t);
          if f.Err? {
            assert IncludedWithoutUnit(taxes[i]);
            FixComposedFails(taxes, base, quantity);
            return Err(f.error);
          }
          rec := rec + quantity * f.value;
        }
      }
      i := i + 1;
    }
    assert taxes[..i] == taxes;
    var composed: map<int, real> := map[];
    if priceIncluded {
      var d := 1.0 + percent / 100.0;
      if d != 0.0 {
        var commonBase := (base - rec) / d;
        i := 0;
        while i < |taxes|
          invariant 0 <= i <= |taxes|
          invariant composed == PercentMap(taxes, i, commonBase)
        {
          if taxes[i].amountType == Percent {
            composed := composed[taxes[i].id := GrossUp(commonBase, taxes[i].amount)];
          }
          i := i + 1;
        }
      }
    }
    r := Ok(composed);
  }

  /** The running state of compute_all's loop. */
  datatype FoldState = FoldState(
    excl: real, incl: real, base: real, lines: seq<TaxLine>, included: bool)

  /** The settings every step of compute_all shares. */
  datatype Settings = Settings(
    priceUnit: real, quantity: real, cr: real, crBak: real, noMapTax: bool,
    fpos: TaxRule -> Option<TaxRule>, roundGlobally: bool)

  predicate NonZeroLines(lines: seq<TaxLine>)
  {
    forall i :: 0 <= i < |lines| ==> lines[i].amount != 0.0
  }

  /** The rounding step compute_all applies: a hundred-thousandth of the
      currency rounding when the company rounds globally. */
  function ScaledRounding(cr: real, roundGlobally: bool): real
  {
    if roundGlobally then cr * 0.00001 else cr
  }

  /** compute_all. */
  function ComputeAllSpec(taxes: seq<TaxRule>, priceUnit: real, quantity: real, currencyRounding: real,
                          noMapTax: bool, fpos: TaxRule -> Option<TaxRule>, roundGlobally: bool): (r: Result<TaxesResult>)
    requires MapShrinks(fpos)
    ensures r.Err? ==> r.error == TypeError
    ensures r.Ok? ==> NonZeroLines(r.value.taxes)
    ensures r.Ok? ==> (r.value.notRound.Some? <==> taxes != [] && taxes[|taxes| - 1].priceInclude)
    ensures taxes == [] ==>
              r.Ok? && r.value.taxes == [] && r.value.totalExcluded == r.value.totalIncluded &&
              r.value.totalExcluded == RoundPr(RoundPr(priceUnit * quantity, ScaledRounding(currencyRounding, roundGlobally)), currencyRounding)
    decreases SizeList(taxes), 2, 0
  {
    var cr := ScaledRounding(currencyRounding, roundGlobally);
    var excl0 := RoundPr(RoundPr(priceUnit * quantity, cr), currencyRounding);
    var composed := if |taxes| > 1 then FixComposed(taxes, excl0, quantity) else Ok(map[]);
    if composed.Err? then Err(composed.error)
    else
      var s := Settings(priceUnit, quantity, cr, currencyRounding, noMapTax, fpos, roundGlobally);
      var st := Fold(taxes, |taxes|, FoldState(excl0, excl0, excl0, [], false), composed.value, s);
      if st.Err? then Err(st.error)
      else
        RoundPrIdempotent(RoundPr(priceUnit * quantity, cr), currencyRounding);
        Ok(TaxesResult(st.value.lines, RoundPr(st.value.excl, currencyRounding), RoundPr(st.value.incl, currencyRounding),
                       if st.value.included then Some(RoundPr(st.value.excl, cr)) else None))
  }

  /** compute_all's loop over the first k taxes, stopping at the first
      error. */
  function Fold(taxes: seq<TaxRule>, k: nat, init: FoldState, composed: map<int, real>, s: Settings): (st: Result<FoldState>)
    requires k <= |taxes| && MapShrinks(s.fpos)
    ensures st.Err? ==> st.error == TypeError
    ensures st.Ok? ==> (NonZeroLines(init.lines) ==> NonZeroLines(st.value.lines)) && init.lines <= st.value.lines
    ensures st.Ok? ==> st.value.included == if k == 0 then init.included else taxes[k - 1].priceInclude
    decreases SizeList(taxes), 1, k
  {
    if k == 0 then Ok(init)
    else
      SizeListElem(taxes, k - 1);
      var prev := Fold(taxes, k - 1, init, composed, s);
      if prev.Err? then prev
      else Step(prev.value, taxes[k - 1], composed, s)
  }

  /** One iteration of compute_all's loop. */
  function Step(st: FoldState, t: TaxRule, composed: map<int, real>, s: Settings): (r: Result<FoldState>)
    requires MapShrinks(s.fpos)
    ensures r.Err? ==> r.error == TypeError
    ensures r.Ok? ==> (NonZeroLines(st.lines) ==> NonZeroLines(r.value.lines)) && st.lines <= r.value.lines
    ensures r.Ok? ==> r.value.included == t.priceInclude
    decreases Size(t), 0, 0
  {
    var mapped := if s.noMapTax then Some(t) else s.fpos(t);
    if mapped.None? then Ok(st.(included := t.priceInclude))
    else
      var tx := mapped.value;
      if tx.amountType == Group then
        var ret := ComputeAllSpec(tx.children, s.priceUnit, s.quantity, s.cr, false, s.fpos, s.roundGlobally);
        if ret.Err? then Err(ret.error)
        else
          Ok(FoldState(ret.value.totalExcluded, ret.value.totalIncluded, ret.value.totalExcluded,
                       st.lines + ret.value.taxes, t.priceInclude))
      else
        var b := if tx.id in composed then composed[tx.id] else st.base;
        var raw := TaxAmount(tx, b, s.quantity);
        if raw.Err? then Err(raw.error)
        else
          var amt := RoundPr(if raw.value.Some? then raw.value.value else 0.0, s.cr);
          if amt == 0.0 then Ok(st.(included := t.priceInclude))
          else
            Ok(FoldState(
              if tx.priceInclude then st.excl - amt else st.excl,
              if tx.priceInclude then st.incl else st.incl + RoundPr(amt, s.crBak),
              if tx.includeBaseAmount then st.base + amt else st.base,
              st.lines + [TaxLine(tx.id, amt, tx.name)],
              t.priceInclude))
  }

  /** One pass of compute_all's loop body, as the source runs it. */
  method ApplyTax(st: FoldState, t: TaxRule, composed: map<int, real>, s: Settings) returns (r: Result<FoldState>)
    requires MapShrinks(s.fpos)
    ensures r == Step(st, t, composed, s)
    decreases Size(t), 1
  {
    var totalExcluded, totalIncluded, base, listTaxes := st.excl, st.incl, st.base, st.lines;
    var included := t.priceInclude;
    var mapped := if s.noMapTax then Some(t) else s.fpos(t);
    if mapped.Some? {
      var tx := mapped.value;
      if tx.amountType == Group {
        var ret := ComputeAll(tx.children, s.priceUnit, s.quantity, s.cr, false, s.fpos, s.roundGlobally);
        if ret.Err? {
          return Err(ret.error);
        }
        totalExcluded := ret.value.totalExcluded;
        base := ret.value.totalExcluded;
        totalIncluded := ret.value.totalIncluded;
        listTaxes := listTaxes + ret.value.taxes;
      } else {
        var b := if tx.id in composed then composed[tx.id] else base;
        var raw := TaxAmount(tx, b, s.quantity);
        if raw.Err? {
          return Err(raw.error);
        }
        var taxAmount := RoundPr(if raw.value.Some? then raw.value.value else 0.0, s.cr);
        if taxAmount != 0.0 {
          if tx.priceInclude {
            totalExcluded := totalExcluded - taxAmount;
          } else {
            totalIncluded := totalIncluded + RoundPr(taxAmount, s.crBak);
          }
          if tx.includeBaseAmount {
            base := base + taxAmount;
          }
          listTaxes := listTaxes + [TaxLine(tx.id, taxAmount, tx.name)];
        }
      }
    }
    r := Ok(FoldState(totalExcluded, totalIncluded, base, listTaxes, included));
  }

  /** compute_all as the source runs it: one loop over the taxes, recursing
      into group taxes. */
  method ComputeAll(taxes: seq<TaxRule>, priceUnit: real, quantity: real, currencyRounding: real,
                    noMapTax: bool, fpos: TaxRule -> Option<TaxRule>, roundGlobally: bool) returns (r: Result<TaxesResult>)
    requires MapShrinks(fpos)
    ensures r == ComputeAllSpec(taxes, priceUnit, quantity, currencyRounding, noMapTax, fpos, roundGlobally)
    decreases SizeList(taxes), 2
  {
    var crBak := currencyRounding;
    var cr := currencyRounding;
    if roundGlobally {
      cr := cr * 0.00001;
    }
    var totalExcluded := RoundPr(priceUnit * quantity, cr);
    totalExcluded := RoundPr(totalExcluded, crBak);
    var totalIncluded := totalExcluded;
    var base := totalExcluded;
    var included := false;
    var composed: map<int, real> := map[];
    if |taxes| > 1 {
      var fixed := FixComposedIncludedTax(taxes, totalIncluded, quantity);
      if fixed.Err? {
        return Err(fixed.error);
      }
      composed := fixed.value;
    }
    var s := Settings(priceUnit, quantity, cr, crBak, noMapTax, fpos, roundGlobally);
    var init := FoldState(totalExcluded, totalIncluded, base, [], false);
    var listTaxes: seq<TaxLine> := [];
    var i := 0;
    while i < |taxes|
      invariant 0 <= i <= |taxes|
      invariant Fold(taxes, i, init, composed, s) == Ok(FoldState(totalExcluded, totalIncluded, base, listTaxes, included))
    {
      SizeListElem(taxes, i);
      var next := ApplyTax(FoldState(totalExcluded, totalIncluded, base, listTaxes, included), taxes[i], composed, s);
      if next.Err? {
        FoldStaysFailed(taxes, i + 1, |taxes|, init, composed, s);
        return Err(next.error);
      }
      totalExcluded, totalIncluded, base, listTaxes, included := next.value.excl, next.value.incl, next.value.base, next.value.lines, next.value.included;
      i := i + 1;
    }
    r := Ok(TaxesResult(listTaxes, RoundPr(totalExcluded, crBak), RoundPr(totalIncluded, crBak),
                        if included then Some(RoundPr(totalExcluded, cr)) else None));
  }

  /** Once a tax fails, the loop fails with that error. */
  lemma {:induction false} FoldStaysFailed(taxes: seq<TaxRule>, k: nat, n: nat, init: FoldState, composed: map<int, real>, s: Settings)
    requires k <= n <= |taxes| && MapShrinks(s.fpos) && Fold(taxes, k, init, composed, s).Err?
    ensures Fold(taxes, n, init, composed, s) == Fold(taxes, k, init, composed, s)
    decreases n - k
  {
    if k < n {
      FoldStaysFailed(taxes, k, n - 1, init, composed, s);
    }
  }

  /** Sum of the line amounts. */
  function LinesSum(lines: seq<TaxLine>): real
  {
    if lines == [] then 0.0 else LinesSum(lines[..|lines| - 1]) + lines[|lines| - 1].amount
  }

  /** Sum of the line amounts each rounded to the currency. */
  function LinesRoundedSum(lines: seq<TaxLine>, crBak: real): real
  {
    if lines == [] then 0.0 else LinesRoundedSum(lines[..|lines| - 1], crBak) + RoundPr(lines[|lines| - 1].amount, crBak)
  }

  predicate PlainTaxes(taxes: seq<TaxRule>, included: bool)
  {
    forall i :: 0 <= i < |taxes| ==> taxes[i].amountType != Group && taxes[i].priceInclude == included
  }

  /** One step with a tax that is neither mapped nor a group: it fails
      exactly for a fixed tax without a unit; otherwise at most one line is
      added, carrying the amount the totals move by. */
  lemma PlainStep(st: FoldState, t: TaxRule, composed: map<int, real>, s: Settings)
    requires MapShrinks(s.fpos) && s.noMapTax && t.amountType != Group
    ensures var r := Step(st, t, composed, s);
      (r.Err? <==> t.amountType == Fixed && t.uomFactor.None?) &&
      (r.Ok? ==>
        (r.value.lines == st.lines && r.value.excl == st.excl && r.value.incl == st.incl) ||
        (|r.value.lines| == |st.lines| + 1 && r.value.lines == st.lines + [r.value.lines[|st.lines|]] &&
         r.value.excl == (if t.priceInclude then st.excl - r.value.lines[|st.lines|].amount else st.excl) &&
         r.value.incl == (if t.priceInclude then st.incl else st.incl + RoundPr(r.value.lines[|st.lines|].amount, s.crBak))))
  {
  }

  /** The lines added after a prefix, one more appended. */
  lemma SuffixSnoc(base: seq<TaxLine>, lines: seq<TaxLine>, x: TaxLine)
    requires |base| <= |lines| && lines == base + lines[|base|..]
    ensures lines + [x] == base + (lines + [x])[|base|..]
    ensures (lines + [x])[|base|..] == lines[|base|..] + [x]
  {
  }

  /** Both line sums, one more line appended. */
  lemma LinesSumsSnoc(lines: seq<TaxLine>, x: TaxLine, crBak: real)
    ensures LinesSum(lines + [x]) == LinesSum(lines) + x.amount
    ensures LinesRoundedSum(lines + [x], crBak) == LinesRoundedSum(lines, crBak) + RoundPr(x.amount, crBak)
  {
    assert (lines + [x])[..|lines|] == lines;
  }

  /** Lemma: without fiscal mapping and group taxes, the loop fails exactly
      when one of the taxes is a fixed tax without a unit. */
  lemma {:induction false} PlainFoldFails(taxes: seq<TaxRule>, k: nat, init: FoldState, composed: map<int, real>, s: Settings)
    requires k <= |taxes| && MapShrinks(s.fpos) && s.noMapTax
    requires forall i :: 0 <= i < |taxes| ==> taxes[i].amountType != Group
    ensures Fold(taxes, k, init, composed, s).Err? <==>
      exists i :: 0 <= i < k && taxes[i].amountType == Fixed && taxes[i].uomFactor.None?
    decreases k
  {
    if k > 0 {
      PlainFoldFails(taxes, k - 1, init, composed, s);
      var prev := Fold(taxes, k - 1, init, composed, s);
      if prev.Ok? {
        PlainStep(prev.value, taxes[k - 1], composed, s);
      } else {
        var i :| 0 <= i < k - 1 && taxes[i].amountType == Fixed && taxes[i].uomFactor.None?;
        assert 0 <= i < k;
      }
    }
  }

  /** Lemma: without fiscal mapping and group taxes, compute_all raises the
      TypeError exactly when a fixed tax has no unit, or, with more than one
      tax, an included tax that is not a percentage has none. */
  lemma ComputeAllFails(taxes: seq<TaxRule>, priceUnit: real, quantity: real, currencyRounding: real,
                        fpos: TaxRule -> Option<TaxRule>, roundGlobally: bool)
    requires MapShrinks(fpos)
    requires forall i :: 0 <= i < |taxes| ==> taxes[i].amountType != Group
    ensures ComputeAllSpec(taxes, priceUnit, quantity, currencyRounding, true, fpos, roundGlobally).Err? <==>
      exists i :: 0 <= i < |taxes| &&
        ((taxes[i].amountType == Fixed && taxes[i].uomFactor.None?) || (|taxes| > 1 && IncludedWithoutUnit(taxes[i])))
  {
    var cr := ScaledRounding(currencyRounding, roundGlobally);
    var excl0 := RoundPr(RoundPr(priceUnit * quantity, cr), currencyRounding);
    var composed := if |taxes| > 1 then FixComposed(taxes, excl0, quantity) else Ok(map[]);
    var s := Settings(priceUnit, quantity, cr, currencyRounding, true, fpos, roundGlobally);
    FixComposedFails(taxes, excl0, quantity);
    if composed.Ok? {
      PlainFoldFails(taxes, |taxes|, FoldState(excl0, excl0, excl0, [], false), composed.value, s);
    } else {
      var i :| 0 <= i < |taxes| && IncludedWithoutUnit(taxes[i]);
    }
  }

  /** Lemma: without fiscal mapping and group taxes, taxes excluded from the
      price leave the excluded total alone and raise the included total by
      exactly their rounded amounts. */
  lemma {:induction false} ExcludedTaxesAddToIncluded(
    taxes: seq<TaxRule>, k: nat, init: FoldState, composed: map<int, real>, s: Settings)
    requires k <= |taxes| && MapShrinks(s.fpos) && s.noMapTax
    requires PlainTaxes(taxes, false)
    ensures var st := Fold(taxes, k, init, composed, s);
      st.Ok? ==>
        st.value.excl == init.excl &&
        st.value.lines == init.lines + st.value.lines[|init.lines|..] &&
        st.value.incl == init.incl + LinesRoundedSum(st.value.lines[|init.lines|..], s.crBak)
    decreases k
  {
    if k > 0 {
      ExcludedTaxesAddToIncluded(taxes, k - 1, init, composed, s);
      var prev := Fold(taxes, k - 1, init, composed, s);
      if prev.Ok? {
        var t := taxes[k - 1];
        assert t.amountType != Group && !t.priceInclude;
        assert Fold(taxes, k, init, composed, s) == Step(prev.value, t, composed, s);
        ExcludedStep(init, prev.value, t, composed, s);
      }
    } else {
      assert init.lines[|init.lines|..] == [];
    }
  }

  /** One step of ExcludedTaxesAddToIncluded. */
  lemma ExcludedStep(init: FoldState, prev: FoldState, t: TaxRule, composed: map<int, real>, s: Settings)
    requires MapShrinks(s.fpos) && s.noMapTax && t.amountType != Group && !t.priceInclude
    requires |init.lines| <= |prev.lines|
    requires prev.excl == init.excl && prev.lines == init.lines + prev.lines[|init.lines|..]
    requires prev.incl == init.incl + LinesRoundedSum(prev.lines[|init.lines|..], s.crBak)
    ensures var st := Step(prev, t, composed, s);
      st.Ok? ==>
        |init.lines| <= |st.value.lines| &&
        st.value.excl == init.excl &&
        st.value.lines == init.lines + st.value.lines[|init.lines|..] &&
        st.value.incl == init.incl + LinesRoundedSum(st.value.lines[|init.lines|..], s.crBak)
  {
    PlainStep(prev, t, composed, s);
    var st := Step(prev, t, composed, s);
    if st.Ok? && st.value.lines != prev.lines {
      var x := st.value.lines[|prev.lines|];
      SuffixSnoc(init.lines, prev.lines, x);
      LinesSumsSnoc(prev.lines[|init.lines|..], x, s.crBak);
    }
  }

  /** Lemma: without fiscal mapping and group taxes, taxes included in the
      price leave the included total alone and take exactly their amounts
      out of the excluded total. */
  lemma {:induction false} IncludedTaxesSubtractFromExcluded(
    taxes: seq<TaxRule>, k: nat, init: FoldState, composed: map<int, real>, s: Settings)
    requires k <= |taxes| && MapShrinks(s.fpos) && s.noMapTax
    requires PlainTaxes(taxes, true)
    ensures var st := Fold(taxes, k, init, composed, s);
      st.Ok? ==>
        st.value.incl == init.incl &&
        st.value.lines == init.lines + st.value.lines[|init.lines|..] &&
        st.value.excl + LinesSum(st.value.lines[|init.lines|..]) == init.excl
    decreases k
  {
    if k > 0 {
      IncludedTaxesSubtractFromExcluded(taxes, k - 1, init, composed, s);
      var prev := Fold(taxes, k - 1, init, composed, s);
      if prev.Ok? {
        var t := taxes[k - 1];
        assert t.amountType != Group && t.priceInclude == true;
        PlainStep(prev.value, t, composed, s);
        var st := Step(prev.value, t, composed, s);
        assert Fold(taxes, k, init, composed, s) == st;
        if st.Ok? && st.value.lines != prev.value.lines {
          var x := st.value.lines[|prev.value.lines|];
          SuffixSnoc(init.lines, prev.value.lines, x);
          LinesSumsSnoc(prev.value.lines[|init.lines|..], x, s.crBak);
        }
      }
    } else {
      assert init.lines[|init.lines|..] == [];
    }
  }

  /** The identity fiscal position. */
  function NoMapping(t: TaxRule): Option<TaxRule>
  {
    Some(t)
  }

  lemma NoMappingShrinks()
    ensures MapShrinks(NoMapping)
  {
  }
}
