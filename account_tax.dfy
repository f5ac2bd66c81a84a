/** The server-side tax engine (account.tax compute_all) with the Chilean
    withholding (retención) taxes: the discount is rounded to a whole amount
    and taken off the base, taxes run in sequence order, group taxes take
    over their children's totals, and withholding taxes move the totals by
    the tax less the amount withheld.

    The amount of one tax (Odoo's own _compute_amount) is not part of this
    model: it is the parameter `amountOf`, a function of the tax and the
    running base. */
module ServerTaxes {
  import opened Common

  datatype AmountType = Percent | Fixed | Division | Group

  datatype ServerTax = ServerTax(
    id: int,
    name: string,
    sequence: int,
    amountType: AmountType,
    amount: real,
    priceInclude: bool,
    includeBaseAmount: bool,
    retention: bool,          // sii_type == 'R'
    retencion: real,          // the withheld rate
    children: seq<ServerTax>)

  datatype Currency = Currency(decimalPlaces: nat, rounding: real)

  /** The company's rounding method is round_globally / the context's
      "round" flag. */
  datatype Settings = Settings(roundGlobally: bool, contextRound: bool)

  datatype ServerLine = ServerLine(id: int, name: string, amount: real, retencion: real, base: real, sequence: int)

  /** The loop's running values. */
  datatype ServerState = ServerState(totalExcluded: real, totalIncluded: real, base: real, lines: seq<ServerLine>)

  datatype ServerResult = ServerResult(taxes: seq<ServerLine>, totalExcluded: real, totalIncluded: real, base: real)

  function TaxSequence(t: ServerTax): int
  {
    t.sequence
  }

  function LineSequence(l: ServerLine): int
  {
    l.sequence
  }

  /** _compute_amount_ret: the withheld part of a percent or division tax;
      Ok(None) for the other kinds (the method falls off its end). */
  function ComputeAmountRet(t: ServerTax, base: real): (r: Result<Option<real>>)
    ensures r.Ok? && r.value.Some? ==> t.amountType == Percent || (t.amountType == Division && t.priceInclude)
    ensures r.Err? <==> t.amountType == Percent && t.priceInclude && 1.0 + t.retencion / 100.0 == 0.0
  {
    if t.amountType == Percent && t.priceInclude then
      var divisor := 1.0 + t.retencion / 100.0;
      if divisor == 0.0 then Err(ZeroDivisionError)
      else Ok(Some(base - base / divisor))
    else if (t.amountType == Percent && !t.priceInclude) || (t.amountType == Division && t.priceInclude) then
      Ok(Some(base * t.retencion / 100.0))
    else Ok(None)
  }

  /** Lemma: a price-included withholding splits the base into a net part
      and the withheld part, the net part grossed up by the rate giving the
      base back. */
  lemma IncludedRetentionRecoversNet(t: ServerTax, base: real)
    requires t.amountType == Percent && t.priceInclude && 1.0 + t.retencion / 100.0 != 0.0
    ensures var ret := ComputeAmountRet(t, base).value.value;
      (base - ret) * (1.0 + t.retencion / 100.0) == base
  {
    var d := 1.0 + t.retencion / 100.0;
    assert (base / d) * d == base;
  }

  /** Rounding is global (to 5 more decimals, inside the loop) when the
      company says so or the context asks not to round. */
  predicate Global(st: Settings)
  {
    st.roundGlobally || !st.contextRound
  }

  function TaxPrecision(cur: Currency, st: Settings): nat
  {
    if Global(st) then cur.decimalPlaces + 5 else cur.decimalPlaces
  }

  /** The state after one non-group tax: the totals move, the tax line is
      recorded with the base before the cascade, then the cascade. */
  function Record(t: ServerTax, te: real, ti: real, b: real, amt: real, ret: real, lines: seq<ServerLine>): ServerState
  {
    ServerState(te, ti, if t.includeBaseAmount then b + amt else b,
                lines + [ServerLine(t.id, t.name, amt, ret, b, t.sequence)])
  }

  /** One non-group tax. */
  function Step(t: ServerTax, s: ServerState, cur: Currency, st: Settings, amountOf: (ServerTax, real) -> real): (r: Result<ServerState>)
    ensures r.Ok? ==> |r.value.lines| == |s.lines| + 1 && r.value.lines[..|s.lines|] == s.lines
    ensures r.Err? <==> t.retention && (ComputeAmountRet(t, s.base).Err? || ComputeAmountRet(t, s.base).value.None?)
  {
    var raw := amountOf(t, s.base);
    var amt := if Global(st) then PyRound(raw, TaxPrecision(cur, st)) else RoundPr(raw, cur.rounding);
    if t.retention then
      match ComputeAmountRet(t, s.base)
      case Err(e) => Err(e)
      case Ok(None) => Err(TypeError)
      case Ok(Some(r0)) =>
        var ret := if Global(st) then PyRound(r0, TaxPrecision(cur, st)) else r0;
        if t.priceInclude then
          Ok(Record(t, s.totalExcluded - (amt - ret), s.totalIncluded - ret, s.base - (amt - ret), amt, ret, s.lines))
        else
          Ok(Record(t, s.totalExcluded, s.totalIncluded + (amt - ret), s.base, amt, ret, s.lines))
    else if t.priceInclude then
      Ok(Record(t, s.totalExcluded - amt, s.totalIncluded, s.base - amt, amt, 0.0, s.lines))
    else
      Ok(Record(t, s.totalExcluded, s.totalIncluded + amt, s.base, amt, 0.0, s.lines))
  }

  /** The base compute_all starts from: price times quantity rounded to the
      currency, less the discount rounded half-up to a whole amount. */
  function StartBase(priceUnit: real, quantity: real, discount: real, cur: Currency): real
  {
    var base := PyRound(PyRound(priceUnit * quantity, cur.decimalPlaces + 2), cur.decimalPlaces);
    base - RoundHalfUp(base * (discount / 100.0)) as real
  }

  /** compute_all. With `asWritten` a group tax reads the 'retencion' key
      that the children's result does not have; without it the group takes
      over the children's totals. */
  function ComputeAll(taxes: seq<ServerTax>, priceUnit: real, quantity: real, discount: real,
                      cur: Currency, st: Settings, amountOf: (ServerTax, real) -> real, asWritten: bool): Result<ServerResult>
    decreases taxes, 1
  {
    var base := StartBase(priceUnit, quantity, discount, cur);
    var sorted := SortBy(taxes, TaxSequence);
    match Fold(taxes, sorted, 0, ServerState(base, base, base, []), priceUnit, quantity, cur, st, amountOf, asWritten)
    case Err(e) => Err(e)
    case Ok(s) =>
      Ok(ServerResult(
        SortBy(s.lines, LineSequence),
        if st.contextRound then RoundPr(s.totalExcluded, cur.rounding) else s.totalExcluded,
        if st.contextRound then RoundPr(s.totalIncluded, cur.rounding) else s.totalIncluded,
        s.base))
  }

  /** The loop over the taxes sorted by sequence, from position k. */
  function Fold(taxes: seq<ServerTax>, sorted: seq<ServerTax>, k: nat, s: ServerState,
                priceUnit: real, quantity: real, cur: Currency, st: Settings,
                amountOf: (ServerTax, real) -> real, asWritten: bool): Result<ServerState>
    requires multiset(sorted) == multiset(taxes) && k <= |sorted|
    decreases taxes, 0, |sorted| - k
  {
    if k == |sorted| then Ok(s)
    else
      var t := sorted[k];
      if t.amountType == Group then
        assert t in multiset(taxes);
        var j :| 0 <= j < |taxes| && taxes[j] == t;
        match ComputeAll(t.children, priceUnit, quantity, 0.0, cur, st, amountOf, asWritten)
        case Err(e) => Err(e)
        case Ok(ret) =>
          if asWritten then Err(KeyError)
          else Fold(taxes, sorted, k + 1, ServerState(ret.totalExcluded, ret.totalIncluded, ret.base, s.lines + ret.taxes),
                    priceUnit, quantity, cur, st, amountOf, asWritten)
      else
        match Step(t, s, cur, st, amountOf)
        case Err(e) => Err(e)
        case Ok(s2) => Fold(taxes, sorted, k + 1, s2, priceUnit, quantity, cur, st, amountOf, asWritten)
  }

  /** One pass of the loop body for a non-group tax. */
  method ApplyTax(t: ServerTax, s: ServerState, cur: Currency, st: Settings, amountOf: (ServerTax, real) -> real)
    returns (r: Result<ServerState>)
    ensures r == Step(t, s, cur, st, amountOf)
  {
    var taxAmount := amountOf(t, s.base);
    if Global(st) {
      taxAmount := PyRound(taxAmount, TaxPrecision(cur, st));
    } else {
      taxAmount := RoundPr(taxAmount, cur.rounding);
    }
    var te, ti, base := s.totalExcluded, s.totalIncluded, s.base;
    var retencion := 0.0;
    if t.retention {
      var ret := ComputeAmountRet(t, base);
      if ret.Err? {
        return Err(ret.error);
      }
      if ret.value.None? {
        return Err(TypeError);
      }
      retencion := ret.value.value;
      if Global(st) {
        retencion := PyRound(retencion, TaxPrecision(cur, st));
      }
      if t.priceInclude {
        te := te - (taxAmount - retencion);
        ti := ti - retencion;
        base := base - (taxAmount - retencion);
      } else {
        ti := ti + (taxAmount - retencion);
      }
    } else {
      if t.priceInclude {
        te := te - taxAmount;
        base := base - taxAmount;
      } else {
        ti := ti + taxAmount;
      }
    }
    var taxBase := base;
    if t.includeBaseAmount {
      base := base + taxAmount;
    }
    r := Ok(ServerState(te, ti, base, s.lines + [ServerLine(t.id, t.name, taxAmount, retencion, taxBase, t.sequence)]));
  }

  /** compute_all as the loop it is; a group tax calls it on its children. */
  method ComputeAllLoop(taxes: seq<ServerTax>, priceUnit: real, quantity: real, discount: real,
                        cur: Currency, st: Settings, amountOf: (ServerTax, real) -> real, asWritten: bool)
    returns (r: Result<ServerResult>)
    ensures r == ComputeAll(taxes, priceUnit, quantity, discount, cur, st, amountOf, asWritten)
    decreases taxes
  {
    var base := StartBase(priceUnit, quantity, discount, cur);
    var sorted := SortBy(taxes, TaxSequence);
    var s := ServerState(base, base, base, []);
    var k := 0;
    while k < |sorted|
      invariant 0 <= k <= |sorted|
      invariant Fold(taxes, sorted, 0, ServerState(base, base, base, []), priceUnit, quantity, cur, st, amountOf, asWritten)
             == Fold(taxes, sorted, k, s, priceUnit, quantity, cur, st, amountOf, asWritten)
    {
      var t := sorted[k];
      if t.amountType == Group {
        assert t in multiset(taxes);
        var j :| 0 <= j < |taxes| && taxes[j] == t;
        var ret := ComputeAllLoop(t.children, priceUnit, quantity, 0.0, cur, st, amountOf, asWritten);
        FoldGroupStep(taxes, sorted, k, s, priceUnit, quantity, cur, st, amountOf, asWritten);
        if ret.Err? {
          return Err(ret.error);
        }
        if asWritten {
          return Err(KeyError);
        }
        s := ServerState(ret.value.totalExcluded, ret.value.totalIncluded, ret.value.base, s.lines + ret.value.taxes);
      } else {
        var s2 := ApplyTax(t, s, cur, st, amountOf);
        FoldPlainStep(taxes, sorted, k, s, priceUnit, quantity, cur, st, amountOf, asWritten);
        if s2.Err? {
          return Err(s2.error);
        }
        s := s2.value;
      }
      k := k + 1;
    }
    var te := if st.contextRound then RoundPr(s.totalExcluded, cur.rounding) else s.totalExcluded;
    var ti := if st.contextRound then RoundPr(s.totalIncluded, cur.rounding) else s.totalIncluded;
    r := Ok(ServerResult(SortBy(s.lines, LineSequence), te, ti, s.base));
  }

  /** Fold, unfolded once at a group tax. */
  lemma FoldGroupStep(taxes: seq<ServerTax>, sorted: seq<ServerTax>, k: nat, s: ServerState,
                      priceUnit: real, quantity: real, cur: Currency, st: Settings,
                      amountOf: (ServerTax, real) -> real, asWritten: bool)
    requires multiset(sorted) == multiset(taxes) && k < |sorted| && sorted[k].amountType == Group
    ensures var ret := ComputeAll(sorted[k].children, priceUnit, quantity, 0.0, cur, st, amountOf, asWritten);
      Fold(taxes, sorted, k, s, priceUnit, quantity, cur, st, amountOf, asWritten)
        == if ret.Err? then Err(ret.error)
           else if asWritten then Err(KeyError)
           else Fold(taxes, sorted, k + 1,
                     ServerState(ret.value.totalExcluded, ret.value.totalIncluded, ret.value.base, s.lines + ret.value.taxes),
                     priceUnit, quantity, cur, st, amountOf, asWritten)
  {
  }

  /** Fold, unfolded once at an ordinary tax. */
  lemma FoldPlainStep(taxes: seq<ServerTax>, sorted: seq<ServerTax>, k: nat, s: ServerState,
                      priceUnit: real, quantity: real, cur: Currency, st: Settings,
                      amountOf: (ServerTax, real) -> real, asWritten: bool)
    requires multiset(sorted) == multiset(taxes) && k < |sorted| && sorted[k].amountType != Group
    ensures var s2 := Step(sorted[k], s, cur, st, amountOf);
      Fold(taxes, sorted, k, s, priceUnit, quantity, cur, st, amountOf, asWritten)
        == if s2.Err? then Err(s2.error)
           else Fold(taxes, sorted, k + 1, s2.value, priceUnit, quantity, cur, st, amountOf, asWritten)
  {
  }

  /** Lemma: the tax lines come back sorted by sequence. */
  lemma ResultSortedBySequence(taxes: seq<ServerTax>, priceUnit: real, quantity: real, discount: real,
                               cur: Currency, st: Settings, amountOf: (ServerTax, real) -> real, asWritten: bool)
    requires ComputeAll(taxes, priceUnit, quantity, discount, cur, st, amountOf, asWritten).Ok?
    ensures SortedBy(ComputeAll(taxes, priceUnit, quantity, discount, cur, st, amountOf, asWritten).value.taxes, LineSequence)
  {
    var base := StartBase(priceUnit, quantity, discount, cur);
    var s := Fold(taxes, SortBy(taxes, TaxSequence), 0, ServerState(base, base, base, []),
                  priceUnit, quantity, cur, st, amountOf, asWritten).value;
    SortBySorted(s.lines, LineSequence);
  }

  /** Lemma: without taxes both totals are the discounted base, rounded to
      the currency, and no tax line is produced. */
  lemma NoTaxes(priceUnit: real, quantity: real, discount: real, cur: Currency, st: Settings,
                amountOf: (ServerTax, real) -> real, asWritten: bool)
    requires st.contextRound
    ensures var base := StartBase(priceUnit, quantity, discount, cur);
      ComputeAll([], priceUnit, quantity, discount, cur, st, amountOf, asWritten)
        == Ok(ServerResult([], RoundPr(base, cur.rounding), RoundPr(base, cur.rounding), base))
  {
  }

  /** Lemma: how one tax widens the gap between the included and the
      excluded total: by the tax amount for an ordinary tax; by the tax less
      the withheld amount for an added withholding tax, and by the tax less
      twice the withheld amount for a price-included one. */
  lemma StepGap(t: ServerTax, s: ServerState, cur: Currency, st: Settings, amountOf: (ServerTax, real) -> real)
    requires Step(t, s, cur, st, amountOf).Ok?
    ensures var s2 := Step(t, s, cur, st, amountOf).value;
      var line := s2.lines[|s.lines|];
      s2.totalIncluded - s2.totalExcluded == s.totalIncluded - s.totalExcluded
        + (if !t.retention then line.amount
           else if t.priceInclude then line.amount - 2.0 * line.retencion
           else line.amount - line.retencion)
  {
  }

  /** Lemma: the base a tax line records is the base before that tax's own
      cascade; the running base grows by the tax only for taxes that
      include their amount in the base of later ones. */
  lemma StepRecordsBaseBeforeCascade(t: ServerTax, s: ServerState, cur: Currency, st: Settings, amountOf: (ServerTax, real) -> real)
    requires Step(t, s, cur, st, amountOf).Ok?
    ensures var s2 := Step(t, s, cur, st, amountOf).value;
      var line := s2.lines[|s.lines|];
      s2.base == line.base + (if t.includeBaseAmount then line.amount else 0.0)
      && line.base == (if !t.priceInclude then s.base
                       else if t.retention then s.base - (line.amount - line.retencion)
                       else s.base - line.amount)
  {
  }

  predicate Plain(t: ServerTax)
  {
    t.amountType != Group && !t.retention
  }

  function AmountSum(lines: seq<ServerLine>): real
  {
    if lines == [] then 0.0 else AmountSum(lines[..|lines| - 1]) + lines[|lines| - 1].amount
  }

  /** Lemma: over ordinary taxes the included total exceeds the excluded
      one by exactly the sum of the tax amounts recorded. */
  lemma {:induction false} PlainFoldGap(taxes: seq<ServerTax>, sorted: seq<ServerTax>, k: nat, s: ServerState,
                                        priceUnit: real, quantity: real, cur: Currency, st: Settings,
                                        amountOf: (ServerTax, real) -> real, asWritten: bool)
    requires multiset(sorted) == multiset(taxes) && k <= |sorted|
    requires forall i :: k <= i < |sorted| ==> Plain(sorted[i])
    ensures var r := Fold(taxes, sorted, k, s, priceUnit, quantity, cur, st, amountOf, asWritten);
      r.Ok? && |r.value.lines| >= |s.lines| && r.value.lines[..|s.lines|] == s.lines
      && r.value.totalIncluded - r.value.totalExcluded
         == s.totalIncluded - s.totalExcluded + AmountSum(r.value.lines) - AmountSum(s.lines)
    decreases |sorted| - k
  {
    if k < |sorted| {
      var t := sorted[k];
      var s2 := Step(t, s, cur, st, amountOf).value;
      StepGap(t, s, cur, st, amountOf);
      assert s2.lines[..|s.lines|] == s.lines;
      assert s2.lines == s.lines + [s2.lines[|s.lines|]];
      PlainFoldGap(taxes, sorted, k + 1, s2, priceUnit, quantity, cur, st, amountOf, asWritten);
      var r := Fold(taxes, sorted, k + 1, s2, priceUnit, quantity, cur, st, amountOf, asWritten).value;
      assert r.lines[..|s2.lines|][..|s.lines|] == r.lines[..|s.lines|];
    }
  }

  /** Lemma (the source as written): a group tax whose children compute
      raises KeyError. */
  lemma GroupKeyErrorAsWritten(g: ServerTax, priceUnit: real, quantity: real, discount: real,
                               cur: Currency, st: Settings, amountOf: (ServerTax, real) -> real)
    requires g.amountType == Group
    requires ComputeAll(g.children, priceUnit, quantity, 0.0, cur, st, amountOf, true).Ok?
    ensures ComputeAll([g], priceUnit, quantity, discount, cur, st, amountOf, true) == Err(KeyError)
  {
    assert SortBy([g], TaxSequence) == [g];
  }

  /** The loop over a lone group tax ends with the children's result. */
  lemma LoneGroupFold(g: ServerTax, s: ServerState, priceUnit: real, quantity: real,
                      cur: Currency, st: Settings, amountOf: (ServerTax, real) -> real)
    requires g.amountType == Group
    requires ComputeAll(g.children, priceUnit, quantity, 0.0, cur, st, amountOf, false).Ok?
    ensures var ret := ComputeAll(g.children, priceUnit, quantity, 0.0, cur, st, amountOf, false).value;
      Fold([g], [g], 0, s, priceUnit, quantity, cur, st, amountOf, false)
        == Ok(ServerState(ret.totalExcluded, ret.totalIncluded, ret.base, s.lines + ret.taxes))
  {
  }

  /** Lemma (the corrected group): a lone group tax gives its children's
      totals, base and tax lines (re-sorted), whatever the parent's
      discount. */
  lemma GroupAdoptsChildren(g: ServerTax, priceUnit: real, quantity: real, discount: real,
                            cur: Currency, st: Settings, amountOf: (ServerTax, real) -> real)
    requires g.amountType == Group && st.contextRound
    requires ComputeAll(g.children, priceUnit, quantity, 0.0, cur, st, amountOf, false).Ok?
    ensures var ret := ComputeAll(g.children, priceUnit, quantity, 0.0, cur, st, amountOf, false).value;
      var r := ComputeAll([g], priceUnit, quantity, discount, cur, st, amountOf, false);
      r.Ok? && r.value.totalExcluded == ret.totalExcluded && r.value.totalIncluded == ret.totalIncluded
      && r.value.base == ret.base && r.value.taxes == SortBy(ret.taxes, LineSequence)
  {
    assert SortBy([g], TaxSequence) == [g];
    var ret := ComputeAll(g.children, priceUnit, quantity, 0.0, cur, st, amountOf, false).value;
    var base := StartBase(priceUnit, quantity, discount, cur);
    LoneGroupFold(g, ServerState(base, base, base, []), priceUnit, quantity, cur, st, amountOf);
    ChildTotalsRounded(g.children, priceUnit, quantity, cur, st, amountOf);
    assert [] + ret.taxes == ret.taxes;
  }

  /** With the context rounding, compute_all's totals are already rounded
      to the currency. */
  lemma ChildTotalsRounded(taxes: seq<ServerTax>, priceUnit: real, quantity: real,
                           cur: Currency, st: Settings, amountOf: (ServerTax, real) -> real)
    requires st.contextRound
    requires ComputeAll(taxes, priceUnit, quantity, 0.0, cur, st, amountOf, false).Ok?
    ensures var ret := ComputeAll(taxes, priceUnit, quantity, 0.0, cur, st, amountOf, false).value;
      RoundPr(ret.totalExcluded, cur.rounding) == ret.totalExcluded
      && RoundPr(ret.totalIncluded, cur.rounding) == ret.totalIncluded
  {
    var base := StartBase(priceUnit, quantity, 0.0, cur);
    var s := Fold(taxes, SortBy(taxes, TaxSequence), 0, ServerState(base, base, base, []),
                  priceUnit, quantity, cur, st, amountOf, false).value;
    RoundPrIdempotent(s.totalExcluded, cur.rounding);
    RoundPrIdempotent(s.totalIncluded, cur.rounding);
  }
}
