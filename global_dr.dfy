/** Global discounts and surcharges of an invoice (account.invoice.gdr):
    the display name, the base they apply to, the amount each entry comes
    to, the check that discounts do not swallow the invoice, and the
    grouping by kind used when the document is written. */
module GlobalDr {
  import opened Common

  datatype DrKind = Descuento | Recargo
  datatype Calculo = Monto | Porcentaje
  datatype Impuesto = Afectos | Exentos | NoFacturables

  /** An invoice line as the base computation sees it: its subtotal and the
      rates of its taxes. */
  datatype TaxedLine = TaxedLine(priceSubtotal: real, taxRates: seq<real>)

  datatype GdrInvoice = GdrInvoice(lines: seq<TaxedLine>, rounding: real)

  /** One entry; `amount` is the stored amount_untaxed_global_dr and
      `detail` is gdr_detail with an unset value read as "". */
  datatype Gdr = Gdr(kind: DrKind, calculo: Calculo, valor: real, detail: string,
                     impuesto: Impuesto, invoiceId: int, amount: real)

  function KindName(k: DrKind): string
  {
    if k == Recargo then "Recargo" else "Descuento"
  }

  function CalculoName(c: Calculo): string
  {
    if c == Monto then "Monto" else "Porcentaje"
  }

  /** _get_name. */
  function Name(g: Gdr): (r: string)
    ensures |r| > 2
  {
    KindName(g.kind) + "-" + CalculoName(g.calculo) + ": " + g.detail
  }

  /** Lemma: the name tells the kind, the calculation and the detail apart:
      two entries with the same name agree on all three. */
  lemma NameDeterminesEntry(a: Gdr, b: Gdr)
    requires Name(a) == Name(b)
    ensures a.kind == b.kind && a.calculo == b.calculo && a.detail == b.detail
  {
    assert Name(a)[0] == KindName(a.kind)[0];
    assert Name(b)[0] == KindName(b.kind)[0];
    var ka := |KindName(a.kind)| + 1;
    assert Name(a)[ka] == CalculoName(a.calculo)[0];
    assert Name(b)[ka] == CalculoName(b.calculo)[0];
    var pa := KindName(a.kind) + "-" + CalculoName(a.calculo) + ": ";
    var pb := KindName(b.kind) + "-" + CalculoName(b.calculo) + ": ";
    assert pa == pb;
    assert a.detail == Name(a)[|pa|..];
    assert b.detail == Name(b)[|pb|..];
  }

  /** A line's contribution to a base: its subtotal once per positive-rate
      tax for the taxed base, once per tax for the exempt base. */
  function LineValue(subtotal: real, rates: seq<real>, afectos: bool): real
  {
    if rates == [] then 0.0
    else LineValue(subtotal, rates[..|rates| - 1], afectos)
         + (if !afectos || rates[|rates| - 1] > 0.0 then subtotal else 0.0)
  }

  /** The base an entry applies to (_get_valores). */
  function Valores(lines: seq<TaxedLine>, afectos: bool): real
  {
    if lines == [] then 0.0
    else
      var l := lines[|lines| - 1];
      Valores(lines[..|lines| - 1], afectos) + LineValue(l.priceSubtotal, l.taxRates, afectos)
  }

  /** _get_valores, as the nested loop it is. */
  method GetValores(lines: seq<TaxedLine>, afectos: bool) returns (afecto: real)
    ensures afecto == Valores(lines, afectos)
  {
    afecto := 0.0;
    var i := 0;
    while i < |lines|
      invariant 0 <= i <= |lines|
      invariant afecto == Valores(lines[..i], afectos)
    {
      var line := lines[i];
      var j := 0;
      while j < |line.taxRates|
        invariant 0 <= j <= |line.taxRates|
        invariant afecto == Valores(lines[..i], afectos) + LineValue(line.priceSubtotal, line.taxRates[..j], afectos)
      {
        assert line.taxRates[..j + 1][..j] == line.taxRates[..j];
        if line.taxRates[j] > 0.0 && afectos {
          afecto := afecto + line.priceSubtotal;
        } else if !afectos {
          afecto := afecto + line.priceSubtotal;
        }
        j := j + 1;
      }
      assert line.taxRates[..j] == line.taxRates;
      assert lines[..i + 1][..i] == lines[..i];
      i := i + 1;
    }
    assert lines[..i] == lines;
  }

  /** Lemma: when no subtotal is negative, the exempt base is at least the
      taxed base. */
  lemma {:induction false} TaxedBaseAtMostExemptBase(lines: seq<TaxedLine>)
    requires forall i :: 0 <= i < |lines| ==> lines[i].priceSubtotal >= 0.0
    ensures Valores(lines, true) <= Valores(lines, false)
  {
    if lines != [] {
      var l := lines[|lines| - 1];
      TaxedBaseAtMostExemptBase(lines[..|lines| - 1]);
      LineValueAtMostAll(l.priceSubtotal, l.taxRates);
    }
  }

  /** Lemma: the exempt base counts a line once per tax. */
  lemma {:induction false} LineValueAtMostAll(subtotal: real, rates: seq<real>)
    requires subtotal >= 0.0
    ensures LineValue(subtotal, rates, true) <= LineValue(subtotal, rates, false) == subtotal * |rates| as real
  {
    if rates != [] {
      LineValueAtMostAll(subtotal, rates[..|rates| - 1]);
    }
  }

  /** The running figures of one invoice: its base and the discounts and
      surcharges met so far. */
  datatype Group = Group(afecto: real, des: real, rec: real)

  /** The state of the _untaxed_gdr loop: the groups, their keys in the
      order they were created, and the amount written to each entry so far
      (None where the loop skipped it). */
  datatype UntaxedState = UntaxedState(groups: map<int, Group>, order: seq<int>, amounts: seq<Option<real>>)

  /** A percentage of a base, rounded to the invoice's currency. */
  function Percentage(base: real, valor: real, rounding: real): real
  {
    RoundPr(base * (valor / 100.0), rounding)
  }

  /** One entry of the _untaxed_gdr loop. The first entry of an invoice
      fixes the base from its own `impuesto`. A percent entry against a zero
      base is skipped; against a positive base it becomes the rounded
      percentage; against a negative base its value is taken as it is. */
  function Visit(g: Gdr, inv: GdrInvoice, st: UntaxedState): UntaxedState
  {
    if g.valor == 0.0 then st.(amounts := st.amounts + [None])
    else
      var id := g.invoiceId;
      var groups := if id in st.groups then st.groups
                    else st.groups[id := Group(Valores(inv.lines, g.impuesto == Afectos), 0.0, 0.0)];
      var order := if id in st.groups then st.order else st.order + [id];
      var grp := groups[id];
      if g.calculo == Porcentaje && grp.afecto == 0.0 then
        UntaxedState(groups, order, st.amounts + [None])
      else
        var dr := if g.calculo == Porcentaje && grp.afecto > 0.0
                  then Percentage(grp.afecto, g.valor, inv.rounding) else g.valor;
        var grp2 := if g.kind == Descuento then grp.(des := grp.des + dr) else grp.(rec := grp.rec + dr);
        UntaxedState(groups[id := grp2], order, st.amounts + [Some(dr)])
  }

  function Accumulate(gdrs: seq<Gdr>, invoiceOf: int -> GdrInvoice): (st: UntaxedState)
    ensures |st.amounts| == |gdrs|
  {
    if gdrs == [] then UntaxedState(map[], [], [])
    else
      var g := gdrs[|gdrs| - 1];
      Visit(g, invoiceOf(g.invoiceId), Accumulate(gdrs[..|gdrs| - 1], invoiceOf))
  }

  predicate Overdrawn(grp: Group)
  {
    grp.des >= grp.afecto + grp.rec
  }

  /** The first invoice, in creation order, whose discounts reach its base
      plus its surcharges. */
  function FirstOverdrawn(order: seq<int>, groups: map<int, Group>): (r: Option<int>)
    ensures r.Some? ==> r.value in order && r.value in groups && Overdrawn(groups[r.value])
    ensures r.None? ==> forall k :: k in order && k in groups ==> !Overdrawn(groups[k])
  {
    if order == [] then None
    else if order[0] in groups && Overdrawn(groups[order[0]]) then Some(order[0])
    else FirstOverdrawn(order[1..], groups)
  }

  function OverdrawnMessage(id: int): string
  {
    "El descuento no puede ser mayor o igual a la suma de los recargos + neto (f: " + IntToString(id) + ")"
  }

  /** _untaxed_gdr: the amount of every entry, or the error when some
      invoice's discounts reach its base plus its surcharges. */
  function UntaxedGdr(gdrs: seq<Gdr>, invoiceOf: int -> GdrInvoice): Result<seq<Option<real>>>
  {
    var st := Accumulate(gdrs, invoiceOf);
    match FirstOverdrawn(st.order, st.groups)
    case Some(id) => Err(UserError(OverdrawnMessage(id)))
    case None => Ok(st.amounts)
  }

  /** One pass of the _untaxed_gdr loop. */
  method VisitEntry(gdr: Gdr, inv: GdrInvoice, st: UntaxedState) returns (st2: UntaxedState)
    ensures st2 == Visit(gdr, inv, st)
  {
    var groups, order, amounts := st.groups, st.order, st.amounts;
    if gdr.valor == 0.0 {
      return st.(amounts := amounts + [None]);
    }
    var id := gdr.invoiceId;
    if id !in groups {
      var afecto := GetValores(inv.lines, gdr.impuesto == Afectos);
      groups := groups[id := Group(afecto, 0.0, 0.0)];
      order := order + [id];
    }
    assert groups == (if id in st.groups then st.groups
                      else st.groups[id := Group(Valores(inv.lines, gdr.impuesto == Afectos), 0.0, 0.0)]);
    assert order == (if id in st.groups then st.order else st.order + [id]);
    var grp := groups[id];
    var dr := gdr.valor;
    if gdr.calculo == Porcentaje && grp.afecto == 0.0 {
      st2 := UntaxedState(groups, order, amounts + [None]);
      assert st2 == Visit(gdr, inv, st);
      return;
    }
    if gdr.calculo == Porcentaje && grp.afecto > 0.0 {
      dr := Percentage(grp.afecto, dr, inv.rounding);
    }
    if gdr.kind == Descuento {
      groups := groups[id := grp.(des := grp.des + dr)];
    } else {
      groups := groups[id := grp.(rec := grp.rec + dr)];
    }
    st2 := UntaxedState(groups, order, amounts + [Some(dr)]);
  }

  /** The closing scan of _untaxed_gdr over the groups. */
  method FindOverdrawn(order: seq<int>, groups: map<int, Group>) returns (r: Option<int>)
    ensures r == FirstOverdrawn(order, groups)
  {
    var k := 0;
    while k < |order|
      invariant 0 <= k <= |order|
      invariant FirstOverdrawn(order, groups) == FirstOverdrawn(order[k..], groups)
    {
      assert order[k..][1..] == order[k + 1..];
      if order[k] in groups && Overdrawn(groups[order[k]]) {
        return Some(order[k]);
      }
      k := k + 1;
    }
    r := None;
  }

  /** _untaxed_gdr, as the loop it is. */
  method ComputeUntaxedGdr(gdrs: seq<Gdr>, invoiceOf: int -> GdrInvoice) returns (r: Result<seq<Option<real>>>)
    ensures r == UntaxedGdr(gdrs, invoiceOf)
  {
    var st := UntaxedState(map[], [], []);
    var i := 0;
    while i < |gdrs|
      invariant 0 <= i <= |gdrs|
      invariant st == Accumulate(gdrs[..i], invoiceOf)
    {
      assert gdrs[..i + 1][..i] == gdrs[..i];
      st := VisitEntry(gdrs[i], invoiceOf(gdrs[i].invoiceId), st);
      i := i + 1;
    }
    assert gdrs[..i] == gdrs;
    var bad := FindOverdrawn(st.order, st.groups);
    if bad.Some? {
      return Err(UserError(OverdrawnMessage(bad.value)));
    }
    r := Ok(st.amounts);
  }

  /** The amounts written to the entries of invoice `id` of kind `kind`. */
  function KindSum(gdrs: seq<Gdr>, amounts: seq<Option<real>>, id: int, kind: DrKind): real
    requires |amounts| <= |gdrs|
  {
    if amounts == [] then 0.0
    else
      var n := |amounts| - 1;
      KindSum(gdrs, amounts[..n], id, kind)
        + (if gdrs[n].invoiceId == id && gdrs[n].kind == kind && amounts[n].Some? then amounts[n].value else 0.0)
  }

  /** The invariant of the loop: an invoice has a group exactly when it is
      in the creation order, and a group's discounts and surcharges are the
      sums of the amounts written to its entries of that kind (nothing for
      an invoice with no group yet). */
  ghost predicate Consistent(gdrs: seq<Gdr>, st: UntaxedState)
  {
    |st.amounts| <= |gdrs| && forall id :: ConsistentAt(gdrs, st, id)
  }

  /** Consistent, for one invoice. */
  ghost predicate ConsistentAt(gdrs: seq<Gdr>, st: UntaxedState, id: int)
    requires |st.amounts| <= |gdrs|
  {
    (id in st.order <==> id in st.groups)
    && (id in st.groups ==>
          st.groups[id].des == KindSum(gdrs, st.amounts, id, Descuento)
          && st.groups[id].rec == KindSum(gdrs, st.amounts, id, Recargo))
    && (id !in st.groups ==>
          KindSum(gdrs, st.amounts, id, Descuento) == 0.0 && KindSum(gdrs, st.amounts, id, Recargo) == 0.0)
  }

  lemma {:induction false} AccumulateConsistent(gdrs: seq<Gdr>, invoiceOf: int -> GdrInvoice)
    ensures Consistent(gdrs, Accumulate(gdrs, invoiceOf))
  {
    if gdrs != [] {
      var n := |gdrs| - 1;
      var prefix := gdrs[..n];
      var st := Accumulate(prefix, invoiceOf);
      AccumulateConsistent(prefix, invoiceOf);
      KindSumPrefix(prefix, gdrs, st.amounts);
      forall id
        ensures ConsistentAt(gdrs, st, id)
      {
        assert ConsistentAt(prefix, st, id);
      }
      VisitConsistent(gdrs, st, invoiceOf(gdrs[n].invoiceId));
    }
  }

  /** One pass of the loop keeps the invariant. */
  lemma VisitConsistent(gdrs: seq<Gdr>, st: UntaxedState, inv: GdrInvoice)
    requires |gdrs| == |st.amounts| + 1 && Consistent(gdrs, st)
    ensures Consistent(gdrs, Visit(gdrs[|gdrs| - 1], inv, st))
  {
    var st2 := Visit(gdrs[|gdrs| - 1], inv, st);
    forall id
      ensures ConsistentAt(gdrs, st2, id)
    {
      VisitConsistentAt(gdrs, st, inv, id);
    }
  }

  /** One pass of the loop keeps the invariant for one invoice. */
  lemma VisitConsistentAt(gdrs: seq<Gdr>, st: UntaxedState, inv: GdrInvoice, id: int)
    requires |gdrs| == |st.amounts| + 1 && ConsistentAt(gdrs, st, id)
    ensures ConsistentAt(gdrs, Visit(gdrs[|gdrs| - 1], inv, st), id)
  {
    var n := |st.amounts|;
    var g := gdrs[n];
    var st2 := Visit(g, inv, st);
    KindSumLast(gdrs, st2.amounts, id, Descuento);
    KindSumLast(gdrs, st2.amounts, id, Recargo);
    assert st2.amounts[..n] == st.amounts;
    if g.valor == 0.0 {
      assert st2 == st.(amounts := st.amounts + [None]);
    } else if g.invoiceId != id {
      VisitOtherInvoice(g, inv, st, id);
    } else {
      VisitOwnInvoice(g, inv, st);
    }
  }

  /** An entry adds its amount to its own invoice's group, of its kind,
      creating the group on the invoice's first entry. */
  lemma VisitOwnInvoice(g: Gdr, inv: GdrInvoice, st: UntaxedState)
    requires g.valor != 0.0
    requires g.invoiceId in st.order <==> g.invoiceId in st.groups
    ensures var st2 := Visit(g, inv, st);
      var id := g.invoiceId;
      var grp := if id in st.groups then st.groups[id] else Group(Valores(inv.lines, g.impuesto == Afectos), 0.0, 0.0);
      var add := if st2.amounts[|st.amounts|].Some? then st2.amounts[|st.amounts|].value else 0.0;
      |st2.amounts| == |st.amounts| + 1
      && id in st2.groups && id in st2.order
      && st2.groups[id].des == grp.des + (if g.kind == Descuento then add else 0.0)
      && st2.groups[id].rec == grp.rec + (if g.kind == Recargo then add else 0.0)
  {
  }

  /** An entry of another invoice leaves this invoice's group alone. */
  lemma VisitOtherInvoice(g: Gdr, inv: GdrInvoice, st: UntaxedState, id: int)
    requires g.valor != 0.0 && g.invoiceId != id
    ensures var st2 := Visit(g, inv, st);
      (id in st2.groups <==> id in st.groups)
      && (id in st2.order <==> id in st.order)
      && (id in st.groups ==> st2.groups[id] == st.groups[id])
  {
  }

  /** KindSum, unfolded once. */
  lemma KindSumLast(gdrs: seq<Gdr>, amounts: seq<Option<real>>, id: int, kind: DrKind)
    requires 0 < |amounts| <= |gdrs|
    ensures var n := |amounts| - 1;
      KindSum(gdrs, amounts, id, kind) == KindSum(gdrs, amounts[..n], id, kind)
        + (if gdrs[n].invoiceId == id && gdrs[n].kind == kind && amounts[n].Some? then amounts[n].value else 0.0)
  {
  }

  /** KindSum only looks at the entries it has amounts for. */
  lemma {:induction false} KindSumPrefix(short: seq<Gdr>, long: seq<Gdr>, amounts: seq<Option<real>>)
    requires |amounts| <= |short| <= |long| && short == long[..|short|]
    ensures forall id, kind :: KindSum(short, amounts, id, kind) == KindSum(long, amounts, id, kind)
  {
    if amounts != [] {
      KindSumPrefix(short, long, amounts[..|amounts| - 1]);
    }
  }

  /** Lemma: the discounts and surcharges the check compares are the sums
      of the amounts written to the entries of each invoice. */
  lemma GroupTotalsAreEntrySums(gdrs: seq<Gdr>, invoiceOf: int -> GdrInvoice, id: int)
    requires id in Accumulate(gdrs, invoiceOf).groups
    ensures var st := Accumulate(gdrs, invoiceOf);
      st.groups[id].des == KindSum(gdrs, st.amounts, id, Descuento)
      && st.groups[id].rec == KindSum(gdrs, st.amounts, id, Recargo)
  {
    AccumulateConsistent(gdrs, invoiceOf);
    assert ConsistentAt(gdrs, Accumulate(gdrs, invoiceOf), id);
  }

  ghost predicate SomeOverdrawn(groups: map<int, Group>)
  {
    exists id :: id in groups && Overdrawn(groups[id])
  }

  /** Lemma: _untaxed_gdr fails exactly when some invoice's discounts
      reach its base plus its surcharges. */
  lemma UntaxedFailsIffOverdrawn(gdrs: seq<Gdr>, invoiceOf: int -> GdrInvoice)
    ensures UntaxedGdr(gdrs, invoiceOf).Err? <==> SomeOverdrawn(Accumulate(gdrs, invoiceOf).groups)
  {
    AccumulateConsistent(gdrs, invoiceOf);
    var st := Accumulate(gdrs, invoiceOf);
    var first := FirstOverdrawn(st.order, st.groups);
    assert UntaxedGdr(gdrs, invoiceOf).Err? <==> first.Some?;
    if first.Some? {
      var id := first.value;
      assert ConsistentAt(gdrs, st, id);
      assert id in st.groups && Overdrawn(st.groups[id]);
    } else {
      forall id | id in st.groups
        ensures !Overdrawn(st.groups[id])
      {
        assert ConsistentAt(gdrs, st, id);
      }
    }
  }

  /** Lemma: a lone percent entry against a negative base keeps its own
      value as the amount, not a percentage of the base. */
  lemma NegativeBaseKeepsValor(g: Gdr, invoiceOf: int -> GdrInvoice)
    requires g.calculo == Porcentaje && g.valor != 0.0
    requires Valores(invoiceOf(g.invoiceId).lines, g.impuesto == Afectos) < 0.0
    ensures Accumulate([g], invoiceOf).amounts == [Some(g.valor)]
  {
    assert [g][..0] == [];
    var e := UntaxedState(map[], [], []);
    assert Accumulate([g], invoiceOf) == Visit(g, invoiceOf(g.invoiceId), e);
    var v := Visit(g, invoiceOf(g.invoiceId), e);
    assert v.groups[g.invoiceId].afecto < 0.0;
    assert v.amounts == [Some(g.valor)];
  }

  /** Lemma: a lone percent entry against a positive base comes to the
      rounded percentage of that base. */
  lemma PositiveBasePercentage(g: Gdr, invoiceOf: int -> GdrInvoice)
    requires g.calculo == Porcentaje && g.valor != 0.0
    requires Valores(invoiceOf(g.invoiceId).lines, g.impuesto == Afectos) > 0.0
    ensures var inv := invoiceOf(g.invoiceId);
      Accumulate([g], invoiceOf).amounts == [Some(Percentage(Valores(inv.lines, g.impuesto == Afectos), g.valor, inv.rounding))]
  {
    assert [g][..0] == [];
    var e := UntaxedState(map[], [], []);
    assert Accumulate([g], invoiceOf) == Visit(g, invoiceOf(g.invoiceId), e);
    var v := Visit(g, invoiceOf(g.invoiceId), e);
    var inv := invoiceOf(g.invoiceId);
    assert v.groups[g.invoiceId].afecto == Valores(inv.lines, g.impuesto == Afectos) > 0.0;
  }

  /** The four totals of get_agrupados: D, R, D_exe and R_exe. */
  datatype Agrupados = Agrupados(d: real, r: real, dExe: real, rExe: real)

  /** get_agrupados: "exentos" entries go to the _exe key of their kind,
      all others to their kind. */
  function Agrupar(gdrs: seq<Gdr>): Agrupados
  {
    if gdrs == [] then Agrupados(0.0, 0.0, 0.0, 0.0)
    else
      var a := Agrupar(gdrs[..|gdrs| - 1]);
      var g := gdrs[|gdrs| - 1];
      if g.impuesto == Exentos then
        if g.kind == Descuento then a.(dExe := a.dExe + g.amount) else a.(rExe := a.rExe + g.amount)
      else
        if g.kind == Descuento then a.(d := a.d + g.amount) else a.(r := a.r + g.amount)
  }

  method GetAgrupados(gdrs: seq<Gdr>) returns (result: Agrupados)
    ensures result == Agrupar(gdrs)
  {
    result := Agrupados(0.0, 0.0, 0.0, 0.0);
    var i := 0;
    while i < |gdrs|
      invariant 0 <= i <= |gdrs|
      invariant result == Agrupar(gdrs[..i])
    {
      assert gdrs[..i + 1][..i] == gdrs[..i];
      var gdr := gdrs[i];
      if gdr.impuesto == Exentos {
        if gdr.kind == Descuento {
          result := result.(dExe := result.dExe + gdr.amount);
        } else {
          result := result.(rExe := result.rExe + gdr.amount);
        }
      } else {
        if gdr.kind == Descuento {
          result := result.(d := result.d + gdr.amount);
        } else {
          result := result.(r := result.r + gdr.amount);
        }
      }
      i := i + 1;
    }
    assert gdrs[..i] == gdrs;
  }

  function Amounts(gdrs: seq<Gdr>): seq<real>
    ensures |Amounts(gdrs)| == |gdrs|
  {
    if gdrs == [] then [] else Amounts(gdrs[..|gdrs| - 1]) + [gdrs[|gdrs| - 1].amount]
  }

  /** Each entry's amount with its effect's sign: surcharges add,
      discounts subtract. */
  function Signed(gdrs: seq<Gdr>): real
  {
    if gdrs == [] then 0.0
    else
      var g := gdrs[|gdrs| - 1];
      Signed(gdrs[..|gdrs| - 1]) + (if g.kind == Descuento then -g.amount else g.amount)
  }

  /** Lemma: the four totals together are the sum of all the amounts; no
      entry is lost or counted twice. */
  lemma {:induction false} AgrupadosTotal(gdrs: seq<Gdr>)
    ensures var a := Agrupar(gdrs);
      a.d + a.r + a.dExe + a.rExe == RSum(Amounts(gdrs))
  {
    if gdrs != [] {
      AgrupadosTotal(gdrs[..|gdrs| - 1]);
    }
  }

  /** get_monto_aplicar: surcharges less discounts, over the four keys. */
  method GetMontoAplicar(gdrs: seq<Gdr>) returns (monto: real)
    ensures monto == Signed(gdrs)
  {
    var grouped := GetAgrupados(gdrs);
    monto := 0.0;
    monto := monto + grouped.d * (-1.0);
    monto := monto + grouped.r;
    monto := monto + grouped.dExe * (-1.0);
    monto := monto + grouped.rExe;
    MontoAplicarSigned(gdrs);
  }

  /** Lemma: R + R_exe - D - D_exe is the signed sum of the entries. */
  lemma {:induction false} MontoAplicarSigned(gdrs: seq<Gdr>)
    ensures var a := Agrupar(gdrs);
      a.r + a.rExe - a.d - a.dExe == Signed(gdrs)
  {
    if gdrs != [] {
      MontoAplicarSigned(gdrs[..|gdrs| - 1]);
    }
  }
}
