/** The Chilean rules of account.move: the taxes of a journal entry merged
    by tax, their split into IVA, exempt and other taxes, and the document
    totals with the sign of the entry. format_vat is the invoice's own
    (Invoice.FormatVat). */
module Move {
  import opened Common
  import Invoice

  /** A tax as a journal line refers to it: id, rate and SII code. */
  datatype TaxRef = TaxRef(id: int, amount: real, code: int)

  /** A journal line: the tax it is the line of, if any, the taxes applied
      to it, and its credit and debit. */
  datatype JournalLine = JournalLine(taxLine: Option<TaxRef>, taxes: seq<TaxRef>, credit: real, debit: real)

  /** The tax a line is merged under: its own tax for a tax line, the
      first tax for a line whose first tax has rate 0 (an exempt amount),
      none otherwise. */
  function KeyOf(l: JournalLine): Option<TaxRef>
  {
    if l.taxLine.Some? then l.taxLine
    else if |l.taxes| > 0 && l.taxes[0].amount == 0.0 then Some(l.taxes[0])
    else None
  }

  datatype Imp = Imp(taxId: int, credit: real, debit: real, code: int)

  /** The merged taxes and the order their keys were created in. */
  datatype Imps = Imps(byId: map<int, Imp>, order: seq<int>)

  function AddLine(imps: Imps, l: JournalLine): Imps
  {
    match KeyOf(l)
    case None => imps
    case Some(t) =>
      var byId := if t.id in imps.byId then imps.byId else imps.byId[t.id := Imp(t.id, 0.0, 0.0, t.code)];
      var order := if t.id in imps.byId then imps.order else imps.order + [t.id];
      var i := byId[t.id];
      Imps(byId[t.id := i.(credit := i.credit + l.credit, debit := i.debit + l.debit)], order)
  }

  /** _get_move_imps. */
  function MoveImps(lines: seq<JournalLine>): Imps
  {
    if lines == [] then Imps(map[], [])
    else AddLine(MoveImps(lines[..|lines| - 1]), lines[|lines| - 1])
  }

  method AddLineTo(imps: Imps, l: JournalLine) returns (r: Imps)
    ensures r == AddLine(imps, l)
  {
    var byId, order := imps.byId, imps.order;
    var key := KeyOf(l);
    if key.None? {
      return imps;
    }
    var t := key.value;
    if t.id !in byId {
      byId := byId[t.id := Imp(t.id, 0.0, 0.0, t.code)];
      order := order + [t.id];
    }
    byId := byId[t.id := byId[t.id].(credit := byId[t.id].credit + l.credit)];
    byId := byId[t.id := byId[t.id].(debit := byId[t.id].debit + l.debit)];
    r := Imps(byId, order);
  }

  /** _get_move_imps, as the loop it is. */
  method GetMoveImps(lines: seq<JournalLine>) returns (imps: Imps)
    ensures imps == MoveImps(lines)
  {
    imps := Imps(map[], []);
    var i := 0;
    while i < |lines|
      invariant 0 <= i <= |lines|
      invariant imps == MoveImps(lines[..i])
    {
      assert lines[..i + 1][..i] == lines[..i];
      imps := AddLineTo(imps, lines[i]);
      i := i + 1;
    }
    assert lines[..i] == lines;
  }

  predicate KeyedTo(l: JournalLine, id: int)
  {
    KeyOf(l).Some? && KeyOf(l).value.id == id
  }

  /** The credits (or debits) of the lines merged under a tax. */
  function CreditOf(lines: seq<JournalLine>, id: int): real
  {
    if lines == [] then 0.0
    else CreditOf(lines[..|lines| - 1], id) + (if KeyedTo(lines[|lines| - 1], id) then lines[|lines| - 1].credit else 0.0)
  }

  function DebitOf(lines: seq<JournalLine>, id: int): real
  {
    if lines == [] then 0.0
    else DebitOf(lines[..|lines| - 1], id) + (if KeyedTo(lines[|lines| - 1], id) then lines[|lines| - 1].debit else 0.0)
  }

  /** What the merge holds for one tax: it is present exactly when some
      line is keyed to it, exactly when its key is in the creation order,
      and its credit and debit are the sums over the lines keyed to it
      (nothing for a tax no line is keyed to). */
  ghost predicate MergedFor(lines: seq<JournalLine>, imps: Imps, id: int)
  {
    (id in imps.byId <==> exists i :: 0 <= i < |lines| && KeyedTo(lines[i], id))
    && (id in imps.byId <==> id in imps.order)
    && (id in imps.byId ==> imps.byId[id].credit == CreditOf(lines, id) && imps.byId[id].debit == DebitOf(lines, id))
    && (id !in imps.byId ==> CreditOf(lines, id) == 0.0 && DebitOf(lines, id) == 0.0)
  }

  /** Lemma: a tax is present exactly when some line is merged under it,
      its key is in the creation order, and its credit and debit are the
      sums over the lines merged under it. */
  lemma {:induction false} MoveImpsMerge(lines: seq<JournalLine>)
    ensures forall id :: MergedFor(lines, MoveImps(lines), id)
  {
    if lines != [] {
      var n := |lines| - 1;
      var prev := MoveImps(lines[..n]);
      MoveImpsMerge(lines[..n]);
      var imps := MoveImps(lines);
      var l := lines[n];
      assert imps == AddLine(prev, l);
      forall id
        ensures MergedFor(lines, imps, id)
      {
        MergeStep(lines, prev, id);
      }
    }
  }

  /** One more line keeps MergedFor for a tax. */
  lemma MergeStep(lines: seq<JournalLine>, prev: Imps, id: int)
    requires lines != [] && MergedFor(lines[..|lines| - 1], prev, id)
    ensures MergedFor(lines, AddLine(prev, lines[|lines| - 1]), id)
  {
    var n := |lines| - 1;
    var l := lines[n];
    var imps := AddLine(prev, l);
    assert forall i :: 0 <= i < n ==> lines[..n][i] == lines[i];
    if KeyedTo(l, id) {
      assert id in imps.byId;
      assert imps.order == if id in prev.byId then prev.order else prev.order + [id];
    } else {
      assert (id in imps.byId <==> id in prev.byId);
      assert (id in imps.order <==> id in prev.order);
      assert (exists i :: 0 <= i < |lines| && KeyedTo(lines[i], id))
          <==> (exists i :: 0 <= i < n && KeyedTo(lines[..n][i], id));
    }
  }

  /** "credit or debit": the credit, or the debit when the credit is 0. */
  function CreditOrDebit(i: Imp): real
  {
    if i.credit != 0.0 then i.credit else i.debit
  }

  datatype Buckets = Buckets(iva: real, exento: real, otrosImps: real)

  /** The split of the merged taxes: code 14 to IVA, code 0 to exempt,
      every other code to other taxes. */
  function Split(order: seq<int>, byId: map<int, Imp>): Buckets
  {
    if order == [] then Buckets(0.0, 0.0, 0.0)
    else
      var b := Split(order[..|order| - 1], byId);
      var k := order[|order| - 1];
      if k !in byId then b
      else
        var i := byId[k];
        if i.code == 14 then b.(iva := b.iva + CreditOrDebit(i))
        else if i.code == 0 then b.(exento := b.exento + CreditOrDebit(i))
        else b.(otrosImps := b.otrosImps + CreditOrDebit(i))
  }

  datatype MoveTaxTotals = MoveTaxTotals(iva: real, exento: real, otrosImps: real, neto: real)

  /** totales_por_movimiento. */
  function TotalesPorMovimientoSpec(amount: real, lines: seq<JournalLine>): MoveTaxTotals
  {
    var imps := MoveImps(lines);
    var b := Split(imps.order, imps.byId);
    MoveTaxTotals(b.iva, b.exento, b.otrosImps, amount - b.otrosImps - b.exento - b.iva)
  }

  method TotalesPorMovimiento(amount: real, lines: seq<JournalLine>) returns (r: MoveTaxTotals)
    ensures r == TotalesPorMovimientoSpec(amount, lines)
  {
    var imps := GetMoveImps(lines);
    var iva, exento, otros := 0.0, 0.0, 0.0;
    var k := 0;
    while k < |imps.order|
      invariant 0 <= k <= |imps.order|
      invariant Buckets(iva, exento, otros) == Split(imps.order[..k], imps.byId)
    {
      assert imps.order[..k + 1][..k] == imps.order[..k];
      var key := imps.order[k];
      if key in imps.byId {
        var i := imps.byId[key];
        if i.code == 14 {
          iva := iva + CreditOrDebit(i);
        } else if i.code == 0 {
          exento := exento + CreditOrDebit(i);
        } else {
          otros := otros + CreditOrDebit(i);
        }
      }
      k := k + 1;
    }
    assert imps.order[..k] == imps.order;
    r := MoveTaxTotals(iva, exento, otros, amount - otros - exento - iva);
  }

  function Merged(order: seq<int>, byId: map<int, Imp>): real
  {
    if order == [] then 0.0
    else
      var k := order[|order| - 1];
      Merged(order[..|order| - 1], byId) + (if k in byId then CreditOrDebit(byId[k]) else 0.0)
  }

  /** Lemma: every merged tax lands in exactly one of the three buckets. */
  lemma {:induction false} SplitPartitions(order: seq<int>, byId: map<int, Imp>)
    ensures var b := Split(order, byId);
      b.iva + b.exento + b.otrosImps == Merged(order, byId)
  {
    if order != [] {
      SplitPartitions(order[..|order| - 1], byId);
    }
  }

  /** Lemma: the net amount is what is left of the entry's amount after
      all merged taxes. */
  lemma NetoIsAmountLessTaxes(amount: real, lines: seq<JournalLine>)
    ensures var imps := MoveImps(lines);
      TotalesPorMovimientoSpec(amount, lines).neto == amount - Merged(imps.order, imps.byId)
  {
    var imps := MoveImps(lines);
    SplitPartitions(imps.order, imps.byId);
  }

  /** A line of the entry as _totales reads it: the code and rate of the
      tax it is the line of (if any), its balance, and the codes of the
      taxes applied to it. */
  datatype TotalsLine = TotalsLine(taxLineCode: Option<int>, taxLineRate: real, balance: real, taxCodes: seq<int>)

  predicate IsIvaLine(t: TotalsLine)
  {
    t.taxLineCode == Some(14) || t.taxLineCode == Some(15)
  }

  /** A line's balance, once per tax applied to it whose code is wanted. */
  function PerTax(balance: real, codes: seq<int>, wanted: set<int>): real
  {
    if codes == [] then 0.0
    else PerTax(balance, codes[..|codes| - 1], wanted) + (if codes[|codes| - 1] in wanted then balance else 0.0)
  }

  datatype MoveScan = MoveScan(iva: Option<TotalsLine>, neto: real, base: real)

  /** The loop of _totales over the lines: the last IVA tax line, the
      balances of lines under IVA (once per IVA tax) and under code 17. */
  function ScanSpec(lines: seq<TotalsLine>): (r: MoveScan)
    ensures r.iva.None? <==> forall i :: 0 <= i < |lines| ==> !IsIvaLine(lines[i])
    ensures r.iva.Some? ==> IsIvaLine(r.iva.value) && r.iva.value in lines
  {
    if lines == [] then MoveScan(None, 0.0, 0.0)
    else
      var n := |lines| - 1;
      var s := ScanSpec(lines[..n]);
      var t := lines[n];
      assert forall i :: 0 <= i < n ==> lines[..n][i] == lines[i];
      MoveScan(if IsIvaLine(t) then Some(t) else s.iva,
               s.neto + PerTax(t.balance, t.taxCodes, {14, 15}),
               s.base + PerTax(t.balance, t.taxCodes, {17}))
  }

  method ScanLines(lines: seq<TotalsLine>) returns (r: MoveScan)
    ensures r == ScanSpec(lines)
  {
    var iva: Option<TotalsLine> := None;
    var mntNeto, mntBase := 0.0, 0.0;
    var i := 0;
    while i < |lines|
      invariant 0 <= i <= |lines|
      invariant ScanSpec(lines[..i]) == MoveScan(iva, mntNeto, mntBase)
    {
      assert lines[..i + 1][..i] == lines[..i];
      var t := lines[i];
      if IsIvaLine(t) {
        iva := Some(t);
      }
      var j := 0;
      while j < |t.taxCodes|
        invariant 0 <= j <= |t.taxCodes|
        invariant mntNeto == ScanSpec(lines[..i]).neto + PerTax(t.balance, t.taxCodes[..j], {14, 15})
        invariant mntBase == ScanSpec(lines[..i]).base + PerTax(t.balance, t.taxCodes[..j], {17})
      {
        assert t.taxCodes[..j + 1][..j] == t.taxCodes[..j];
        if t.taxCodes[j] in {14, 15} {
          mntNeto := mntNeto + t.balance;
        }
        if t.taxCodes[j] in {17} {
          mntBase := mntBase + t.balance;
        }
        j := j + 1;
      }
      assert t.taxCodes[..j] == t.taxCodes;
      i := i + 1;
    }
    assert lines[..i] == lines;
    r := MoveScan(iva, mntNeto, mntBase);
  }

  /** The entry as _totales reads it; `entryOrOutbound` is a journal entry
      or an outbound document (the sign +1). */
  datatype MoveTotalesInput = MoveTotalesInput(
    exento: bool, amountTotal: real, amountTax: real, amountUntaxed: real,
    lines: seq<TotalsLine>, mntExe: real, noProduct: bool, entryOrOutbound: bool)

  /** _totales of a journal entry. */
  function MoveTotalesSpec(d: MoveTotalesInput): Result<Invoice.Totales>
  {
    var sign := if d.entryOrOutbound then 1.0 else -1.0;
    var exe := if d.exento then (if d.noProduct then 0.0 else d.amountTotal) else d.mntExe;
    if d.exento && d.amountTax > 0.0 then Err(UserError(Invoice.AfectoEnExento))
    else
      var s := if !d.exento && d.amountUntaxed != 0.0 then ScanSpec(d.lines) else MoveScan(None, 0.0, 0.0);
      if d.amountTax == 0.0 && exe > 0.0 && !d.exento then Err(UserError(Invoice.SinAfecto))
      else
        var tasa := if s.iva.Some? then Some(PyRound(s.iva.value.taxLineRate, 2)) else None;
        var iva := if s.iva.Some? then s.iva.value.balance else 0.0;
        if d.noProduct then Ok(Invoice.Totales(exe, 0.0, 0.0, Some(0.0), 0.0, sign * s.base))
        else Ok(Invoice.Totales(exe, sign * s.neto, sign * iva, tasa, d.amountTotal, sign * s.base))
  }

  method MoveTotales(d: MoveTotalesInput) returns (r: Result<Invoice.Totales>)
    ensures r == MoveTotalesSpec(d)
  {
    var sign := if d.entryOrOutbound then 1.0 else -1.0;
    var mntNeto, mntBase := 0.0, 0.0;
    var iva: Option<TotalsLine> := None;
    var mntExe := d.mntExe;
    if d.exento {
      mntExe := d.amountTotal;
      if d.noProduct {
        mntExe := 0.0;
      }
      if d.amountTax > 0.0 {
        return Err(UserError(Invoice.AfectoEnExento));
      }
    } else if d.amountUntaxed != 0.0 {
      var s := ScanLines(d.lines);
      iva, mntNeto, mntBase := s.iva, s.neto, s.base;
    }
    if d.amountTax == 0.0 && mntExe > 0.0 && !d.exento {
      return Err(UserError(Invoice.SinAfecto));
    }
    var tasaIva: Option<real> := None;
    var mntIva := 0.0;
    if iva.Some? {
      tasaIva := Some(PyRound(iva.value.taxLineRate, 2));
      mntIva := iva.value.balance;
    }
    var mntTotal := d.amountTotal;
    if d.noProduct {
      mntNeto, tasaIva, mntIva, mntTotal := 0.0, Some(0.0), 0.0, 0.0;
    }
    r := Ok(Invoice.Totales(mntExe, sign * mntNeto, sign * mntIva, tasaIva, mntTotal, sign * mntBase));
  }

  /** Lemma: the sign of the entry flips the net, the IVA and the base and
      nothing else; the refusals do not depend on it. */
  lemma SignFlipsNetIvaBase(d: MoveTotalesInput)
    ensures var pos := MoveTotalesSpec(d.(entryOrOutbound := true));
      var neg := MoveTotalesSpec(d.(entryOrOutbound := false));
      pos.Ok? == neg.Ok?
      && (pos.Ok? ==>
            neg.value.mntNeto == -pos.value.mntNeto && neg.value.mntIva == -pos.value.mntIva
            && neg.value.mntBase == -pos.value.mntBase && neg.value.mntExe == pos.value.mntExe
            && neg.value.tasaIva == pos.value.tasaIva && neg.value.mntTotal == pos.value.mntTotal)
  {
  }

  /** Lemma: a line carrying both IVA codes counts twice in the net. */
  lemma NetCountsEachIvaTax(t: TotalsLine)
    requires t.taxCodes == [14, 15]
    ensures ScanSpec([t]).neto == 2.0 * t.balance
  {
    assert [t][..0] == [];
    assert t.taxCodes[..1] == [14];
    assert [14][..0] == [];
    assert PerTax(t.balance, [14], {14, 15}) == t.balance;
    assert PerTax(t.balance, t.taxCodes, {14, 15}) == 2.0 * t.balance;
    assert ScanSpec([t]).neto == ScanSpec([]).neto + PerTax(t.balance, t.taxCodes, {14, 15});
  }
}
