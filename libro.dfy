/** The purchase and sales book (account.move.book): the taxes of its
    moves merged by tax, its name, the boleta summary lines (count and
    totals) and the sign of its tax lines. */
module Libro {
  import opened Common
  import Move

  /** Adds one move's merged taxes into the book's. */
  function MergeOne(acc: Move.Imps, m: Move.Imps): Move.Imps
  {
    MergeKeys(acc, m, |m.order|)
  }

  /** The first k keys of a move, in their order. */
  function MergeKeys(acc: Move.Imps, m: Move.Imps, k: nat): Move.Imps
    requires k <= |m.order|
  {
    if k == 0 then acc
    else
      var prev := MergeKeys(acc, m, k - 1);
      var key := m.order[k - 1];
      if key !in m.byId then prev
      else
        var i := m.byId[key];
        if key !in prev.byId then Move.Imps(prev.byId[key := i], prev.order + [key])
        else
          var j := prev.byId[key];
          Move.Imps(prev.byId[key := j.(credit := j.credit + i.credit, debit := j.debit + i.debit)], prev.order)
  }

  /** _get_imps: the merged taxes of all the book's moves. */
  function BookImps(moves: seq<Move.Imps>): Move.Imps
  {
    if moves == [] then Move.Imps(map[], [])
    else MergeOne(BookImps(moves[..|moves| - 1]), moves[|moves| - 1])
  }

  /** _get_imps, as the nested loop it is. */
  method GetImps(moves: seq<Move.Imps>) returns (imp: Move.Imps)
    ensures imp == BookImps(moves)
  {
    imp := Move.Imps(map[], []);
    var n := 0;
    while n < |moves|
      invariant 0 <= n <= |moves|
      invariant imp == BookImps(moves[..n])
    {
      assert moves[..n + 1][..n] == moves[..n];
      var m := moves[n];
      ghost var start := imp;
      var k := 0;
      while k < |m.order|
        invariant 0 <= k <= |m.order|
        invariant imp == MergeKeys(start, m, k)
      {
        var key := m.order[k];
        if key in m.byId {
          var i := m.byId[key];
          if key !in imp.byId {
            imp := Move.Imps(imp.byId[key := i], imp.order + [key]);
          } else {
            var j := imp.byId[key];
            imp := Move.Imps(imp.byId[key := j.(credit := j.credit + i.credit, debit := j.debit + i.debit)], imp.order);
          }
        }
        k := k + 1;
      }
      n := n + 1;
    }
    assert moves[..n] == moves;
  }

  /** A move's credit (or debit) for a tax: 0 when it has none. */
  function CreditIn(m: Move.Imps, key: int): real
  {
    if key in m.byId then m.byId[key].credit else 0.0
  }

  function DebitIn(m: Move.Imps, key: int): real
  {
    if key in m.byId then m.byId[key].debit else 0.0
  }

  /** The keys of a move are distinct and each is a key of its map. */
  ghost predicate WellFormed(m: Move.Imps)
  {
    (forall key :: key in m.byId <==> key in m.order)
    && (forall a, b :: 0 <= a < b < |m.order| ==> m.order[a] != m.order[b])
  }

  lemma {:induction false} MergeKeysSums(acc: Move.Imps, m: Move.Imps, k: nat)
    requires k <= |m.order| && WellFormed(m)
    requires forall key :: key in acc.byId <==> key in acc.order
    ensures forall key :: key in MergeKeys(acc, m, k).byId <==> key in MergeKeys(acc, m, k).order
    ensures forall key :: key in MergeKeys(acc, m, k).byId <==> key in acc.byId || key in m.order[..k]
    ensures forall key :: key in MergeKeys(acc, m, k).byId ==>
              MergeKeys(acc, m, k).byId[key].credit == CreditIn(acc, key) + (if key in m.order[..k] then CreditIn(m, key) else 0.0)
              && MergeKeys(acc, m, k).byId[key].debit == DebitIn(acc, key) + (if key in m.order[..k] then DebitIn(m, key) else 0.0)
  {
    if k > 0 {
      MergeKeysSums(acc, m, k - 1);
      var key := m.order[k - 1];
      assert m.order[..k] == m.order[..k - 1] + [key];
      var pre := m.order[..k - 1];
      assert key !in pre by {
        forall a | 0 <= a < |pre| ensures pre[a] != key {
          assert pre[a] == m.order[a];
        }
      }
    }
  }

  /** The credits (or debits) of all moves for one tax. */
  function CreditSum(moves: seq<Move.Imps>, key: int): real
  {
    if moves == [] then 0.0 else CreditSum(moves[..|moves| - 1], key) + CreditIn(moves[|moves| - 1], key)
  }

  function DebitSum(moves: seq<Move.Imps>, key: int): real
  {
    if moves == [] then 0.0 else DebitSum(moves[..|moves| - 1], key) + DebitIn(moves[|moves| - 1], key)
  }

  /** What the book holds for one tax: it is present exactly when it is in
      the order and exactly when some move has it, and its credit and debit
      are the sums of the moves' (nothing for an absent tax). */
  ghost predicate InBook(moves: seq<Move.Imps>, r: Move.Imps, key: int)
  {
    (key in r.byId <==> key in r.order)
    && (key in r.byId <==> exists n :: 0 <= n < |moves| && key in moves[n].byId)
    && (key in r.byId ==> r.byId[key].credit == CreditSum(moves, key) && r.byId[key].debit == DebitSum(moves, key))
    && (key !in r.byId ==> CreditSum(moves, key) == 0.0 && DebitSum(moves, key) == 0.0)
  }

  /** Lemma: in the book, each tax's credit and debit are the sums of the
      moves' credits and debits for that tax, and a tax is present exactly
      when some move has it. */
  lemma {:induction false} BookImpsSums(moves: seq<Move.Imps>)
    requires forall n :: 0 <= n < |moves| ==> WellFormed(moves[n])
    ensures forall key :: InBook(moves, BookImps(moves), key)
  {
    if moves != [] {
      var n := |moves| - 1;
      var prev := BookImps(moves[..n]);
      var m := moves[n];
      BookImpsSums(moves[..n]);
      forall key
        ensures key in prev.byId <==> key in prev.order
      {
        assert InBook(moves[..n], prev, key);
      }
      MergeKeysSums(prev, m, |m.order|);
      forall key
        ensures InBook(moves, BookImps(moves), key)
      {
        BookStep(moves, prev, key);
      }
    }
  }

  /** One more move keeps InBook for a tax. */
  lemma BookStep(moves: seq<Move.Imps>, prev: Move.Imps, key: int)
    requires moves != [] && WellFormed(moves[|moves| - 1])
    requires InBook(moves[..|moves| - 1], prev, key)
    requires var m := moves[|moves| - 1];
      var r := MergeKeys(prev, m, |m.order|);
      (key in r.byId <==> key in r.order)
      && (key in r.byId <==> key in prev.byId || key in m.order[..|m.order|])
      && (key in r.byId ==>
            r.byId[key].credit == CreditIn(prev, key) + (if key in m.order[..|m.order|] then CreditIn(m, key) else 0.0)
            && r.byId[key].debit == DebitIn(prev, key) + (if key in m.order[..|m.order|] then DebitIn(m, key) else 0.0))
    ensures InBook(moves, MergeKeys(prev, moves[|moves| - 1], |moves[|moves| - 1].order|), key)
  {
    var n := |moves| - 1;
    var m := moves[n];
    assert m.order[..|m.order|] == m.order;
    assert forall i :: 0 <= i < n ==> moves[..n][i] == moves[i];
    if key in m.byId {
      assert key in moves[n].byId;
    } else {
      assert (exists i :: 0 <= i < |moves| && key in moves[i].byId)
          <==> (exists i :: 0 <= i < n && key in moves[..n][i].byId);
    }
  }

  /** Lemma: _get_move_imps lists each of its taxes once. */
  lemma {:induction false} MoveImpsWellFormed(lines: seq<Move.JournalLine>)
    ensures WellFormed(Move.MoveImps(lines))
  {
    if lines != [] {
      var n := |lines| - 1;
      var prev := Move.MoveImps(lines[..n]);
      MoveImpsWellFormed(lines[..n]);
      var r := Move.MoveImps(lines);
      assert r == Move.AddLine(prev, lines[n]);
      match Move.KeyOf(lines[n])
      case None =>
      case Some(t) =>
        if t.id !in prev.byId {
          assert r.order == prev.order + [t.id];
          forall a, b | 0 <= a < b < |r.order| ensures r.order[a] != r.order[b] {
            if b == |prev.order| {
              assert prev.order[a] in prev.order;
            }
          }
        }
    }
  }

  /** Lemma: a book tax sums the journal lines of every move merged under
      it, credits and debits apart, and a tax no line carries is absent. */
  lemma BookImpsOfLines(lines: seq<seq<Move.JournalLine>>, key: int)
    ensures var moves := seq(|lines|, n requires 0 <= n < |lines| => Move.MoveImps(lines[n]));
      var r := BookImps(moves);
      (key in r.byId ==> r.byId[key].credit == CreditFromLines(lines, key) && r.byId[key].debit == DebitFromLines(lines, key))
      && (key !in r.byId ==> CreditFromLines(lines, key) == 0.0 && DebitFromLines(lines, key) == 0.0)
  {
    var moves := seq(|lines|, n requires 0 <= n < |lines| => Move.MoveImps(lines[n]));
    forall n | 0 <= n < |moves| ensures WellFormed(moves[n]) {
      MoveImpsWellFormed(lines[n]);
    }
    BookImpsSums(moves);
    assert InBook(moves, BookImps(moves), key);
    SumsOfLines(lines, key);
  }

  /** The credits (or debits) of every move's lines keyed to a tax. */
  function CreditFromLines(lines: seq<seq<Move.JournalLine>>, key: int): real
  {
    if lines == [] then 0.0 else CreditFromLines(lines[..|lines| - 1], key) + Move.CreditOf(lines[|lines| - 1], key)
  }

  function DebitFromLines(lines: seq<seq<Move.JournalLine>>, key: int): real
  {
    if lines == [] then 0.0 else DebitFromLines(lines[..|lines| - 1], key) + Move.DebitOf(lines[|lines| - 1], key)
  }

  lemma {:induction false} SumsOfLines(lines: seq<seq<Move.JournalLine>>, key: int)
    ensures var moves := seq(|lines|, n requires 0 <= n < |lines| => Move.MoveImps(lines[n]));
      CreditSum(moves, key) == CreditFromLines(lines, key) && DebitSum(moves, key) == DebitFromLines(lines, key)
  {
    if lines != [] {
      var n := |lines| - 1;
      var moves := seq(|lines|, i requires 0 <= i < |lines| => Move.MoveImps(lines[i]));
      assert moves[..n] == seq(n, i requires 0 <= i < n => Move.MoveImps(lines[..n][i]));
      SumsOfLines(lines[..n], key);
      Move.MoveImpsMerge(lines[n]);
      assert Move.MergedFor(lines[n], moves[n], key);
    }
  }

  /** The book's name: the operation, then the period when there is one. */
  function BookName(tipoOperacion: string, periodo: string): string
  {
    if periodo != "" then tipoOperacion + " " + periodo else tipoOperacion
  }

  /** Lemma: for operations without blanks (COMPRA, VENTA, BOLETA, …) the
      name gives back the operation and the period. */
  lemma BookNameParts(t1: string, p1: string, t2: string, p2: string)
    requires ' ' !in t1 && ' ' !in t2
    requires BookName(t1, p1) == BookName(t2, p2)
    ensures t1 == t2 && p1 == p2
  {
    var n := BookName(t1, p1);
    if p1 != "" && p2 != "" {
      BlankEnds(t1, p1);
      BlankEnds(t2, p2);
      assert t1 == n[..|t1|] == t2;
      assert p1 == n[|t1| + 1..] == p2;
    } else if p1 != "" {
      BlankEnds(t1, p1);
    } else if p2 != "" {
      BlankEnds(t2, p2);
    }
  }

  /** The first blank of a name with a period ends the operation. */
  lemma BlankEnds(t: string, p: string)
    requires ' ' !in t && p != ""
    ensures var n := BookName(t, p);
      |t| < |n| && n[|t|] == ' ' && ' ' !in n[..|t|] && t == n[..|t|] && p == n[|t| + 1..]
  {
  }

  class Book {
    var name: string
    var tipoOperacion: string
    var periodoTributario: string

    constructor(tipoOperacion: string, periodoTributario: string)
      ensures this.tipoOperacion == tipoOperacion && this.periodoTributario == periodoTributario
      ensures name == tipoOperacion
    {
      this.tipoOperacion := tipoOperacion;
      this.periodoTributario := periodoTributario;
      this.name := tipoOperacion;
    }

    /** _setName. */
    method SetName()
      modifies this
      ensures name == BookName(tipoOperacion, periodoTributario)
      ensures tipoOperacion == old(tipoOperacion) && periodoTributario == old(periodoTributario)
    {
      name := tipoOperacion;
      if periodoTributario != "" {
        name := name + " " + periodoTributario;
      }
    }
  }

  /** A boleta summary line; a range bound of 0 is unset. `taxRate` is
      None without a tax. */
  class Boletas {
    var rangoInicial: int
    var rangoFinal: int
    var cantidadBoletas: int
    var neto: real
    var taxRate: Option<real>
    var montoImpuesto: real
    var montoTotal: real

    constructor(rangoInicial: int, rangoFinal: int, neto: real, taxRate: Option<real>)
      ensures this.rangoInicial == rangoInicial && this.rangoFinal == rangoFinal
      ensures this.neto == neto && this.taxRate == taxRate
      ensures cantidadBoletas == 0 && montoImpuesto == 0.0 && montoTotal == 0.0
    {
      this.rangoInicial := rangoInicial;
      this.rangoFinal := rangoFinal;
      this.neto := neto;
      this.taxRate := taxRate;
      cantidadBoletas := 0;
      montoImpuesto := 0.0;
      montoTotal := 0.0;
    }

    /** _monto_total: the tax only for a positive rate (the stored tax
        amount is left as it was otherwise); the total is net plus tax. */
    method MontoTotal()
      modifies this
      ensures montoTotal == neto + TaxOf(neto, taxRate)
      ensures montoImpuesto == (if taxRate.Some? && taxRate.value > 0.0 then TaxOf(neto, taxRate) else old(montoImpuesto))
      ensures rangoInicial == old(rangoInicial) && rangoFinal == old(rangoFinal) && cantidadBoletas == old(cantidadBoletas)
      ensures neto == old(neto) && taxRate == old(taxRate)
    {
      var monto := 0.0;
      if taxRate.Some? && taxRate.value > 0.0 {
        monto := neto * (taxRate.value / 100.0);
        montoImpuesto := monto;
      }
      montoTotal := neto + monto;
    }

    /** get_cantidad: nothing when a bound is unset, an error for a
        reversed range, the number of folios otherwise. */
    method GetCantidad() returns (r: Result<()>)
      modifies this
      ensures r.Err? <==> rangoInicial != 0 && rangoFinal != 0 && rangoFinal < rangoInicial
      ensures cantidadBoletas == (if rangoInicial != 0 && rangoFinal != 0 && rangoFinal >= rangoInicial
                                  then rangoFinal - rangoInicial + 1 else old(cantidadBoletas))
      ensures rangoInicial == old(rangoInicial) && rangoFinal == old(rangoFinal)
      ensures neto == old(neto) && taxRate == old(taxRate)
      ensures montoImpuesto == old(montoImpuesto) && montoTotal == old(montoTotal)
    {
      if rangoInicial == 0 || rangoFinal == 0 {
        return Ok(());
      }
      if rangoFinal < rangoInicial {
        return Err(UserError("¡El rango Final no puede ser menor al inicial"));
      }
      cantidadBoletas := rangoFinal - rangoInicial + 1;
      r := Ok(());
    }
  }

  /** The tax of a boleta line: net times the rate, for a positive rate. */
  function TaxOf(neto: real, taxRate: Option<real>): real
  {
    if taxRate.Some? && taxRate.value > 0.0 then neto * (taxRate.value / 100.0) else 0.0
  }

  /** Lemma: with a positive rate the total is the net grossed up by the
      rate; otherwise it is the net. */
  lemma TotalGrossesUpNet(neto: real, taxRate: Option<real>)
    ensures neto + TaxOf(neto, taxRate)
      == (if taxRate.Some? && taxRate.value > 0.0 then neto * (1.0 + taxRate.value / 100.0) else neto)
  {
  }

  /** The folios of a range. */
  function Folios(a: int, b: int): set<int>
    decreases b - a
  {
    if b < a then {} else Folios(a, b - 1) + {b}
  }

  /** Lemma: the folios of a range are the numbers between its bounds. */
  lemma {:induction false} FoliosBetween(a: int, b: int, i: int)
    ensures i in Folios(a, b) <==> a <= i <= b
    decreases b - a
  {
    if a <= b {
      FoliosBetween(a, b - 1, i);
    }
  }

  /** Lemma: the count get_cantidad stores is the number of folios in the
      range. */
  lemma {:induction false} CantidadCountsFolios(a: int, b: int)
    requires a <= b
    ensures |Folios(a, b)| == b - a + 1
    decreases b - a
  {
    if a < b {
      CantidadCountsFolios(a, b - 1);
      FoliosBetween(a, b - 1, b);
    }
  }

  /** The amount of a book tax line: debit less credit, reversed for the
      sales book. */
  function Monto(credit: real, debit: real, venta: bool): real
  {
    if venta then credit - debit else debit - credit
  }

  /** Lemma: the sales book shows the same tax with the opposite sign. */
  lemma VentaReversesSign(credit: real, debit: real)
    ensures Monto(credit, debit, true) == -Monto(credit, debit, false)
  {
  }

  class ImpuestoLibro {
    var credit: real
    var debit: real
    var amount: real
    var venta: bool   // the book's operation is VENTA

    constructor(credit: real, debit: real, venta: bool)
      ensures this.credit == credit && this.debit == debit && this.venta == venta && amount == 0.0
    {
      this.credit := credit;
      this.debit := debit;
      this.venta := venta;
      amount := 0.0;
    }

    /** get_monto. */
    method GetMonto()
      modifies this
      ensures amount == Monto(credit, debit, venta)
      ensures credit == old(credit) && debit == old(debit) && venta == old(venta)
    {
      amount := debit - credit;
      if venta {
        amount := credit - debit;
      }
    }
  }
}
