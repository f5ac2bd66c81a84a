/** The CAF queries of a document sequence (ir.sequence): the CAFs still
    usable from a folio on, the CAF that authorises one folio, the number of
    folios left, and moving the next number up to the first CAF. */
module IrSequence {
  import opened Common
  import CafFile

  /** A loaded CAF as the sequence sees it. */
  datatype Caf = Caf(id: int, startNm: int, finalNm: int, expirationDate: Option<CafFile.Date>)

  function StartKey(c: Caf): int
  {
    c.startNm
  }

  predicate SortedByStart(s: seq<Caf>)
  {
    SortedBy(s, StartKey)
  }

  /** sorted(cafs, key=lambda e: e.start_nm). */
  function SortByStart(s: seq<Caf>): (r: seq<Caf>)
    ensures multiset(r) == multiset(s) && |r| == |s|
  {
    SortBy(s, StartKey)
  }

  /** The CAFs whose range does not end before the folio, in order. */
  function NotEndedBefore(s: seq<Caf>, folio: int): (r: seq<Caf>)
    ensures forall c :: c in r <==> c in s && folio <= c.finalNm
  {
    if s == [] then []
    else
      var last := s[|s| - 1];
      assert forall c :: c in s <==> c in s[..|s| - 1] || c == last;
      NotEndedBefore(s[..|s| - 1], folio) + (if folio <= last.finalNm then [last] else [])
  }

  lemma {:induction false} NotEndedBeforeSorted(s: seq<Caf>, folio: int)
    requires SortedByStart(s)
    ensures SortedByStart(NotEndedBefore(s, folio))
  {
    if s != [] {
      var init := s[..|s| - 1];
      NotEndedBeforeSorted(init, folio);
      var r := NotEndedBefore(init, folio);
      forall c | c in r
        ensures c.startNm <= s[|s| - 1].startNm
      {
        var k :| 0 <= k < |init| && init[k] == c;
      }
    }
  }

  /** `folio or self._get_folio()`: a missing or zero folio means the
      sequence's next number. */
  function Effective(folio: Option<int>, numberNextActual: int): int
  {
    if folio.Some? && folio.value != 0 then folio.value else numberNextActual
  }

  const NoCafs := "No hay CAFs disponibles para la secuencia"
  const NoCafForDocument := "No hay caf disponible para el documento"

  /** get_caf_files: no CAF at all is an error; None stands for False (none
      reaches the folio). */
  function CafFilesSpec(cafs: seq<Caf>, folio: int): Result<Option<seq<Caf>>>
  {
    if cafs == [] then Err(UserError(NoCafs))
    else
      var r := NotEndedBefore(SortByStart(cafs), folio);
      if r == [] then Ok(None) else Ok(Some(r))
  }

  /** Lemma: the list get_caf_files returns is sorted by start and holds
      exactly the CAFs that end at or after the folio; it is False exactly
      when there is no such CAF. */
  lemma CafFilesCorrect(cafs: seq<Caf>, folio: int)
    requires cafs != []
    ensures CafFilesSpec(cafs, folio).Ok?
    ensures CafFilesSpec(cafs, folio).value.None? <==> forall c :: c in cafs ==> c.finalNm < folio
    ensures CafFilesSpec(cafs, folio).value.Some? ==>
      var r := CafFilesSpec(cafs, folio).value.value;
      SortedByStart(r) && forall c :: c in r <==> c in cafs && folio <= c.finalNm
  {
    var sorted := SortByStart(cafs);
    SortBySorted(cafs, StartKey);
    NotEndedBeforeSorted(sorted, folio);
    SortBySameElements(cafs, StartKey);
    var r := NotEndedBefore(sorted, folio);
    if r == [] {
      assert forall c :: c in cafs ==> c.finalNm < folio;
    } else {
      assert r[0] in cafs;
    }
  }

  /** One covering CAF is usable unless it has an expiration date already
      passed. */
  predicate Covers(c: Caf, folio: int)
  {
    c.startNm <= folio <= c.finalNm
  }

  predicate Expired(c: Caf, today: CafFile.Date)
  {
    c.expirationDate.Some? && CafFile.Before(c.expirationDate.value, today)
  }

  /** The error message of get_caf_file, prefixed once per expired CAF that
      covers the folio. */
  function OutOfRange(folio: int): string
  {
    "No Hay caf para el documento: " + IntToString(folio) + ", está fuera de rango . Solicite un nuevo CAF en el sitio www.sii.cl"
  }

  function Prefixed(k: nat, msg: string): string
  {
    if k == 0 then msg else "CAF Vencido. " + Prefixed(k - 1, msg)
  }

  /** The scan of get_caf_file from position i: the first usable covering
      CAF, or the error with the expired ones counted. */
  function FirstUsable(r: seq<Caf>, folio: int, today: CafFile.Date, i: nat, expired: nat): (res: Result<Caf>)
    requires i <= |r|
    ensures res.Ok? ==> res.value in r[i..] && Covers(res.value, folio) && !Expired(res.value, today)
    decreases |r| - i
  {
    if i == |r| then Err(UserError(Prefixed(expired, OutOfRange(folio))))
    else if Covers(r[i], folio) then
      if Expired(r[i], today) then FirstUsable(r, folio, today, i + 1, expired + 1)
      else Ok(r[i])
    else FirstUsable(r, folio, today, i + 1, expired)
  }

  function CafFileSpec(cafs: seq<Caf>, folio: int, today: CafFile.Date): Result<Caf>
  {
    match CafFilesSpec(cafs, folio)
    case Err(e) => Err(e)
    case Ok(None) => Err(UserError(NoCafForDocument))
    case Ok(Some(r)) => FirstUsable(r, folio, today, 0, 0)
  }

  /** Lemma: the CAF chosen for a folio covers it, has not expired, and no
      usable covering CAF starts earlier. */
  lemma CafFileIsFirstUsable(cafs: seq<Caf>, folio: int, today: CafFile.Date)
    requires CafFileSpec(cafs, folio, today).Ok?
    ensures var c := CafFileSpec(cafs, folio, today).value;
      c in cafs && Covers(c, folio) && !Expired(c, today)
      && forall d :: d in cafs && Covers(d, folio) && !Expired(d, today) ==> c.startNm <= d.startNm
  {
    CafFilesCorrect(cafs, folio);
    var r := CafFilesSpec(cafs, folio).value.value;
    FirstUsableIsFirst(r, folio, today, 0, 0);
  }

  lemma {:induction false} FirstUsableIsFirst(r: seq<Caf>, folio: int, today: CafFile.Date, i: nat, expired: nat)
    requires i <= |r| && SortedByStart(r)
    requires FirstUsable(r, folio, today, i, expired).Ok?
    ensures var c := FirstUsable(r, folio, today, i, expired).value;
      forall k :: i <= k < |r| && Covers(r[k], folio) && !Expired(r[k], today) ==> c.startNm <= r[k].startNm
    decreases |r| - i
  {
    if Covers(r[i], folio) && !Expired(r[i], today) {
    } else {
      FirstUsableIsFirst(r, folio, today, i + 1, if Covers(r[i], folio) then expired + 1 else expired);
    }
  }

  /** The folios a CAF still offers from the folio on, as get_qty_available
      counts them. */
  function Offered(c: Caf, folio: int): int
  {
    var final := c.finalNm + 1;
    if folio >= c.startNm && folio < final then final - folio
    else if folio < final then final - c.startNm
    else 0
  }

  function OfferedSum(r: seq<Caf>, folio: int): int
  {
    if r == [] then 0 else OfferedSum(r[..|r| - 1], folio) + Offered(r[|r| - 1], folio)
  }

  /** get_qty_available: an error from get_caf_files, like False, counts as
      no CAF at all. */
  function QtySpec(cafs: seq<Caf>, folio: int): int
  {
    match CafFilesSpec(cafs, folio)
    case Ok(Some(r)) => OfferedSum(r, folio)
    case _ => 0
  }

  predicate WellFormed(cafs: seq<Caf>)
  {
    forall c :: c in cafs ==> c.startNm <= c.finalNm + 1
  }

  lemma {:induction false} OfferedSumNonNegative(r: seq<Caf>, folio: int)
    requires WellFormed(r)
    ensures OfferedSum(r, folio) >= 0
  {
    if r != [] {
      assert forall c :: c in r[..|r| - 1] ==> c in r;
      OfferedSumNonNegative(r[..|r| - 1], folio);
    }
  }

  /** Lemma: with well-formed ranges the count is never negative, and it is
      zero without CAFs. */
  lemma QtyNonNegative(cafs: seq<Caf>, folio: int)
    requires WellFormed(cafs)
    ensures QtySpec(cafs, folio) >= 0
    ensures cafs == [] ==> QtySpec(cafs, folio) == 0
  {
    if cafs != [] {
      CafFilesCorrect(cafs, folio);
      var r := NotEndedBefore(SortByStart(cafs), folio);
      assert forall c :: c in r ==> c in cafs;
      OfferedSumNonNegative(r, folio);
    }
  }

  /** Lemma: a CAF holding the folio offers final + 1 - folio, a later one
      its whole range final + 1 - start. */
  lemma OfferedCases(c: Caf, folio: int)
    requires folio <= c.finalNm
    ensures Covers(c, folio) ==> Offered(c, folio) == c.finalNm + 1 - folio
    ensures folio < c.startNm ==> Offered(c, folio) == c.finalNm + 1 - c.startNm
  {
  }

  /** The CAF update_next_by_caf moves to: the first one with the lowest
      start. */
  function Lowest(r: seq<Caf>): (c: Caf)
    requires r != []
    ensures c in r && forall d :: d in r ==> c.startNm <= d.startNm
  {
    if |r| == 1 then r[0]
    else
      var m := Lowest(r[..|r| - 1]);
      assert forall d :: d in r ==> d in r[..|r| - 1] || d == r[|r| - 1];
      if r[|r| - 1].startNm < m.startNm then r[|r| - 1] else m
  }

  /** The scan of update_next_by_caf for the CAF with the lowest start. */
  method FindLowest(cafs: seq<Caf>) returns (menor: Caf)
    requires cafs != []
    ensures menor == Lowest(cafs)
  {
    menor := cafs[0];
    var i := 1;
    while i < |cafs|
      invariant 1 <= i <= |cafs|
      invariant menor == Lowest(cafs[..i])
    {
      assert cafs[..i + 1][..i] == cafs[..i];
      if cafs[i].startNm < menor.startNm {
        menor := cafs[i];
      }
      i := i + 1;
    }
    assert cafs[..i] == cafs;
  }

  lemma LowestOfSorted(r: seq<Caf>)
    requires r != [] && SortedByStart(r)
    ensures Lowest(r).startNm == r[0].startNm
  {
  }

  class Sequence {
    var dteCafIds: seq<Caf>
    var numberNext: int
    var numberNextActual: int
    var nivelMinimo: int

    constructor (cafs: seq<Caf>, numberNext: int, numberNextActual: int)
      ensures dteCafIds == cafs && this.numberNext == numberNext
      ensures this.numberNextActual == numberNextActual && nivelMinimo == 5
    {
      dteCafIds := cafs;
      this.numberNext := numberNext;
      this.numberNextActual := numberNextActual;
      nivelMinimo := 5;
    }

    /** get_caf_files: the loop that keeps the sorted CAFs not ended before
        the folio. */
    method GetCafFiles(folio: Option<int>) returns (r: Result<Option<seq<Caf>>>)
      ensures r == CafFilesSpec(dteCafIds, Effective(folio, numberNextActual))
    {
      var f := Effective(folio, numberNextActual);
      if dteCafIds == [] {
        return Err(UserError(NoCafs));
      }
      var cafs := SortByStart(dteCafIds);
      var result := [];
      var i := 0;
      while i < |cafs|
        invariant 0 <= i <= |cafs|
        invariant result == NotEndedBefore(cafs[..i], f)
      {
        assert cafs[..i + 1][..i] == cafs[..i];
        if f <= cafs[i].finalNm {
          result := result + [cafs[i]];
        }
        i := i + 1;
      }
      assert cafs[..i] == cafs;
      if result != [] {
        return Ok(Some(result));
      }
      return Ok(None);
    }

    /** get_caf_file: the first covering CAF that has not expired. */
    method GetCafFile(folio: Option<int>, today: CafFile.Date) returns (r: Result<Caf>)
      ensures r == CafFileSpec(dteCafIds, Effective(folio, numberNextActual), today)
    {
      var f := Effective(folio, numberNextActual);
      var files := GetCafFiles(Some(f));
      assert Effective(Some(f), numberNextActual) == f;
      if files.Err? {
        return Err(files.error);
      }
      if files.value.None? {
        return Err(UserError(NoCafForDocument));
      }
      var caffiles := files.value.value;
      var expired := 0;
      var i := 0;
      while i < |caffiles|
        invariant 0 <= i <= |caffiles|
        invariant FirstUsable(caffiles, f, today, 0, 0) == FirstUsable(caffiles, f, today, i, expired)
      {
        if Covers(caffiles[i], f) {
          if Expired(caffiles[i], today) {
            expired := expired + 1;
            i := i + 1;
            continue;
          }
          return Ok(caffiles[i]);
        }
        i := i + 1;
      }
      r := Err(UserError(Prefixed(expired, OutOfRange(f))));
    }

    /** get_qty_available (the low-level alert on the bus is left out). */
    method GetQtyAvailable(folio: Option<int>) returns (available: int)
      ensures available == QtySpec(dteCafIds, Effective(folio, numberNextActual))
    {
      var f := Effective(folio, numberNextActual);
      var cafs := GetCafFiles(Some(f));
      assert Effective(Some(f), numberNextActual) == f;
      available := 0;
      if cafs.Ok? && cafs.value.Some? {
        var r := cafs.value.value;
        var i := 0;
        while i < |r|
          invariant 0 <= i <= |r|
          invariant available == OfferedSum(r[..i], f)
        {
          assert r[..i + 1][..i] == r[..i];
          var final := r[i].finalNm + 1;
          if f >= r[i].startNm && f < final {
            available := available + (final - f);
          } else if f < final {
            available := available + (final - r[i].startNm);
          }
          i := i + 1;
        }
        assert r[..i] == r;
      }
    }

    /** update_next_by_caf: the next number moves up to the lowest CAF start
        when the folio is below it, and never down. */
    method UpdateNextByCaf(folio: Option<int>) returns (r: Result<()>)
      modifies this
      ensures var f := old(Effective(folio, numberNextActual));
        match CafFilesSpec(old(dteCafIds), f)
        case Err(e) => r == Err(e) && numberNext == old(numberNext)
        case Ok(None) => r == Ok(()) && numberNext == old(numberNext)
        case Ok(Some(cs)) =>
          (r == Ok(()) && numberNext == (if f < Lowest(cs).startNm then Lowest(cs).startNm else old(numberNext)))
      ensures dteCafIds == old(dteCafIds) && numberNextActual == old(numberNextActual)
      ensures nivelMinimo == old(nivelMinimo)
    {
      var f := Effective(folio, numberNextActual);
      var files := GetCafFiles(Some(f));
      assert Effective(Some(f), numberNextActual) == f;
      if files.Err? {
        return Err(files.error);
      }
      if files.value.None? {
        return Ok(());
      }
      var menor := FindLowest(files.value.value);
      if f < menor.startNm {
        numberNext := menor.startNm;
      }
      r := Ok(());
    }
  }

  /** Lemma: after update_next_by_caf the next number is either unchanged or
      the lowest start of the CAFs still usable, which lies above the folio. */
  lemma UpdateNeverBelowFolio(cafs: seq<Caf>, folio: int, numberNext: int)
    requires CafFilesSpec(cafs, folio).Ok? && CafFilesSpec(cafs, folio).value.Some?
    ensures var cs := CafFilesSpec(cafs, folio).value.value;
      var m := Lowest(cs);
      folio < m.startNm ==> forall c :: c in cafs && folio <= c.finalNm ==> folio < m.startNm <= c.startNm
  {
    CafFilesCorrect(cafs, folio);
  }
}
