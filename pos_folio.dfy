/** The point of sale's folio allocator
    (l10n_cl_dte_point_of_sale/static/src/js/models.js, get_next_number and
    get_sequence_left): an order counter plus the session's start number is
    mapped onto the authorised folio ranges (CAFs, each the range D..H of its
    RNG element). The code is modelled as written: a range counts as "passed"
    when D <= n and n >= H, and a range whose D is above n replaces the
    current choice only when its D is larger. */
module PosFolio {
  import opened Common

  /** The authorised range D..H of one CAF file. */
  datatype CafRange = CafRange(d: int, h: int)

  predicate WellFormed(cafs: seq<CafRange>)
  {
    forall i :: 0 <= i < |cafs| ==> cafs[i].d <= cafs[i].h
  }

  /** The first loop of get_next_number: the last range containing the
      start number. */
  function Anchor(cafs: seq<CafRange>, start: int): (r: Option<nat>)
    ensures r.Some? ==> r.value < |cafs| && cafs[r.value].d <= start <= cafs[r.value].h
    ensures r.Some? ==> forall j :: r.value < j < |cafs| ==> !(cafs[j].d <= start <= cafs[j].h)
    ensures r.None? ==> forall j :: 0 <= j < |cafs| ==> !(cafs[j].d <= start <= cafs[j].h)
  {
    if cafs == [] then None
    else if cafs[|cafs| - 1].d <= start <= cafs[|cafs| - 1].h then Some(|cafs| - 1)
    else Anchor(cafs[..|cafs| - 1], start)
  }

  /** The state of the second loop: the chosen range and the folios given
      away by ranges wholly below the counter. */
  datatype ScanState = ScanState(cur: Option<nat>, gived: int)

  /** One step of the second loop, for range x. */
  function ScanStep(st: ScanState, cafs: seq<CafRange>, x: nat, n: int, anchor: Option<nat>): (r: ScanState)
    requires x < |cafs|
    requires st.cur.Some? ==> st.cur.value < x
    ensures r.cur.Some? && r.cur.value <= x
  {
    var c := cafs[x];
    var cur :=
      if c.d <= n && n >= c.h then Some(x)
      else if st.cur.None? || (n < c.d && n < cafs[st.cur.value].d && cafs[st.cur.value].d < c.d) then Some(x)
      else st.cur;
    var gived := if n > c.h && Some(x) != anchor then st.gived + (c.h - c.d + 1) else st.gived;
    ScanState(cur, gived)
  }

  /** The second loop of get_next_number run over the whole list. */
  function Scan(cafs: seq<CafRange>, n: int, anchor: Option<nat>): (r: ScanState)
    ensures r.cur.Some? ==> r.cur.value < |cafs|
    ensures r.cur.None? <==> cafs == []
  {
    if cafs == [] then ScanState(None, 0)
    else ScanStep(Scan(cafs[..|cafs| - 1], n, anchor), cafs, |cafs| - 1, n, anchor)
  }

  /** get_next_number. The recursion on a remapped value past the chosen
      range's end is bounded by fuel. Reading the anchor's H when no range
      holds the start number is JavaScript's TypeError. */
  function NextNumber(n: int, cafs: seq<CafRange>, start: int, fuel: nat): Result<int>
    decreases fuel
  {
    var anchor := Anchor(cafs, start);
    var st := Scan(cafs, n, anchor);
    if st.cur.None? then Ok(n)
    else
      var c := cafs[st.cur.value];
      if n < c.d then
        if anchor.None? then Err(TypeError)
        else
          var dif := n - ((cafs[anchor.value].h - start) + 1 + st.gived);
          var m := c.d + dif;
          if m > c.h then
            if fuel == 0 then Err(FuelExhausted) else NextNumber(m, cafs, start, fuel - 1)
          else Ok(m)
      else Ok(n)
  }

  /** The first loop of get_next_number. */
  method FindStartCaf(cafs: seq<CafRange>, start: int) returns (startCaf: Option<nat>)
    ensures startCaf == Anchor(cafs, start)
  {
    startCaf := None;
    var x := 0;
    while x < |cafs|
      invariant 0 <= x <= |cafs|
      invariant startCaf == Anchor(cafs[..x], start)
    {
      assert cafs[..x + 1][..x] == cafs[..x];
      if cafs[x].d <= start <= cafs[x].h {
        startCaf := Some(x);
      }
      x := x + 1;
    }
    assert cafs[..x] == cafs;
  }

  /** The second loop of get_next_number. */
  method ScanRanges(cafs: seq<CafRange>, n: int, startCaf: Option<nat>) returns (cafFile: Option<nat>, gived: int)
    ensures ScanState(cafFile, gived) == Scan(cafs, n, startCaf)
  {
    cafFile := None;
    gived := 0;
    var x := 0;
    while x < |cafs|
      invariant 0 <= x <= |cafs|
      invariant ScanState(cafFile, gived) == Scan(cafs[..x], n, startCaf)
    {
      assert cafs[..x + 1][..x] == cafs[..x];
      var c := cafs[x];
      if c.d <= n && n >= c.h {
        cafFile := Some(x);
      } else if cafFile.None? || (n < c.d && n < cafs[cafFile.value].d && cafs[cafFile.value].d < c.d) {
        cafFile := Some(x);
      }
      if n > c.h && Some(x) != startCaf {
        gived := gived + (c.h - c.d) + 1;
      }
      x := x + 1;
    }
    assert cafs[..x] == cafs;
  }

  /** get_next_number as the source runs it: two loops over the ranges and a
      recursive call. */
  method GetNextNumber(n: int, cafs: seq<CafRange>, start: int, fuel: nat) returns (r: Result<int>)
    ensures r == NextNumber(n, cafs, start, fuel)
    decreases fuel
  {
    var startCaf := FindStartCaf(cafs, start);
    var cafFile, gived := ScanRanges(cafs, n, startCaf);
    if cafFile.None? {
      return Ok(n);
    }
    var c := cafs[cafFile.value];
    if n < c.d {
      if startCaf.None? {
        return Err(TypeError);
      }
      var dif := n - ((cafs[startCaf.value].h - start) + 1 + gived);
      var m := c.d + dif;
      if m > c.h {
        if fuel == 0 {
          return Err(FuelExhausted);
        }
        r := GetNextNumber(m, cafs, start, fuel - 1);
        return;
      }
      return Ok(m);
    }
    return Ok(n);
  }

  /** What range i gives away: its size when the counter is beyond its H and
      it is not the anchor. */
  function GivenBy(cafs: seq<CafRange>, n: int, anchor: Option<nat>, i: nat): int
    requires i < |cafs|
  {
    if n > cafs[i].h && Some(i) != anchor then cafs[i].h - cafs[i].d + 1 else 0
  }

  /** The given-away count of the first k ranges as an independent sum. */
  function GivedSpec(cafs: seq<CafRange>, n: int, anchor: Option<nat>, k: nat): int
    requires k <= |cafs|
  {
    if k == 0 then 0 else GivedSpec(cafs, n, anchor, k - 1) + GivenBy(cafs, n, anchor, k - 1)
  }

  /** Lemma: the loop's given-away count is the sum of the sizes of the
      ranges wholly below the counter other than the anchor. */
  lemma {:induction false} ScanGivedIsGivedSpec(cafs: seq<CafRange>, n: int, anchor: Option<nat>, k: nat)
    requires k <= |cafs|
    ensures Scan(cafs[..k], n, anchor).gived == GivedSpec(cafs, n, anchor, k)
    decreases k
  {
    if k > 0 {
      assert cafs[..k][..k - 1] == cafs[..k - 1];
      ScanGivedIsGivedSpec(cafs, n, anchor, k - 1);
    }
  }

  /** A range the counter has wholly reached: D <= n and H <= n. */
  predicate Passed(c: CafRange, n: int)
  {
    c.d <= n && n >= c.h
  }

  /** Lemma: once some range has been passed, the chosen range is the last
      passed one. */
  lemma {:induction false} ScanChoosesLastPassed(cafs: seq<CafRange>, n: int, anchor: Option<nat>, j: nat)
    requires j < |cafs| && Passed(cafs[j], n)
    requires forall k :: j < k < |cafs| ==> !Passed(cafs[k], n)
    ensures Scan(cafs, n, anchor).cur == Some(j)
    decreases |cafs|
  {
    var k := |cafs| - 1;
    if j < k {
      ScanChoosesLastPassed(cafs[..k], n, anchor, j);
    }
  }

  /** Lemma: with no ranges there is nothing to choose and the counter comes
      back unchanged. */
  lemma NoRangeIdentity(n: int, start: int, fuel: nat)
    ensures NextNumber(n, [], start, fuel) == Ok(n)
  {
  }

  /** Lemma: a counter at or beyond the chosen range's start comes back
      unchanged; a changed result means the counter was below the chosen
      range's D. */
  lemma NoRemapAtOrAboveStart(n: int, cafs: seq<CafRange>, start: int, fuel: nat)
    requires cafs != []
    ensures var st := Scan(cafs, n, Anchor(cafs, start));
      n >= cafs[st.cur.value].d ==> NextNumber(n, cafs, start, fuel) == Ok(n)
    ensures var st := Scan(cafs, n, Anchor(cafs, start));
      (NextNumber(n, cafs, start, fuel).Ok? && NextNumber(n, cafs, start, fuel).value != n) ==>
        n < cafs[st.cur.value].d
  {
  }

  /** Lemma: once the counter has wholly passed any range, get_next_number
      returns it unchanged, even when it lies in no range at all. */
  lemma PassedRangeMeansNoRemap(n: int, cafs: seq<CafRange>, start: int, fuel: nat, j: nat)
    requires j < |cafs| && Passed(cafs[j], n)
    ensures NextNumber(n, cafs, start, fuel) == Ok(n)
  {
    var k := j;
    while k + 1 < |cafs| && exists m :: k < m < |cafs| && Passed(cafs[m], n)
      invariant j <= k < |cafs| && Passed(cafs[k], n)
      decreases |cafs| - k
    {
      var m :| k < m < |cafs| && Passed(cafs[m], n);
      k := m;
    }
    ScanChoosesLastPassed(cafs, n, Anchor(cafs, start), k);
  }

  /** Lemma: the only TypeError is a remap with no range holding the start
      number. */
  lemma {:induction false} TypeErrorIffNoAnchor(n: int, cafs: seq<CafRange>, start: int, fuel: nat)
    ensures var st := Scan(cafs, n, Anchor(cafs, start));
      NextNumber(n, cafs, start, fuel) == Err(TypeError) <==>
        Anchor(cafs, start).None? && st.cur.Some? && n < cafs[st.cur.value].d
    decreases fuel
  {
    var anchor := Anchor(cafs, start);
    var st := Scan(cafs, n, anchor);
    if st.cur.Some? && n < cafs[st.cur.value].d && anchor.Some? {
      var c := cafs[st.cur.value];
      var m := c.d + (n - ((cafs[anchor.value].h - start) + 1 + st.gived));
      if m > c.h && fuel > 0 {
        TypeErrorIffNoAnchor(m, cafs, start, fuel - 1);
      }
    }
  }

  /** Lemma: with authorisations 1..100 and 150..200 and start number 1, the
      101st folio comes back as 101: the first range has been passed, so no
      remap into 150..200 takes place. */
  lemma PassedExample()
    ensures NextNumber(101, [CafRange(1, 100), CafRange(150, 200)], 1, 0) == Ok(101)
  {
    PassedRangeMeansNoRemap(101, [CafRange(1, 100), CafRange(150, 200)], 1, 0, 0);
  }

  /** Lemma: with the ranges listed as 150..200 then 1..100, counter 50 is
      remapped into the first range: 150 + (50 - 100) = 100. */
  lemma RemapExample()
    ensures NextNumber(50, [CafRange(150, 200), CafRange(1, 100)], 1, 0) == Ok(100)
  {
    var cafs := [CafRange(150, 200), CafRange(1, 100)];
    assert Anchor(cafs, 1) == Some(1);
    assert cafs[..1] == [CafRange(150, 200)];
    assert Scan(cafs[..1], 50, Some(1)) == ScanState(Some(0), 0);
    assert Scan(cafs, 50, Some(1)) == ScanState(Some(0), 0);
  }

  /** One term of get_sequence_left: from max(n, D) to H when n <= H. The
      source computes a correction `dif` that is always 0 (its assignment is
      an expression statement), so it is left out here. */
  function LeftIn(c: CafRange, n: int): int
  {
    if n <= c.h then c.h - (if n > c.d then n else c.d) + 1 else 0
  }

  function SequenceLeftSpec(cafs: seq<CafRange>, n: int): int
  {
    if cafs == [] then 0
    else SequenceLeftSpec(cafs[..|cafs| - 1], n) + LeftIn(cafs[|cafs| - 1], n)
  }

  /** The number of ranges still reaching the counter. */
  function Reaching(cafs: seq<CafRange>, n: int): nat
  {
    if cafs == [] then 0
    else Reaching(cafs[..|cafs| - 1], n) + (if n <= cafs[|cafs| - 1].h then 1 else 0)
  }

  /** get_sequence_left's loop over the ranges, given the next folio. */
  method GetSequenceLeft(n: int, cafs: seq<CafRange>) returns (left: int)
    ensures left == SequenceLeftSpec(cafs, n)
  {
    left := 0;
    var x := 0;
    while x < |cafs|
      invariant 0 <= x <= |cafs|
      invariant left == SequenceLeftSpec(cafs[..x], n)
    {
      assert cafs[..x + 1][..x] == cafs[..x];
      var desde := if n > cafs[x].d then n else cafs[x].d;
      var hasta := cafs[x].h;
      if n <= hasta {
        left := left + (hasta - desde) + 1;
      }
      x := x + 1;
    }
    assert cafs[..x] == cafs;
  }

  /** Lemma: over well-formed ranges every range still reaching the counter
      contributes at least one folio, nothing is negative, and nothing is
      left exactly when no range reaches the counter. */
  lemma {:induction false} SequenceLeftBounds(cafs: seq<CafRange>, n: int)
    requires WellFormed(cafs)
    ensures SequenceLeftSpec(cafs, n) >= Reaching(cafs, n) >= 0
    ensures SequenceLeftSpec(cafs, n) == 0 <==> Reaching(cafs, n) == 0
    decreases |cafs|
  {
    if cafs != [] {
      SequenceLeftBounds(cafs[..|cafs| - 1], n);
    }
  }

  /** Lemma: the whole of a range is left when the counter is at or below its
      start. */
  lemma WholeRangeLeft(c: CafRange, n: int)
    requires c.d <= c.h && n <= c.d
    ensures LeftIn(c, n) == c.h - c.d + 1
  {
  }
}
