/** The alpha-matrix cache of the AR(1)-with-cross-terms noise model.

    The noise precision of each echo is a weighted sum of a fixed family of
    symmetric band matrices, one per (echo n, power of the echo's own AR
    coefficient a12pow, power of the cross-term coefficient a34pow). The family
    does not depend on the coefficients, so it is built once; the weighted sums
    (the "marginals") are recomputed whenever the coefficient distribution
    changes. Rows and columns are 1-based and the two echoes' samples are
    interleaved (echo 1 on odd rows, echo 2 on even rows when there are two). */
module Ar1cCache {
  import opened Common

  /** Half-bandwidth of every stored matrix: AR(1) terms sit at offset 2 and the
      cross terms at offset 1, so nothing is further than 3 from the diagonal. */
  const Bandwidth: nat := 3

  /** A symmetric band matrix of order dim. Only the lower triangle is stored
      (keys (row, col) with row >= col); a missing cell is zero. */
  datatype Band = Band(dim: nat, cells: map<(nat, nat), real>)

  /** A default-constructed (0 x 0) matrix: the contents of a slot never built. */
  const Empty: Band := Band(0, map[])

  function ZeroBand(dim: nat): Band {
    Band(dim, map[])
  }

  /** The stored cell that serves both (row, col) and (col, row). */
  function Lower(row: nat, col: nat): (c: (nat, nat))
    ensures c.0 >= c.1
    ensures c == (row, col) || c == (col, row)
  {
    if row >= col then (row, col) else (col, row)
  }

  function Cell(cells: map<(nat, nat), real>, c: (nat, nat)): real {
    if c in cells then cells[c] else 0.0
  }

  /** Element (i, j) of a band matrix. */
  function Entry(m: Band, i: nat, j: nat): real {
    Cell(m.cells, Lower(i, j))
  }

  /** Every stored cell lies inside the matrix and within the bandwidth. */
  ghost predicate InBand(m: Band) {
    forall c :: c in m.cells ==> 1 <= c.1 <= c.0 <= m.dim && c.0 - c.1 <= Bandwidth
  }

  /** Echo count and number of alpha coefficients accepted by the noise model. */
  predicate ValidConfig(nPhis: nat, nAlphas: nat) {
    (nPhis == 1 || nPhis == 2) && 2 <= nAlphas <= 4 && (nPhis == 1 ==> nAlphas == 2)
  }

  // ---------------------------------------------------------------------------
  // Slot numbering

  /** Position of matrix (n, a12pow, a34pow) in the flat cache. */
  function FlattenIndex(n: nat, a12pow: nat, a34pow: nat): (idx: nat)
    requires n == 1 || n == 2
    requires a12pow <= 2 && a34pow <= 2
    ensures idx < 18
  {
    n - 1 + 2 * (a12pow + 3 * a34pow)
  }

  datatype Slot = Slot(n: nat, a12pow: nat, a34pow: nat)

  /** Inverse of FlattenIndex. */
  function UnflattenIndex(idx: nat): (s: Slot)
    requires idx < 18
    ensures (s.n == 1 || s.n == 2) && s.a12pow <= 2 && s.a34pow <= 2
    ensures FlattenIndex(s.n, s.a12pow, s.a34pow) == idx
  {
    var a34pow := if idx < 6 then 0 else if idx < 12 then 1 else 2;
    var rest := idx - 6 * a34pow;
    var a12pow := if rest < 2 then 0 else if rest < 4 then 1 else 2;
    Slot(rest - 2 * a12pow + 1, a12pow, a34pow)
  }

  /** Distinct (n, a12pow, a34pow) never share a slot. */
  lemma FlattenIndexInjective(n: nat, a12pow: nat, a34pow: nat, n': nat, a12pow': nat, a34pow': nat)
    requires (n == 1 || n == 2) && a12pow <= 2 && a34pow <= 2
    requires (n' == 1 || n' == 2) && a12pow' <= 2 && a34pow' <= 2
    requires FlattenIndex(n, a12pow, a34pow) == FlattenIndex(n', a12pow', a34pow')
    ensures n == n' && a12pow == a12pow' && a34pow == a34pow'
  {
  }

  lemma FlattenIndexRoundTrip(n: nat, a12pow: nat, a34pow: nat)
    requires n == 1 || n == 2
    requires a12pow <= 2 && a34pow <= 2
    ensures UnflattenIndex(FlattenIndex(n, a12pow, a34pow)) == Slot(n, a12pow, a34pow)
  {
    var s := UnflattenIndex(FlattenIndex(n, a12pow, a34pow));
    FlattenIndexInjective(s.n, s.a12pow, s.a34pow, n, a12pow, a34pow);
  }

  /** Number of slots the cache allocates. */
  function TableSize(nPhis: nat): nat
    requires nPhis == 1 || nPhis == 2
  {
    FlattenIndex(nPhis, 0, 2) + 1
  }

  /** Every slot the build loop fills is inside the allocated table. */
  lemma BuildIndexInTable(nPhis: nat, n: nat, a12pow: nat, a34pow: nat)
    requires nPhis == 1 || nPhis == 2
    requires 1 <= n <= nPhis && a12pow + a34pow <= 2
    ensures FlattenIndex(n, a12pow, a34pow) < TableSize(nPhis)
  {
  }

  // ---------------------------------------------------------------------------
  // Shape of one base matrix

  /** The switch on a12pow * 10 + a34pow: where the echo-1 line starts. Any
      other pair is the "Invalid row/col" internal error. */
  function StartCell(nPhis: nat, a12pow: nat, a34pow: nat): Option<(nat, nat)> {
    match (a12pow, a34pow)
    case (0, 0) => Some((1 + nPhis, 1 + nPhis))
    case (1, 0) => Some((1, 1 + nPhis))
    case (2, 0) => Some((1, 1))
    case (0, 1) => Some((4, 3))
    case (1, 1) => Some((4, 1))
    case (0, 2) => Some((4, 4))
    case _ => None
  }

  /** The table knows exactly the power pairs of total degree at most 2. */
  lemma StartCellDefined(nPhis: nat, a12pow: nat, a34pow: nat)
    requires a12pow <= 2 && a34pow <= 2
    ensures StartCell(nPhis, a12pow, a34pow).Some? <==> a12pow + a34pow <= 2
  {
  }

  /** The echo-2 reflection of a row or column: 2k-1 and 2k change places. */
  function EchoSwap(r: nat): (s: nat)
    requires r >= 1
    ensures s >= 1
  {
    r - 1 + 2 * (r % 2)
  }

  lemma EchoSwapPairs(r: nat)
    requires r >= 1
    ensures r % 2 == 1 ==> EchoSwap(r) == r + 1
    ensures r % 2 == 0 ==> EchoSwap(r) == r - 1
    ensures EchoSwap(EchoSwap(r)) == r
  {
  }

  /** Among the first four rows the reflection stays among the first four rows. */
  lemma EchoSwapSmall(r: nat)
    requires 1 <= r <= 4
    ensures 1 <= EchoSwap(r) <= 4
  {
    if r == 1 {
    } else if r == 2 {
    } else if r == 3 {
    } else {
    }
  }

  /** Where the line of matrix (n, a12pow, a34pow) starts. */
  function LineStart(nPhis: nat, n: nat, a12pow: nat, a34pow: nat): (nat, nat)
    requires n == 1 || n == 2
    requires a12pow + a34pow <= 2
  {
    var start := StartCell(nPhis, a12pow, a34pow).value;
    if n == 2 then (EchoSwap(start.0), EchoSwap(start.1)) else start
  }

  /** The value written along the line: -1 for the first-order terms, +1 otherwise. */
  function CellValue(a12pow: nat, a34pow: nat): real {
    if a12pow + a34pow == 1 then -1.0 else 1.0
  }

  /** The source loops count = 0 .. nTimes-2. */
  function LineLength(nTimes: nat): nat {
    if nTimes >= 1 then nTimes - 1 else 0
  }

  /** The first count cells of the line from (row, col) stepping by step. */
  function LineCells(row: nat, col: nat, step: nat, count: nat, value: real): map<(nat, nat), real> {
    if count == 0 then map[]
    else LineCells(row, col, step, count - 1, value)[Lower(row + (count - 1) * step, col + (count - 1) * step) := value]
  }

  /** Base matrix (n, a12pow, a34pow) for nTimes samples per echo. */
  function BaseMatrix(nPhis: nat, nTimes: nat, n: nat, a12pow: nat, a34pow: nat): Band
    requires n == 1 || n == 2
    requires a12pow + a34pow <= 2
  {
    var start := LineStart(nPhis, n, a12pow, a34pow);
    Band(nTimes * nPhis, LineCells(start.0, start.1, nPhis, LineLength(nTimes), CellValue(a12pow, a34pow)))
  }

  lemma LowerShift(row: nat, col: nat, d: nat)
    ensures Lower(row + d, col + d) == (Lower(row, col).0 + d, Lower(row, col).1 + d)
  {
  }

  /** All cells of a line lie on one diagonal, from its first cell on, before
      the cell count steps further. */
  lemma {:induction false} LineCellsRange(row: nat, col: nat, step: nat, count: nat, value: real)
    requires step >= 1
    ensures forall c :: c in LineCells(row, col, step, count, value) ==>
      && Lower(row, col).0 <= c.0
      && c.0 + step <= Lower(row, col).0 + count * step
      && c.0 - c.1 == Lower(row, col).0 - Lower(row, col).1
  {
    if count > 0 {
      LineCellsRange(row, col, step, count - 1, value);
      LowerShift(row, col, (count - 1) * step);
      assert (count - 1) * step + step == count * step;
    }
  }

  /** A line of count cells has count distinct cells. */
  lemma {:induction false} LineCellsSize(row: nat, col: nat, step: nat, count: nat, value: real)
    requires step >= 1
    ensures |LineCells(row, col, step, count, value)| == count
  {
    if count > 0 {
      var prev := LineCells(row, col, step, count - 1, value);
      LineCellsSize(row, col, step, count - 1, value);
      LineCellsFresh(row, col, step, count - 1, value);
      var key := Lower(row + (count - 1) * step, col + (count - 1) * step);
      assert |prev[key := value]| == |prev| + 1;
    }
  }

  /** The cell a line extends to next is not yet in it. */
  lemma LineCellsFresh(row: nat, col: nat, step: nat, count: nat, value: real)
    requires step >= 1
    ensures Lower(row + count * step, col + count * step) !in LineCells(row, col, step, count, value)
  {
    LineCellsRange(row, col, step, count, value);
    LowerShift(row, col, count * step);
  }

  /** Every cell of a line holds value. */
  lemma {:induction false} LineCellsValues(row: nat, col: nat, step: nat, count: nat, value: real)
    ensures forall c :: c in LineCells(row, col, step, count, value) ==> LineCells(row, col, step, count, value)[c] == value
  {
    if count > 0 {
      LineCellsValues(row, col, step, count - 1, value);
    }
  }

  /** The k-th cell of the line, k < count, is stored. */
  lemma {:induction false} LineCellsOnLine(row: nat, col: nat, step: nat, count: nat, value: real, k: nat)
    requires k < count
    ensures Lower(row + k * step, col + k * step) in LineCells(row, col, step, count, value)
  {
    if k < count - 1 {
      LineCellsOnLine(row, col, step, count - 1, value, k);
    }
  }

  /** The first cell of every built line is inside the first two samples of
      each echo and within the bandwidth. */
  lemma LineStartBounds(nPhis: nat, n: nat, a12pow: nat, a34pow: nat)
    requires 1 <= n <= nPhis <= 2
    requires a12pow + a34pow <= 2
    requires nPhis == 2 || a34pow == 0
    ensures var start := LineStart(nPhis, n, a12pow, a34pow);
      var c := Lower(start.0, start.1);
      1 <= c.1 && c.0 - c.1 <= Bandwidth && c.0 <= 2 * nPhis
  {
    var s := StartCell(nPhis, a12pow, a34pow).value;
    assert 1 <= s.0 <= 2 * nPhis && 1 <= s.1 <= 2 * nPhis;
    if n == 2 {
      EchoSwapSmall(s.0);
      EchoSwapSmall(s.1);
    }
  }

  /** Each built base matrix: (nTimes * nPhis)-square, exactly nTimes-1 stored
      cells, each inside the matrix and within the bandwidth, each holding
      CellValue. */
  lemma BaseMatrixShape(nPhis: nat, nTimes: nat, n: nat, a12pow: nat, a34pow: nat)
    requires 1 <= n <= nPhis <= 2
    requires a12pow + a34pow <= 2
    requires nPhis == 2 || a34pow == 0
    ensures var m := BaseMatrix(nPhis, nTimes, n, a12pow, a34pow);
      && m.dim == nTimes * nPhis
      && |m.cells| == LineLength(nTimes)
      && (forall c :: c in m.cells ==> m.cells[c] == CellValue(a12pow, a34pow))
      && InBand(m)
  {
    var m := BaseMatrix(nPhis, nTimes, n, a12pow, a34pow);
    var start := LineStart(nPhis, n, a12pow, a34pow);
    var len := LineLength(nTimes);
    LineCellsRange(start.0, start.1, nPhis, len, CellValue(a12pow, a34pow));
    LineCellsSize(start.0, start.1, nPhis, len, CellValue(a12pow, a34pow));
    LineCellsValues(start.0, start.1, nPhis, len, CellValue(a12pow, a34pow));
    var hi, lo := Lower(start.0, start.1).0, Lower(start.0, start.1).1;
    LineStartBounds(nPhis, n, a12pow, a34pow);
    var span := len * nPhis;
    if len > 0 {
      assert span + nPhis == m.dim by {
        assert len + 1 == nTimes;
        assert (len + 1) * nPhis == len * nPhis + nPhis;
      }
    }
    forall c: (nat, nat) | c in m.cells
      ensures 1 <= c.1 <= c.0 <= m.dim && c.0 - c.1 <= Bandwidth
    {
      assert c.0 + nPhis <= hi + span && c.0 - c.1 == hi - lo && hi <= c.0;
    }
  }

  // ---------------------------------------------------------------------------
  // The table of base matrices

  /** Whether the build loop fills slot s: echoes up to nPhis, total degree at
      most 2, and cross terms only when there is a cross-term coefficient. */
  predicate Built(nPhis: nat, nAlphas: nat, s: Slot) {
    1 <= s.n <= nPhis && s.a12pow + s.a34pow <= 2 && (s.a34pow == 0 || nAlphas >= 3)
  }

  /** Content of slot idx once the build is complete. */
  function TableEntry(nPhis: nat, nAlphas: nat, nTimes: nat, idx: nat): Band
    requires idx < 18
  {
    var s := UnflattenIndex(idx);
    if Built(nPhis, nAlphas, s) then BaseMatrix(nPhis, nTimes, s.n, s.a12pow, s.a34pow) else Empty
  }

  /** The whole table built on the first update. */
  function BuiltMatrices(nPhis: nat, nAlphas: nat, nTimes: nat): (mats: seq<Band>)
    requires nPhis == 1 || nPhis == 2
    ensures |mats| == TableSize(nPhis)
  {
    seq(TableSize(nPhis), idx requires 0 <= idx < TableSize(nPhis) => TableEntry(nPhis, nAlphas, nTimes, idx))
  }

  /** Slot (n, a12pow, a34pow) of the built table; with fewer than three alphas
      no cross-term (a34pow > 0) matrix exists. */
  lemma BuiltMatricesAt(nPhis: nat, nAlphas: nat, nTimes: nat, n: nat, a12pow: nat, a34pow: nat)
    requires ValidConfig(nPhis, nAlphas)
    requires 1 <= n <= nPhis && a12pow + a34pow <= 2
    ensures FlattenIndex(n, a12pow, a34pow) < TableSize(nPhis)
    ensures BuiltMatrices(nPhis, nAlphas, nTimes)[FlattenIndex(n, a12pow, a34pow)]
      == if a34pow == 0 || nAlphas >= 3 then BaseMatrix(nPhis, nTimes, n, a12pow, a34pow) else Empty
  {
    FlattenIndexRoundTrip(n, a12pow, a34pow);
  }

  /** Every slot of the built table is either empty or a base matrix of order
      nTimes * nPhis lying within the band. */
  lemma BuiltMatricesInBand(nPhis: nat, nAlphas: nat, nTimes: nat, idx: nat)
    requires ValidConfig(nPhis, nAlphas)
    requires idx < TableSize(nPhis)
    ensures var m := BuiltMatrices(nPhis, nAlphas, nTimes)[idx];
      InBand(m) && (m == Empty || m.dim == nTimes * nPhis)
  {
    var s := UnflattenIndex(idx);
    if Built(nPhis, nAlphas, s) {
      BaseMatrixShape(nPhis, nTimes, s.n, s.a12pow, s.a34pow);
    }
  }

  // ---------------------------------------------------------------------------
  // Marginals

  /** Entry (i, j) of the alpha second moment Cov + m * m', 1-based. */
  function SecondMoment(means: seq<real>, cov: Matrix, i: nat, j: nat): real
    requires IsSquare(cov, |means|)
    requires 1 <= i <= |means| && 1 <= j <= |means|
  {
    Get(cov, i, j) + means[i - 1] * means[j - 1]
  }

  /** The cross-term coefficient that echo n uses: shared (3) or its own (2 + n). */
  function CrossIndex(nAlphas: nat, n: nat): nat {
    if nAlphas == 4 then 2 + n else 3
  }

  /** The weights of one marginal: the echo's own mean and second moment and,
      when there is a cross-term coefficient T, m(T), S(n,T) and S(T,T). */
  datatype Weights =
    | Own(mean: real, square: real)
    | WithCross(mean: real, square: real, crossMean: real, mixed: real, crossSquare: real)

  /** The weights of the marginal of echo n, taken from the alpha mean and
      covariance (S is the second moment, T the cross coefficient of echo n). */
  function MarginalWeights(means: seq<real>, cov: Matrix, n: nat): (w: Weights)
    requires IsSquare(cov, |means|) && 1 <= n <= |means|
    requires |means| >= 3 ==> CrossIndex(|means|, n) <= |means|
    ensures w.WithCross? <==> |means| >= 3
    ensures w.mean == means[n - 1] && w.square == SecondMoment(means, cov, n, n)
    ensures w.WithCross? ==>
      var t := CrossIndex(|means|, n);
      w.crossMean == means[t - 1] && w.mixed == SecondMoment(means, cov, n, t) && w.crossSquare == SecondMoment(means, cov, t, t)
  {
    if |means| >= 3 then
      var t := CrossIndex(|means|, n);
      WithCross(means[n - 1], SecondMoment(means, cov, n, n), means[t - 1], SecondMoment(means, cov, n, t), SecondMoment(means, cov, t, t))
    else Own(means[n - 1], SecondMoment(means, cov, n, n))
  }

  /** The six base matrices of one echo, by (a12pow, a34pow). */
  datatype EchoSlots = EchoSlots(m00: Band, m10: Band, m20: Band, m01: Band, m11: Band, m02: Band)

  /** Echo n's slots in the flat table. */
  function EchoSlotsOf(mats: seq<Band>, nPhis: nat, n: nat): EchoSlots
    requires (nPhis == 1 || nPhis == 2) && 1 <= n <= nPhis && |mats| == TableSize(nPhis)
  {
    EchoSlots(mats[FlattenIndex(n, 0, 0)], mats[FlattenIndex(n, 1, 0)], mats[FlattenIndex(n, 2, 0)],
              mats[FlattenIndex(n, 0, 1)], mats[FlattenIndex(n, 1, 1)], mats[FlattenIndex(n, 0, 2)])
  }

  /** The cells a combination stores: those of the own slots, and of the cross
      slots when there are cross weights. */
  function CombinedKeys(e: EchoSlots, w: Weights): set<(nat, nat)> {
    var own := e.m00.cells.Keys + e.m10.cells.Keys + e.m20.cells.Keys;
    if w.Own? then own else own + e.m01.cells.Keys + e.m11.cells.Keys + e.m02.cells.Keys
  }

  /** Cell c of M00 + mean M10 + square M20 (+ crossMean M01 + mixed M11 + crossSquare M02). */
  function CombinedCell(e: EchoSlots, w: Weights, c: (nat, nat)): real {
    var own := Cell(e.m00.cells, c) + w.mean * Cell(e.m10.cells, c) + w.square * Cell(e.m20.cells, c);
    if w.Own? then own
    else own + w.crossMean * Cell(e.m01.cells, c) + w.mixed * Cell(e.m11.cells, c) + w.crossSquare * Cell(e.m02.cells, c)
  }

  /** M00 + mean M10 + square M20, and with cross weights
      + crossMean M01 + mixed M11 + crossSquare M02, as one matrix sum. */
  function Combine(e: EchoSlots, w: Weights): Band {
    Band(e.m00.dim, map c | c in CombinedKeys(e, w) :: CombinedCell(e, w, c))
  }

  /** Marginal of echo n: the base matrices weighted by the alpha moments. */
  function Marginal(mats: seq<Band>, nPhis: nat, means: seq<real>, cov: Matrix, n: nat): Band
    requires ValidConfig(nPhis, |means|) && IsSquare(cov, |means|)
    requires 1 <= n <= nPhis && |mats| == TableSize(nPhis)
  {
    Combine(EchoSlotsOf(mats, nPhis, n), MarginalWeights(means, cov, n))
  }

  /** Element (i, j) of the own part M00 + mean M10 + square M20. */
  function OwnEntry(e: EchoSlots, w: Weights, i: nat, j: nat): real {
    Entry(e.m00, i, j) + w.mean * Entry(e.m10, i, j) + w.square * Entry(e.m20, i, j)
  }

  /** Element (i, j) of the cross part crossMean M01 + mixed M11 + crossSquare M02. */
  function CrossEntry(e: EchoSlots, w: Weights, i: nat, j: nat): real
    requires w.WithCross?
  {
    w.crossMean * Entry(e.m01, i, j) + w.mixed * Entry(e.m11, i, j) + w.crossSquare * Entry(e.m02, i, j)
  }

  /** Element by element, a combination is the weighted sum of the slot entries:
      the own part always, the cross part exactly when there are cross weights.
      Cells no slot stores read as zero on both sides. */
  lemma CombineEntries(e: EchoSlots, w: Weights, i: nat, j: nat)
    ensures w.Own? ==> Entry(Combine(e, w), i, j) == OwnEntry(e, w, i, j)
    ensures w.WithCross? ==> Entry(Combine(e, w), i, j) == OwnEntry(e, w, i, j) + CrossEntry(e, w, i, j)
  {
    var c := Lower(i, j);
    if c !in CombinedKeys(e, w) {
      assert Cell(e.m00.cells, c) == 0.0 && Cell(e.m10.cells, c) == 0.0 && Cell(e.m20.cells, c) == 0.0;
      if w.WithCross? {
        assert Cell(e.m01.cells, c) == 0.0 && Cell(e.m11.cells, c) == 0.0 && Cell(e.m02.cells, c) == 0.0;
      }
    }
  }

  /** The six slots are band matrices of order at most dim, the unweighted one
      of order exactly dim. */
  ghost predicate SlotsInBand(e: EchoSlots, dim: nat) {
    && e.m00.dim == dim
    && InBand(e.m00) && InBand(e.m10) && InBand(e.m20) && InBand(e.m01) && InBand(e.m11) && InBand(e.m02)
    && e.m10.dim <= dim && e.m20.dim <= dim && e.m01.dim <= dim && e.m11.dim <= dim && e.m02.dim <= dim
  }

  /** A combination of band matrices is a band matrix of the same order. */
  lemma CombineInBand(e: EchoSlots, w: Weights, dim: nat)
    requires SlotsInBand(e, dim)
    ensures Combine(e, w).dim == dim && InBand(Combine(e, w))
  {
  }

  /** In the built table, the slots of every echo are band matrices of order
      nTimes * nPhis (or empty). */
  lemma BuiltEchoSlotsInBand(nPhis: nat, nAlphas: nat, nTimes: nat, n: nat)
    requires ValidConfig(nPhis, nAlphas) && 1 <= n <= nPhis
    ensures SlotsInBand(EchoSlotsOf(BuiltMatrices(nPhis, nAlphas, nTimes), nPhis, n), nTimes * nPhis)
  {
    var mats := BuiltMatrices(nPhis, nAlphas, nTimes);
    forall a12pow: nat, a34pow: nat | a12pow + a34pow <= 2
      ensures InBand(mats[FlattenIndex(n, a12pow, a34pow)]) && mats[FlattenIndex(n, a12pow, a34pow)].dim <= nTimes * nPhis
    {
      BuildIndexInTable(nPhis, n, a12pow, a34pow);
      BuiltMatricesInBand(nPhis, nAlphas, nTimes, FlattenIndex(n, a12pow, a34pow));
    }
    BuiltMatricesAt(nPhis, nAlphas, nTimes, n, 0, 0);
    BaseMatrixShape(nPhis, nTimes, n, 0, 0);
  }

  /** Over the built table, a marginal is a symmetric band matrix of order
      nTimes * nPhis with half-bandwidth 3. */
  lemma MarginalInBand(nPhis: nat, nTimes: nat, means: seq<real>, cov: Matrix, n: nat)
    requires ValidConfig(nPhis, |means|) && IsSquare(cov, |means|)
    requires 1 <= n <= nPhis
    ensures var q := Marginal(BuiltMatrices(nPhis, |means|, nTimes), nPhis, means, cov, n);
      q.dim == nTimes * nPhis && InBand(q)
  {
    BuiltEchoSlotsInBand(nPhis, |means|, nTimes, n);
    CombineInBand(EchoSlotsOf(BuiltMatrices(nPhis, |means|, nTimes), nPhis, n), MarginalWeights(means, cov, n), nTimes * nPhis);
  }

  /** Element (i, j) of the marginal of echo n, written with the table slots
      G(a12pow, a34pow) = mats[FlattenIndex(n, a12pow, a34pow)] and the second
      moment S = Cov + m m': G(0,0) + m(n) G(1,0) + S(n,n) G(2,0), and with at
      least 3 alphas also + m(T) G(0,1) + S(n,T) G(1,1) + S(T,T) G(0,2), where
      T is the echo's cross coefficient. */
  lemma MarginalEntry(mats: seq<Band>, nPhis: nat, means: seq<real>, cov: Matrix, n: nat, i: nat, j: nat)
    requires ValidConfig(nPhis, |means|) && IsSquare(cov, |means|)
    requires 1 <= n <= nPhis && |mats| == TableSize(nPhis)
    ensures 3 <= |means| ==> 3 <= CrossIndex(|means|, n) <= |means|
    ensures var g00, g10, g20 := mats[FlattenIndex(n, 0, 0)], mats[FlattenIndex(n, 1, 0)], mats[FlattenIndex(n, 2, 0)];
      var own := Entry(g00, i, j) + means[n - 1] * Entry(g10, i, j) + SecondMoment(means, cov, n, n) * Entry(g20, i, j);
      && (|means| < 3 ==> Entry(Marginal(mats, nPhis, means, cov, n), i, j) == own)
      && (3 <= |means| ==>
            var t := CrossIndex(|means|, n);
            var g01, g11, g02 := mats[FlattenIndex(n, 0, 1)], mats[FlattenIndex(n, 1, 1)], mats[FlattenIndex(n, 0, 2)];
            Entry(Marginal(mats, nPhis, means, cov, n), i, j)
              == own + means[t - 1] * Entry(g01, i, j) + SecondMoment(means, cov, n, t) * Entry(g11, i, j)
                 + SecondMoment(means, cov, t, t) * Entry(g02, i, j))
  {
    CombineEntries(EchoSlotsOf(mats, nPhis, n), MarginalWeights(means, cov, n), i, j);
  }

  /** With "dual" cross terms (4 alphas) each echo has its own cross
      coefficient 2 + n; with "same" (3 alphas) both echoes share coefficient 3. */
  lemma CrossIndexShared(nPhis: nat, nAlphas: nat, n: nat, n': nat)
    requires ValidConfig(nPhis, nAlphas) && 3 <= nAlphas
    requires 1 <= n <= nPhis && 1 <= n' <= nPhis
    ensures 3 <= CrossIndex(nAlphas, n) <= nAlphas
    ensures CrossIndex(nAlphas, n) == CrossIndex(nAlphas, n') <==> nAlphas == 3 || n == n'
  {
  }

  // ---------------------------------------------------------------------------
  // The cache as a value, and one Update step

  datatype CacheState = CacheState(matrices: seq<Band>, marginals: seq<Band>)

  /** What Update may be called on: matrices are built once for fixed sizes, and
      marginals exist only after matrices (both vectors grow together). */
  ghost predicate UpdatableState(s: CacheState, nPhis: nat, nAlphas: nat, nTimes: nat)
    requires nPhis == 1 || nPhis == 2
  {
    && (s.matrices == [] ==> s.marginals == [])
    && (s.matrices != [] ==> s.matrices == BuiltMatrices(nPhis, nAlphas, nTimes))
    && (s.marginals == [] || |s.marginals| == 2)
    && (forall k :: 0 <= k < |s.marginals| ==> s.marginals[k].dim == nTimes * nPhis)
  }

  /** The two marginal slots once echoes 1..n-1 have been recomputed from the
      moments; the others still hold prev. */
  function MarginalsUpTo(mats: seq<Band>, nPhis: nat, means: seq<real>, cov: Matrix, prev: seq<Band>, n: nat): (r: seq<Band>)
    requires ValidConfig(nPhis, |means|) && IsSquare(cov, |means|)
    requires |mats| == TableSize(nPhis) && |prev| == 2 && n <= nPhis + 1
    ensures |r| == 2
  {
    seq(2, k requires 0 <= k < 2 => if k < n - 1 then Marginal(mats, nPhis, means, cov, k + 1) else prev[k])
  }

  /** Recomputing the marginal of echo n advances the marginals by one echo. */
  lemma MarginalsStep(mats: seq<Band>, nPhis: nat, means: seq<real>, cov: Matrix, prev: seq<Band>, n: nat)
    requires ValidConfig(nPhis, |means|) && IsSquare(cov, |means|)
    requires |mats| == TableSize(nPhis) && |prev| == 2 && 1 <= n <= nPhis
    ensures MarginalsUpTo(mats, nPhis, means, cov, prev, n)[n - 1 := Marginal(mats, nPhis, means, cov, n)]
      == MarginalsUpTo(mats, nPhis, means, cov, prev, n + 1)
  {
    var before := MarginalsUpTo(mats, nPhis, means, cov, prev, n);
    var after := MarginalsUpTo(mats, nPhis, means, cov, prev, n + 1);
    assert before[n - 1 := Marginal(mats, nPhis, means, cov, n)][0] == after[0];
    assert before[n - 1 := Marginal(mats, nPhis, means, cov, n)][1] == after[1];
  }

  /** The loop over the echoes that recomputes each marginal in turn. */
  method RefreshMarginals(mats: seq<Band>, nPhis: nat, means: seq<real>, cov: Matrix, prev: seq<Band>)
    returns (marginals: seq<Band>)
    requires ValidConfig(nPhis, |means|) && IsSquare(cov, |means|)
    requires |mats| == TableSize(nPhis) && |prev| == 2
    ensures marginals == MarginalsUpTo(mats, nPhis, means, cov, prev, nPhis + 1)
  {
    marginals := prev;
    assert marginals == MarginalsUpTo(mats, nPhis, means, cov, prev, 1);
    var n := 1;
    while n <= nPhis
      invariant 1 <= n <= nPhis + 1
      invariant marginals == MarginalsUpTo(mats, nPhis, means, cov, prev, n)
    {
      MarginalsStep(mats, nPhis, means, cov, prev, n);
      marginals := marginals[n - 1 := Marginal(mats, nPhis, means, cov, n)];
      n := n + 1;
    }
  }

  /** The cache after Update: matrices built if (and only if) there were none,
      the marginals of echoes 1..nPhis recomputed, any other marginal kept (or
      zero on the first call). */
  function UpdateSpec(s: CacheState, nPhis: nat, means: seq<real>, cov: Matrix, nTimes: nat): CacheState
    requires ValidConfig(nPhis, |means|) && IsSquare(cov, |means|)
    requires UpdatableState(s, nPhis, |means|, nTimes)
  {
    var mats := if s.matrices == [] then BuiltMatrices(nPhis, |means|, nTimes) else s.matrices;
    var zero := ZeroBand(nTimes * nPhis);
    var prev := if s.marginals == [] then [zero, zero] else s.marginals;
    CacheState(mats, MarginalsUpTo(mats, nPhis, means, cov, prev, nPhis + 1))
  }

  /** After an update the base matrices are the built family, whatever state the
      cache was in before; an already built family is left as it was. */
  lemma UpdateBuildsOnce(s: CacheState, nPhis: nat, means: seq<real>, cov: Matrix, nTimes: nat)
    requires ValidConfig(nPhis, |means|) && IsSquare(cov, |means|)
    requires UpdatableState(s, nPhis, |means|, nTimes)
    ensures var r := UpdateSpec(s, nPhis, means, cov, nTimes);
      && r.matrices == BuiltMatrices(nPhis, |means|, nTimes)
      && (s.matrices != [] ==> r.matrices == s.matrices)
      && UpdatableState(r, nPhis, |means|, nTimes)
      && |r.marginals| == 2
  {
    var mats := BuiltMatrices(nPhis, |means|, nTimes);
    var zero := ZeroBand(nTimes * nPhis);
    var prev := if s.marginals == [] then [zero, zero] else s.marginals;
    forall e | 1 <= e <= nPhis
      ensures Marginal(mats, nPhis, means, cov, e).dim == nTimes * nPhis
    {
      MarginalInBand(nPhis, nTimes, means, cov, e);
    }
    MarginalsUpToDims(mats, nPhis, means, cov, prev, nPhis + 1, nTimes * nPhis);
  }

  /** Recomputed and kept marginals alike have order d when the marginals of
      the recomputed echoes and the kept ones do. */
  lemma MarginalsUpToDims(mats: seq<Band>, nPhis: nat, means: seq<real>, cov: Matrix, prev: seq<Band>, n: nat, d: nat)
    requires ValidConfig(nPhis, |means|) && IsSquare(cov, |means|)
    requires |mats| == TableSize(nPhis) && |prev| == 2 && n <= nPhis + 1
    requires forall k :: 0 <= k < 2 ==> prev[k].dim == d
    requires forall e :: 1 <= e < n ==> Marginal(mats, nPhis, means, cov, e).dim == d
    ensures forall k :: 0 <= k < 2 ==> MarginalsUpTo(mats, nPhis, means, cov, prev, n)[k].dim == d
  {
    var r := MarginalsUpTo(mats, nPhis, means, cov, prev, n);
    forall k | 0 <= k < 2
      ensures r[k].dim == d
    {
      if k < n - 1 {
        assert r[k] == Marginal(mats, nPhis, means, cov, k + 1);
      } else {
        assert r[k] == prev[k];
      }
    }
  }

  /** Updating twice with the same moments gives the same cache as once. */
  lemma UpdateIdempotent(s: CacheState, nPhis: nat, means: seq<real>, cov: Matrix, nTimes: nat)
    requires ValidConfig(nPhis, |means|) && IsSquare(cov, |means|)
    requires UpdatableState(s, nPhis, |means|, nTimes)
    ensures UpdatableState(UpdateSpec(s, nPhis, means, cov, nTimes), nPhis, |means|, nTimes)
    ensures var once := UpdateSpec(s, nPhis, means, cov, nTimes);
      UpdateSpec(once, nPhis, means, cov, nTimes) == once
  {
    UpdateBuildsOnce(s, nPhis, means, cov, nTimes);
    var once := UpdateSpec(s, nPhis, means, cov, nTimes);
    var twice := UpdateSpec(once, nPhis, means, cov, nTimes);
    assert twice.marginals == once.marginals;
  }

  // ---------------------------------------------------------------------------
  // The cache object

  /** Builds base matrix (n, a12pow, a34pow): a zero matrix of order
      nTimes * nPhis with the value written along its line, cell by cell. */
  method BuildBase(nPhis: nat, nTimes: nat, n: nat, a12pow: nat, a34pow: nat) returns (mat: Band)
    requires 1 <= nPhis <= 2 && (n == 1 || n == 2)
    requires a12pow + a34pow <= 2
    ensures mat == BaseMatrix(nPhis, nTimes, n, a12pow, a34pow)
  {
    var start := StartCell(nPhis, a12pow, a34pow).value;
    var row, col := start.0, start.1;
    var value := CellValue(a12pow, a34pow);
    if n == 2 {
      row, col := EchoSwap(row), EchoSwap(col);
    }
    ghost var row0, col0 := row, col;
    var cells: map<(nat, nat), real> := map[];
    var count := 0;
    while count < LineLength(nTimes)
      invariant count <= LineLength(nTimes)
      invariant row == row0 + count * nPhis && col == col0 + count * nPhis
      invariant cells == LineCells(row0, col0, nPhis, count, value)
    {
      cells := cells[Lower(row, col) := value];
      count, row, col := count + 1, row + nPhis, col + nPhis;
    }
    mat := Band(nTimes * nPhis, cells);
  }

  /** Slot s precedes the loop position (n, a12pow, a34pow) in build order. */
  predicate Before(s: Slot, n: nat, a12pow: nat, a34pow: nat) {
    s.n < n || (s.n == n && (s.a12pow < a12pow || (s.a12pow == a12pow && s.a34pow < a34pow)))
  }

  /** Content of slot idx once the build loop has reached (n, a12pow, a34pow). */
  function PartialEntry(nPhis: nat, nAlphas: nat, nTimes: nat, idx: nat, n: nat, a12pow: nat, a34pow: nat): Band
    requires idx < 18
  {
    if Before(UnflattenIndex(idx), n, a12pow, a34pow) then TableEntry(nPhis, nAlphas, nTimes, idx) else Empty
  }

  /** The table once the build loop has reached (n, a12pow, a34pow). */
  function Partial(nPhis: nat, nAlphas: nat, nTimes: nat, n: nat, a12pow: nat, a34pow: nat): (mats: seq<Band>)
    requires nPhis == 1 || nPhis == 2
    ensures |mats| == TableSize(nPhis)
  {
    seq(TableSize(nPhis), idx requires 0 <= idx < TableSize(nPhis) => PartialEntry(nPhis, nAlphas, nTimes, idx, n, a12pow, a34pow))
  }

  /** Before the loop nothing is built: every slot is default-constructed. */
  lemma PartialAtStart(nPhis: nat, nAlphas: nat, nTimes: nat)
    requires nPhis == 1 || nPhis == 2
    ensures Partial(nPhis, nAlphas, nTimes, 1, 0, 0) == seq(TableSize(nPhis), _ => Empty)
  {
  }

  /** Slot by slot, advancing the loop by one position reveals exactly the slot
      at that position. */
  lemma PartialEntryStep(nPhis: nat, nAlphas: nat, nTimes: nat, idx: nat, n: nat, a12pow: nat, a34pow: nat)
    requires idx < 18 && (n == 1 || n == 2) && a12pow <= 2 && a34pow <= 2
    ensures PartialEntry(nPhis, nAlphas, nTimes, idx, n, a12pow, a34pow + 1)
      == if idx == FlattenIndex(n, a12pow, a34pow) then TableEntry(nPhis, nAlphas, nTimes, idx)
         else PartialEntry(nPhis, nAlphas, nTimes, idx, n, a12pow, a34pow)
  {
    FlattenIndexRoundTrip(n, a12pow, a34pow);
  }

  /** A slot the loop fills holds its base matrix in the finished table. */
  lemma TableEntryBuilt(nPhis: nat, nAlphas: nat, nTimes: nat, n: nat, a12pow: nat, a34pow: nat)
    requires ValidConfig(nPhis, nAlphas) && 1 <= n <= nPhis && a12pow + a34pow <= 2
    requires a34pow == 0 || nAlphas >= 3
    ensures TableEntry(nPhis, nAlphas, nTimes, FlattenIndex(n, a12pow, a34pow)) == BaseMatrix(nPhis, nTimes, n, a12pow, a34pow)
  {
    FlattenIndexRoundTrip(n, a12pow, a34pow);
  }

  /** Building slot (n, a12pow, a34pow) advances the table by one position. */
  lemma PartialStep(nPhis: nat, nAlphas: nat, nTimes: nat, n: nat, a12pow: nat, a34pow: nat)
    requires ValidConfig(nPhis, nAlphas) && 1 <= n <= nPhis && a12pow + a34pow <= 2
    requires a34pow == 0 || nAlphas >= 3
    ensures FlattenIndex(n, a12pow, a34pow) < TableSize(nPhis)
    ensures Partial(nPhis, nAlphas, nTimes, n, a12pow, a34pow)[FlattenIndex(n, a12pow, a34pow) := BaseMatrix(nPhis, nTimes, n, a12pow, a34pow)]
      == Partial(nPhis, nAlphas, nTimes, n, a12pow, a34pow + 1)
  {
    var k := FlattenIndex(n, a12pow, a34pow);
    var before := Partial(nPhis, nAlphas, nTimes, n, a12pow, a34pow);
    var after := Partial(nPhis, nAlphas, nTimes, n, a12pow, a34pow + 1);
    TableEntryBuilt(nPhis, nAlphas, nTimes, n, a12pow, a34pow);
    forall idx | 0 <= idx < |after|
      ensures before[k := BaseMatrix(nPhis, nTimes, n, a12pow, a34pow)][idx] == after[idx]
    {
      PartialEntryStep(nPhis, nAlphas, nTimes, idx, n, a12pow, a34pow);
    }
  }

  /** Leaving the innermost loop, at its bound or at the break for a model
      without cross terms, skips only slots that are never built. */
  lemma PartialRowDone(nPhis: nat, nAlphas: nat, nTimes: nat, n: nat, a12pow: nat, a34pow: nat)
    requires ValidConfig(nPhis, nAlphas) && a12pow <= 2
    requires a34pow == 3 - a12pow || (nAlphas < 3 && a34pow > 0)
    ensures Partial(nPhis, nAlphas, nTimes, n, a12pow, a34pow) == Partial(nPhis, nAlphas, nTimes, n, a12pow + 1, 0)
  {
  }

  /** After a12pow = 2 the echo is complete. */
  lemma PartialEchoDone(nPhis: nat, nAlphas: nat, nTimes: nat, n: nat)
    requires nPhis == 1 || nPhis == 2
    ensures Partial(nPhis, nAlphas, nTimes, n, 3, 0) == Partial(nPhis, nAlphas, nTimes, n + 1, 0, 0)
  {
  }

  /** After the last echo the table is the built family. */
  lemma PartialAtEnd(nPhis: nat, nAlphas: nat, nTimes: nat)
    requires nPhis == 1 || nPhis == 2
    ensures Partial(nPhis, nAlphas, nTimes, nPhis + 1, 0, 0) == BuiltMatrices(nPhis, nAlphas, nTimes)
  {
  }

  /** Builds every base matrix the configuration needs, in the source's loop
      order; slots never reached stay default-constructed. */
  method BuildTable(nPhis: nat, nAlphas: nat, nTimes: nat) returns (mats: seq<Band>)
    requires ValidConfig(nPhis, nAlphas)
    ensures mats == BuiltMatrices(nPhis, nAlphas, nTimes)
  {
    mats := seq(TableSize(nPhis), _ => Empty);
    PartialAtStart(nPhis, nAlphas, nTimes);
    var n := 1;
    while n <= nPhis
      invariant 1 <= n <= nPhis + 1
      invariant mats == Partial(nPhis, nAlphas, nTimes, n, 0, 0)
    {
      var a12pow := 0;
      while a12pow <= 2
        invariant a12pow <= 3
        invariant mats == Partial(nPhis, nAlphas, nTimes, n, a12pow, 0)
      {
        var a34pow := 0;
        while a34pow <= 2 - a12pow
          invariant a34pow <= 3 - a12pow
          invariant mats == Partial(nPhis, nAlphas, nTimes, n, a12pow, a34pow)
        {
          if nAlphas < 3 && a34pow > 0 {
            break; // no cross-term coefficient, so no cross-term matrices
          }
          var index := FlattenIndex(n, a12pow, a34pow);
          PartialStep(nPhis, nAlphas, nTimes, n, a12pow, a34pow);
          var mat := BuildBase(nPhis, nTimes, n, a12pow, a34pow);
          mats := mats[index := mat];
          a34pow := a34pow + 1;
        }
        PartialRowDone(nPhis, nAlphas, nTimes, n, a12pow, a34pow);
        a12pow := a12pow + 1;
      }
      PartialEchoDone(nPhis, nAlphas, nTimes, n);
      n := n + 1;
    }
    PartialAtEnd(nPhis, nAlphas, nTimes);
  }

  class MatrixCache {
    const nPhis: nat
    var alphaMatrices: seq<Band>
    var alphaMarginals: seq<Band>
    // the sizes the matrices were built for
    ghost var nAlphasBuilt: nat
    ghost var nTimesBuilt: nat

    ghost predicate Valid()
      reads this
    {
      && (nPhis == 1 || nPhis == 2)
      && UpdatableState(State(), nPhis, nAlphasBuilt, nTimesBuilt)
      && (alphaMatrices != [] ==> ValidConfig(nPhis, nAlphasBuilt) && |alphaMarginals| == 2)
    }

    function State(): CacheState
      reads this
    {
      CacheState(alphaMatrices, alphaMarginals)
    }

    constructor (numPhis: nat)
      requires numPhis == 1 || numPhis == 2
      ensures Valid() && nPhis == numPhis
      ensures State() == CacheState([], [])
    {
      nPhis := numPhis;
      alphaMatrices, alphaMarginals := [], [];
    }

    /** The copy made when a parameter set is cloned: both vectors by value. */
    constructor Copy(from: MatrixCache)
      requires from.Valid()
      ensures Valid() && nPhis == from.nPhis && State() == from.State()
      ensures nAlphasBuilt == from.nAlphasBuilt && nTimesBuilt == from.nTimesBuilt
    {
      nPhis := from.nPhis;
      alphaMatrices, alphaMarginals := from.alphaMatrices, from.alphaMarginals;
      nAlphasBuilt, nTimesBuilt := from.nAlphasBuilt, from.nTimesBuilt;
    }

    /** Refreshes the marginals from the alpha mean and covariance, building the
        base matrices first if this is the first call. */
    method Update(means: seq<real>, cov: Matrix, nTimes: nat)
      requires Valid() && ValidConfig(nPhis, |means|) && IsSquare(cov, |means|) && Symmetric(cov)
      requires alphaMatrices != [] ==> nAlphasBuilt == |means| && nTimesBuilt == nTimes
      modifies this
      ensures Valid()
      ensures alphaMatrices != [] && nAlphasBuilt == |means| && nTimesBuilt == nTimes
      ensures State() == UpdateSpec(old(State()), nPhis, means, cov, nTimes)
    {
      var nAlphas := |means|;
      if alphaMatrices == [] {
        var mats := BuildTable(nPhis, nAlphas, nTimes);
        alphaMatrices := mats;
        nAlphasBuilt, nTimesBuilt := nAlphas, nTimes;
      }

      var dim := nTimes * nPhis;
      if alphaMarginals == [] {
        alphaMarginals := [ZeroBand(dim), ZeroBand(dim)];
      }
      alphaMarginals := RefreshMarginals(alphaMatrices, nPhis, means, cov, alphaMarginals);
      ghost var spec := UpdateSpec(old(State()), nPhis, means, cov, nTimes);
      assert spec.matrices == alphaMatrices && spec.marginals == alphaMarginals;
      UpdateBuildsOnce(old(State()), nPhis, means, cov, nTimes);
      assert UpdatableState(State(), nPhis, nAlphas, nTimes);
    }

    /** The stored base matrix (n, a12pow, a34pow). */
    function GetMatrix(n: nat, a12pow: nat, a34pow: nat): (m: Band)
      reads this
      requires Valid() && alphaMatrices != []
      requires 1 <= n <= nPhis && a12pow + a34pow <= 2
      ensures m == if a34pow == 0 || nAlphasBuilt >= 3 then BaseMatrix(nPhis, nTimesBuilt, n, a12pow, a34pow) else Empty
    {
      BuiltMatricesAt(nPhis, nAlphasBuilt, nTimesBuilt, n, a12pow, a34pow);
      alphaMatrices[FlattenIndex(n, a12pow, a34pow)]
    }

    /** The marginal of echo n; an internal error when fewer than n marginals
        exist (before the first Update, for instance). */
    function GetMarginal(n: nat): (r: Result<Band>)
      reads this
      requires n >= 1
      ensures r.Ok? <==> n <= |alphaMarginals|
      ensures r.Ok? ==> r.value == alphaMarginals[n - 1]
      ensures r.Err? ==> r.error == InternalError(MarginalsMissing(n, |alphaMarginals|))
    {
      if |alphaMarginals| < n then Err(InternalError(MarginalsMissing(n, |alphaMarginals|)))
      else Ok(alphaMarginals[n - 1])
    }
  }
}
