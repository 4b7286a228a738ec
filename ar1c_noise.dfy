/** The AR(1)-with-cross-terms noise model: its configuration, its parameter
    set (the alpha coefficients with a multivariate normal distribution, one
    Gamma-distributed noise precision phi per echo, and the alpha-matrix
    cache), and the variational updates of those parameters, as far as they
    are bookkeeping over entries rather than linear algebra.

    The quadratic-form-plus-trace evaluator (OperatorKLJ) and the matrix
    inverse behind MVNDist::GetCovariance are function parameters. */
module Ar1cNoise {
  import opened Common
  import opened Ar1cCache

  // ---------------------------------------------------------------------------
  // Configuration

  /** Number of alpha coefficients a cross-term mode needs; any other mode is
      an internal error (options are validated before this is reached). */
  function NumAlphas(ar1Type: string): (r: Result<nat>)
    ensures r.Ok? ==> 2 <= r.value <= 4
    ensures r.Err? ==> r.error.InternalError?
  {
    if ar1Type == "same" then Ok(3)
    else if ar1Type == "dual" then Ok(4)
    else if ar1Type == "none" then Ok(2)
    else Err(InternalError(UnknownAr1Type))
  }

  /** The mode that needs nAlphas coefficients. */
  function CrossTermsMode(nAlphas: nat): string
    requires 2 <= nAlphas <= 4
  {
    if nAlphas == 2 then "none" else if nAlphas == 3 then "same" else "dual"
  }

  /** Exactly the three modes are accepted, and modes and coefficient counts
      correspond one to one. */
  lemma NumAlphasModes(ar1Type: string, nAlphas: nat)
    ensures NumAlphas(ar1Type).Ok? <==> ar1Type in {"none", "same", "dual"}
    ensures NumAlphas(ar1Type).Ok? ==> CrossTermsMode(NumAlphas(ar1Type).value) == ar1Type
    ensures 2 <= nAlphas <= 4 ==> NumAlphas(CrossTermsMode(nAlphas)) == Ok(nAlphas)
  {
  }

  /** The validation of Initialize, in the source's order: the cross-term mode
      first, then the echo count. */
  function ConfigCheck(nPhis: int, ar1Type: string): Outcome {
    if NumAlphas(ar1Type).Err? then Fail(NumAlphas(ar1Type).error)
    else if nPhis == 1 then
      if ar1Type != "none" then
        Fail(InvalidOptionValue("ar1-cross-terms", ar1Type, "You must use ar1-cross-terms=none with num-echoes=1"))
      else Pass
    else if nPhis == 2 then Pass
    else Fail(InvalidOptionValue("num-echoes", IntToString(nPhis), "Must be 1 or 2"))
  }

  /** A configuration passes exactly when it is one the alpha-matrix cache can
      be built for: one or two echoes, and cross terms only with two. */
  lemma ConfigCheckAccepts(nPhis: int, ar1Type: string)
    ensures ConfigCheck(nPhis, ar1Type).Pass? <==>
      NumAlphas(ar1Type).Ok? && (nPhis == 1 || nPhis == 2) && ValidConfig(nPhis, NumAlphas(ar1Type).value)
  {
  }

  /** Which error each rejected configuration raises. */
  lemma ConfigCheckErrors(nPhis: int, ar1Type: string)
    ensures NumAlphas(ar1Type).Err? ==> ConfigCheck(nPhis, ar1Type) == Fail(NumAlphas(ar1Type).error)
    ensures NumAlphas(ar1Type).Ok? && nPhis == 1 && ar1Type != "none" ==>
      ConfigCheck(nPhis, ar1Type).Fail? && ConfigCheck(nPhis, ar1Type).error.InvalidOptionValue?
      && ConfigCheck(nPhis, ar1Type).error.option == "ar1-cross-terms" && ConfigCheck(nPhis, ar1Type).error.value == ar1Type
    ensures NumAlphas(ar1Type).Ok? && nPhis != 1 && nPhis != 2 ==>
      ConfigCheck(nPhis, ar1Type).Fail? && ConfigCheck(nPhis, ar1Type).error.InvalidOptionValue?
      && ConfigCheck(nPhis, ar1Type).error.option == "num-echoes" && ConfigCheck(nPhis, ar1Type).error.value == IntToString(nPhis)
  {
  }

  // ---------------------------------------------------------------------------
  // Parameters

  /** A Gamma distribution with scale b and shape c (mean b * c). */
  datatype GammaDist = GammaDist(b: real, c: real)

  /** The shape every phi gets from nTimes samples per echo: (nTimes - 1)/2 on
      top of the prior shape. */
  function PhiShape(priorC: real, nTimes: nat): real {
    (nTimes as real - 1.0) * 0.5 + priorC
  }

  /** The noise parameters: alpha mean and precision (the precision of a
      symmetric matrix stored by its lower triangle, like the cache's
      matrices), one Gamma distribution per echo, and the alpha-matrix cache. */
  class Ar1cParams {
    var alphaMeans: seq<real>
    var alphaPrecisions: Band
    var phis: seq<GammaDist>
    const alphaMat: MatrixCache

    ghost predicate Valid()
      reads this, alphaMat
    {
      && alphaPrecisions.dim == |alphaMeans|
      && alphaMat.Valid() && alphaMat.nPhis == |phis|
    }

    /** Parameters for nAlpha coefficients and nPhi echoes, with an empty cache. */
    constructor (nAlpha: nat, nPhi: nat)
      requires nPhi == 1 || nPhi == 2
      ensures Valid() && |alphaMeans| == nAlpha && |phis| == nPhi
      ensures fresh(alphaMat) && alphaMat.State() == CacheState([], [])
    {
      alphaMeans := seq(nAlpha, _ => 0.0);
      alphaPrecisions := ZeroBand(nAlpha);
      phis := seq(nPhi, _ => GammaDist(0.0, 0.0));
      alphaMat := new MatrixCache(nPhi);
    }

    /** The copy made by Clone: every member by value, the cache included. */
    constructor Copy(from: Ar1cParams)
      requires from.Valid()
      ensures Valid()
      ensures alphaMeans == from.alphaMeans && alphaPrecisions == from.alphaPrecisions && phis == from.phis
      ensures fresh(alphaMat) && alphaMat.State() == from.alphaMat.State()
    {
      alphaMeans, alphaPrecisions, phis := from.alphaMeans, from.alphaPrecisions, from.phis;
      alphaMat := new MatrixCache.Copy(from.alphaMat);
    }
  }

  // ---------------------------------------------------------------------------
  // Small symmetric matrices stored by their lower triangle

  /** m(i, j) += x on a symmetric matrix: (i, j) and (j, i) share one cell. */
  function AddAt(m: Band, i: nat, j: nat, x: real): (r: Band)
    ensures r.dim == m.dim
  {
    Band(m.dim, m.cells[Lower(i, j) := Entry(m, i, j) + x])
  }

  /** Only the cell of (i, j) changes, by x. */
  lemma AddAtCell(m: Band, i: nat, j: nat, x: real, c: (nat, nat))
    ensures AddAt(m, i, j, x).dim == m.dim
    ensures Cell(AddAt(m, i, j, x).cells, c) == Cell(m.cells, c) + (if c == Lower(i, j) then x else 0.0)
  {
  }

  /** s times the identity of order n. */
  function ScaledIdentityBand(n: nat, s: real): Band {
    Band(n, map i | 1 <= i <= n :: (i, i) := s)
  }

  /** s on the diagonal, zero elsewhere. */
  lemma ScaledIdentityEntry(n: nat, s: real, i: nat, j: nat)
    ensures ScaledIdentityBand(n, s).dim == n
    ensures Entry(ScaledIdentityBand(n, s), i, j) == if i == j && 1 <= i <= n then s else 0.0
  {
    if i == j && 1 <= i <= n {
      assert Lower(i, j) in ScaledIdentityBand(n, s).cells;
    }
  }

  /** Sum over j = 1..n of m(i, j) * v(j). */
  function RowDot(m: Band, i: nat, v: seq<real>, n: nat): real
    requires n <= |v|
  {
    if n == 0 then 0.0 else RowDot(m, i, v, n - 1) + Entry(m, i, n) * v[n - 1]
  }

  /** A symmetric matrix times a column vector. */
  function SymMatVec(m: Band, v: seq<real>): (r: seq<real>)
    ensures |r| == |v|
  {
    seq(|v|, i requires 0 <= i < |v| => RowDot(m, i + 1, v, |v|))
  }

  // ---------------------------------------------------------------------------
  // The alpha update

  /** OperatorKLJ, k' M k + trace(inv(L) J' M J), applied to the base matrices
      M(n,1,0), M(n,2,0), M(n,0,1), M(n,1,1), M(n,0,2) of one echo. */
  datatype EchoTerms = EchoTerms(m10: real, m20: real, m01: real, m11: real, m02: real)

  const NoTerms := EchoTerms(0.0, 0.0, 0.0, 0.0, 0.0)

  /** The terms of echo n from the cached matrices (none for an absent echo). */
  function TermsAt(op: Band -> real, mats: seq<Band>, nPhis: nat, n: nat): EchoTerms {
    if (nPhis == 1 || nPhis == 2) && 1 <= n <= nPhis && |mats| == TableSize(nPhis) then
      var e := EchoSlotsOf(mats, nPhis, n);
      EchoTerms(op(e.m10), op(e.m20), op(e.m01), op(e.m11), op(e.m02))
    else NoTerms
  }

  /** The weight s_n c_n of echo n's noise precision. */
  function Scale(phis: seq<GammaDist>, n: nat): real {
    if 1 <= n <= |phis| then phis[n - 1].b * phis[n - 1].c else 0.0
  }

  /** The terms of an echo weighted by its s_n c_n, as every use multiplies
      them; below, w1 and w2 are these for echoes 1 and 2, and s_n K(...)
      in a comment stands for a field of w_n. */
  function Weighted(s: real, t: EchoTerms): (w: EchoTerms) {
    EchoTerms(s * t.m10, s * t.m20, s * t.m01, s * t.m11, s * t.m02)
  }

  /** The weighted terms of echo n. */
  function WeightedTermsAt(op: Band -> real, phis: seq<GammaDist>, mats: seq<Band>, nPhis: nat, n: nat): EchoTerms {
    Weighted(Scale(phis, n), TermsAt(op, mats, nPhis, n))
  }

  /** The diagonal term s_n K(n,2,0) echo n adds to cell (n, n). */
  function EchoIncrement(n: nat, w1: EchoTerms, w2: EchoTerms): real {
    if n == 1 then w1.m20 else w2.m20
  }

  /** The prior precision once the echo loop has run for echoes 1..upTo. */
  function OwnPart(prior: Band, upTo: nat, w1: EchoTerms, w2: EchoTerms): (r: Band)
    ensures r.dim == prior.dim
  {
    if upTo == 0 then prior
    else AddAt(OwnPart(prior, upTo - 1, w1, w2), upTo, upTo, EchoIncrement(upTo, w1, w2))
  }

  /** The cross-term block on p, T = t: (3,1) += s_1 K(1,1,1)/2, (T,2) +=
      s_2 K(2,1,1)/2, (3,3) += s_1 K(1,0,2), (T,T) += s_2 K(2,0,2), in that
      order; nothing without cross terms. */
  function CrossPart(p: Band, t: nat, w1: EchoTerms, w2: EchoTerms): (r: Band)
    ensures r.dim == p.dim
  {
    if t > 2 then
      AddAt(AddAt(AddAt(AddAt(p, 3, 1, 0.5 * w1.m11), t, 2, 0.5 * w2.m11), 3, 3, w1.m02), t, t, w2.m02)
    else p
  }

  /** The posterior alpha precision UpdateAlpha computes. */
  function PosteriorPrecision(prior: Band, nPhis: nat, w1: EchoTerms, w2: EchoTerms): (r: Band)
    ensures r.dim == prior.dim
  {
    CrossPart(OwnPart(prior, nPhis, w1, w2), prior.dim, w1, w2)
  }

  /** What the echo loop has added to stored cell c once echoes 1..upTo are done:
      s_n K(n,2,0) on the diagonal cell (n, n). */
  function OwnIncrement(upTo: nat, w1: EchoTerms, w2: EchoTerms, c: (nat, nat)): real {
    (if upTo >= 1 && c == (1, 1) then w1.m20 else 0.0)
    + (if upTo >= 2 && c == (2, 2) then w2.m20 else 0.0)
  }

  /** What the cross-term block adds to stored cell c, T = nAlphas. When T = 3
      the cells (3,3) and (T,T) coincide and both terms land there. */
  function CrossIncrement(nAlphas: nat, w1: EchoTerms, w2: EchoTerms, c: (nat, nat)): real {
    if nAlphas > 2 then
      (if c == (3, 1) then 0.5 * w1.m11 else 0.0)
      + (if c == (nAlphas, 2) then 0.5 * w2.m11 else 0.0)
      + (if c == (3, 3) then w1.m02 else 0.0)
      + (if c == (nAlphas, nAlphas) then w2.m02 else 0.0)
    else 0.0
  }

  /** p is the prior precision with every increment of UpdateAlpha added. */
  ghost predicate IsAccumulated(p: Band, prior: Band, nPhis: nat, w1: EchoTerms, w2: EchoTerms) {
    && p.dim == prior.dim
    && forall c :: Cell(p.cells, c) == Cell(prior.cells, c) + OwnIncrement(nPhis, w1, w2, c) + CrossIncrement(prior.dim, w1, w2, c)
  }

  /** After the echo loop, each diagonal cell (n, n), n <= upTo, carries its echo's term. */
  lemma {:induction false} OwnPartCell(prior: Band, upTo: nat, w1: EchoTerms, w2: EchoTerms, c: (nat, nat))
    requires upTo <= 2
    ensures OwnPart(prior, upTo, w1, w2).dim == prior.dim
    ensures Cell(OwnPart(prior, upTo, w1, w2).cells, c) == Cell(prior.cells, c) + OwnIncrement(upTo, w1, w2, c)
  {
    if upTo > 0 {
      var q := OwnPart(prior, upTo - 1, w1, w2);
      OwnPartCell(prior, upTo - 1, w1, w2, c);
      AddAtCell(q, upTo, upTo, EchoIncrement(upTo, w1, w2), c);
    }
  }

  /** The cross-term block adds CrossIncrement to every cell. */
  lemma CrossPartCell(p: Band, t: nat, w1: EchoTerms, w2: EchoTerms, c: (nat, nat))
    ensures CrossPart(p, t, w1, w2).dim == p.dim
    ensures Cell(CrossPart(p, t, w1, w2).cells, c) == Cell(p.cells, c) + CrossIncrement(t, w1, w2, c)
  {
    if t > 2 {
      var q1 := AddAt(p, 3, 1, 0.5 * w1.m11);
      var q2 := AddAt(q1, t, 2, 0.5 * w2.m11);
      var q3 := AddAt(q2, 3, 3, w1.m02);
      AddAtCell(p, 3, 1, 0.5 * w1.m11, c);
      AddAtCell(q1, t, 2, 0.5 * w2.m11, c);
      AddAtCell(q2, 3, 3, w1.m02, c);
      AddAtCell(q3, t, t, w2.m02, c);
    }
  }

  /** The cross-term diagonal: with a shared cross coefficient (T = 3) cell
      (3,3) receives both echoes' K(n,0,2) terms and (3,2) echo 2's K(2,1,1)/2;
      with one coefficient per echo (T = 4) echo 1's term goes to (3,3), echo
      2's to (4,4), and (4,2) receives echo 2's K(2,1,1)/2. */
  lemma CrossPartDiagonal(p: Band, t: nat, w1: EchoTerms, w2: EchoTerms)
    requires t == 3 || t == 4
    ensures t == 3 ==> Cell(CrossPart(p, t, w1, w2).cells, (3, 3)) == Cell(p.cells, (3, 3)) + w1.m02 + w2.m02
    ensures t == 3 ==> Cell(CrossPart(p, t, w1, w2).cells, (3, 2)) == Cell(p.cells, (3, 2)) + 0.5 * w2.m11
    ensures t == 4 ==> Cell(CrossPart(p, t, w1, w2).cells, (3, 3)) == Cell(p.cells, (3, 3)) + w1.m02
    ensures t == 4 ==> Cell(CrossPart(p, t, w1, w2).cells, (4, 4)) == Cell(p.cells, (4, 4)) + w2.m02
    ensures t == 4 ==> Cell(CrossPart(p, t, w1, w2).cells, (4, 2)) == Cell(p.cells, (4, 2)) + 0.5 * w2.m11
    ensures Cell(CrossPart(p, t, w1, w2).cells, (3, 1)) == Cell(p.cells, (3, 1)) + 0.5 * w1.m11
  {
    CrossPartCell(p, t, w1, w2, (3, 3));
    CrossPartCell(p, t, w1, w2, (3, 2));
    CrossPartCell(p, t, w1, w2, (4, 4));
    CrossPartCell(p, t, w1, w2, (4, 2));
    CrossPartCell(p, t, w1, w2, (3, 1));
  }

  /** The posterior precision is the prior with exactly the increments of the
      source added, cell by cell. */
  lemma PosteriorPrecisionAccumulates(prior: Band, nPhis: nat, w1: EchoTerms, w2: EchoTerms)
    requires nPhis <= 2
    ensures IsAccumulated(PosteriorPrecision(prior, nPhis, w1, w2), prior, nPhis, w1, w2)
  {
    var own := OwnPart(prior, nPhis, w1, w2);
    forall c ensures Cell(PosteriorPrecision(prior, nPhis, w1, w2).cells, c)
      == Cell(prior.cells, c) + OwnIncrement(nPhis, w1, w2, c) + CrossIncrement(prior.dim, w1, w2, c)
    {
      OwnPartCell(prior, nPhis, w1, w2, c);
      CrossPartCell(own, prior.dim, w1, w2, c);
    }
    OwnPartCell(prior, nPhis, w1, w2, (0, 0));
    CrossPartCell(own, prior.dim, w1, w2, (0, 0));
  }

  /** The cells UpdateAlpha may change. */
  function TouchedCells(nPhis: nat, nAlphas: nat): set<(nat, nat)> {
    (if nPhis >= 2 then {(1, 1), (2, 2)} else {(1, 1)})
    + (if nAlphas > 2 then {(3, 1), (nAlphas, 2), (3, 3), (nAlphas, nAlphas)} else {})
  }

  /** Every other cell of the precision keeps its prior value. */
  lemma AccumulatedUntouched(p: Band, prior: Band, nPhis: nat, w1: EchoTerms, w2: EchoTerms, c: (nat, nat))
    requires IsAccumulated(p, prior, nPhis, w1, w2)
    requires c !in TouchedCells(nPhis, prior.dim)
    ensures Cell(p.cells, c) == Cell(prior.cells, c)
  {
    assert OwnIncrement(nPhis, w1, w2, c) == 0.0;
    assert CrossIncrement(prior.dim, w1, w2, c) == 0.0;
  }

  /** Adds the alpha-precision terms to the prior precision: the diagonal term
      of every echo, then with cross terms the four cross-term cells. */
  method AccumulatePrecision(prior: Band, nPhis: nat, w1: EchoTerms, w2: EchoTerms) returns (p: Band)
    requires ValidConfig(nPhis, prior.dim)
    ensures p == PosteriorPrecision(prior, nPhis, w1, w2)
    ensures IsAccumulated(p, prior, nPhis, w1, w2)
  {
    var t := prior.dim;
    p := prior;
    for i := 1 to nPhis + 1
      invariant p == OwnPart(prior, i - 1, w1, w2)
    {
      var x := if i == 1 then w1.m20 else w2.m20;
      assert x == EchoIncrement(i, w1, w2);
      p := AddAt(p, i, i, x);
      assert p == OwnPart(prior, i, w1, w2);
    }
    if t > 2 {
      p := AddAt(p, 3, 1, 0.5 * w1.m11);
      p := AddAt(p, t, 2, 0.5 * w2.m11);
      p := AddAt(p, 3, 3, w1.m02);
      p := AddAt(p, t, t, w2.m02);
    }
    PosteriorPrecisionAccumulates(prior, nPhis, w1, w2);
  }

  /** The term -s_n K(n,1,0)/2 echo n adds to entry n of the right-hand side. */
  function EchoRhsIncrement(n: nat, w1: EchoTerms, w2: EchoTerms): real {
    if n == 1 then -0.5 * w1.m10 else -0.5 * w2.m10
  }

  /** base once the echo loop has run for echoes 1..upTo. */
  function OwnRhs(base: seq<real>, upTo: nat, w1: EchoTerms, w2: EchoTerms): (r: seq<real>)
    requires upTo <= |base|
    ensures |r| == |base|
  {
    if upTo == 0 then base
    else
      var q := OwnRhs(base, upTo - 1, w1, w2);
      q[upTo - 1 := q[upTo - 1] + EchoRhsIncrement(upTo, w1, w2)]
  }

  /** The cross-term entries on v, T = |v|: entry 3 += -s_1 K(1,0,1)/2, then
      entry T += -s_2 K(2,0,1)/2; nothing without cross terms. */
  function CrossRhs(v: seq<real>, w1: EchoTerms, w2: EchoTerms): (r: seq<real>)
    ensures |r| == |v|
  {
    if |v| > 2 then
      var q := v[2 := v[2] + -0.5 * w1.m01];
      q[|v| - 1 := q[|v| - 1] + -0.5 * w2.m01]
    else v
  }

  /** Entry by entry, the cross-term right-hand side adds -s_1 K(1,0,1)/2 to
      entry 3 and -s_2 K(2,0,1)/2 to entry T = |v|; with a shared coefficient
      (T = 3) both land on entry 3. */
  lemma CrossRhsEntries(v: seq<real>, w1: EchoTerms, w2: EchoTerms)
    ensures forall k :: 1 <= k <= |v| ==> CrossRhs(v, w1, w2)[k - 1] == v[k - 1] + CrossRhsIncrement(|v|, w1, w2, k)
    ensures |v| == 3 ==> CrossRhs(v, w1, w2)[2] == v[2] + -0.5 * w1.m01 + -0.5 * w2.m01
    ensures |v| == 4 ==> CrossRhs(v, w1, w2)[2] == v[2] + -0.5 * w1.m01 && CrossRhs(v, w1, w2)[3] == v[3] + -0.5 * w2.m01
  {
  }

  /** The right-hand side P m plus the terms of every echo, whose product with
      the posterior covariance is the new alpha mean. */
  function MeanRhs(prior: Band, means: seq<real>, nPhis: nat, w1: EchoTerms, w2: EchoTerms): (r: seq<real>)
    requires nPhis <= |means|
    ensures |r| == |means|
  {
    CrossRhs(OwnRhs(SymMatVec(prior, means), nPhis, w1, w2), w1, w2)
  }

  /** What the echo loop has added to entry k (1-based) for echoes 1..upTo. */
  function OwnRhsIncrement(upTo: nat, w1: EchoTerms, w2: EchoTerms, k: nat): real {
    (if upTo >= 1 && k == 1 then -0.5 * w1.m10 else 0.0)
    + (if upTo >= 2 && k == 2 then -0.5 * w2.m10 else 0.0)
  }

  /** What the cross-term entries add to entry k, T = nAlphas. */
  function CrossRhsIncrement(nAlphas: nat, w1: EchoTerms, w2: EchoTerms, k: nat): real {
    if nAlphas > 2 then
      (if k == 3 then -0.5 * w1.m01 else 0.0) + (if k == nAlphas then -0.5 * w2.m01 else 0.0)
    else 0.0
  }

  lemma {:induction false} OwnRhsEntry(base: seq<real>, upTo: nat, w1: EchoTerms, w2: EchoTerms, k: nat)
    requires upTo <= 2 && upTo <= |base| && 1 <= k <= |base|
    ensures OwnRhs(base, upTo, w1, w2)[k - 1] == base[k - 1] + OwnRhsIncrement(upTo, w1, w2, k)
  {
    if upTo > 0 {
      OwnRhsEntry(base, upTo - 1, w1, w2, k);
    }
  }

  /** Entry k of the right-hand side is the prior precision times the prior
      mean plus the echo terms and cross terms aimed at k. */
  lemma MeanRhsEntry(prior: Band, means: seq<real>, nPhis: nat, w1: EchoTerms, w2: EchoTerms, k: nat)
    requires nPhis <= 2 && nPhis <= |means| && 1 <= k <= |means|
    ensures MeanRhs(prior, means, nPhis, w1, w2)[k - 1] == SymMatVec(prior, means)[k - 1]
      + OwnRhsIncrement(nPhis, w1, w2, k) + CrossRhsIncrement(|means|, w1, w2, k)
  {
    OwnRhsEntry(SymMatVec(prior, means), nPhis, w1, w2, k);
  }

  /** Entries of the right-hand side other than the echoes' own (1..nPhis) and
      the cross-term ones are the prior precision times the prior mean. */
  lemma MeanRhsUntouched(prior: Band, means: seq<real>, nPhis: nat, w1: EchoTerms, w2: EchoTerms, k: nat)
    requires nPhis <= 2 && nPhis <= |means|
    requires 1 <= k <= |means| && k > nPhis && (|means| <= 2 || (k != 3 && k != |means|))
    ensures MeanRhs(prior, means, nPhis, w1, w2)[k - 1] == SymMatVec(prior, means)[k - 1]
  {
    MeanRhsEntry(prior, means, nPhis, w1, w2, k);
  }

  /** Builds the right-hand side from base = P m: the echo loop, then the
      cross-term entries. */
  method AccumulateRhs(base: seq<real>, nPhis: nat, w1: EchoTerms, w2: EchoTerms) returns (tmp: seq<real>)
    requires ValidConfig(nPhis, |base|)
    ensures tmp == CrossRhs(OwnRhs(base, nPhis, w1, w2), w1, w2)
  {
    var t := |base|;
    tmp := base;
    for i := 1 to nPhis + 1
      invariant tmp == OwnRhs(base, i - 1, w1, w2)
    {
      var x := if i == 1 then -0.5 * w1.m10 else -0.5 * w2.m10;
      assert x == EchoRhsIncrement(i, w1, w2);
      tmp := tmp[i - 1 := tmp[i - 1] + x];
      assert tmp == OwnRhs(base, i, w1, w2);
    }
    if t > 2 {
      tmp := tmp[2 := tmp[2] + -0.5 * w1.m01];
      tmp := tmp[t - 1 := tmp[t - 1] + -0.5 * w2.m01];
    }
  }

  /** Some variance (diagonal entry of the covariance) is negative. */
  predicate NegativeVariance(cov: Matrix) {
    exists i :: 0 <= i < |cov| && i < |cov[i]| && cov[i][i] < 0.0
  }

  /** The new alpha mean from the posterior covariance cov: none when a
      variance is negative, else cov times the right-hand side. */
  function PosteriorMean(prior: Band, means: seq<real>, nPhis: nat, w1: EchoTerms, w2: EchoTerms, cov: Matrix): (r: Option<seq<real>>)
    requires nPhis <= |means| && IsSquare(cov, |means|)
    ensures r.None? <==> NegativeVariance(cov)
    ensures r.Some? ==> |r.value| == |means|
  {
    if NegativeVariance(cov) then None else Some(MatVec(cov, MeanRhs(prior, means, nPhis, w1, w2)))
  }

  // ---------------------------------------------------------------------------
  // The phi update

  /** The reciprocal of a positive number is positive. */
  lemma PositiveReciprocal(d: real)
    requires d > 0.0
    ensures 1.0 / d > 0.0
  {
    assert d * (1.0 / d) == 1.0;
  }

  /** The updated phi of one echo from its prior and the expected quadratic form
      q of its marginal: b = 1 / (q/2 + 1/prior.b), c = PhiShape. None is the
      failed assertion that b is positive. */
  function PhiUpdate(prior: GammaDist, q: real, nTimes: nat): Option<GammaDist>
    requires prior.b > 0.0
  {
    var d := q * 0.5 + 1.0 / prior.b;
    if d <= 0.0 then None else Some(GammaDist(1.0 / d, PhiShape(prior.c, nTimes)))
  }

  /** The updated scale is positive and the shape does not depend on the
      residual, so once the shape is PhiShape an update leaves it unchanged. */
  lemma PhiUpdateShape(prior: GammaDist, q: real, q': real, nTimes: nat)
    requires prior.b > 0.0
    ensures PhiUpdate(prior, q, nTimes).Some? ==>
      PhiUpdate(prior, q, nTimes).value.b > 0.0 && PhiUpdate(prior, q, nTimes).value.c == PhiShape(prior.c, nTimes)
    ensures PhiUpdate(prior, q, nTimes).Some? && PhiUpdate(prior, q', nTimes).Some? ==>
      PhiUpdate(prior, q, nTimes).value.c == PhiUpdate(prior, q', nTimes).value.c
    ensures PhiUpdate(prior, q, nTimes).Some? <==> q * 0.5 + 1.0 / prior.b > 0.0
  {
    var d := q * 0.5 + 1.0 / prior.b;
    if d > 0.0 {
      PositiveReciprocal(d);
    }
  }

  /** Each phi keeps its scale and takes the shape PhiShape of its prior. */
  function PresetShapes(phis: seq<GammaDist>, priorPhis: seq<GammaDist>, nTimes: nat): (r: seq<GammaDist>)
    requires |priorPhis| == |phis|
    ensures |r| == |phis|
  {
    seq(|phis|, k requires 0 <= k < |phis| => GammaDist(phis[k].b, PhiShape(priorPhis[k].c, nTimes)))
  }

  /** Precalculate's loop over the echoes: c = prior c + (nTimes - 1)/2. */
  method PresetPhiShapes(phis: seq<GammaDist>, priorPhis: seq<GammaDist>, nTimes: nat) returns (r: seq<GammaDist>)
    requires |priorPhis| == |phis|
    ensures r == PresetShapes(phis, priorPhis, nTimes)
  {
    r := phis;
    for i := 0 to |phis|
      invariant |r| == |phis|
      invariant forall k :: 0 <= k < |phis| ==>
        r[k] == if k < i then GammaDist(phis[k].b, PhiShape(priorPhis[k].c, nTimes)) else phis[k]
    {
      r := r[i := GammaDist(r[i].b, priorPhis[i].c + (nTimes as real - 1.0) * 0.5)];
    }
  }

  /** After Precalculate, the first phi update leaves every shape as it is:
      the shape it computes is the one already stored. */
  lemma PresetShapeStable(phis: seq<GammaDist>, priorPhis: seq<GammaDist>, nTimes: nat, q: real, k: nat)
    requires |priorPhis| == |phis| && k < |phis| && priorPhis[k].b > 0.0
    requires PhiUpdate(priorPhis[k], q, nTimes).Some?
    ensures PhiUpdate(priorPhis[k], q, nTimes).value.c == PresetShapes(phis, priorPhis, nTimes)[k].c
  {
  }

  /** Every prior scale is positive (they are divided by). */
  ghost predicate PositiveScales(phis: seq<GammaDist>) {
    forall i :: 0 <= i < |phis| ==> phis[i].b > 0.0
  }

  // ---------------------------------------------------------------------------
  // The model

  class Ar1cNoiseModel {
    var nPhis: int
    var ar1Type: string

    /** Initialize succeeded. */
    ghost predicate Configured()
      reads this
    {
      ConfigCheck(nPhis, ar1Type).Pass?
    }

    /** Reads the echo count (default 1) and the cross-term mode (default
        "none") and validates them. The fields are set even when a check fails. */
    method Initialize(numEchoes: Option<int>, crossTerms: Option<string>) returns (o: Outcome)
      modifies this
      ensures nPhis == (if numEchoes.Some? then numEchoes.value else 1)
      ensures ar1Type == (if crossTerms.Some? then crossTerms.value else "none")
      ensures o == ConfigCheck(nPhis, ar1Type)
    {
      nPhis := if numEchoes.Some? then numEchoes.value else 1;
      ar1Type := if crossTerms.Some? then crossTerms.value else "none";
      var nAlphas := NumAlphas(ar1Type);
      if nAlphas.Err? {
        return Fail(nAlphas.error);
      }
      if nPhis == 1 {
        if ar1Type != "none" {
          return Fail(InvalidOptionValue("ar1-cross-terms", ar1Type, "You must use ar1-cross-terms=none with num-echoes=1"));
        }
      } else if nPhis != 2 {
        return Fail(InvalidOptionValue("num-echoes", IntToString(nPhis), "Must be 1 or 2"));
      }
      return Pass;
    }

    /** Initial distributions: alpha means zero with precision 1e-4 I in both;
        prior phis b = 1e6, c = 1e-6; posterior phis b = 1e-8, c = 1e-6. */
    method HardcodedInitialDists(prior: Ar1cParams, posterior: Ar1cParams)
      requires Configured() && prior != posterior
      requires |prior.alphaMeans| == NumAlphas(ar1Type).value && |posterior.alphaMeans| == NumAlphas(ar1Type).value
      requires |prior.phis| == nPhis && |posterior.phis| == nPhis
      modifies prior, posterior
      ensures prior.alphaMeans == posterior.alphaMeans == seq(NumAlphas(ar1Type).value, _ => 0.0)
      ensures prior.alphaPrecisions == posterior.alphaPrecisions == ScaledIdentityBand(NumAlphas(ar1Type).value, 1.0e-4)
      ensures prior.phis == seq(nPhis, _ => GammaDist(1.0e6, 1.0e-6))
      ensures posterior.phis == seq(nPhis, _ => GammaDist(1.0e-8, 1.0e-6))
    {
      var nAlphas := NumAlphas(ar1Type).value;
      prior.alphaMeans := seq(nAlphas, _ => 0.0);
      posterior.alphaMeans := seq(nAlphas, _ => 0.0);
      prior.alphaPrecisions := ScaledIdentityBand(nAlphas, 1.0e-4);
      posterior.alphaPrecisions := ScaledIdentityBand(nAlphas, 1.0e-4);
      for i := 1 to |prior.phis| + 1
        invariant prior.alphaMeans == posterior.alphaMeans == seq(nAlphas, _ => 0.0)
        invariant prior.alphaPrecisions == posterior.alphaPrecisions == ScaledIdentityBand(nAlphas, 1.0e-4)
        invariant |prior.phis| == |posterior.phis| == nPhis
        invariant forall k :: 0 <= k < i - 1 ==> prior.phis[k] == GammaDist(1.0e6, 1.0e-6) && posterior.phis[k] == GammaDist(1.0e-8, 1.0e-6)
      {
        prior.phis := prior.phis[i - 1 := GammaDist(1.0e6, 1.0e-6)];
        posterior.phis := posterior.phis[i - 1 := GammaDist(1.0e-8, 1.0e-6)];
      }
    }

    /** Builds the cache (first call) and the marginals from the current alpha
        distribution, then pre-sets each phi's shape so that the first phi
        update leaves it unchanged. nTimes is the sample count per echo. */
    method Precalculate(posterior: Ar1cParams, prior: Ar1cParams, invert: Band -> Matrix, nData: nat)
      requires Configured() && posterior.Valid() && prior != posterior
      requires forall p: Band {:trigger invert(p)} :: IsSquare(invert(p), p.dim) && Symmetric(invert(p))
      requires |posterior.phis| == nPhis && |prior.phis| == nPhis
      requires ValidConfig(nPhis, |posterior.alphaMeans|)
      requires posterior.alphaMat.alphaMatrices != [] ==>
        posterior.alphaMat.nAlphasBuilt == |posterior.alphaMeans| && posterior.alphaMat.nTimesBuilt == nData / nPhis
      modifies posterior, posterior.alphaMat
      ensures posterior.Valid()
      ensures posterior.alphaMeans == old(posterior.alphaMeans) && posterior.alphaPrecisions == old(posterior.alphaPrecisions)
      ensures posterior.alphaMat.State() == UpdateSpec(old(posterior.alphaMat.State()), nPhis, old(posterior.alphaMeans),
        old(invert(posterior.alphaPrecisions)), nData / nPhis)
      ensures posterior.phis == PresetShapes(old(posterior.phis), prior.phis, nData / nPhis)
    {
      var nTimes := nData / nPhis;
      posterior.alphaMat.Update(posterior.alphaMeans, invert(posterior.alphaPrecisions), nTimes);
      var phis := PresetPhiShapes(posterior.phis, prior.phis, nTimes);
      posterior.phis := phis;
    }

    /** The alpha update: precision = prior precision plus the K terms on the
        touched cells; a negative variance in its inverse is an internal error
        (the new precision is already stored); otherwise mean = covariance
        times the right-hand side, and the cache's marginals are refreshed from
        the new distribution. The K terms weigh each echo by its current phi. */
    method UpdateAlpha(posterior: Ar1cParams, prior: Ar1cParams, op: Band -> real, invert: Band -> Matrix, nData: nat)
      returns (o: Outcome)
      requires posterior.Valid() && prior.Valid() && prior != posterior
      requires forall p: Band {:trigger invert(p)} :: IsSquare(invert(p), p.dim) && Symmetric(invert(p))
      requires |posterior.phis| == nPhis && ValidConfig(nPhis, |prior.alphaMeans|)
      requires |posterior.alphaMeans| == |prior.alphaMeans|
      requires posterior.alphaMat.alphaMatrices != []
      requires posterior.alphaMat.nAlphasBuilt == |prior.alphaMeans| && posterior.alphaMat.nTimesBuilt == nData / nPhis
      modifies posterior, posterior.alphaMat
      ensures posterior.Valid() && posterior.phis == old(posterior.phis)
      ensures var u := old(AlphaUpdate(prior.alphaPrecisions, prior.alphaMeans, posterior.phis,
                                       posterior.alphaMat.alphaMatrices, nPhis, op, invert));
        && posterior.alphaPrecisions == u.precision
        && (o.Fail? <==> u.means.None?)
        && (o.Fail? ==> o.error == InternalError(NegativeAlphaVariance))
        && (o.Fail? ==> unchanged(posterior.alphaMat) && posterior.alphaMeans == old(posterior.alphaMeans))
        && (o.Pass? ==> posterior.alphaMeans == u.means.value)
        && (o.Pass? ==> posterior.alphaMat.State()
                          == UpdateSpec(old(posterior.alphaMat.State()), nPhis, u.means.value, u.covariance, nData / nPhis))
    {
      var cache := posterior.alphaMat;
      var u := AlphaPosterior(prior.alphaPrecisions, prior.alphaMeans, posterior.phis, cache.alphaMatrices, nPhis, op, invert);
      posterior.alphaPrecisions := u.precision;
      if u.means.None? {
        return Fail(InternalError(NegativeAlphaVariance));
      }
      posterior.alphaMeans := u.means.value;
      cache.Update(u.means.value, u.covariance, nData / nPhis);
      return Pass;
    }

    /** The phi update of every echo from the expected quadratic form of its
        marginal; a missing marginal or a non-positive scale stops it, with
        the echoes before it already updated. */
    method UpdatePhi(posterior: Ar1cParams, prior: Ar1cParams, quad: Band -> real, nData: nat) returns (o: Outcome)
      requires (nPhis == 1 || nPhis == 2) && prior != posterior
      requires |posterior.phis| == nPhis && |prior.phis| == nPhis && PositiveScales(prior.phis)
      modifies posterior
      ensures posterior.alphaMeans == old(posterior.alphaMeans) && posterior.alphaPrecisions == old(posterior.alphaPrecisions)
      ensures |posterior.phis| == nPhis
      ensures o.Fail? ==> o.error.InternalError?
      ensures o.Pass? <==> old(AllPhiUpdatesDefined(prior.phis, posterior.alphaMat.alphaMarginals, quad, nData / nPhis))
      ensures o.Pass? ==> forall i :: 0 <= i < nPhis ==>
        posterior.phis[i] == old(PhiUpdate(prior.phis[i], quad(posterior.alphaMat.alphaMarginals[i]), nData / nPhis)).value
    {
      var nTimes := nData / nPhis;
      var update := (g: GammaDist, q: real) requires g.b > 0.0 => PhiUpdate(g, q, nTimes);
      PhiUpdatesUpToMeaning(update, prior.phis, posterior.alphaMat.alphaMarginals, quad, posterior.phis, nPhis);
      var phis;
      phis, o := UpdatedPhis(posterior.alphaMat, prior.phis, posterior.phis, quad, update);
      posterior.phis := phis;
    }
  }

  /** The alpha posterior UpdateAlpha computes: the precision, its inverse,
      and the means, which are None when the inverse has a negative variance. */
  datatype AlphaPosteriorValue = AlphaPosteriorValue(precision: Band, covariance: Matrix, means: Option<seq<real>>)

  /** The alpha posterior from the prior and the current phis and base
      matrices. */
  function AlphaUpdate(prior: Band, priorMeans: seq<real>, phis: seq<GammaDist>, mats: seq<Band>, nPhis: nat,
                       op: Band -> real, invert: Band -> Matrix): (r: AlphaPosteriorValue)
    requires ValidConfig(nPhis, prior.dim) && |priorMeans| == prior.dim
    requires forall q: Band {:trigger invert(q)} :: IsSquare(invert(q), q.dim)
    ensures r.precision.dim == prior.dim && IsSquare(r.covariance, prior.dim)
    ensures r.covariance == invert(r.precision)
    ensures r.means.None? <==> NegativeVariance(r.covariance)
    ensures r.means.Some? ==> |r.means.value| == prior.dim
  {
    var w1 := WeightedTermsAt(op, phis, mats, nPhis, 1);
    var w2 := WeightedTermsAt(op, phis, mats, nPhis, 2);
    var p := PosteriorPrecision(prior, nPhis, w1, w2);
    var cov := invert(p);
    AlphaPosteriorValue(p, cov, PosteriorMean(prior, priorMeans, nPhis, w1, w2, cov))
  }

  /** The value computations of UpdateAlpha, accumulated as the source does. */
  method AlphaPosterior(prior: Band, priorMeans: seq<real>, phis: seq<GammaDist>, mats: seq<Band>, nPhis: nat,
                        op: Band -> real, invert: Band -> Matrix)
    returns (u: AlphaPosteriorValue)
    requires ValidConfig(nPhis, prior.dim) && |priorMeans| == prior.dim
    requires forall q: Band {:trigger invert(q)} :: IsSquare(invert(q), q.dim)
    ensures u == AlphaUpdate(prior, priorMeans, phis, mats, nPhis, op, invert)
  {
    var w1 := Weighted(Scale(phis, 1), TermsAt(op, mats, nPhis, 1));
    var w2 := Weighted(Scale(phis, 2), TermsAt(op, mats, nPhis, 2));
    var p := AccumulatePrecision(prior, nPhis, w1, w2);
    var cov := invert(p);
    if NegativeVariance(cov) {
      return AlphaPosteriorValue(p, cov, None);
    }
    var tmp := AccumulateRhs(SymMatVec(prior, priorMeans), nPhis, w1, w2);
    u := AlphaPosteriorValue(p, cov, Some(MatVec(cov, tmp)));
  }

  /** Every echo has a marginal and a positive updated scale. */
  ghost predicate AllPhiUpdatesDefined(priorPhis: seq<GammaDist>, marginals: seq<Band>, quad: Band -> real, nTimes: nat)
    requires PositiveScales(priorPhis)
  {
    |marginals| >= |priorPhis| &&
    forall i :: 0 <= i < |priorPhis| ==> PhiUpdate(priorPhis[i], quad(marginals[i]), nTimes).Some?
  }

  /** An update of one echo's phi that is defined whenever the prior scale is
      positive. */
  ghost predicate AcceptsPositiveScales(update: (GammaDist, real) --> Option<GammaDist>) {
    forall g: GammaDist, q: real :: g.b > 0.0 ==> update.requires(g, q)
  }

  /** The phis once echoes 1..n have been updated in turn, starting from phis;
      None as soon as an echo has no marginal or its update fails. */
  function PhiUpdatesUpTo(update: (GammaDist, real) --> Option<GammaDist>, priorPhis: seq<GammaDist>, marginals: seq<Band>,
                          quad: Band -> real, phis: seq<GammaDist>, n: nat): (r: Option<seq<GammaDist>>)
    requires AcceptsPositiveScales(update)
    requires n <= |priorPhis| == |phis| && PositiveScales(priorPhis)
    ensures r.Some? ==> |r.value| == |phis|
    decreases n
  {
    if n == 0 then Some(phis)
    else
      var before := PhiUpdatesUpTo(update, priorPhis, marginals, quad, phis, n - 1);
      if before.None? || n > |marginals| then None
      else
        var q := quad(marginals[n - 1]);
        var u := update(priorPhis[n - 1], q);
        if u.None? then None else Some(before.value[n - 1 := u.value])
  }

  /** Once an echo has failed, every later count of echoes has failed too. */
  lemma {:induction false} PhiUpdatesStayFailed(update: (GammaDist, real) --> Option<GammaDist>, priorPhis: seq<GammaDist>,
                                                marginals: seq<Band>, quad: Band -> real, phis: seq<GammaDist>, n: nat, m: nat)
    requires AcceptsPositiveScales(update)
    requires n <= m <= |priorPhis| == |phis| && PositiveScales(priorPhis)
    requires PhiUpdatesUpTo(update, priorPhis, marginals, quad, phis, n).None?
    ensures PhiUpdatesUpTo(update, priorPhis, marginals, quad, phis, m).None?
    decreases m
  {
    if m > n {
      PhiUpdatesStayFailed(update, priorPhis, marginals, quad, phis, n, m - 1);
    }
  }

  /** Updating echoes 1..n in turn succeeds exactly when each of them has a
      marginal and its update succeeds; then echo k holds its own update and
      every later echo is as it was. */
  lemma {:induction false} PhiUpdatesUpToMeaning(update: (GammaDist, real) --> Option<GammaDist>, priorPhis: seq<GammaDist>,
                                                 marginals: seq<Band>, quad: Band -> real, phis: seq<GammaDist>, n: nat)
    requires AcceptsPositiveScales(update)
    requires n <= |priorPhis| == |phis| && PositiveScales(priorPhis)
    ensures PhiUpdatesUpTo(update, priorPhis, marginals, quad, phis, n).Some? <==>
      (n <= |marginals| && forall k :: 0 <= k < n ==> var q := quad(marginals[k]); update(priorPhis[k], q).Some?)
    ensures var r := PhiUpdatesUpTo(update, priorPhis, marginals, quad, phis, n);
      r.Some? ==>
        && (forall k :: 0 <= k < n ==> var q := quad(marginals[k]); r.value[k] == update(priorPhis[k], q).value)
        && (forall k :: n <= k < |phis| ==> r.value[k] == phis[k])
    decreases n
  {
    if n > 0 {
      PhiUpdatesUpToMeaning(update, priorPhis, marginals, quad, phis, n - 1);
    }
  }

  /** The loop of UpdatePhi over the echoes, on the values it reads and writes:
      on a failure the echoes before it keep their update. */
  method UpdatedPhis(cache: MatrixCache, priorPhis: seq<GammaDist>, phis: seq<GammaDist>, quad: Band -> real,
                     update: (GammaDist, real) --> Option<GammaDist>)
    returns (r: seq<GammaDist>, o: Outcome)
    requires AcceptsPositiveScales(update)
    requires |priorPhis| == |phis| && PositiveScales(priorPhis)
    ensures |r| == |phis|
    ensures o.Fail? ==> o.error.InternalError?
    ensures var u := PhiUpdatesUpTo(update, priorPhis, cache.alphaMarginals, quad, phis, |phis|);
      (o.Pass? <==> u.Some?) && (o.Pass? ==> r == u.value)
  {
    r := phis;
    o := Pass;
    var i := 1;
    while i <= |phis|
      invariant 1 <= i <= |phis| + 1 && o == Pass
      invariant PhiUpdatesUpTo(update, priorPhis, cache.alphaMarginals, quad, phis, i - 1) == Some(r)
    {
      var q := cache.GetMarginal(i);
      if q.Err? {
        o := Fail(q.error);
        PhiUpdatesStayFailed(update, priorPhis, cache.alphaMarginals, quad, phis, i, |phis|);
        break;
      }
      var tmp := quad(q.value);
      var phi := update(priorPhis[i - 1], tmp);
      if phi.None? {
        o := Fail(InternalError(NonPositivePhiScale));
        PhiUpdatesStayFailed(update, priorPhis, cache.alphaMarginals, quad, phis, i, |phis|);
        break;
      }
      r := r[i - 1 := phi.value];
      i := i + 1;
    }
  }

  // ---------------------------------------------------------------------------
  // Checks on the theta and MVN inputs

  /** The diagonal of Ltmp = J' X J with each zero replaced by 1e-20; every other
      entry as it was. */
  function Regularized(l: Matrix): (r: Matrix)
    requires IsSquare(l, |l|)
  {
    seq(|l|, i requires 0 <= i < |l| => seq(|l|, j requires 0 <= j < |l| => if i == j && l[i][j] == 0.0 then 1.0e-20 else l[i][j]))
  }

  /** The regularized matrix has no zero on its diagonal, so regularizing again
      changes nothing. */
  lemma RegularizedIdempotent(l: Matrix)
    requires IsSquare(l, |l|)
    ensures IsSquare(Regularized(l), |l|)
    ensures forall i :: 0 <= i < |l| ==> Regularized(l)[i][i] != 0.0
    ensures Regularized(Regularized(l)) == Regularized(l)
  {
    var r := Regularized(l);
    assert IsSquare(r, |l|);
    forall i | 0 <= i < |l| ensures Regularized(r)[i] == r[i] {
    }
  }

  /** The singular-diagonal fix of UpdateTheta: walks the diagonal and
      replaces each zero by 1e-20, noting whether any was found. */
  method FixSingularDiagonal(l: Matrix) returns (r: Matrix, wasSingular: bool)
    requires IsSquare(l, |l|)
    ensures r == Regularized(l)
    ensures wasSingular <==> exists k :: 0 <= k < |l| && l[k][k] == 0.0
  {
    r := l;
    wasSingular := false;
    var k := 1;
    while k <= |l|
      invariant 1 <= k <= |l| + 1
      invariant |r| == |l|
      invariant forall i :: 0 <= i < |l| ==> |r[i]| == |l|
      invariant forall i, j :: 0 <= i < |l| && 0 <= j < |l| ==>
        r[i][j] == if i == j && i < k - 1 && l[i][j] == 0.0 then 1.0e-20 else l[i][j]
      invariant wasSingular <==> exists i :: 0 <= i < k - 1 && l[i][i] == 0.0
    {
      if r[k - 1][k - 1] == 0.0 {
        r := r[k - 1 := r[k - 1][k - 1 := 1.0e-20]];
        wasSingular := true;
      }
      k := k + 1;
    }
    assert forall i | 0 <= i < |l| :: r[i] == Regularized(l)[i];
  }

  /** The covariance of phis a and b, which sit after the nAlpha alpha rows. */
  function PhiCovariance(cov: Matrix, nAlpha: nat, nPhi: nat, a: nat, b: nat): real
    requires IsSquare(cov, nAlpha + nPhi) && 1 <= a <= nPhi && 1 <= b <= nPhi
  {
    Get(cov, nAlpha + a, nAlpha + b)
  }

  /** The check of InputFromMVN: the phis are independent, so the covariance
      between any two of them must be zero. */
  method CheckPhiCovariance(cov: Matrix, nAlpha: nat, nPhi: nat) returns (o: Outcome)
    requires IsSquare(cov, nAlpha + nPhi)
    ensures o.Pass? <==> forall a, b :: 1 <= a < b <= nPhi ==> PhiCovariance(cov, nAlpha, nPhi, a, b) == 0.0
    ensures o.Fail? ==> o.error == RunDataError(CorrelatedPhis)
  {
    for i := 1 to nPhi + 1
      invariant forall a, b :: 1 <= a < b <= nPhi && a < i ==> PhiCovariance(cov, nAlpha, nPhi, a, b) == 0.0
    {
      for j := i + 1 to nPhi + 1
        invariant forall a, b :: 1 <= a < b <= nPhi && (a < i || (a == i && b < j)) ==> PhiCovariance(cov, nAlpha, nPhi, a, b) == 0.0
      {
        if cov[nAlpha + i - 1][nAlpha + j - 1] != 0.0 {
          assert PhiCovariance(cov, nAlpha, nPhi, i, j) != 0.0;
          return Fail(RunDataError(CorrelatedPhis));
        }
      }
    }
    return Pass;
  }
}
