/** The phenomenological qBOLD forward model: its configuration (which
    parameters are inferred, the tau sampling times, the fixed OEF and DBV),
    the names and the prior of its parameters, how Evaluate reads a parameter
    vector, and the automatic relevance determination (ARD) rewrites of the
    prior on the nine model coefficients.

    The signal S0 * exp(-DBV * F) that Evaluate computes per tau is a
    function parameter; the free-energy contribution Fard of the ARD
    updates is not modelled. */
module PhenomModel {
  import opened Common
  import opened PhenomLayout
  import opened Mvn

  // ---------------------------------------------------------------------------
  // Configuration

  /** Slack added to tau_end when generating taus. */
  const TauTolerance: real := 0.0001

  /** The options Initialize reads, already converted to values; tauN[n] is
      the option "tau<n>" when it is given. */
  datatype PhenomArgs = PhenomArgs(
    inferOEF: bool, inferDBV: bool, inferCoefs: bool, inferS0: bool, doard: bool,
    tauStart: Option<real>, tauEnd: Option<real>, tauStep: Option<real>,
    tauN: map<nat, real>,
    te: Option<real>, oef: Option<real>, dbv: Option<real>)

  /** An option's value, or its default when it is not given. */
  function WithDefault(o: Option<real>, d: real): (r: real)
    ensures o.None? ==> r == d
    ensures o.Some? ==> r == o.value
  {
    if o.Some? then o.value else d
  }

  /** The k-th value of the tau loop: start with step added k times. */
  function GridPoint(start: real, step: real, k: nat): real {
    if k == 0 then start else GridPoint(start, step, k - 1) + step
  }

  /** Repeated addition of the step is multiplication by the count. */
  lemma {:induction false} GridPointClosedForm(start: real, step: real, k: nat)
    ensures GridPoint(start, step, k) == start + k as real * step
  {
    if k > 0 {
      GridPointClosedForm(start, step, k - 1);
      assert (k - 1) as real * step + step == k as real * step;
    }
  }

  /** The evenly spaced taus start, start + step, ... that do not exceed limit:
      `added` holds exactly those, and the next one would exceed it. */
  ghost predicate IsTauGrid(added: seq<real>, start: real, step: real, limit: real) {
    && (forall k :: 0 <= k < |added| ==> added[k] == GridPoint(start, step, k))
    && (forall k :: 0 <= k < |added| ==> added[k] <= limit)
    && GridPoint(start, step, |added|) > limit
  }

  /** The taus read one by one from options tau<n0+1>, tau<n0+2>, ... up to
      the first one that is missing. */
  ghost predicate IsTauList(added: seq<real>, n0: nat, tauN: map<nat, real>) {
    && (forall k :: n0 < k <= n0 + |added| ==> k in tauN && added[k - n0 - 1] == tauN[k])
    && n0 + |added| + 1 !in tauN
  }

  /** The grid is determined by its start, step and limit. */
  lemma {:induction false} TauGridUnique(a: seq<real>, b: seq<real>, start: real, step: real, limit: real)
    requires IsTauGrid(a, start, step, limit) && IsTauGrid(b, start, step, limit)
    ensures a == b
  {
  }

  /** The list read is determined by where reading starts and the options. */
  lemma {:induction false} TauListUnique(a: seq<real>, b: seq<real>, n0: nat, tauN: map<nat, real>)
    requires IsTauList(a, n0, tauN) && IsTauList(b, n0, tauN)
    ensures a == b
  {
    if |a| != |b| {
      assert false;
    }
    forall j | 0 <= j < |a|
      ensures a[j] == b[j]
    {
      assert n0 + j + 1 in tauN;
    }
  }

  /** Dividing a - s by s gives one less than dividing a by s. */
  lemma QuotientStep(a: real, s: real)
    requires s > 0.0
    ensures (a - s) / s == a / s - 1.0
  {
    assert (a - s) / s == a / s - s / s;
    assert s / s == 1.0;
  }

  /** The tau generation loop of Initialize: from start, add step while the
      value stays within limit. It ends when start is already beyond limit or
      the step is positive. */
  method TauGrid(start: real, step: real, limit: real) returns (added: seq<real>)
    requires start > limit || step > 0.0
    ensures IsTauGrid(added, start, step, limit)
  {
    added := [];
    var tauVal := start;
    while tauVal <= limit
      invariant tauVal == GridPoint(start, step, |added|)
      invariant forall k :: 0 <= k < |added| ==> added[k] == GridPoint(start, step, k)
      invariant forall k :: 0 <= k < |added| ==> added[k] <= limit
      invariant step > 0.0 || added == []
      decreases if step > 0.0 && tauVal <= limit then ((limit - tauVal) / step).Floor + 1 else 0
    {
      QuotientStep(limit - tauVal, step);
      added := added + [tauVal];
      tauVal := tauVal + step;
    }
  }

  /** The naturals lo + 1 .. lo + n. */
  function Span(lo: nat, n: nat): (r: set<nat>)
    ensures |r| == n
    ensures forall k :: k in r <==> lo < k <= lo + n
  {
    if n == 0 then {} else Span(lo, n - 1) + {lo + n}
  }

  /** The tau reading loop of Initialize: read tau<N> with N one past the
      taus held so far, until an option is missing. */
  method ReadTauList(n0: nat, tauN: map<nat, real>) returns (added: seq<real>)
    ensures IsTauList(added, n0, tauN)
  {
    added := [];
    while n0 + |added| + 1 in tauN
      invariant forall k :: n0 < k <= n0 + |added| ==> k in tauN && added[k - n0 - 1] == tauN[k]
      decreases |tauN.Keys| - |added|
    {
      var span := Span(n0, |added| + 1);
      SubsetCard(span, tauN.Keys);
      added := added + [tauN[n0 + |added| + 1]];
    }
  }

  lemma SubsetCard<T>(a: set<T>, b: set<T>)
    requires a <= b
    ensures |a| <= |b|
  {
    assert b == a + (b - a);
  }

  // ---------------------------------------------------------------------------
  // Parameter values

  /** The parameters as Evaluate uses them: b11..b33, OEF, DBV and S0. */
  type PhenomValues = PerParam<real>

  /** The coefficients used when they are not inferred. */
  const FixedCoefs: seq<real> := [55.385, 52.719, 0.0242, 35.314, 34.989, 0.0034, 0.3172, 0.3060, 3.1187]

  // ---------------------------------------------------------------------------
  // Prior

  /** The prior mean HardcodedInitialDists gives each parameter. */
  const PriorMeans: PerParam<real> :=
    PerParam([55.0, 50.0, -0.024, 35.0, 35.0, -0.0034, 0.3, 0.3, 3.0], 0.40, 0.03, 100.0)

  /** The prior precision HardcodedInitialDists gives each parameter. */
  const PriorPrecisions: PerParam<real> :=
    PerParam([0.001, 0.001, 10.0, 0.001, 0.001, 100.0, 0.1, 0.1, 0.01], 0.001, 0.1, 0.000001)

  /** The prior means in vector order. */
  function InitialMeans(f: InferFlags): seq<real> {
    Arrange(f, PriorMeans)
  }

  /** The diagonal of the prior precision matrix in vector order. */
  function InitialPrecisions(f: InferFlags): seq<real> {
    Arrange(f, PriorPrecisions)
  }

  /** Every inferred parameter gets its own prior mean and precision at its
      own position. */
  lemma InitialPriorByParam(f: InferFlags)
    ensures |InitialMeans(f)| == |InitialPrecisions(f)| == NumParams(f)
    ensures forall p :: Inferred(f, p) ==>
      InitialMeans(f)[IndexOf(f, p) - 1] == Pick(PriorMeans, p) && InitialPrecisions(f)[IndexOf(f, p) - 1] == Pick(PriorPrecisions, p)
  {
    ArrangeByParam(f, PriorMeans);
    ArrangeByParam(f, PriorPrecisions);
  }

  /** Every prior precision is positive, so the prior is proper. */
  lemma InitialPrecisionsPositive(f: InferFlags)
    ensures forall i :: 0 <= i < |InitialPrecisions(f)| ==> InitialPrecisions(f)[i] > 0.0
  {
    ArrangeByPosition(f, PriorPrecisions);
    forall i | 0 <= i < |InitialPrecisions(f)|
      ensures InitialPrecisions(f)[i] > 0.0
    {
      var p := ParamAt(f, i + 1);
      if p.Coef? {
        assert Pick(PriorPrecisions, p) == PriorPrecisions.coefs[p.k - 1];
      }
    }
  }

  /** The nine coefficients' prior means and precisions, set in turn. */
  method CoefPriors(means0: seq<real>, diag0: seq<real>) returns (means: seq<real>, diag: seq<real>)
    requires |means0| >= 9 && |diag0| == |means0|
    ensures |means| == |means0| && |diag| == |diag0|
    ensures means[..9] == PriorMeans.coefs && diag[..9] == PriorPrecisions.coefs
    ensures means[9..] == means0[9..] && diag[9..] == diag0[9..]
  {
    means, diag := means0, diag0;
    means := means[0 := 55.0];
    diag := diag[0 := 0.001];
    means := means[1 := 50.0];
    diag := diag[1 := 0.001];
    means := means[2 := -0.024];
    diag := diag[2 := 10.0];
    means := means[3 := 35.0];
    diag := diag[3 := 0.001];
    means := means[4 := 35.0];
    diag := diag[4 := 0.001];
    means := means[5 := -0.0034];
    diag := diag[5 := 100.0];
    means := means[6 := 0.3];
    diag := diag[6 := 0.1];
    means := means[7 := 0.3];
    diag := diag[7 := 0.1];
    means := means[8 := 3.0];
    diag := diag[8 := 0.01];
  }

  /** The entries HardcodedInitialDists writes, in the source's order: the
      means over means0 and the diagonal of the precision matrix, which
      starts as 1e-3 everywhere. */
  method PriorTable(f: InferFlags, means0: seq<real>) returns (means: seq<real>, diag: seq<real>)
    requires |means0| == NumParams(f)
    ensures means == InitialMeans(f) && diag == InitialPrecisions(f)
  {
    means := means0;
    diag := seq(NumParams(f), i => 0.001);
    if f.coefs {
      means, diag := CoefPriors(means, diag);
    }
    assert f.coefs ==> means[..9] == PriorMeans.coefs && diag[..9] == PriorPrecisions.coefs;
    if f.oef {
      means := means[OEFIndex(f) - 1 := 0.40];
      diag := diag[OEFIndex(f) - 1 := 0.001];
    }
    if f.dbv {
      means := means[DBVIndex(f) - 1 := 0.03];
      diag := diag[DBVIndex(f) - 1 := 0.1];
    }
    if f.s0 {
      means := means[S0Index(f) - 1 := 100.0];
      diag := diag[S0Index(f) - 1 := 0.000001];
    }
    forall p | Inferred(f, p)
      ensures means[IndexOf(f, p) - 1] == Pick(PriorMeans, p) && diag[IndexOf(f, p) - 1] == Pick(PriorPrecisions, p)
    {
      if p.Coef? {
        assert means[p.k - 1] == means[..9][p.k - 1];
        assert diag[p.k - 1] == diag[..9][p.k - 1];
      }
    }
    ByParamIsArrange(f, means, PriorMeans);
    ByParamIsArrange(f, diag, PriorPrecisions);
  }

  /** The square matrix with diagonal d and zeros elsewhere. */
  function Diagonal(d: seq<real>): (r: Matrix)
    ensures IsSquare(r, |d|) && Symmetric(r)
    ensures forall i, j :: 0 <= i < |d| && 0 <= j < |d| ==> r[i][j] == if i == j then d[i] else 0.0
  {
    seq(|d|, i requires 0 <= i < |d| => seq(|d|, j requires 0 <= j < |d| => if i == j then d[i] else 0.0))
  }

  // ---------------------------------------------------------------------------
  // The model

  class PhenomFwdModel {
    var inferOEF: bool
    var inferDBV: bool
    var inferCoefs: bool
    var inferS0: bool
    var doard: bool
    var fixedOEF: real
    var fixedDBV: real
    var te: real
    var taus: seq<real>
    var tauStart: real
    var tauStep: real
    var tauEnd: real

    /** ARD is only used on the coefficients, so it needs them inferred. */
    ghost predicate Valid()
      reads this
    {
      doard ==> inferCoefs
    }

    function Flags(): InferFlags
      reads this
    {
      InferFlags(inferOEF, inferDBV, inferCoefs, inferS0)
    }

    /** A model not yet initialized: nothing inferred, no taus. */
    constructor()
      ensures Valid() && taus == [] && !doard
    {
      inferOEF, inferDBV, inferCoefs, inferS0, doard := false, false, false, false, false;
      fixedOEF, fixedDBV, te := 0.0, 0.0, 0.0;
      taus := [];
      tauStart, tauStep, tauEnd := 0.0, 0.0, 0.0;
    }

    /** Reads the configuration. ARD is switched off unless the coefficients
        are inferred, and a fixed OEF or DBV is only read when that parameter
        is not inferred. */
    method Initialize(args: PhenomArgs)
      requires args.tauStart.Some? ==>
        args.tauStart.value > WithDefault(args.tauEnd, 0.064) + TauTolerance || WithDefault(args.tauStep, 0.004) > 0.0
      modifies this
      ensures Valid()
      ensures Flags() == InferFlags(args.inferOEF, args.inferDBV, args.inferCoefs, args.inferS0)
      ensures doard <==> args.doard && args.inferCoefs
      ensures te == WithDefault(args.te, 0.074)
      ensures fixedOEF == if args.inferOEF then old(fixedOEF) else WithDefault(args.oef, 0.400)
      ensures fixedDBV == if args.inferDBV then old(fixedDBV) else WithDefault(args.dbv, 0.030)
      ensures TausRead(args, old(taus), old(tauStart), old(tauEnd), old(tauStep))
    {
      ReadFlags(args);
      ReadTaus(args);
      te := WithDefault(args.te, 0.074);
      // A fixed OEF or DBV is only read when that parameter is not inferred.
      fixedOEF := if inferOEF then fixedOEF else WithDefault(args.oef, 0.400);
      fixedDBV := if inferDBV then fixedDBV else WithDefault(args.dbv, 0.030);
    }

    /** The inference flags; ARD is only used when the coefficients are
        inferred. */
    method ReadFlags(args: PhenomArgs)
      modifies this`inferOEF, this`inferDBV, this`inferCoefs, this`inferS0, this`doard
      ensures Flags() == InferFlags(args.inferOEF, args.inferDBV, args.inferCoefs, args.inferS0)
      ensures doard <==> args.doard && args.inferCoefs
    {
      inferOEF := args.inferOEF;
      inferDBV := args.inferDBV;
      inferCoefs := args.inferCoefs;
      inferS0 := args.inferS0;
      doard := args.doard && args.inferCoefs;
    }

    /** What reading the taus leaves, from the taus and grid settings held
        before: the earlier taus kept in front, then a grid from tau_start
        when that option is given, otherwise the options tau<N> one by one. */
    ghost predicate TausRead(args: PhenomArgs, taus0: seq<real>, start0: real, end0: real, step0: real)
      reads this`taus, this`tauStart, this`tauEnd, this`tauStep
    {
      && |taus| >= |taus0| && taus[..|taus0|] == taus0
      && (args.tauStart.None? ==>
            IsTauList(taus[|taus0|..], |taus0|, args.tauN)
            && tauStart == start0 && tauEnd == end0 && tauStep == step0)
      && (args.tauStart.Some? ==>
            && tauStart == args.tauStart.value && tauEnd == WithDefault(args.tauEnd, 0.064)
            && tauStep == WithDefault(args.tauStep, 0.004)
            && IsTauGrid(taus[|taus0|..], tauStart, tauStep, tauEnd + TauTolerance))
    }

    /** The tau part of Initialize: the grid loop from tau_start (which only
        ends when the step is positive or the grid is empty), or the loop
        reading tau<N>. */
    method ReadTaus(args: PhenomArgs)
      requires args.tauStart.Some? ==>
        args.tauStart.value > WithDefault(args.tauEnd, 0.064) + TauTolerance || WithDefault(args.tauStep, 0.004) > 0.0
      modifies this`taus, this`tauStart, this`tauEnd, this`tauStep
      ensures TausRead(args, old(taus), old(tauStart), old(tauEnd), old(tauStep))
    {
      var added;
      if args.tauStart.None? {
        added := ReadTauList(|taus|, args.tauN);
      } else {
        tauStart := args.tauStart.value;
        tauEnd := WithDefault(args.tauEnd, 0.064);
        tauStep := WithDefault(args.tauStep, 0.004);
        added := TauGrid(tauStart, tauStep, tauEnd + TauTolerance);
      }
      ghost var before := taus;
      taus := taus + added;
      assert taus[|before|..] == added && taus[..|before|] == before;
    }

    /** The parameter names in vector order: b11..b33, OEF, DBV, S0, each
        only when inferred. */
    method NameParams() returns (names: seq<string>)
      ensures names == ParamNames(Flags())
      ensures |names| == NumParams(Flags())
      ensures forall p :: Inferred(Flags(), p) ==> names[IndexOf(Flags(), p) - 1] == ParamName(p)
    {
      names := [];
      if inferCoefs {
        names := names + CoefNames;
      }
      if inferOEF {
        names := names + ["OEF"];
      }
      if inferDBV {
        names := names + ["DBV"];
      }
      if inferS0 {
        names := names + ["S0"];
      }
      ArrangeByParam(Flags(), Names);
    }

    /** The prior: the table means and a diagonal precision matrix (1e-3 where
        the table sets nothing), and the posterior starts as a copy of it. */
    method HardcodedInitialDists(prior: MvnDist, posterior: MvnDist)
      requires |prior.means| == NumParams(Flags())
      modifies prior, posterior
      ensures prior.means == InitialMeans(Flags())
      ensures prior.spread == Precisions(Diagonal(InitialPrecisions(Flags())))
      ensures posterior.means == prior.means && posterior.spread == prior.spread
    {
      var means, diag := PriorTable(Flags(), prior.means);
      prior.means := means;
      prior.SetPrecisions(Diagonal(diag));
      posterior.CopyFrom(prior);
    }

    /** The values a parameter takes when it is not inferred. */
    function Unset(): (v: PerParam<real>)
      reads this
      ensures |v.coefs| == 9
    {
      PerParam(FixedCoefs, fixedOEF, fixedDBV, 1.0)
    }

    /** How Evaluate reads the parameter vector: an inferred parameter comes
        from its own position (a coefficient as its absolute value), any
        other one takes its fixed value. */
    function Extract(params: seq<real>): (v: PhenomValues)
      reads this
      requires |params| == NumParams(Flags())
      ensures |v.coefs| == 9
      ensures forall k :: 0 <= k < 9 ==> v.coefs[k] >= 0.0
      ensures forall p :: Inferred(Flags(), p) ==>
        Pick(v, p) == if p.Coef? then Abs(params[IndexOf(Flags(), p) - 1]) else params[IndexOf(Flags(), p) - 1]
      ensures forall p :: ValidParam(p) && !Inferred(Flags(), p) ==> Pick(v, p) == Pick(Unset(), p)
    {
      var f := Flags();
      var oef := if inferOEF then params[OEFIndex(f) - 1] else fixedOEF;
      var dbv := if inferDBV then params[DBVIndex(f) - 1] else fixedDBV;
      var s0 := if inferS0 then params[S0Index(f) - 1] else 1.0;
      var coefs := if inferCoefs then seq(9, k requires 0 <= k < 9 => Abs(params[k])) else FixedCoefs;
      PerParam(coefs, oef, dbv, s0)
    }

    /** One predicted sample per tau; `signal` stands for S0 * exp(-DBV * F)
        at the given tau. */
    method Evaluate(params: seq<real>, signal: (PhenomValues, real) -> real) returns (result: seq<real>)
      requires |params| == NumParams(Flags())
      ensures |result| == |taus|
      ensures forall i :: 0 <= i < |taus| ==> result[i] == signal(Extract(params), taus[i])
    {
      var v := Extract(params);
      var ts := taus;
      result := [];
      var ii := 0;
      while ii < |ts|
        invariant 0 <= ii <= |ts| && |result| == ii
        invariant forall i :: 0 <= i < ii ==> result[i] == signal(v, ts[i])
      {
        result := result + [signal(v, ts[ii])];
        ii := ii + 1;
      }
    }

    /** With ARD on, coefficients 1..9 get an uninformative prior: precision
        1e-12 on the diagonal and mean 0. Every other entry is kept. */
    method SetupARD(prior: MvnDist, invert: Matrix -> Matrix)
      requires Valid() && prior.Valid() && KeepsShape(invert)
      requires |prior.means| == NumParams(Flags())
      modifies prior
      ensures !doard ==> prior.means == old(prior.means) && prior.spread == old(prior.spread)
      ensures doard ==> var p0 := old(prior.GetPrecisions(invert));
        && prior.spread.Precisions? && IsSquare(prior.spread.m, |prior.means|)
        && |prior.means| == |old(prior.means)|
        && (forall i :: 0 <= i < |prior.means| ==> prior.means[i] == if i < 9 then 0.0 else old(prior.means[i]))
        && (forall i, j :: 0 <= i < |prior.means| && 0 <= j < |prior.means| ==>
              prior.spread.m[i][j] == if i == j && i < 9 then 0.000000000001 else p0[i][j])
    {
      if doard {
        var n := |prior.means|;
        var p0 := prior.GetPrecisions(invert);
        var prec, means := p0, prior.means;
        var ii := 1;
        while ii < 10
          modifies {}
          invariant 1 <= ii <= 10 && IsSquare(prec, n) && |means| == n
          invariant forall i :: 0 <= i < n ==> means[i] == if i < ii - 1 then 0.0 else prior.means[i]
          invariant forall i, j :: 0 <= i < n && 0 <= j < n ==>
            prec[i][j] == if i == j && i < ii - 1 then 0.000000000001 else p0[i][j]
        {
          prec := SetEntry(prec, ii, ii, 0.000000000001);
          means := means[ii - 1 := 0.0];
          ii := ii + 1;
        }
        prior.SetPrecisions(prec);
        prior.means := means;
      }
    }

    /** With ARD on, the prior variance of each coefficient 1..9 becomes its
        posterior mean squared plus its posterior variance. Every other
        entry, and the prior means, are kept. */
    method UpdateARD(posterior: MvnDist, prior: MvnDist, invert: Matrix -> Matrix)
      requires Valid() && prior.Valid() && posterior.Valid() && KeepsShape(invert) && prior != posterior
      requires |prior.means| == NumParams(Flags()) && |posterior.means| == NumParams(Flags())
      modifies prior
      ensures !doard ==> prior.means == old(prior.means) && prior.spread == old(prior.spread)
      ensures prior.means == old(prior.means)
      ensures doard ==> var c0, post := old(prior.GetCovariance(invert)), old(posterior.GetCovariance(invert));
        && prior.spread.Covariance? && IsSquare(prior.spread.m, |prior.means|)
        && (forall i, j :: 0 <= i < |prior.means| && 0 <= j < |prior.means| ==>
              prior.spread.m[i][j] == if i == j && i < 9 then posterior.means[i] * posterior.means[i] + post[i][i] else c0[i][j])
    {
      if doard {
        var n := |prior.means|;
        var c0 := prior.GetCovariance(invert);
        var post := posterior.GetCovariance(invert);
        var m := posterior.means;
        var cov := c0;
        var ii := 1;
        while ii < 10
          modifies {}
          invariant 1 <= ii <= 10 && IsSquare(cov, n)
          invariant forall i, j :: 0 <= i < n && 0 <= j < n ==>
            cov[i][j] == if i == j && i < ii - 1 then m[i] * m[i] + post[i][i] else c0[i][j]
        {
          cov := SetEntry(cov, ii, ii, m[ii - 1] * m[ii - 1] + post[ii - 1][ii - 1]);
          ii := ii + 1;
        }
        prior.SetCovariance(cov);
      }
    }
  }
}
