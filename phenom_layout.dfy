/** Where each inferred parameter of the phenomenological qBOLD model sits in
    the parameter vector: the nine model coefficients first, then OEF, DBV and
    S0, each present only when it is inferred. Indices are 1-based. */
module PhenomLayout {
  import opened Common


  /** Which parameters are inferred (infer_OEF, infer_DBV, infer_coefs, infer_S0). */
  datatype InferFlags = InferFlags(oef: bool, dbv: bool, coefs: bool, s0: bool)

  /** A parameter of the model: coefficient k (1..9 for b11..b33), OEF, DBV or S0. */
  datatype PhenomParam = Coef(k: nat) | OEF | DBV | S0

  /** 1 for a set flag, 0 otherwise. */
  function Count(b: bool): nat {
    if b then 1 else 0
  }

  /** The length of the parameter vector. */
  function NumParams(f: InferFlags): (r: nat)
    ensures r <= 12
    ensures r == 0 <==> !f.oef && !f.dbv && !f.coefs && !f.s0
    ensures f.coefs ==> r >= 9
  {
    (if f.coefs then 9 else 0) + Count(f.oef) + Count(f.dbv) + Count(f.s0)
  }

  /** The index of OEF: after the coefficients. */
  function OEFIndex(f: InferFlags): (r: nat)
    ensures r <= NumParams(f)
    ensures f.oef ==> 1 <= r && (f.coefs ==> r == 10)
  {
    (if f.coefs then 9 else 0) + Count(f.oef)
  }

  /** The index of DBV: after OEF. */
  function DBVIndex(f: InferFlags): (r: nat)
    ensures OEFIndex(f) <= r <= NumParams(f)
    ensures f.dbv ==> OEFIndex(f) < r
  {
    OEFIndex(f) + Count(f.dbv)
  }

  /** The index of S0: after DBV, and always the last index. */
  function S0Index(f: InferFlags): (r: nat)
    ensures DBVIndex(f) <= r
    ensures f.s0 ==> DBVIndex(f) < r
    ensures r == NumParams(f)
  {
    DBVIndex(f) + Count(f.s0)
  }

  /** A parameter the model has: coefficients are numbered 1..9. */
  predicate ValidParam(p: PhenomParam) {
    p.Coef? ==> 1 <= p.k <= 9
  }

  /** The names of the nine coefficients, in vector order. */
  const CoefNames: seq<string> := ["b11", "b12", "b13", "b21", "b22", "b23", "b31", "b32", "b33"]

  /** The name the parameter is reported under. */
  function ParamName(p: PhenomParam): string
    requires ValidParam(p)
  {
    Pick(Names, p)
  }

  /** Distinct parameters are reported under distinct names. */
  lemma ParamNamesDistinct(p: PhenomParam, q: PhenomParam)
    requires ValidParam(p) && ValidParam(q) && p != q
    ensures ParamName(p) != ParamName(q)
  {
  }

  /** Whether p is part of the parameter vector. */
  predicate Inferred(f: InferFlags, p: PhenomParam)
    ensures Inferred(f, p) ==> ValidParam(p)
  {
    match p
    case Coef(k) => f.coefs && 1 <= k <= 9
    case OEF => f.oef
    case DBV => f.dbv
    case S0 => f.s0
  }

  /** The 1-based position of an inferred parameter. */
  function IndexOf(f: InferFlags, p: PhenomParam): (r: nat)
    requires Inferred(f, p)
    ensures 1 <= r <= NumParams(f)
    ensures p.Coef? <==> r <= 9 && f.coefs
  {
    match p
    case Coef(k) => k
    case OEF => OEFIndex(f)
    case DBV => DBVIndex(f)
    case S0 => S0Index(f)
  }

  /** The parameter at position i of the vector. */
  function ParamAt(f: InferFlags, i: nat): (p: PhenomParam)
    requires 1 <= i <= NumParams(f)
  {
    if f.coefs && i <= 9 then Coef(i)
    else if f.oef && i == OEFIndex(f) then OEF
    else if f.dbv && i == DBVIndex(f) then DBV
    else S0
  }

  /** ParamAt and IndexOf are inverse: every position holds exactly one inferred
      parameter, and distinct inferred parameters have distinct positions. */
  lemma LayoutBijection(f: InferFlags)
    ensures forall i :: 1 <= i <= NumParams(f) ==> Inferred(f, ParamAt(f, i)) && IndexOf(f, ParamAt(f, i)) == i
    ensures forall p :: Inferred(f, p) ==> ParamAt(f, IndexOf(f, p)) == p
  {
    forall i | 1 <= i <= NumParams(f)
      ensures Inferred(f, ParamAt(f, i)) && IndexOf(f, ParamAt(f, i)) == i
    {
    }
  }

  /** Distinct inferred parameters never share a position. */
  lemma IndicesDistinct(f: InferFlags, p: PhenomParam, q: PhenomParam)
    requires Inferred(f, p) && Inferred(f, q) && p != q
    ensures IndexOf(f, p) != IndexOf(f, q)
  {
    LayoutBijection(f);
  }

  /** One value per parameter: the nine coefficients' values, then OEF's,
      DBV's and S0's. */
  datatype PerParam<T> = PerParam(coefs: seq<T>, oef: T, dbv: T, s0: T)

  /** The value for parameter p. */
  function Pick<T>(v: PerParam<T>, p: PhenomParam): T
    requires |v.coefs| == 9 && ValidParam(p)
  {
    match p
    case Coef(k) => v.coefs[k - 1]
    case OEF => v.oef
    case DBV => v.dbv
    case S0 => v.s0
  }

  /** The values laid out as the parameter vector is: the coefficient block,
      then OEF, DBV and S0, each only when inferred. */
  function Arrange<T>(f: InferFlags, v: PerParam<T>): seq<T> {
    Present(f.coefs, v.coefs) + Present(f.oef, [v.oef]) + Present(f.dbv, [v.dbv]) + Present(f.s0, [v.s0])
  }

  /** The arrangement has one entry per parameter, and each inferred
      parameter's value is at that parameter's position. */
  lemma {:induction false} ArrangeByParam<T>(f: InferFlags, v: PerParam<T>)
    requires |v.coefs| == 9
    ensures |Arrange(f, v)| == NumParams(f)
    ensures forall p :: Inferred(f, p) ==> Arrange(f, v)[IndexOf(f, p) - 1] == Pick(v, p)
  {
    var a := Arrange(f, v);
    var upToOEF := Present(f.coefs, v.coefs) + Present(f.oef, [v.oef]);
    var upToDBV := upToOEF + Present(f.dbv, [v.dbv]);
    assert |upToOEF| == OEFIndex(f) && |upToDBV| == DBVIndex(f);
    assert a == upToDBV + Present(f.s0, [v.s0]);
    forall p | Inferred(f, p)
      ensures a[IndexOf(f, p) - 1] == Pick(v, p)
    {
      match p
      case Coef(k) =>
        assert a[k - 1] == upToDBV[k - 1] == upToOEF[k - 1];
      case OEF =>
        assert a[OEFIndex(f) - 1] == upToDBV[OEFIndex(f) - 1] == upToOEF[OEFIndex(f) - 1];
      case DBV =>
        assert a[DBVIndex(f) - 1] == upToDBV[DBVIndex(f) - 1];
      case S0 =>
    }
  }

  /** Read position by position, the arrangement holds the values of the
      parameters there. */
  lemma ArrangeByPosition<T>(f: InferFlags, v: PerParam<T>)
    requires |v.coefs| == 9
    ensures |Arrange(f, v)| == NumParams(f)
    ensures forall i :: 0 <= i < NumParams(f) ==> Arrange(f, v)[i] == Pick(v, ParamAt(f, i + 1))
  {
    ArrangeByParam(f, v);
    LayoutBijection(f);
  }

  /** A vector that holds each inferred parameter's value at that
      parameter's position is the arrangement of those values. */
  lemma ByParamIsArrange<T>(f: InferFlags, s: seq<T>, v: PerParam<T>)
    requires |s| == NumParams(f) && |v.coefs| == 9
    requires forall p :: Inferred(f, p) ==> s[IndexOf(f, p) - 1] == Pick(v, p)
    ensures s == Arrange(f, v)
  {
    ArrangeByPosition(f, v);
    LayoutBijection(f);
    forall i | 0 <= i < |s|
      ensures s[i] == Arrange(f, v)[i]
    {
      var p := ParamAt(f, i + 1);
      assert s[IndexOf(f, p) - 1] == Pick(v, p);
    }
  }

  /** The reported names of the parameters. */
  const Names: PerParam<string> := PerParam(CoefNames, "OEF", "DBV", "S0")

  /** The parameter names in vector order. */
  function ParamNames(f: InferFlags): seq<string> {
    Arrange(f, Names)
  }
}
