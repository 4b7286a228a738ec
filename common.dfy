/** Shared vocabulary: optional values, error results, and dense matrices
    addressed with the 1-based (row, column) indices that the library uses. */
module Common {

  datatype Option<T> = None | Some(value: T)

  /** The internal and run-data failures the modelled code reports, one
      constructor per message; Describe gives each message's text. */
  datatype Fault =
    | UnknownAr1Type                                     // noisemodel_ar.cc NumAlphas
    | MarginalsMissing(n: nat, size: nat)                // Ar1cMatrixCache::GetMarginal
    | NegativeAlphaVariance                              // Ar1cNoiseModel::UpdateAlpha
    | NonPositivePhiScale                                // Ar1cNoiseModel::UpdatePhi
    | CorrelatedPhis                                     // Ar1cParams::InputFromMVN

  /** The text the source attaches to each fault. */
  function Describe(f: Fault): string {
    match f
    case UnknownAr1Type => "Invalid ar1Type -- shouldn't make it this far!"
    case MarginalsMissing(n, size) =>
      "GetMarginal(" + NatToString(n) + "): not enough elements (only" + NatToString(size) + ") in alphaMarginals!\n"
    case NegativeAlphaVariance => "Ar1cNoiseModel::UpdateAlpha Negative variance!"
    case NonPositivePhiScale => "Ar1cNoiseModel::UpdatePhi: assertion posterior.phis[i - 1].b > 0 failed"
    case CorrelatedPhis => "Phis should have zero covariance!"
  }

  /** The exceptions thrown by the modelled code, by kind. */
  datatype Error =
    | InternalError(fault: Fault)                        // FabberInternalError
    | InvalidOptionValue(option: string, value: string, reason: string) // InvalidOptionValue
    | RunDataError(fault: Fault)                         // FabberRunDataError

  datatype Result<T> = Ok(value: T) | Err(error: Error)

  datatype Outcome = Pass | Fail(error: Error)

  /** A double as far as the NaN/inf tests of the source can tell. */
  datatype Double = Finite(v: real) | NaN | Inf(positive: bool)
  {
    predicate IsBad() { !Finite? }
  }

  /** A dense matrix, row by row. */
  type Matrix = seq<seq<real>>

  ghost predicate IsSquare(m: Matrix, n: nat) {
    |m| == n && forall i :: 0 <= i < n ==> |m[i]| == n
  }

  ghost predicate Symmetric(m: Matrix)
    requires IsSquare(m, |m|)
  {
    forall i, j :: 0 <= i < |m| && 0 <= j < |m| ==> m[i][j] == m[j][i]
  }

  /** Entry (i, j), 1-based. */
  function Get(m: Matrix, i: nat, j: nat): real
    requires 1 <= i <= |m| && 1 <= j <= |m[i - 1]|
  {
    m[i - 1][j - 1]
  }

  /** Assignment m(i, j) = x on a full matrix, 1-based. */
  function SetEntry(m: Matrix, i: nat, j: nat, x: real): (r: Matrix)
    requires 1 <= i <= |m| && 1 <= j <= |m[i - 1]|
    ensures |r| == |m| && forall k :: 0 <= k < |m| ==> |r[k]| == |m[k]|
    ensures r[i - 1][j - 1] == x
    ensures forall a, b :: 0 <= a < |m| && 0 <= b < |m[a]| && (a, b) != (i - 1, j - 1) ==> r[a][b] == m[a][b]
  {
    m[i - 1 := m[i - 1][j - 1 := x]]
  }

  /** Assignment m(i, j) = x on a symmetric matrix: one stored cell serves (i, j) and (j, i). */
  function SymSet(m: Matrix, i: nat, j: nat, x: real): (r: Matrix)
    requires IsSquare(m, |m|) && 1 <= i <= |m| && 1 <= j <= |m|
    ensures IsSquare(r, |m|)
    ensures r[i - 1][j - 1] == x && r[j - 1][i - 1] == x
    ensures forall a, b :: 0 <= a < |m| && 0 <= b < |m| && (a, b) != (i - 1, j - 1) && (a, b) != (j - 1, i - 1) ==> r[a][b] == m[a][b]
    ensures Symmetric(m) ==> Symmetric(r)
  {
    SetEntry(SetEntry(m, i, j, x), j, i, x)
  }

  /** The n-by-n identity matrix times s. */
  function ScaledIdentity(n: nat, s: real): (r: Matrix)
    ensures IsSquare(r, n) && Symmetric(r)
    ensures forall i, j :: 0 <= i < n && 0 <= j < n ==> r[i][j] == if i == j then s else 0.0
  {
    seq(n, i => seq(n, j => if i == j then s else 0.0))
  }

  function Dot(u: seq<real>, v: seq<real>): real
    requires |u| == |v|
  {
    if u == [] then 0.0 else u[0] * v[0] + Dot(u[1..], v[1..])
  }

  /** Matrix times column vector. */
  function MatVec(m: Matrix, v: seq<real>): (r: seq<real>)
    requires forall i :: 0 <= i < |m| ==> |m[i]| == |v|
    ensures |r| == |m|
  {
    seq(|m|, i requires 0 <= i < |m| => Dot(m[i], v))
  }

  /** Decimal digits of a natural number, as the library's stringify prints it. */
  function NatToString(n: nat): (s: string)
    ensures |s| >= 1
    ensures forall i :: 0 <= i < |s| ==> '0' <= s[i] <= '9'
  {
    var d := ['0', '1', '2', '3', '4', '5', '6', '7', '8', '9'][n % 10];
    if n < 10 then [d] else NatToString(n / 10) + [d]
  }

  /** Decimal form of an integer, with a leading minus sign when negative. */
  function IntToString(n: int): (s: string)
    ensures |s| >= 1
    ensures n < 0 <==> s[0] == '-'
  {
    if n < 0 then "-" + NatToString(-n) else NatToString(n)
  }

  /** s when b holds, nothing otherwise. */
  function Present<T>(b: bool, s: seq<T>): seq<T> {
    if b then s else []
  }

  function Abs(x: real): (r: real)
    ensures r >= 0.0 && (r == x || r == -x)
  {
    if x < 0.0 then -x else x
  }
}
