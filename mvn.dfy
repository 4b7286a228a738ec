/** The multivariate normal distribution over model parameters that forward
    models read and rewrite (FABBER's MVNDist). It keeps its means and whichever
    of the precision or covariance matrix was set last; the other is obtained
    by inversion, which the model takes as a parameter. */
module Mvn {
  import opened Common

  /** The matrix most recently set, and which one it is. */
  datatype Spread = Precisions(m: Matrix) | Covariance(m: Matrix)

  /** An inversion that keeps square matrices square of the same size. */
  ghost predicate KeepsShape(invert: Matrix -> Matrix) {
    forall m: Matrix {:trigger invert(m)} :: IsSquare(m, |m|) ==> IsSquare(invert(m), |m|)
  }

  class MvnDist {
    var means: seq<real>
    var spread: Spread

    ghost predicate Valid()
      reads this
    {
      IsSquare(spread.m, |means|)
    }

    constructor(means: seq<real>, spread: Spread)
      requires IsSquare(spread.m, |means|)
      ensures Valid() && this.means == means && this.spread == spread
    {
      this.means := means;
      this.spread := spread;
    }

    /** The precision matrix: the stored one, or the inverse of the stored covariance. */
    function GetPrecisions(invert: Matrix -> Matrix): (r: Matrix)
      reads this
      requires Valid() && KeepsShape(invert)
      ensures IsSquare(r, |means|)
      ensures spread.Precisions? ==> r == spread.m
      ensures spread.Covariance? ==> r == invert(spread.m)
    {
      if spread.Precisions? then spread.m else invert(spread.m)
    }

    /** The covariance matrix: the stored one, or the inverse of the stored precisions. */
    function GetCovariance(invert: Matrix -> Matrix): (r: Matrix)
      reads this
      requires Valid() && KeepsShape(invert)
      ensures IsSquare(r, |means|)
      ensures spread.Covariance? ==> r == spread.m
      ensures spread.Precisions? ==> r == invert(spread.m)
    {
      if spread.Covariance? then spread.m else invert(spread.m)
    }

    method SetPrecisions(p: Matrix)
      requires IsSquare(p, |means|)
      modifies this
      ensures Valid() && spread == Precisions(p) && means == old(means)
    {
      spread := Precisions(p);
    }

    method SetCovariance(c: Matrix)
      requires IsSquare(c, |means|)
      modifies this
      ensures Valid() && spread == Covariance(c) && means == old(means)
    {
      spread := Covariance(c);
    }

    /** Assignment `this = other`: both parts are copied. */
    method CopyFrom(other: MvnDist)
      requires other.Valid()
      modifies this
      ensures Valid() && means == old(other.means) && spread == old(other.spread)
    {
      means := other.means;
      spread := other.spread;
    }
  }
}
