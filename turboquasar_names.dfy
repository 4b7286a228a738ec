/** The parameter list of the TURBO-QUASAR ASL model: which parameters a
    set of options makes the model infer, and in what order they are
    reported. Names are an enumeration; Text gives the name the model
    reports. */
module TurboQuasarNames {
  import opened Common

  /** The options that decide the parameter list, after Initialize has
      derived infertiss and infertaub. */
  datatype TqFlags = TqFlags(
    infertiss: bool, infertau: bool, inferart: bool, infert1: bool,
    infertaub: bool, inferwm: bool, usepve: bool, artdir: bool, calibon: bool)

  /** A parameter of the model. FBloodC(k) is the arterial fraction of
      crushed image k (1..4). */
  datatype TqName =
    | FTiss | DeltTiss | TauTiss
    | FBlood | DeltBlood
    | T1 | T1b
    | TauBlood
    | FWm | DeltWm | TauWm | T1Wm | PGm | PWm
    | SpLog | SLog
    | ThBlood | PhiBlood | BvBlood | FBloodC(k: nat)
    | Gain

  /** The name the parameter is reported under. */
  function Text(n: TqName): string {
    match n
    case FTiss => "ftiss"
    case DeltTiss => "delttiss"
    case TauTiss => "tautiss"
    case FBlood => "fblood"
    case DeltBlood => "deltblood"
    case T1 => "T_1"
    case T1b => "T_1b"
    case TauBlood => "taublood"
    case FWm => "fwm"
    case DeltWm => "deltwm"
    case TauWm => "tauwm"
    case T1Wm => "T_1wm"
    case PGm => "p_gm"
    case PWm => "p_wm"
    case SpLog => "sp_log"
    case SLog => "s_log"
    case ThBlood => "thblood"
    case PhiBlood => "phiblood"
    case BvBlood => "bvblood"
    case FBloodC(k) => "fbloodc" + NatToString(k)
    case Gain => "g"
  }

  /** The arterial direction or crushed-fraction parameters. */
  predicate IsCrushName(n: TqName) {
    n.ThBlood? || n.PhiBlood? || n.BvBlood? || n.FBloodC?
  }

  /** The tissue, arterial, T1, arterial bolus and white matter parameters. */
  predicate IsFrontName(n: TqName) {
    !n.SpLog? && !n.SLog? && !IsCrushName(n) && !n.Gain?
  }

  /** Whether the options make n a parameter of the model. */
  predicate Inferred(f: TqFlags, n: TqName) {
    match n
    case FTiss => f.infertiss
    case DeltTiss => f.infertiss
    case TauTiss => f.infertau && f.infertiss
    case FBlood => f.inferart
    case DeltBlood => f.inferart
    case T1 => f.infert1
    case T1b => f.infert1
    case TauBlood => f.infertaub
    case FWm => f.inferwm
    case DeltWm => f.inferwm
    case TauWm => f.inferwm && f.infertau
    case T1Wm => f.inferwm && f.infert1
    case PGm => f.inferwm && f.usepve
    case PWm => f.inferwm && f.usepve
    case SpLog => true
    case SLog => true
    case ThBlood => f.inferart && f.artdir
    case PhiBlood => f.inferart && f.artdir
    case BvBlood => f.inferart && f.artdir
    case FBloodC(k) => f.inferart && !f.artdir && 1 <= k <= 4
    case Gain => f.calibon
  }

  /** The place of every name in the reported order. */
  function Rank(n: TqName): int {
    match n
    case FTiss => 0
    case DeltTiss => 1
    case TauTiss => 2
    case FBlood => 3
    case DeltBlood => 4
    case T1 => 5
    case T1b => 6
    case TauBlood => 7
    case FWm => 8
    case DeltWm => 9
    case TauWm => 10
    case T1Wm => 11
    case PGm => 12
    case PWm => 13
    case SpLog => 14
    case SLog => 15
    case ThBlood => 16
    case PhiBlood => 17
    case BvBlood => 18
    case FBloodC(k) => if 1 <= k <= 4 then 18 + k else 99
    case Gain => 100
  }

  /** Ranks strictly increase along s. */
  ghost predicate Increasing(s: seq<TqName>) {
    forall i, j :: 0 <= i < j < |s| ==> Rank(s[i]) < Rank(s[j])
  }

  /** names holds exactly the inferred parameters, each once, in reported
      order. */
  ghost predicate ListsInferred(names: seq<TqName>, f: TqFlags) {
    Increasing(names) && forall n :: n in names <==> Inferred(f, n)
  }

  /** The number of parameters, counted option by option. */
  function NumParams(f: TqFlags): nat {
    2 * Count(f.infertiss) + Count(f.infertau && f.infertiss) + 2 * Count(f.inferart)
      + 2 * Count(f.infert1) + Count(f.infertaub)
      + (if f.inferwm then 2 + Count(f.infertau) + Count(f.infert1) + 2 * Count(f.usepve) else 0)
      + 2
      + (if f.inferart then (if f.artdir then 3 else 4) else 0)
      + Count(f.calibon)
  }

  /** 1 for a set flag, 0 otherwise. */
  function Count(b: bool): nat {
    if b then 1 else 0
  }

  /** names is the start of the list: the inferred parameters ranked
      below r, in order. */
  ghost predicate ListedBelow(names: seq<TqName>, f: TqFlags, r: nat) {
    Increasing(names)
    && (forall i :: 0 <= i < |names| ==> Rank(names[i]) < r)
    && (forall n :: n in names <==> Inferred(f, n) && Rank(n) < r)
  }

  /** s is, in order, exactly the inferred parameters ranked in [lo, hi). */
  ghost predicate IsBlock(f: TqFlags, lo: nat, hi: nat, s: seq<TqName>) {
    && lo <= hi
    && Increasing(s)
    && (forall i :: 0 <= i < |s| ==> lo <= Rank(s[i]) < hi)
    && (forall n :: lo <= Rank(n) < hi ==> (Inferred(f, n) <==> n in s))
  }

  /** Appending the next block keeps the list a start of the full list. */
  lemma {:induction false} ListBlock(names: seq<TqName>, block: seq<TqName>, f: TqFlags, lo: nat, hi: nat)
    requires ListedBelow(names, f, lo) && IsBlock(f, lo, hi, block)
    ensures ListedBelow(names + block, f, hi)
  {
    var s := names + block;
    forall i, j | 0 <= i < j < |s|
      ensures Rank(s[i]) < Rank(s[j])
    {
      if j < |names| {
        assert s[i] == names[i] && s[j] == names[j];
      } else if i < |names| {
        assert s[i] == names[i] && s[j] == block[j - |names|];
      } else {
        assert s[i] == block[i - |names|] && s[j] == block[j - |names|];
      }
    }
    forall i | 0 <= i < |s|
      ensures Rank(s[i]) < hi
    {
      if i < |names| {
        assert s[i] == names[i];
      } else {
        assert s[i] == block[i - |names|];
      }
    }
    forall n
      ensures n in s <==> Inferred(f, n) && Rank(n) < hi
    {
      if n in block {
        var i :| 0 <= i < |block| && block[i] == n;
        assert s[|names| + i] == n;
      }
      if n in s {
        var i :| 0 <= i < |s| && s[i] == n;
        if i < |names| {
          assert names[i] == n;
        } else {
          assert block[i - |names|] == n;
        }
      }
    }
  }

  lemma TissueBlock(f: TqFlags)
    ensures IsBlock(f, 0, 2, Present(f.infertiss, [FTiss, DeltTiss]))
  {
  }

  lemma TissueBolusBlock(f: TqFlags)
    ensures IsBlock(f, 2, 3, Present(f.infertau && f.infertiss, [TauTiss]))
  {
  }

  lemma ArterialBlock(f: TqFlags)
    ensures IsBlock(f, 3, 5, Present(f.inferart, [FBlood, DeltBlood]))
  {
  }

  lemma T1Block(f: TqFlags)
    ensures IsBlock(f, 5, 7, Present(f.infert1, [T1, T1b]))
  {
  }

  lemma ArterialBolusBlock(f: TqFlags)
    ensures IsBlock(f, 7, 8, Present(f.infertaub, [TauBlood]))
  {
  }

  lemma WhiteMatterBlock(f: TqFlags)
    ensures IsBlock(f, 8, 10, Present(f.inferwm, [FWm, DeltWm]))
  {
  }

  lemma WhiteMatterBolusBlock(f: TqFlags)
    ensures IsBlock(f, 10, 11, Present(f.inferwm && f.infertau, [TauWm]))
  {
  }

  lemma WhiteMatterT1Block(f: TqFlags)
    ensures IsBlock(f, 11, 12, Present(f.inferwm && f.infert1, [T1Wm]))
  {
  }

  lemma PartialVolumeBlock(f: TqFlags)
    ensures IsBlock(f, 12, 14, Present(f.inferwm && f.usepve, [PGm, PWm]))
  {
  }

  lemma DispersionBlock(f: TqFlags)
    ensures IsBlock(f, 14, 16, [SpLog, SLog])
  {
  }

  lemma CrushBlock(f: TqFlags)
    ensures IsBlock(f, 16, 100,
      Present(f.inferart, if f.artdir then [ThBlood, PhiBlood, BvBlood] else [FBloodC(1), FBloodC(2), FBloodC(3), FBloodC(4)]))
  {
  }

  lemma GainBlock(f: TqFlags)
    ensures IsBlock(f, 100, 101, Present(f.calibon, [Gain]))
  {
  }

  /** Once every rank is covered the list is complete. */
  lemma ListDone(names: seq<TqName>, f: TqFlags)
    requires ListedBelow(names, f, 101)
    ensures ListsInferred(names, f)
  {
  }

  /** The characterisation fixes the list: two lists of the same names,
      both in reported order, are equal. */
  lemma {:induction false} IncreasingUnique(a: seq<TqName>, b: seq<TqName>)
    requires Increasing(a) && Increasing(b)
    requires forall n :: n in a <==> n in b
    ensures a == b
    decreases |a|
  {
    assert a == [] <==> b == [] by {
      if a != [] {
        assert a[0] in b;
      }
      if b != [] {
        assert b[0] in a;
      }
    }
    if a != [] {
      SameHead(a, b);
      forall n
        ensures n in a[1..] <==> n in b[1..]
      {
        if n in a[1..] {
          TailMember(a, b, n);
        }
        if n in b[1..] {
          TailMember(b, a, n);
        }
      }
      IncreasingUnique(a[1..], b[1..]);
      assert a == [a[0]] + a[1..];
      assert b == [b[0]] + b[1..];
    }
  }

  /** Two non-empty increasing lists of the same names start alike. */
  lemma SameHead(a: seq<TqName>, b: seq<TqName>)
    requires Increasing(a) && Increasing(b) && a != [] && b != []
    requires forall n :: n in a <==> n in b
    ensures a[0] == b[0]
  {
    assert a[0] in a && b[0] in b;
    var j :| 0 <= j < |b| && b[j] == a[0];
    var i :| 0 <= i < |a| && a[i] == b[0];
    assert j == 0;
  }

  /** With equal heads, a name past the head of one list is past the head
      of the other. */
  lemma TailMember(a: seq<TqName>, b: seq<TqName>, n: TqName)
    requires Increasing(a) && Increasing(b) && a != [] && b != [] && a[0] == b[0]
    requires forall n :: n in a <==> n in b
    requires n in a[1..]
    ensures n in b[1..]
  {
    var k :| 1 <= k < |a| && a[k] == n;
    assert Rank(a[0]) < Rank(a[k]);
    assert n in b;
    var l :| 0 <= l < |b| && b[l] == n;
    assert l != 0;
    assert b[1..][l - 1] == n;
  }

  /** No parameter is named twice. */
  lemma ParamNamesDistinct(names: seq<TqName>, f: TqFlags)
    requires ListsInferred(names, f)
    ensures forall i, j :: 0 <= i < j < |names| ==> names[i] != names[j]
  {
  }

  /** sp_log and s_log are always parameters, s_log right after sp_log;
      exactly the tissue, arterial, T1, bolus and white matter parameters
      come before them, and only crush parameters and the gain after. */
  lemma {:induction false} DispersionNamesPlaced(names: seq<TqName>, f: TqFlags)
    requires ListsInferred(names, f)
    ensures SpLog in names && SLog in names
    ensures forall k, l :: 0 <= k < |names| && 0 <= l < |names| && names[k] == SpLog && names[l] == SLog ==> l == k + 1
    ensures forall i, k :: 0 <= i < |names| && 0 <= k < |names| && names[k] == SpLog ==> (i < k <==> IsFrontName(names[i]))
    ensures forall i, l :: 0 <= l < i < |names| && names[l] == SLog ==> IsCrushName(names[i]) || names[i] == Gain
  {
    assert Inferred(f, SpLog) && Inferred(f, SLog);
    forall k, l | 0 <= k < |names| && 0 <= l < |names| && names[k] == SpLog && names[l] == SLog
      ensures l == k + 1
    {
      assert k + 1 < |names| ==> Rank(names[k + 1]) > 14;
    }
    forall i, k | 0 <= i < |names| && 0 <= k < |names| && names[k] == SpLog
      ensures i < k <==> IsFrontName(names[i])
    {
      if i < k {
        assert Rank(names[i]) < Rank(names[k]);
      } else if k < i {
        assert Rank(names[k]) < Rank(names[i]);
      }
    }
    forall i, l | 0 <= l < i < |names| && names[l] == SLog
      ensures IsCrushName(names[i]) || names[i] == Gain
    {
      assert Rank(names[l]) < Rank(names[i]);
    }
  }

  /** The gain g is a parameter exactly when calibration is on, and then it
      is the last one. */
  lemma {:induction false} GainLast(names: seq<TqName>, f: TqFlags)
    requires ListsInferred(names, f)
    ensures Gain in names <==> f.calibon
    ensures f.calibon ==> names[|names| - 1] == Gain
  {
    if f.calibon {
      assert Inferred(f, Gain);
      var k :| 0 <= k < |names| && names[k] == Gain;
      assert k == |names| - 1 || Rank(names[k]) < Rank(names[|names| - 1]);
    }
  }

  /** The crush parameters: none without inferart; with it, the three
      direction parameters under artdir and the four crushed fractions
      otherwise. */
  lemma CrushNames(names: seq<TqName>, f: TqFlags)
    requires ListsInferred(names, f)
    ensures !f.inferart ==> forall i :: 0 <= i < |names| ==> !IsCrushName(names[i])
    ensures f.inferart && f.artdir ==>
      forall n :: IsCrushName(n) ==> (n in names <==> n in [ThBlood, PhiBlood, BvBlood])
    ensures f.inferart && !f.artdir ==>
      forall n :: IsCrushName(n) ==> (n in names <==> n in [FBloodC(1), FBloodC(2), FBloodC(3), FBloodC(4)])
  {
    if !f.inferart {
      forall i | 0 <= i < |names|
        ensures !IsCrushName(names[i])
      {
        assert names[i] in names;
      }
    }
  }

  /** The partial volume parameters p_gm and p_wm appear exactly when white
      matter is inferred with partial volume estimates. */
  lemma PartialVolumeNames(names: seq<TqName>, f: TqFlags)
    requires ListsInferred(names, f)
    ensures PGm in names <==> f.inferwm && f.usepve
    ensures PWm in names <==> f.inferwm && f.usepve
  {
  }
}
