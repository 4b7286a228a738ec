/** The TURBO-QUASAR ASL forward model: its option flags, its parameter
    list, the clamping of parameters before evaluation, the NaN scan of the
    kinetic curves, the layout of the predicted signal and the ARD prior
    updates. The kinetic curves themselves are inputs. */
module TurboQuasarModel {
  import opened Common
  import opened Mvn
  import opened TurboQuasarNames

  /** The boolean options Initialize reads. */
  datatype TqArgs = TqArgs(
    infertau: bool, infert1: bool, inferart: bool, inferwm: bool,
    ardoff: bool, tauboff: bool, usepve: bool, artdir: bool, usecalib: bool,
    tissoff: bool, onephase: bool, tissardon: bool, artardoff: bool, wmardoff: bool)

  /** The 1-based positions tiss_index(), art_index() and wm_index() of
      ftiss, fblood and fwm in the parameter vector; each transit delay
      sits right after its flow. */
  datatype TqIndices = TqIndices(tiss: nat, art: nat, wm: nat)

  /** The largest TI. */
  function MaxOf(s: seq<real>): (r: real)
    requires |s| >= 1
    ensures r in s
    ensures forall i :: 0 <= i < |s| ==> s[i] <= r
  {
    if |s| == 1 then s[0]
    else
      var m := MaxOf(s[..|s| - 1]);
      assert forall i :: 0 <= i < |s| - 1 ==> s[..|s| - 1][i] == s[i];
      if s[|s| - 1] > m then s[|s| - 1] else m
  }

  /** A parameter with its negative values replaced by 0. */
  function NonNegative(x: real): real {
    if x < 0.0 then 0.0 else x
  }

  /** The same vector with every entry set to 0. */
  function Zeros(n: nat): (r: seq<Double>)
    ensures |r| == n && forall i :: 0 <= i < n ==> r[i] == Finite(0.0)
  {
    seq(n, _ => Finite(0.0))
  }

  /** The NaN catch of Evaluate: the curve is kept when every entry is a
      number, and set to 0 throughout as soon as one entry is NaN or
      infinite. The source reads the first entry unconditionally; there is
      always at least one TI. */
  method ScanNonFinite(kc: seq<Double>) returns (r: seq<Double>)
    requires |kc| >= 1
    ensures (exists i :: 0 <= i < |kc| && kc[i].IsBad()) ==> r == Zeros(|kc|)
    ensures (forall i :: 0 <= i < |kc| ==> !kc[i].IsBad()) ==> r == kc
    ensures forall i :: 0 <= i < |r| ==> r[i].Finite?
  {
    r := kc;
    var cont := true;
    var it := 1;
    while cont
      invariant 1 <= it <= |kc| + 1
      invariant cont ==> it <= |kc| && r == kc && forall j :: 0 <= j < it - 1 ==> !kc[j].IsBad()
      invariant !cont ==> (r == Zeros(|kc|) && exists j :: 0 <= j < |kc| && kc[j].IsBad())
                          || (r == kc && forall j :: 0 <= j < |kc| ==> !kc[j].IsBad())
      decreases if cont then |kc| + 2 - it else 0
    {
      if r[it - 1].IsBad() {
        cont := false;
        r := Zeros(|r|);
      }
      it := it + 1;
      if it > |r| {
        cont := false;
      }
    }
  }

  /** Four per-crush values: the arterial weights or the crushed fractions. */
  datatype Quad = Quad(c1: real, c2: real, c3: real, c4: real)

  /** The values Evaluate combines for every TI: partial volumes, flows,
      the Sinc arterial weights of the four crushed images (used under
      artdir) and the four crushed arterial fractions (used otherwise). */
  datatype Compartments = Compartments(
    pvgm: real, ftiss: real, fblood: real, pvwm: real, fwm: real,
    artweight: Quad, fbloodc: Quad)

  /** Number of phases in the data: C1, C2, NC, C3, C4, NC, or one. */
  function NumPhases(onephase: bool): nat {
    if onephase then 1 else 6
  }

  /** The crushed-image value for phases 0, 1, 3 and 4 (0-based). */
  function CrushValue(q: Quad, p: nat): real {
    if p == 0 then q.c1 else if p == 1 then q.c2 else if p == 3 then q.c3 else q.c4
  }

  /** The factor on the arterial curve in phase p (0-based): the plain fblood
      in the non-crushed phases 2 and 5 and in single-phase data, otherwise
      the crushed image's weighted fblood (artdir) or its crushed fraction. */
  function BloodFactor(c: Compartments, artdir: bool, onephase: bool, p: nat): real {
    if onephase || p == 2 || p == 5 then c.fblood
    else if artdir then CrushValue(c.artweight, p) * c.fblood
    else CrushValue(c.fbloodc, p)
  }

  /** The predicted signal of phase p at TI it (1-based). */
  function Sample(c: Compartments, artdir: bool, onephase: bool, p: nat,
                  kct: seq<real>, kcb: seq<real>, kcw: seq<real>, it: nat): real
    requires 1 <= it <= |kct| && |kcb| == |kct| && |kcw| == |kct|
  {
    c.pvgm * c.ftiss * kct[it - 1] + BloodFactor(c, artdir, onephase, p) * kcb[it - 1] + c.pvwm * c.fwm * kcw[it - 1]
  }

  /** The 1-based position in the result of phase p (0-based), TI it and
      repeat rpt (1-based). */
  function ResultIndex(nti: nat, repeats: nat, p: nat, it: nat, rpt: nat): int {
    p * (nti * repeats) + (it - 1) * repeats + rpt
  }

  /** Euclidean division is unique. */
  lemma DivModUnique(w: int, d: int, q: int, r: int)
    requires d > 0 && 0 <= r < d && w == q * d + r
    ensures w / d == q && w % d == r
  {
    var q', r' := w / d, w % d;
    assert w == q' * d + r';
    if q' > q {
      MulMono(q + 1, q', d);
    } else if q' < q {
      MulMono(q' + 1, q, d);
    }
  }

  lemma MulMono(a: int, b: int, c: int)
    requires a <= b && c >= 0
    ensures a * c <= b * c
  {
    assert b * c - a * c == (b - a) * c;
  }

  /** The (phase, TI, repeat) that result position k (0-based) holds. */
  function Decode(nti: nat, repeats: nat, k: nat): (r: (nat, nat, nat))
    requires nti * repeats > 0
  {
    var s := nti * repeats;
    ((k / s) as nat, ((k % s) / repeats) as nat + 1, ((k % s) % repeats) as nat + 1)
  }

  /** Every (phase, TI, repeat) has a position within the result, and that
      position decodes back to it. */
  lemma {:induction false} EncodeDecode(nti: nat, repeats: nat, nphases: nat, p: nat, it: nat, rpt: nat)
    requires p < nphases && 1 <= it <= nti && 1 <= rpt <= repeats
    ensures var k := ResultIndex(nti, repeats, p, it, rpt);
      1 <= k <= nti * repeats * nphases && Decode(nti, repeats, k - 1) == (p, it, rpt)
  {
    var s := nti * repeats;
    var t := (it - 1) * repeats + rpt - 1;
    MulMono(it - 1, nti - 1, repeats);
    assert t < s;
    MulMono(p, nphases - 1, s);
    assert ResultIndex(nti, repeats, p, it, rpt) - 1 == p * s + t;
    DivModUnique(p * s + t, s, p, t);
    DivModUnique(t, repeats, it - 1, rpt - 1);
  }

  /** Every position of the result holds some (phase, TI, repeat) in range,
      and is its position: positions and triples are in one-to-one
      correspondence. */
  lemma {:induction false} DecodeEncode(nti: nat, repeats: nat, nphases: nat, k: nat)
    requires k < nti * repeats * nphases
    ensures nti * repeats > 0
    ensures var (p, it, rpt) := Decode(nti, repeats, k);
      p < nphases && 1 <= it <= nti && 1 <= rpt <= repeats
      && ResultIndex(nti, repeats, p, it, rpt) == k + 1
  {
    var s := nti * repeats;
    assert s > 0;
    var p, t := k / s, k % s;
    if p >= nphases {
      MulMono(nphases, p, s);
      assert false;
    }
    var q, r := t / repeats, t % repeats;
    if q >= nti {
      MulMono(nti, q, repeats);
      assert false;
    }
  }

  /** The result value at position k (0-based). */
  function ResultAt(c: Compartments, artdir: bool, onephase: bool,
                    kct: seq<real>, kcb: seq<real>, kcw: seq<real>, repeats: nat, k: nat): real
    requires |kcb| == |kct| && |kcw| == |kct|
    requires k < |kct| * repeats * NumPhases(onephase)
  {
    DecodeEncode(|kct|, repeats, NumPhases(onephase), k);
    var (p, it, rpt) := Decode(|kct|, repeats, k);
    Sample(c, artdir, onephase, p, kct, kcb, kcw, it)
  }

  /** The source's result at (phase, TI, repeat) is the signal of that phase
      at that TI, whatever the repeat. */
  lemma ResultAtIndex(c: Compartments, artdir: bool, onephase: bool,
                      kct: seq<real>, kcb: seq<real>, kcw: seq<real>, repeats: nat, p: nat, it: nat, rpt: nat)
    requires |kcb| == |kct| && |kcw| == |kct|
    requires p < NumPhases(onephase) && 1 <= it <= |kct| && 1 <= rpt <= repeats
    ensures var k := ResultIndex(|kct|, repeats, p, it, rpt);
      1 <= k <= |kct| * repeats * NumPhases(onephase)
      && ResultAt(c, artdir, onephase, kct, kcb, kcw, repeats, k - 1) == Sample(c, artdir, onephase, p, kct, kcb, kcw, it)
  {
    EncodeDecode(|kct|, repeats, NumPhases(onephase), p, it, rpt);
  }

  /** The non-crushed phases 3 and 6 and single-phase data carry the plain
      arterial signal; under artdir the crushed phases weight it. */
  lemma NonCrushedPhases(c: Compartments, artdir: bool, onephase: bool,
                         kct: seq<real>, kcb: seq<real>, kcw: seq<real>, p: nat, it: nat)
    requires 1 <= it <= |kct| && |kcb| == |kct| && |kcw| == |kct|
    requires onephase || p == 2 || p == 5
    ensures Sample(c, artdir, onephase, p, kct, kcb, kcw, it)
      == c.pvgm * c.ftiss * kct[it - 1] + c.fblood * kcb[it - 1] + c.pvwm * c.fwm * kcw[it - 1]
  {
  }

  /** The values written for one TI, phase by phase, as the three branches
      of the assembly compute them: single-phase data, arterial weights
      (artdir), or crushed arterial fractions. */
  function Column(c: Compartments, artdir: bool, onephase: bool,
                  kct: seq<real>, kcb: seq<real>, kcw: seq<real>, it: nat): seq<real>
    requires 1 <= it <= |kct| && |kcb| == |kct| && |kcw| == |kct|
  {
    var tissue, blood, wm := c.pvgm * c.ftiss * kct[it - 1], kcb[it - 1], c.pvwm * c.fwm * kcw[it - 1];
    if onephase then [tissue + c.fblood * blood + wm]
    else if artdir then
      [tissue + c.artweight.c1 * c.fblood * blood + wm, tissue + c.artweight.c2 * c.fblood * blood + wm,
       tissue + c.fblood * blood + wm, tissue + c.artweight.c3 * c.fblood * blood + wm,
       tissue + c.artweight.c4 * c.fblood * blood + wm, tissue + c.fblood * blood + wm]
    else
      [tissue + c.fbloodc.c1 * blood + wm, tissue + c.fbloodc.c2 * blood + wm,
       tissue + c.fblood * blood + wm, tissue + c.fbloodc.c3 * blood + wm,
       tissue + c.fbloodc.c4 * blood + wm, tissue + c.fblood * blood + wm]
  }

  /** The written values are the signal of each phase at that TI. */
  lemma ColumnSamples(c: Compartments, artdir: bool, onephase: bool,
                      kct: seq<real>, kcb: seq<real>, kcw: seq<real>, it: nat)
    requires 1 <= it <= |kct| && |kcb| == |kct| && |kcw| == |kct|
    ensures var column := Column(c, artdir, onephase, kct, kcb, kcw, it);
      |column| == NumPhases(onephase)
      && forall q :: 0 <= q < |column| ==> column[q] == Sample(c, artdir, onephase, q, kct, kcb, kcw, it)
  {
    var column := Column(c, artdir, onephase, kct, kcb, kcw, it);
    var tissue, blood, wm := c.pvgm * c.ftiss * kct[it - 1], kcb[it - 1], c.pvwm * c.fwm * kcw[it - 1];
    forall q | 0 <= q < |column|
      ensures column[q] == Sample(c, artdir, onephase, q, kct, kcb, kcw, it)
    {
      assert Sample(c, artdir, onephase, q, kct, kcb, kcw, it) == tissue + BloodFactor(c, artdir, onephase, q) * blood + wm;
    }
  }

  /** The writes for one (TI, repeat): phase p goes to p * span + t. */
  method WriteSamples(result: array<real>, span: nat, t: nat, c: Compartments, artdir: bool, onephase: bool,
                      kct: seq<real>, kcb: seq<real>, kcw: seq<real>, it: nat)
    requires t < span && result.Length == span * NumPhases(onephase)
    requires 1 <= it <= |kct| && |kcb| == |kct| && |kcw| == |kct|
    modifies result
    ensures forall k :: 0 <= k < result.Length ==>
      result[k] == if k % span == t then Sample(c, artdir, onephase, k / span, kct, kcb, kcw, it) else old(result[k])
  {
    var column := Column(c, artdir, onephase, kct, kcb, kcw, it);
    ColumnSamples(c, artdir, onephase, kct, kcb, kcw, it);
    WriteColumn(result, span, t, column);
  }

  /** Phase p's value goes to p * span + t, for the one or six phases. */
  method WriteColumn(result: array<real>, span: nat, t: nat, column: seq<real>)
    requires t < span && (|column| == 1 || |column| == 6) && result.Length == span * |column|
    modifies result
    ensures forall k :: 0 <= k < result.Length ==>
      result[k] == if k % span == t then column[k / span] else old(result[k])
  {
    if |column| == 1 {
      result[t] := column[0];
      forall k | 0 <= k < result.Length
        ensures k % span == k && k / span == 0
      {
        DivModUnique(k, span, 0, k);
      }
    } else {
      ghost var before := result[..];
      WriteSixPhases(result, span, t, column);
      SixPhaseColumn(before, result[..], span, t, column);
    }
  }

  /** After the six writes at t, span + t, ..., 5 * span + t, each position
      with residue t holds its phase's value and every other is unchanged. */
  lemma SixPhaseColumn(before: seq<real>, after: seq<real>, span: nat, t: nat, column: seq<real>)
    requires t < span && |column| == 6 && |before| == 6 * span && |after| == 6 * span
    requires after[t] == column[0] && after[span + t] == column[1] && after[2 * span + t] == column[2]
    requires after[3 * span + t] == column[3] && after[4 * span + t] == column[4] && after[5 * span + t] == column[5]
    requires forall k ::
      (0 <= k < |after| && k != t && k != span + t && k != 2 * span + t
       && k != 3 * span + t && k != 4 * span + t && k != 5 * span + t) ==> after[k] == before[k]
    ensures forall k :: 0 <= k < |after| ==> after[k] == if k % span == t then column[k / span] else before[k]
  {
    forall k | 0 <= k < |after|
      ensures after[k] == if k % span == t then column[k / span] else before[k]
    {
      if k % span == t {
        OnColumn(k, span, t, 6);
      } else {
        OffColumn(k, span, t);
      }
    }
  }

  /** The six-phase writes: C1, C2, NC, C3, C4, NC at t, span + t, ... */
  method WriteSixPhases(result: array<real>, span: nat, t: nat, column: seq<real>)
    requires t < span && |column| == 6 && result.Length == 6 * span
    modifies result
    ensures result[t] == column[0] && result[span + t] == column[1] && result[2 * span + t] == column[2]
    ensures result[3 * span + t] == column[3] && result[4 * span + t] == column[4] && result[5 * span + t] == column[5]
    ensures forall k ::
      (0 <= k < result.Length && k != t && k != span + t && k != 2 * span + t
       && k != 3 * span + t && k != 4 * span + t && k != 5 * span + t) ==> result[k] == old(result[k])
  {
    result[t] := column[0];
    result[span + t] := column[1];
    result[2 * span + t] := column[2];
    result[3 * span + t] := column[3];
    result[4 * span + t] := column[4];
    result[5 * span + t] := column[5];
  }

  /** A position whose residue is not t is none of the six cells at t. */
  lemma OffColumn(k: nat, span: nat, t: nat)
    requires t < span && k % span != t
    ensures k != t && k != span + t && k != 2 * span + t && k != 3 * span + t && k != 4 * span + t && k != 5 * span + t
  {
    CellResidue(0, span, t);
    CellResidue(1, span, t);
    CellResidue(2, span, t);
    CellResidue(3, span, t);
    CellResidue(4, span, t);
    CellResidue(5, span, t);
  }

  /** A position with residue t is the cell at t of phase k / span. */
  lemma OnColumn(k: nat, span: nat, t: nat, nphases: nat)
    requires t < span && k < span * nphases && k % span == t && nphases <= 6
    ensures k / span < nphases
    ensures k / span == 0 ==> k == t
    ensures k / span == 1 ==> k == span + t
    ensures k / span == 2 ==> k == 2 * span + t
    ensures k / span == 3 ==> k == 3 * span + t
    ensures k / span == 4 ==> k == 4 * span + t
    ensures k / span == 5 ==> k == 5 * span + t
  {
    CellOfResidue(k, span, t, nphases);
  }

  /** The loop over repeats for TI it: every repeat gets the samples of
      all phases at that TI. */
  method WriteRepeats(result: array<real>, repeats: nat, c: Compartments, artdir: bool, onephase: bool,
                      kct: seq<real>, kcb: seq<real>, kcw: seq<real>, it: nat)
    requires 1 <= it <= |kct| && |kcb| == |kct| && |kcw| == |kct|
    requires result.Length == |kct| * repeats * NumPhases(onephase)
    requires forall k :: 0 <= k < result.Length && k % (|kct| * repeats) < (it - 1) * repeats ==>
      result[k] == ResultAt(c, artdir, onephase, kct, kcb, kcw, repeats, k)
    modifies result
    ensures forall k :: 0 <= k < result.Length && k % (|kct| * repeats) < it * repeats ==>
      result[k] == ResultAt(c, artdir, onephase, kct, kcb, kcw, repeats, k)
  {
    var nti := |kct|;
    var span := nti * repeats;
    var rpt := 1;
    while rpt <= repeats
      invariant 1 <= rpt <= repeats + 1
      invariant forall k :: 0 <= k < result.Length && k % span < (it - 1) * repeats + rpt - 1 ==>
        result[k] == ResultAt(c, artdir, onephase, kct, kcb, kcw, repeats, k)
    {
      var tiref := (it - 1) * repeats + rpt;
      MulMono(it - 1, nti - 1, repeats);
      DivModUnique(tiref - 1, repeats, it - 1, rpt - 1);
      WriteSamples(result, span, tiref - 1, c, artdir, onephase, kct, kcb, kcw, it);
      rpt := rpt + 1;
    }
  }

  /** Cell q * span + t has residue t. */
  lemma CellResidue(q: nat, span: nat, t: nat)
    requires t < span
    ensures (q * span + t) % span == t
  {
    DivModUnique(q * span + t, span, q, t);
  }

  /** A position with residue t lies in phase k / span at t. */
  lemma CellOfResidue(k: nat, span: nat, t: nat, nphases: nat)
    requires t < span && k < span * nphases && k % span == t
    ensures k == (k / span) * span + t && k / span < nphases
  {
    if k / span >= nphases {
      MulMono(nphases, k / span, span);
    }
  }

  /** Appends the names of one block of the parameter list, one at a time,
      when the block's condition holds: the list then covers the inferred
      parameters ranked below hi, and grows by the block's length. */
  method PushBlock(names: seq<TqName>, cond: bool, block: seq<TqName>, ghost f: TqFlags, ghost lo: nat, ghost hi: nat)
    returns (r: seq<TqName>)
    requires ListedBelow(names, f, lo) && IsBlock(f, lo, hi, Present(cond, block))
    ensures ListedBelow(r, f, hi)
    ensures |r| == |names| + |Present(cond, block)|
  {
    r := names;
    if cond {
      for j := 0 to |block|
        invariant r == names + block[..j]
      {
        r := r + [block[j]];
      }
      assert block[..|block|] == block;
    }
    ListBlock(names, Present(cond, block), f, lo, hi);
  }

  /** The parameter list as NameParams builds it from the flags: each
      block of names is pushed when its options are set. */
  method ListParams(f: TqFlags) returns (names: seq<TqName>)
    ensures ListsInferred(names, f)
    ensures |names| == NumParams(f)
  {
    names := ListTissueParams(f);
    names := ListArterialParams(names, f);
    names := ListWhiteMatterParams(names, f);
    names := ListSignalParams(names, f);
    ListDone(names, f);
  }

  /** The tissue names: its flow and delay with infertiss, its bolus
      duration also with infertau. */
  method ListTissueParams(f: TqFlags) returns (names: seq<TqName>)
    ensures ListedBelow(names, f, 3)
    ensures |names| == 2 * Count(f.infertiss) + Count(f.infertau && f.infertiss)
  {
    TissueBlock(f);
    names := PushBlock([], f.infertiss, [FTiss, DeltTiss], f, 0, 2);
    TissueBolusBlock(f);
    names := PushBlock(names, f.infertau && f.infertiss, [TauTiss], f, 2, 3);
  }

  /** The arterial names with inferart, the T1 values with infert1 and the
      arterial bolus duration with infertaub. */
  method ListArterialParams(names: seq<TqName>, f: TqFlags) returns (r: seq<TqName>)
    requires ListedBelow(names, f, 3)
    ensures ListedBelow(r, f, 8)
    ensures |r| == |names| + 2 * Count(f.inferart) + 2 * Count(f.infert1) + Count(f.infertaub)
  {
    ArterialBlock(f);
    r := PushBlock(names, f.inferart, [FBlood, DeltBlood], f, 3, 5);
    T1Block(f);
    r := PushBlock(r, f.infert1, [T1, T1b], f, 5, 7);
    ArterialBolusBlock(f);
    r := PushBlock(r, f.infertaub, [TauBlood], f, 7, 8);
  }

  /** The white matter names, pushed only with inferwm. */
  method ListWhiteMatterParams(names: seq<TqName>, f: TqFlags) returns (r: seq<TqName>)
    requires ListedBelow(names, f, 8)
    ensures ListedBelow(r, f, 14)
    ensures |r| == |names| + (if f.inferwm then 2 + Count(f.infertau) + Count(f.infert1) + 2 * Count(f.usepve) else 0)
  {
    WhiteMatterBlock(f);
    WhiteMatterBolusBlock(f);
    WhiteMatterT1Block(f);
    PartialVolumeBlock(f);
    if f.inferwm {
      r := PushBlock(names, true, [FWm, DeltWm], f, 8, 10);
      r := PushBlock(r, f.infertau, [TauWm], f, 10, 11);
      r := PushBlock(r, f.infert1, [T1Wm], f, 11, 12);
      r := PushBlock(r, f.usepve, [PGm, PWm], f, 12, 14);
    } else {
      r := PushBlock(names, false, [FWm, DeltWm, TauWm, T1Wm, PGm, PWm], f, 8, 14);
    }
  }

  /** The dispersion names, always present, then the crushed-flow names
      with inferart and the calibration gain with calibon. */
  method ListSignalParams(names: seq<TqName>, f: TqFlags) returns (r: seq<TqName>)
    requires ListedBelow(names, f, 14)
    ensures ListedBelow(r, f, 101)
    ensures |r| == |names| + 2 + (if f.inferart then (if f.artdir then 3 else 4) else 0) + Count(f.calibon)
  {
    DispersionBlock(f);
    r := PushBlock(names, true, [SpLog, SLog], f, 14, 16);
    CrushBlock(f);
    if f.artdir {
      r := PushBlock(r, f.inferart, [ThBlood, PhiBlood, BvBlood], f, 16, 100);
    } else {
      r := PushBlock(r, f.inferart, [FBloodC(1), FBloodC(2), FBloodC(3), FBloodC(4)], f, 16, 100);
    }
    GainBlock(f);
    r := PushBlock(r, f.calibon, [Gain], f, 100, 101);
  }

  /** The ARD parameters SetupARD adds: the tissue, arterial and white
      matter flows, in that order, each when its ARD flag is set. */
  function ArdSelection(tissard: bool, artard: bool, wmard: bool, idx: TqIndices): (r: seq<nat>)
    ensures |r| == Count(tissard) + Count(artard) + Count(wmard)
    ensures idx.tiss in r <== tissard
    ensures idx.art in r <== artard
    ensures idx.wm in r <== wmard
    ensures forall a :: a in r ==> (tissard && a == idx.tiss) || (artard && a == idx.art) || (wmard && a == idx.wm)
  {
    Present(tissard, [idx.tiss]) + Present(artard, [idx.art]) + Present(wmard, [idx.wm])
  }

  /** The loop of SetupARD: each parameter on the ARD list, in turn, gets
      prior precision 1e-12 and prior mean 0. */
  method ResetArdPriors(prior: MvnDist, ard: seq<nat>, invert: Matrix -> Matrix)
    requires prior.Valid() && KeepsShape(invert)
    requires forall a :: a in ard ==> 1 <= a <= |prior.means|
    modifies prior
    ensures |prior.means| == |old(prior.means)| && prior.Valid()
    ensures forall i :: 0 <= i < |prior.means| ==>
      prior.means[i] == if i + 1 in ard then 0.0 else old(prior.means[i])
    ensures ard == [] ==> prior.spread == old(prior.spread)
    ensures ard != [] ==> var p0 := old(prior.GetPrecisions(invert));
      && prior.spread.Precisions?
      && forall i, j :: 0 <= i < |prior.means| && 0 <= j < |prior.means| ==>
           prior.spread.m[i][j] == if i == j && i + 1 in ard then 0.000000000001 else p0[i][j]
  {
    ghost var n := |prior.means|;
    ghost var m0, s0 := prior.means, prior.spread;
    ghost var p0 := prior.GetPrecisions(invert);
    ghost var cur := p0;
    var i := 0;
    while i < |ard|
      invariant 0 <= i <= |ard|
      invariant prior.Valid() && |prior.means| == n && IsSquare(cur, n)
      invariant i == 0 ==> prior.spread == s0 && prior.means == m0 && cur == p0
      invariant i > 0 ==> prior.spread == Precisions(cur)
      invariant forall a, b :: 0 <= a < n && 0 <= b < n ==>
        cur[a][b] == if a == b && a + 1 in ard[..i] then 0.000000000001 else p0[a][b]
      invariant forall a :: 0 <= a < n ==> prior.means[a] == if a + 1 in ard[..i] then 0.0 else m0[a]
    {
      var ardindex := ard[i];
      assert ardindex in ard;
      var prec := prior.GetPrecisions(invert);
      assert prec == cur;
      prec := SetEntry(prec, ardindex, ardindex, 0.000000000001);
      prior.SetPrecisions(prec);
      prior.means := prior.means[ardindex - 1 := 0.0];
      cur := prec;
      assert ard[..i + 1] == ard[..i] + [ardindex];
      i := i + 1;
    }
    assert ard[..i] == ard;
  }

  class TurboQuasarFwdModel {
    var infertau: bool
    var infert1: bool
    var inferart: bool
    var inferwm: bool
    var usepve: bool
    var artdir: bool
    var calibon: bool
    var infertaub: bool
    var infertiss: bool
    var onephase: bool
    var doard: bool
    var tissard: bool
    var artard: bool
    var wmard: bool
    /** The inversion times, the number of repeats and the largest TI. */
    var tis: seq<real>
    var repeats: nat
    var timax: real
    /** The parameters (1-based) under ARD priors. */
    var ardIndex: seq<nat>

    /** The TIs and repeats as Initialize reads them from the options. */
    constructor(tis: seq<real>, repeats: nat)
      requires |tis| >= 1
      ensures this.tis == tis && this.repeats == repeats && timax == MaxOf(tis) && ardIndex == []
    {
      this.tis := tis;
      this.repeats := repeats;
      this.timax := MaxOf(tis);
      this.ardIndex := [];
    }

    function Flags(): TqFlags
      reads this
    {
      TqFlags(infertiss, infertau, inferart, infert1, infertaub, inferwm, usepve, artdir, calibon)
    }

    /** The compartment options Initialize copies into flags unchanged. */
    method ReadInferenceOptions(args: TqArgs)
      modifies this`infertau, this`infert1, this`inferart, this`inferwm
      ensures infertau == args.infertau && infert1 == args.infert1
      ensures inferart == args.inferart && inferwm == args.inferwm
    {
      infertau := args.infertau;
      infert1 := args.infert1;
      inferart := args.inferart;
      inferwm := args.inferwm;
    }

    /** The acquisition options Initialize copies into flags unchanged. */
    method ReadAcquisitionOptions(args: TqArgs)
      modifies this`usepve, this`artdir, this`calibon, this`onephase
      ensures usepve == args.usepve && artdir == args.artdir
      ensures calibon == args.usecalib && onephase == args.onephase
    {
      usepve := args.usepve;
      artdir := args.artdir;
      calibon := args.usecalib;
      onephase := args.onephase;
    }

    /** The flags Initialize derives from the options. */
    method DeriveFlags(args: TqArgs)
      modifies this`infertaub, this`infertiss, this`doard, this`tissard, this`artard, this`wmard
      ensures infertaub <==> args.inferart && args.infertau && !args.tauboff
      ensures infertiss <==> !args.tissoff
      ensures tissard == args.tissardon && artard == !args.artardoff && wmard == !args.wmardoff
      ensures doard <==> !args.ardoff && (args.tissardon || !args.artardoff || !args.wmardoff)
    {
      infertaub := false;
      if args.inferart && args.infertau && !args.tauboff {
        infertaub := true;
      }
      infertiss := true;
      if args.tissoff {
        infertiss := false;
      }
      doard, tissard, artard, wmard := false, false, true, true;
      if args.tissardon {
        tissard := true;
      }
      if args.artardoff {
        artard := false;
      }
      if args.wmardoff {
        wmard := false;
      }
      if (tissard || artard || wmard) && !args.ardoff {
        doard := true;
      }
    }

    /** The flag derivation of Initialize: the bolus of the arterial
        compartment is inferred only with both inferart and infertau and
        without tauboff; the tissue compartment unless tissoff; ARD is on
        when any compartment's ARD is (tissue off by default, arterial and
        white matter on) and ardoff is not set. */
    method Initialize(args: TqArgs)
      modifies this`infertau, this`infert1, this`inferart, this`inferwm, this`usepve, this`artdir,
        this`calibon, this`infertaub, this`infertiss, this`onephase, this`doard, this`tissard,
        this`artard, this`wmard
      ensures infertau == args.infertau && infert1 == args.infert1 && inferart == args.inferart
      ensures inferwm == args.inferwm && usepve == args.usepve && artdir == args.artdir
      ensures calibon == args.usecalib && onephase == args.onephase
      ensures infertaub <==> args.inferart && args.infertau && !args.tauboff
      ensures infertiss <==> !args.tissoff
      ensures tissard == args.tissardon && artard == !args.artardoff && wmard == !args.wmardoff
      ensures doard <==> !args.ardoff && (args.tissardon || !args.artardoff || !args.wmardoff)
      ensures args.ardoff ==> !doard
      ensures infertaub ==> inferart && infertau
    {
      ReadInferenceOptions(args);
      ReadAcquisitionOptions(args);
      DeriveFlags(args);
    }

    /** The parameter names: exactly the inferred parameters, each once, in
        the reported order, and as many as the options count. */
    method NameParams() returns (names: seq<TqName>)
      ensures ListsInferred(names, Flags())
      ensures |names| == NumParams(Flags())
    {
      names := ListParams(Flags());
    }

    /** Whether position i (0-based) holds a transit delay that Evaluate
        caps: the tissue delay with infertiss, the arterial one with
        inferart. */
    predicate CappedDelay(idx: TqIndices, i: nat)
      reads this
    {
      (infertiss && i == idx.tiss) || (inferart && i == idx.art)
    }

    /** The working copy of the parameters Evaluate uses: negative values
        become 0, and a transit delay whose ORIGINAL value exceeds
        timax - 0.2 becomes timax - 0.2. */
    method ClampParams(params: seq<real>, idx: TqIndices) returns (p: seq<real>)
      requires infertiss ==> 1 <= idx.tiss < |params|
      requires inferart ==> 1 <= idx.art < |params|
      ensures |p| == |params|
      ensures forall i :: 0 <= i < |params| && !CappedDelay(idx, i) ==> p[i] == NonNegative(params[i])
      ensures forall i :: 0 <= i < |params| && CappedDelay(idx, i) ==>
        p[i] == if params[i] > timax - 0.2 then timax - 0.2 else NonNegative(params[i])
      ensures forall i :: 0 <= i < |params| ==> p[i] <= NonNegative(params[i])
      ensures timax >= 0.2 ==> forall i :: 0 <= i < |params| ==>
        0.0 <= p[i] && (CappedDelay(idx, i) ==> p[i] <= timax - 0.2)
    {
      p := params;
      var i := 1;
      while i <= |params|
        invariant 1 <= i <= |params| + 1 && |p| == |params|
        invariant forall j :: 0 <= j < |params| ==> p[j] == if j < i - 1 then NonNegative(params[j]) else params[j]
      {
        if params[i - 1] < 0.0 {
          p := p[i - 1 := 0.0];
        }
        i := i + 1;
      }
      if infertiss {
        if params[idx.tiss] > timax - 0.2 {
          p := p[idx.tiss := timax - 0.2];
        }
      }
      if inferart {
        if params[idx.art] > timax - 0.2 {
          p := p[idx.art := timax - 0.2];
        }
      }
    }

    /** The predicted signal: for every TI and repeat, each phase's sample
        at its place in the result. */
    method AssembleResult(c: Compartments, kct: seq<real>, kcb: seq<real>, kcw: seq<real>) returns (result: array<real>)
      requires |kct| == |tis| && |kcb| == |tis| && |kcw| == |tis|
      ensures result.Length == |tis| * repeats * NumPhases(onephase)
      ensures forall k :: 0 <= k < result.Length ==>
        result[k] == ResultAt(c, artdir, onephase, kct, kcb, kcw, repeats, k)
    {
      var nti := |tis|;
      var nphases := 6;
      if onephase {
        nphases := 1;
      }
      result := new real[nti * repeats * nphases];
      var span := nti * repeats;
      var it := 1;
      while it <= nti
        invariant 1 <= it <= nti + 1
        invariant result.Length == span * NumPhases(onephase)
        invariant forall k :: 0 <= k < result.Length && k % span < (it - 1) * repeats ==>
          result[k] == ResultAt(c, artdir, onephase, kct, kcb, kcw, repeats, k)
      {
        WriteRepeats(result, repeats, c, artdir, onephase, kct, kcb, kcw, it);
        it := it + 1;
      }
    }

    /** With ARD on, the selected flows are appended to the ARD list (which
        is never cleared), and every parameter on the list gets a prior of
        mean 0 and precision 1e-12; all other prior entries are kept. */
    method SetupARD(prior: MvnDist, idx: TqIndices, invert: Matrix -> Matrix)
      requires prior.Valid() && KeepsShape(invert)
      requires forall a :: a in ardIndex ==> 1 <= a <= |prior.means|
      requires doard ==> forall a :: a in ArdSelection(tissard, artard, wmard, idx) ==> 1 <= a <= |prior.means|
      modifies this`ardIndex, prior
      ensures ardIndex == old(ardIndex) + (if doard then ArdSelection(tissard, artard, wmard, idx) else [])
      ensures |prior.means| == |old(prior.means)| && prior.Valid()
      ensures !doard ==> prior.means == old(prior.means) && prior.spread == old(prior.spread)
      ensures doard ==> forall i :: 0 <= i < |prior.means| ==>
        prior.means[i] == if i + 1 in ardIndex then 0.0 else old(prior.means[i])
      ensures doard && ardIndex != [] ==> var p0 := old(prior.GetPrecisions(invert));
        && prior.spread.Precisions?
        && forall i, j :: 0 <= i < |prior.means| && 0 <= j < |prior.means| ==>
             prior.spread.m[i][j] == if i == j && i + 1 in ardIndex then 0.000000000001 else p0[i][j]
    {
      if doard {
        ardIndex := ardIndex + ArdSelection(tissard, artard, wmard, idx);
        ResetArdPriors(prior, ardIndex, invert);
      }
    }

    /** For every parameter on the ARD list, the prior variance becomes the
        posterior mean squared plus the posterior variance; the prior means
        and all other entries are kept. The loop runs whether or not ARD is
        on: only the free energy reset depends on doard. */
    method UpdateARD(posterior: MvnDist, prior: MvnDist, invert: Matrix -> Matrix)
      requires prior.Valid() && posterior.Valid() && KeepsShape(invert) && prior != posterior
      requires |posterior.means| == |prior.means|
      requires forall a :: a in ardIndex ==> 1 <= a <= |prior.means|
      modifies prior
      ensures prior.means == old(prior.means) && prior.Valid()
      ensures ardIndex == [] ==> prior.spread == old(prior.spread)
      ensures ardIndex != [] ==>
        var c0, post, m := old(prior.GetCovariance(invert)), posterior.GetCovariance(invert), posterior.means;
        && prior.spread.Covariance?
        && forall i, j :: 0 <= i < |prior.means| && 0 <= j < |prior.means| ==>
             prior.spread.m[i][j] == if i == j && i + 1 in ardIndex then m[i] * m[i] + post[i][i] else c0[i][j]
    {
      ghost var n := |prior.means|;
      ghost var s0 := prior.spread;
      ghost var c0 := prior.GetCovariance(invert);
      ghost var post, m := posterior.GetCovariance(invert), posterior.means;
      ghost var cur := c0;
      var i := 0;
      while i < |ardIndex|
        modifies prior
        invariant 0 <= i <= |ardIndex|
        invariant prior.Valid() && prior.means == old(prior.means) && IsSquare(cur, n)
        invariant i == 0 ==> prior.spread == s0 && cur == c0
        invariant i > 0 ==> prior.spread == Covariance(cur)
        invariant forall a, b :: 0 <= a < n && 0 <= b < n ==>
          cur[a][b] == if a == b && a + 1 in ardIndex[..i] then m[a] * m[a] + post[a][a] else c0[a][b]
      {
        var ardindex := ardIndex[i];
        assert ardindex in ardIndex;
        var priorCov := prior.GetCovariance(invert);
        var postCov := posterior.GetCovariance(invert);
        assert priorCov == cur && postCov == post;
        priorCov := SetEntry(priorCov, ardindex, ardindex,
          posterior.means[ardindex - 1] * posterior.means[ardindex - 1] + postCov[ardindex - 1][ardindex - 1]);
        prior.SetCovariance(priorCov);
        cur := priorCov;
        assert ardIndex[..i + 1] == ardIndex[..i] + [ardindex];
        i := i + 1;
      }
      assert ardIndex[..i] == ardIndex;
    }
  }
}
