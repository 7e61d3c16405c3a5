/** PlotData: the data of one simulation run, read from its live-info log and its iteration
    log, with the rows recorded during tuning phases thrown out of every plotted series. */
module PlotData {
  import opened TuningConfigs
  import opened TuningFilter
  import opened TuningStarts
  import opened ConfigMasks

  /** The live-info columns read into `liveinfo`, in the order they are read. */
  const LiveinfoParams: seq<string> := [
    "avgParticlesPerCell", "cutoff", "domainSizeX", "domainSizeY", "domainSizeZ",
    "estimatedNumNeighborInteractions", "homogeneity", "maxDensity", "maxParticlesPerCell",
    "minParticlesPerCell", "numCells", "numEmptyCells", "numHaloParticles", "numParticles",
    "particleSize", "particleSizeNeededByFunctor", "particlesPerBlurredCellStdDev",
    "particlesPerCellStdDev", "rebuildFrequency", "skin", "threadCount"
  ]

  /** One row of the iteration log: `computeInteractions[ns]`, `inTuningPhase` and the
      configuration built from the identity columns. */
  datatype IterationRow = IterationRow(computeInteractions: int, inTuningPhase: bool, config: TuningConfig)

  /** One row of the live-info log: `Iteration` and the other columns by name. */
  datatype LiveInfoRow = LiveInfoRow(iteration: int, values: map<string, real>)

  /** The exceptions PlotData(...) can raise on rows of these shapes. */
  datatype LoadError = IndexErr | KeyErr(column: string)

  function Iterations(lrows: seq<LiveInfoRow>): seq<int>
  {
    seq(|lrows|, i requires 0 <= i < |lrows| => lrows[i].iteration)
  }

  function Runtimes(irows: seq<IterationRow>): seq<int>
  {
    seq(|irows|, i requires 0 <= i < |irows| => irows[i].computeInteractions)
  }

  function TuneFlags(irows: seq<IterationRow>): seq<bool>
  {
    seq(|irows|, i requires 0 <= i < |irows| => irows[i].inTuningPhase)
  }

  function Configs(irows: seq<IterationRow>): seq<TuningConfig>
  {
    seq(|irows|, i requires 0 <= i < |irows| => irows[i].config)
  }

  /** Every live-info row has a value for column `name`. */
  predicate HasColumn(lrows: seq<LiveInfoRow>, name: string)
  {
    forall i :: 0 <= i < |lrows| ==> name in lrows[i].values
  }

  function LiveinfoColumn(lrows: seq<LiveInfoRow>, name: string): seq<real>
    requires HasColumn(lrows, name)
  {
    seq(|lrows|, i requires 0 <= i < |lrows| && name in lrows[i].values => lrows[i].values[name])
  }

  /** The position in LiveinfoParams, from `j` on, of the first column some row lacks,
      or |LiveinfoParams| if there is none. */
  function FirstMissing(lrows: seq<LiveInfoRow>, j: nat): (k: nat)
    requires j <= |LiveinfoParams|
    ensures j <= k <= |LiveinfoParams|
    ensures forall m :: j <= m < k ==> HasColumn(lrows, LiveinfoParams[m])
    ensures k < |LiveinfoParams| ==> !HasColumn(lrows, LiveinfoParams[k])
    decreases |LiveinfoParams| - j
  {
    if j == |LiveinfoParams| then j
    else if HasColumn(lrows, LiveinfoParams[j]) then FirstMissing(lrows, j + 1)
    else j
  }

  /** The loop of PlotData.__init__ that reads every listed live-info column and filters it
      with the tuning flags of the iteration rows. */
  method ReadLiveinfo(lrows: seq<LiveInfoRow>, tune: seq<bool>, params: seq<string>)
    returns (liveinfo: map<string, seq<real>>)
    requires |lrows| <= |tune|
    requires forall p :: p in params ==> HasColumn(lrows, p)
    ensures forall p :: p in liveinfo <==> p in params
    ensures forall p :: p in liveinfo ==> liveinfo[p] == NonTuning(LiveinfoColumn(lrows, p), tune)
  {
    liveinfo := map[];
    for j := 0 to |params|
      invariant forall p :: p in liveinfo <==> p in params[..j]
      invariant forall p :: p in liveinfo ==> liveinfo[p] == NonTuning(LiveinfoColumn(lrows, p), tune)
    {
      var name := params[j];
      assert params[..j + 1] == params[..j] + [name];
      liveinfo := liveinfo[name := LiveinfoColumn(lrows, name)];
      liveinfo := liveinfo[name := RemoveTuningIts(liveinfo[name], tune).kept.value];
    }
    assert params[..|params|] == params;
  }

  class PlotData {
    var jobName: string
    var iteration: seq<int>
    var runtime: seq<int>
    var tune: seq<bool>
    var configs: seq<TuningConfig>
    var firstTuningIts: seq<nat>
    var stringifiedConfigs: seq<string>
    var liveinfo: map<string, seq<real>>

    /** What __init__ stores for these rows. */
    ghost predicate LoadedFrom(jobName: string, lrows: seq<LiveInfoRow>, irows: seq<IterationRow>)
      reads this
      requires |lrows| <= |irows|
      requires forall p :: p in LiveinfoParams ==> HasColumn(lrows, p)
    {
      && this.jobName == jobName
      && tune == TuneFlags(irows)
      && firstTuningIts == TuningStartsUpTo(TuningFlags(Configs(irows)), |irows|)
      && iteration == NonTuning(Iterations(lrows), tune)
      && runtime == NonTuning(Runtimes(irows), tune)
      && configs == NonTuning(Configs(irows), tune)
      && stringifiedConfigs == Stringify(configs)
      && (forall p :: p in liveinfo <==> p in LiveinfoParams)
      && (forall p :: p in liveinfo ==> liveinfo[p] == NonTuning(LiveinfoColumn(lrows, p), tune))
    }

    /** Every filtered series has one entry per kept row. */
    ghost predicate Aligned()
      reads this
    {
      && |runtime| == |iteration|
      && |configs| == |iteration|
      && |stringifiedConfigs| == |iteration|
      && (forall p :: p in liveinfo ==> |liveinfo[p]| == |iteration|)
    }

    /** PlotData(job_name, liveinfo_file, iteration_file) on rows that raise nothing. The
        iteration numbers and live-info series keep one entry per non-tuning row among the
        first |lrows| rows; runtimes and configurations one per non-tuning iteration row. */
    constructor (jobName: string, lrows: seq<LiveInfoRow>, irows: seq<IterationRow>)
      requires |lrows| <= |irows|
      requires forall p :: p in LiveinfoParams ==> HasColumn(lrows, p)
      ensures LoadedFrom(jobName, lrows, irows)
    {
      // the raw columns, then the rows of tuning iterations thrown out
      var rawConfigs := Configs(irows);
      var flags := TuneFlags(irows);
      var starts := FirstTuningIts(rawConfigs);
      var kept := RemoveTuningIts(rawConfigs, flags).kept.value;
      var info := ReadLiveinfo(lrows, flags, LiveinfoParams);
      this.jobName := jobName;
      tune := flags;
      firstTuningIts := starts;
      iteration := RemoveTuningIts(Iterations(lrows), flags).kept.value;
      runtime := RemoveTuningIts(Runtimes(irows), flags).kept.value;
      configs := kept;
      stringifiedConfigs := Stringify(kept);
      liveinfo := info;
    }
  }

  /** After loading, the iteration numbers and every live-info series hold one entry per
      non-tuning row among the first |lrows| rows, the runtimes and configurations one per
      non-tuning iteration row; so with equal row counts every series has the same length. */
  lemma LoadedLengths(pd: PlotData, jobName: string, lrows: seq<LiveInfoRow>, irows: seq<IterationRow>)
    requires |lrows| <= |irows|
    requires forall p :: p in LiveinfoParams ==> HasColumn(lrows, p)
    requires pd.LoadedFrom(jobName, lrows, irows)
    ensures |pd.iteration| == multiset(pd.tune[..|lrows|])[false]
    ensures |pd.runtime| == |pd.configs| == |pd.stringifiedConfigs| == multiset(pd.tune)[false]
    ensures forall p :: p in pd.liveinfo ==> |pd.liveinfo[p]| == |pd.iteration|
    ensures |lrows| == |irows| ==> pd.Aligned()
  {
    var tune := pd.tune;
    NonTuningIndicesSpec(tune, |lrows|);
    NonTuningIndicesSpec(tune, |irows|);
    assert tune[..|irows|] == tune;
    NonTuningSelects(Iterations(lrows), tune);
    NonTuningSelects(Runtimes(irows), tune);
    NonTuningSelects(Configs(irows), tune);
    forall p | p in pd.liveinfo
      ensures |pd.liveinfo[p]| == |pd.iteration|
    {
      NonTuningSelects(LiveinfoColumn(lrows, p), tune);
    }
  }

  /** A call of PlotData(...), with the exceptions it can raise and the number of "data seems
      to be corrupted" lines it prints. More live-info rows than iteration rows make the
      filter of `iteration` raise IndexError after its warning; otherwise the first live-info
      column some row lacks raises KeyError, after one warning for `iteration` and one per
      column read before it when the row counts differ. */
  method Load(jobName: string, lrows: seq<LiveInfoRow>, irows: seq<IterationRow>)
    returns (r: Result<PlotData, LoadError>, corruptionWarnings: nat)
    ensures |lrows| > |irows| ==> r == Err(IndexErr) && corruptionWarnings == 1
    ensures |lrows| <= |irows| && FirstMissing(lrows, 0) < |LiveinfoParams| ==>
      && r == Err(KeyErr(LiveinfoParams[FirstMissing(lrows, 0)]))
      && corruptionWarnings == (if |lrows| == |irows| then 0 else 1 + FirstMissing(lrows, 0))
    ensures r.Ok? <==> |lrows| <= |irows| && forall p :: p in LiveinfoParams ==> HasColumn(lrows, p)
    ensures r.Ok? ==>
      && fresh(r.value)
      && r.value.LoadedFrom(jobName, lrows, irows)
      && corruptionWarnings == (if |lrows| == |irows| then 0 else 1 + |LiveinfoParams|)
  {
    var warn: nat := if |lrows| == |irows| then 0 else 1;
    if |lrows| > |irows| {
      return Err(IndexErr), warn;
    }
    var missing := FirstMissing(lrows, 0);
    if missing < |LiveinfoParams| {
      return Err(KeyErr(LiveinfoParams[missing])), warn * (1 + missing);
    }
    assert forall p :: p in LiveinfoParams ==> HasColumn(lrows, p);
    var pd := new PlotData(jobName, lrows, irows);
    return Ok(pd), warn * (1 + |LiveinfoParams|);
  }

  /** On aligned data every per-configuration mask indexes every filtered series, so the
      scatter and fill plots of one configuration read only existing entries. */
  lemma MasksFitSeries(pd: PlotData, key: string)
    requires pd.Aligned()
    ensures |BoolMask(pd.stringifiedConfigs, key)| == |pd.iteration| == |pd.runtime|
    ensures forall k :: 0 <= k < |IndexMask(pd.stringifiedConfigs, key)| ==>
      var i := IndexMask(pd.stringifiedConfigs, key)[k];
      && i < |pd.iteration|
      && forall p :: p in pd.liveinfo ==> i < |pd.liveinfo[p]|
  {
  }

  /** When a non-tuning iteration row `i` lies beyond the live-info rows, the scatter plot of
      a live-info parameter reads out of range: the last stringified configuration's mask
      holds a position that `iteration` (and every live-info series) does not have. */
  lemma ShortLiveinfoMaskOutOfRange(pd: PlotData, jobName: string, lrows: seq<LiveInfoRow>,
                                    irows: seq<IterationRow>, i: nat)
    requires |lrows| <= i < |irows| && !irows[i].inTuningPhase
    requires forall p :: p in LiveinfoParams ==> HasColumn(lrows, p)
    requires pd.LoadedFrom(jobName, lrows, irows)
    ensures |pd.stringifiedConfigs| > |pd.iteration|
    ensures var last := |pd.stringifiedConfigs| - 1;
      last in IndexMask(pd.stringifiedConfigs, pd.stringifiedConfigs[last])
  {
    LoadedLengths(pd, jobName, lrows, irows);
    var tune := pd.tune;
    assert tune == tune[..|lrows|] + tune[|lrows|..];
    assert tune[|lrows|..][i - |lrows|] == tune[i];
    assert multiset(tune[|lrows|..])[false] >= 1;
    var strs := pd.stringifiedConfigs;
    IndexMaskExact(strs, strs[|strs| - 1]);
  }
}
