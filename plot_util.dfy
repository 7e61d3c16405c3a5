/** estimate_tuning_triggers: the positions at which a time-based dynamic tuning strategy
    with retuning factor `factor` would have started a new tuning phase. The samples are the
    integer column read from the iteration log; the timestamps are returned instead of printed. */
module PlotUtil {

  /** Sample i is at least `factor` times sample i - 1. */
  predicate IsTrigger(param: seq<int>, factor: real, i: nat)
    requires 1 <= i < |param|
  {
    param[i] as real >= factor * param[i - 1] as real
  }

  /** The timestamps after the loop has looked at positions [1, n).
      Like IndexMaskUpTo, TuningStartsUpTo and NonTuningIndices, it lists the positions below n
      that pass a test, built one position at a time so that the loop or comprehension it
      models extends it by at most one entry per step. */
  function TriggersUpTo(param: seq<int>, factor: real, n: nat): seq<nat>
    requires n <= |param|
  {
    if n <= 1 then []
    else TriggersUpTo(param, factor, n - 1) + (if IsTrigger(param, factor, n - 1) then [n - 1] else [])
  }

  /** Every reported position i satisfies 1 <= i < n and is a trigger; every trigger below n
      is reported; positions come out strictly increasing, hence at most once each, and there
      are at most n - 1 of them. */
  lemma {:induction false} TriggersSpec(param: seq<int>, factor: real, n: nat)
    requires n <= |param|
    ensures var t := TriggersUpTo(param, factor, n);
      && (forall k :: 0 <= k < |t| ==> 1 <= t[k] < n && IsTrigger(param, factor, t[k]))
      && (forall i :: 1 <= i < n ==> (i in t <==> IsTrigger(param, factor, i)))
      && (forall j, k :: 0 <= j < k < |t| ==> t[j] < t[k])
      && |t| <= if n == 0 then 0 else n - 1
  {
    if n > 1 {
      TriggersSpec(param, factor, n - 1);
      var prev := TriggersUpTo(param, factor, n - 1);
      var t := TriggersUpTo(param, factor, n);
      assert t == prev + (if IsTrigger(param, factor, n - 1) then [n - 1] else []);
      forall i | 1 <= i < n && IsTrigger(param, factor, i)
        ensures i in t
      {
        if i < n - 1 {
          var k :| 0 <= k < |prev| && prev[k] == i;
          assert t[k] == i;
        } else {
          assert t[|prev|] == i;
        }
      }
    }
  }

  /** A larger factor is a stricter test when the previous sample is non-negative. */
  lemma TriggerAntitone(param: seq<int>, f1: real, f2: real, i: nat)
    requires 1 <= i < |param| && param[i - 1] >= 0 && f1 <= f2
    ensures IsTrigger(param, f2, i) ==> IsTrigger(param, f1, i)
  {
  }

  /** For non-negative samples, raising the factor can only remove triggers: every trigger
      for the larger factor is one for the smaller, so there are no more of them. */
  lemma {:induction false} RaisingFactorRemovesTriggers(param: seq<int>, f1: real, f2: real, n: nat)
    requires n <= |param| && f1 <= f2
    requires forall i :: 0 <= i < |param| ==> param[i] >= 0
    ensures forall t :: t in TriggersUpTo(param, f2, n) ==> t in TriggersUpTo(param, f1, n)
    ensures |TriggersUpTo(param, f2, n)| <= |TriggersUpTo(param, f1, n)|
  {
    if n > 1 {
      RaisingFactorRemovesTriggers(param, f1, f2, n - 1);
      TriggerAntitone(param, f1, f2, n - 1);
    }
  }

  /** The loop of estimate_tuning_triggers; `|timestamps|` is the count it prints. */
  method EstimateTuningTriggers(param: seq<int>, factor: real) returns (timestamps: seq<nat>)
    ensures timestamps == TriggersUpTo(param, factor, |param|)
    ensures forall k :: 0 <= k < |timestamps| ==> 1 <= timestamps[k] < |param|
    ensures forall i :: 1 <= i < |param| ==> (i in timestamps <==> param[i] as real >= factor * param[i - 1] as real)
    ensures forall j, k :: 0 <= j < k < |timestamps| ==> timestamps[j] < timestamps[k]
    ensures |param| < 2 ==> timestamps == []
    ensures |timestamps| <= if |param| == 0 then 0 else |param| - 1
  {
    timestamps := [];
    // range(1, len(param)), which is empty for fewer than two samples
    var i := 1;
    while i < |param|
      invariant 1 <= i && (i <= |param| || |param| == 0)
      invariant timestamps == TriggersUpTo(param, factor, if |param| == 0 then 0 else i)
    {
      if param[i] as real >= factor * param[i - 1] as real {
        timestamps := timestamps + [i];
      }
      i := i + 1;
    }
    TriggersSpec(param, factor, |param|);
  }
}
