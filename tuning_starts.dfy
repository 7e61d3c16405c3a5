/** The `first_tuning_its` list built in PlotData.__init__: row position 0, then every row
    position where the tuning flag switches on. */
module TuningStarts {
  import opened TuningConfigs

  /** Tuning switches on at row i: flag set now, clear on the previous row. */
  predicate TuningBeginsAt(flags: seq<bool>, i: nat)
    requires 1 <= i < |flags|
  {
    flags[i] && !flags[i - 1]
  }

  /** The list after the loop has looked at rows [0, n), after its leading 0.
      Like IndexMaskUpTo, NonTuningIndices and TriggersUpTo, it lists the positions below n
      that pass a test, built one position at a time so that the loop or comprehension it
      models extends it by at most one entry per step. */
  function TuningStartsUpTo(flags: seq<bool>, n: nat): seq<nat>
    requires n <= |flags|
  {
    if n <= 1 then [0]
    else TuningStartsUpTo(flags, n - 1) + (if TuningBeginsAt(flags, n - 1) then [n - 1] else [])
  }

  /** After rows [0, n): the list starts with 0; every later entry is a row below n where
      tuning switches on, and every such row is listed; the entries strictly increase, and
      two later entries are at least 2 rows apart. */
  lemma {:induction false} TuningStartsSpec(flags: seq<bool>, n: nat)
    requires n <= |flags|
    ensures var s := TuningStartsUpTo(flags, n);
      && |s| >= 1 && s[0] == 0
      && (forall k :: 1 <= k < |s| ==> 1 <= s[k] < n && TuningBeginsAt(flags, s[k]))
      && (forall i :: 1 <= i < n && TuningBeginsAt(flags, i) ==> i in s)
      && (forall j, k :: 0 <= j < k < |s| ==> s[j] < s[k])
      && (forall k :: 1 <= k < |s| - 1 ==> s[k] + 2 <= s[k + 1])
  {
    if n > 1 {
      TuningStartsSpec(flags, n - 1);
      var prev := TuningStartsUpTo(flags, n - 1);
      var s := TuningStartsUpTo(flags, n);
      if TuningBeginsAt(flags, n - 1) {
        assert s == prev + [n - 1];
        if |prev| > 1 {
          // the previous start has its flag set, the row before n - 1 has it clear
          assert TuningBeginsAt(flags, prev[|prev| - 1]);
          assert prev[|prev| - 1] != n - 2;
        }
        forall i | 1 <= i < n && TuningBeginsAt(flags, i)
          ensures i in s
        {
          if i < n - 1 {
            var k :| 0 <= k < |prev| && prev[k] == i;
            assert s[k] == i;
          } else {
            assert s[|prev|] == i;
          }
        }
      } else {
        assert s == prev;
      }
    }
  }

  /** The loop of PlotData.__init__ over the unfiltered configurations; what the list holds
      is stated by TuningStartsSpec. */
  method FirstTuningIts(configs: seq<TuningConfig>) returns (firstTuningIts: seq<nat>)
    ensures firstTuningIts == TuningStartsUpTo(TuningFlags(configs), |configs|)
  {
    ghost var flags := TuningFlags(configs);
    firstTuningIts := [0];
    var i := 0;
    while i < |configs|
      invariant 0 <= i <= |configs|
      invariant firstTuningIts == TuningStartsUpTo(flags, i)
    {
      if i != 0 && configs[i].tuning && !configs[i - 1].tuning {
        firstTuningIts := firstTuningIts + [i];
      }
      i := i + 1;
    }
  }
}
