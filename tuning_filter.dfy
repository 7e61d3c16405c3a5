/** remove_tuning_its: the filter that drops the rows recorded during a tuning phase
    from every performance-facing series. */
module TuningFilter {

  datatype Result<+T, +E> = Ok(value: T) | Err(error: E)

  /** What Python raises when the flag list is shorter than the element list. */
  datatype FilterError = IndexError

  /** The outcome of one call: whether the "data seems to be corrupted" line is printed,
      and either the kept elements or the exception raised. */
  datatype Removal<T> = Removal(corruptionWarning: bool, kept: Result<seq<T>, FilterError>)

  /** Positions i < n whose row is not in a tuning phase, in increasing order.
      Like IndexMaskUpTo, TuningStartsUpTo and TriggersUpTo, it lists the positions below n
      that pass a test, built one position at a time so that the loop or comprehension it
      models extends it by at most one entry per step. */
  function NonTuningIndices(tune: seq<bool>, n: nat): (idx: seq<nat>)
    requires n <= |tune|
    ensures forall k :: 0 <= k < |idx| ==> idx[k] < n && !tune[idx[k]]
    ensures forall j, k :: 0 <= j < k < |idx| ==> idx[j] < idx[k]
  {
    if n == 0 then []
    else NonTuningIndices(tune, n - 1) + (if tune[n - 1] then [] else [n - 1])
  }

  /** The comprehension `[el for i, el in enumerate(elems) if not tune[i]]`. */
  function NonTuning<T>(elems: seq<T>, tune: seq<bool>): seq<T>
    requires |elems| <= |tune|
  {
    if |elems| == 0 then []
    else
      var n := |elems| - 1;
      NonTuning(elems[..n], tune) + (if tune[n] then [] else [elems[n]])
  }

  /** remove_tuning_its(elems, tune). The warning is printed exactly when the lengths differ;
      the comprehension then fails with IndexError exactly when `tune` is too short, and
      otherwise yields the filtered series (characterised by NonTuningSelects and
      NonTuningIndicesSpec below). */
  function RemoveTuningIts<T>(elems: seq<T>, tune: seq<bool>): (r: Removal<T>)
    ensures r.corruptionWarning <==> |elems| != |tune|
    ensures r.kept.Err? <==> |tune| < |elems|
    ensures r.kept.Ok? ==> r.kept.value == NonTuning(elems, tune)
  {
    var warned := |elems| != |tune|;
    if |tune| < |elems| then Removal(warned, Err(IndexError))
    else Removal(warned, Ok(NonTuning(elems, tune)))
  }

  /** There are as many kept positions as false flags in tune[..n]. */
  lemma {:induction false} NonTuningCount(tune: seq<bool>, n: nat)
    requires n <= |tune|
    ensures |NonTuningIndices(tune, n)| == multiset(tune[..n])[false]
  {
    if n > 0 {
      NonTuningCount(tune, n - 1);
      assert tune[..n] == tune[..n - 1] + [tune[n - 1]];
      assert multiset(tune[..n]) == multiset(tune[..n - 1]) + multiset{tune[n - 1]};
    }
  }

  /** Every non-tuning row below n is kept. */
  lemma {:induction false} NonTuningComplete(tune: seq<bool>, n: nat)
    requires n <= |tune|
    ensures forall i :: 0 <= i < n && !tune[i] ==> i in NonTuningIndices(tune, n)
  {
    if n > 0 {
      NonTuningComplete(tune, n - 1);
      var prev := NonTuningIndices(tune, n - 1);
      var idx := NonTuningIndices(tune, n);
      var last := if tune[n - 1] then [] else [n - 1];
      assert idx == prev + last;
      forall i | 0 <= i < n && !tune[i]
        ensures i in idx
      {
        if i < n - 1 {
          var k :| 0 <= k < |prev| && prev[k] == i;
          assert idx[k] == i;
        } else {
          assert idx[|prev|] == i;
        }
      }
    }
  }

  /** The kept positions are exactly the non-tuning rows below n, and there are as many
      of them as false flags in tune[..n]. */
  lemma NonTuningIndicesSpec(tune: seq<bool>, n: nat)
    requires n <= |tune|
    ensures |NonTuningIndices(tune, n)| == multiset(tune[..n])[false]
    ensures forall i :: 0 <= i < n ==> (i in NonTuningIndices(tune, n) <==> !tune[i])
  {
    NonTuningCount(tune, n);
    NonTuningComplete(tune, n);
  }

  /** The k-th kept element is the element at the k-th kept position. */
  lemma {:induction false} NonTuningSelects<T>(elems: seq<T>, tune: seq<bool>)
    requires |elems| <= |tune|
    ensures |NonTuning(elems, tune)| == |NonTuningIndices(tune, |elems|)|
    ensures forall k :: 0 <= k < |NonTuning(elems, tune)| ==>
      NonTuning(elems, tune)[k] == elems[NonTuningIndices(tune, |elems|)[k]]
  {
    if |elems| > 0 {
      var n := |elems| - 1;
      NonTuningSelects(elems[..n], tune);
    }
  }

  /** Filtering never grows a series. */
  lemma NonTuningShorter<T>(elems: seq<T>, tune: seq<bool>)
    requires |elems| <= |tune|
    ensures |NonTuning(elems, tune)| <= |elems|
  {
  }

  /** With no tuning row the series comes back unchanged. */
  lemma {:induction false} NonTuningNoTuning<T>(elems: seq<T>, tune: seq<bool>)
    requires |elems| <= |tune|
    requires forall i :: 0 <= i < |elems| ==> !tune[i]
    ensures NonTuning(elems, tune) == elems
  {
    if |elems| > 0 {
      var n := |elems| - 1;
      NonTuningNoTuning(elems[..n], tune);
      assert elems[..n] + [elems[n]] == elems;
    }
  }

  /** With every row in tuning nothing is kept. */
  lemma {:induction false} NonTuningAllTuning<T>(elems: seq<T>, tune: seq<bool>)
    requires |elems| <= |tune|
    requires forall i :: 0 <= i < |elems| ==> tune[i]
    ensures NonTuning(elems, tune) == []
  {
    if |elems| > 0 {
      NonTuningAllTuning(elems[..|elems| - 1], tune);
    }
  }

  /** Two parallel series of equal length filtered by the same flags stay aligned:
      same length, and entry k of both comes from the same raw row. */
  lemma FilteredSeriesAligned<A, B>(a: seq<A>, b: seq<B>, tune: seq<bool>)
    requires |a| == |b| <= |tune|
    ensures |NonTuning(a, tune)| == |NonTuning(b, tune)|
    ensures forall k :: 0 <= k < |NonTuning(a, tune)| ==>
      exists i :: 0 <= i < |a| && !tune[i] && NonTuning(a, tune)[k] == a[i] && NonTuning(b, tune)[k] == b[i]
  {
  }
}
