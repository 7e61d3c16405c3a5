/** The per-configuration masks built by the two plot methods of PlotData: an index list
    for the scatter plot of live-info parameters and a boolean mask for the runtime plot,
    one of each for every distinct configuration string. */
module ConfigMasks {

  /** The rows among the first n that hold `key`, in increasing order.
      Like NonTuningIndices, TuningStartsUpTo and TriggersUpTo, it lists the positions below n
      that pass a test, built one position at a time so that the loop or comprehension it
      models extends it by at most one entry per step. */
  function IndexMaskUpTo(strs: seq<string>, key: string, n: nat): (mask: seq<nat>)
    requires n <= |strs|
    ensures forall k :: 0 <= k < |mask| ==> mask[k] < n && strs[mask[k]] == key
    ensures forall j, k :: 0 <= j < k < |mask| ==> mask[j] < mask[k]
  {
    if n == 0 then []
    else IndexMaskUpTo(strs, key, n - 1) + (if strs[n - 1] == key then [n - 1] else [])
  }

  /** `[i for i, c in enumerate(strs) if c == key]`. */
  function IndexMask(strs: seq<string>, key: string): seq<nat>
  {
    IndexMaskUpTo(strs, key, |strs|)
  }

  /** `[cfg == key for cfg in strs]`. */
  function BoolMask(strs: seq<string>, key: string): (mask: seq<bool>)
    ensures |mask| == |strs|
  {
    seq(|strs|, i requires 0 <= i < |strs| => strs[i] == key)
  }

  /** The index mask of every distinct configuration string. */
  function ConfigGroups(strs: seq<string>): map<string, seq<nat>>
  {
    map c | c in strs :: IndexMask(strs, c)
  }

  /** Among the first n rows, the mask holds exactly the positions of `key`. */
  lemma {:induction false} IndexMaskUpToExact(strs: seq<string>, key: string, n: nat)
    requires n <= |strs|
    ensures forall i :: 0 <= i < n ==> (i in IndexMaskUpTo(strs, key, n) <==> strs[i] == key)
  {
    if n > 0 {
      IndexMaskUpToExact(strs, key, n - 1);
      var prev := IndexMaskUpTo(strs, key, n - 1);
      var mask := IndexMaskUpTo(strs, key, n);
      assert mask == prev + (if strs[n - 1] == key then [n - 1] else []);
      forall i | 0 <= i < n && strs[i] == key
        ensures i in mask
      {
        if i < n - 1 {
          var k :| 0 <= k < |prev| && prev[k] == i;
          assert mask[k] == i;
        } else {
          assert mask[|prev|] == i;
        }
      }
    }
  }

  /** The index mask holds exactly the positions of `key`. */
  lemma IndexMaskExact(strs: seq<string>, key: string)
    ensures forall i :: 0 <= i < |strs| ==> (i in IndexMask(strs, key) <==> strs[i] == key)
  {
    IndexMaskUpToExact(strs, key, |strs|);
  }

  /** The two mask forms select the same rows. */
  lemma MasksAgree(strs: seq<string>, key: string)
    ensures forall i :: 0 <= i < |strs| ==> (BoolMask(strs, key)[i] <==> i in IndexMask(strs, key))
  {
    IndexMaskExact(strs, key);
  }

  /** The masks over the distinct configuration strings partition the row positions:
      every position lies in the mask of its own string and in no other. */
  lemma GroupsPartition(strs: seq<string>)
    ensures ConfigGroups(strs).Keys == set c | c in strs
    ensures forall i :: 0 <= i < |strs| ==> strs[i] in ConfigGroups(strs) && i in ConfigGroups(strs)[strs[i]]
    ensures forall c, i :: c in ConfigGroups(strs) && i in ConfigGroups(strs)[c] ==> 0 <= i < |strs| && strs[i] == c
  {
    var groups := ConfigGroups(strs);
    forall i | 0 <= i < |strs|
      ensures strs[i] in groups && i in groups[strs[i]]
    {
      IndexMaskExact(strs, strs[i]);
    }
  }

  /** Masks of two different configuration strings share no position. */
  lemma GroupsDisjoint(strs: seq<string>, c1: string, c2: string)
    requires c1 in ConfigGroups(strs) && c2 in ConfigGroups(strs) && c1 != c2
    ensures forall i :: i in ConfigGroups(strs)[c1] ==> i !in ConfigGroups(strs)[c2]
  {
  }
}
