/** top_k_top_p_filtering of kronos_vendor/kronos.py on one row of logits. Sorting and softmax are library
    calls: any descending permutation is accepted as the sort, and any nonnegative weights that sum to one
    and do not increase along it as the softmax of the sorted logits. */
module Nucleus {

  // ----- Permutations and prefix sums -----

  /** `perm[k]` is the vocabulary index of the k-th largest logit. */
  predicate IsPermutation(perm: seq<nat>, n: nat) {
    && |perm| == n
    && (forall k :: 0 <= k < n ==> perm[k] < n)
    && (forall j, k :: 0 <= j < k < n ==> perm[j] != perm[k])
  }

  predicate SortsDescending(perm: seq<nat>, logits: seq<real>) {
    && IsPermutation(perm, |logits|)
    && forall j, k :: 0 <= j <= k < |logits| ==> logits[perm[j]] >= logits[perm[k]]
  }

  function Mass(w: seq<real>, k: nat): real
    requires k <= |w|
  {
    if k == 0 then 0.0 else Mass(w, k - 1) + w[k - 1]
  }

  predicate Softmax(w: seq<real>) {
    && (forall k :: 0 <= k < |w| ==> w[k] >= 0.0)
    && (forall j, k :: 0 <= j <= k < |w| ==> w[j] >= w[k])
    && Mass(w, |w|) == 1.0
  }

  lemma {:induction false} MassMonotone(w: seq<real>, j: nat, k: nat)
    requires j <= k <= |w| && forall i :: 0 <= i < |w| ==> w[i] >= 0.0
    ensures Mass(w, j) <= Mass(w, k)
  {
    if j < k {
      MassMonotone(w, j, k - 1);
    }
  }

  function Upto(n: nat): (s: set<nat>)
    ensures |s| == n && forall k: nat :: k in s <==> k < n
  {
    if n == 0 then {} else Upto(n - 1) + {n - 1}
  }

  function Image(perm: seq<nat>, m: nat): (s: set<nat>)
    requires m <= |perm|
    ensures forall i :: i in s ==> exists k :: 0 <= k < m && perm[k] == i
  {
    if m == 0 then {} else Image(perm, m - 1) + {perm[m - 1]}
  }

  lemma {:induction false} ImageSize(perm: seq<nat>, n: nat, m: nat)
    requires IsPermutation(perm, n) && m <= n
    ensures |Image(perm, m)| == m && Image(perm, m) <= Upto(n)
  {
    if m > 0 {
      ImageSize(perm, n, m - 1);
    }
  }

  /** A sequence without repetitions that stays below its length hits every index. */
  lemma PermutationIsOnto(perm: seq<nat>, n: nat, i: nat)
    requires IsPermutation(perm, n) && i < n
    ensures exists k :: 0 <= k < n && perm[k] == i
  {
    ImageSize(perm, n, n);
    SameSize(Image(perm, n), Upto(n));
    assert i in Image(perm, n);
  }

  lemma SameSize<T>(a: set<T>, b: set<T>)
    requires a <= b && |a| == |b|
    ensures a == b
  {
    assert |b - a| == 0;
  }

  lemma SubsetSize<T>(a: set<T>, b: set<T>)
    requires a <= b
    ensures |a| <= |b|
  {
    assert b == a + (b - a);
  }

  // ----- The nucleus -----

  /** `k` is the length of the shortest nonempty prefix, in descending order, whose mass exceeds `topP`; the
      whole vocabulary if no prefix does. */
  predicate IsNucleus(w: seq<real>, topP: real, k: nat) {
    && 1 <= k <= |w|
    && (forall j :: 1 <= j < k ==> Mass(w, j) <= topP)
    && (k < |w| ==> Mass(w, k) > topP)
  }

  lemma {:induction false} NucleusExists(w: seq<real>, topP: real, from: nat) returns (k: nat)
    requires 1 <= from <= |w| && forall j :: 1 <= j < from ==> Mass(w, j) <= topP
    ensures IsNucleus(w, topP, k)
    decreases |w| - from
  {
    if from == |w| || Mass(w, from) > topP {
      k := from;
    } else {
      k := NucleusExists(w, topP, from + 1);
    }
  }

  /** There is one nucleus, so what `TopPFilter` leaves is determined. */
  lemma NucleusIsUnique(w: seq<real>, topP: real, k: nat, k': nat)
    requires IsNucleus(w, topP, k) && IsNucleus(w, topP, k')
    ensures k == k'
  {
  }

  /** The number of tokens the code keeps: the nucleus, but with a minimum above one, one more than that
      minimum (the mask is cleared for `minKeep` places and then shifted by one). */
  function KeptCount(nucleus: nat, minKeep: int, n: nat): nat {
    var atLeast := if minKeep > 1 then minKeep + 1 else 1;
    var k := if nucleus < atLeast then atLeast else nucleus;
    if k < n then k else n
  }

  /** The logits after filtering: the first `kept` in descending order stay, the others get the filter value. */
  predicate KeepsPrefix(before: seq<real>, after: seq<real>, perm: seq<nat>, kept: nat, filter: real)
    requires IsPermutation(perm, |before|) && |after| == |before|
  {
    forall k :: 0 <= k < |before| ==> after[perm[k]] == if k < kept then before[perm[k]] else filter
  }

  // ----- The in-place algorithm -----

  method CumulativeSums(w: seq<real>) returns (cum: seq<real>)
    ensures |cum| == |w| && forall k :: 0 <= k < |w| ==> cum[k] == Mass(w, k + 1)
  {
    cum := [];
    var total := 0.0;
    while |cum| < |w|
      invariant |cum| <= |w| && total == Mass(w, |cum|)
      invariant forall k :: 0 <= k < |cum| ==> cum[k] == Mass(w, k + 1)
      decreases |w| - |cum|
    {
      total := total + w[|cum|];
      cum := cum + [total];
    }
  }

  /** mask[:m] = 0 */
  method ClearFirst(mask: array<bool>, m: int)
    modifies mask
    ensures forall k :: 0 <= k < mask.Length ==> mask[k] == (k >= m && old(mask[k]))
  {
    var i := 0;
    while i < mask.Length && i < m
      invariant 0 <= i <= mask.Length && (i <= m || i == 0)
      invariant forall k :: 0 <= k < mask.Length ==> mask[k] == (k >= i && old(mask[k]))
    {
      mask[i] := false;
      i := i + 1;
    }
  }

  /** mask[1:] = mask[:-1].clone(); mask[0] = 0 */
  method ShiftRight(mask: array<bool>)
    requires mask.Length >= 1
    modifies mask
    ensures mask[..] == [false] + old(mask[..])[..mask.Length - 1]
  {
    var j := mask.Length - 1;
    while j > 0
      invariant 0 <= j <= mask.Length - 1
      invariant forall k :: 0 <= k <= j ==> mask[k] == old(mask[k])
      invariant forall k :: j < k < mask.Length ==> mask[k] == old(mask[k - 1])
    {
      mask[j] := mask[j - 1];
      j := j - 1;
    }
    mask[0] := false;
  }

  /** The removal mask in sorted order: threshold, clear for the minimum, shift right, clear the first. */
  method SortedMask(cum: seq<real>, topP: real, minKeep: int) returns (remove: array<bool>)
    requires |cum| >= 1
    ensures fresh(remove) && remove.Length == |cum|
    ensures !remove[0]
    ensures forall k :: 1 <= k < |cum| ==> remove[k] == (cum[k - 1] > topP && !(minKeep > 1 && k - 1 < minKeep))
  {
    remove := new bool[|cum|](k requires 0 <= k < |cum| => cum[k] > topP);
    if minKeep > 1 {
      ClearFirst(remove, minKeep);
    }
    ghost var cleared := remove[..];
    ShiftRight(remove);
    forall k | 1 <= k < |cum| ensures remove[k] == cleared[k - 1] {
      assert remove[..][k] == cleared[k - 1];
    }
    assert remove[..][0] == false;
  }

  /** mask.scatter(1, perm, mask): out[perm[k]] is mask[k]. */
  method Scatter(mask: array<bool>, perm: seq<nat>) returns (out: array<bool>)
    requires IsPermutation(perm, mask.Length)
    ensures fresh(out) && out.Length == mask.Length
    ensures forall k :: 0 <= k < mask.Length ==> out[perm[k]] == mask[k]
  {
    var n := mask.Length;
    out := new bool[n](k requires 0 <= k < n reads mask => mask[k]);
    var i := 0;
    while i < n
      invariant 0 <= i <= n
      invariant forall k :: 0 <= k < i ==> out[perm[k]] == mask[k]
    {
      out[perm[i]] := mask[i];
      i := i + 1;
    }
  }

  /** logits[mask] = filter */
  method MaskedFill(logits: array<real>, mask: array<bool>, filter: real)
    requires logits.Length == mask.Length
    modifies logits
    ensures forall i :: 0 <= i < logits.Length ==> logits[i] == if mask[i] then filter else old(logits[i])
  {
    var i := 0;
    while i < logits.Length
      invariant 0 <= i <= logits.Length
      invariant forall k :: 0 <= k < i ==> logits[k] == if mask[k] then filter else old(logits[k])
      invariant forall k :: i <= k < logits.Length ==> logits[k] == old(logits[k])
    {
      if mask[i] {
        logits[i] := filter;
      }
      i := i + 1;
    }
  }

  /** Threshold and minimum, read off the shifted mask, describe a prefix of `KeptCount` places. */
  lemma MaskIsPrefix(w: seq<real>, topP: real, minKeep: int, nucleus: nat, k: nat)
    requires Softmax(w) && IsNucleus(w, topP, nucleus) && 1 <= k < |w|
    ensures (Mass(w, k) > topP && !(minKeep > 1 && k - 1 < minKeep)) <==> k >= KeptCount(nucleus, minKeep, |w|)
  {
    if k >= nucleus {
      MassMonotone(w, nucleus, k);
    } else {
      assert Mass(w, k) <= topP;
    }
  }

  /** The top-p branch. In place, it leaves exactly the nucleus (or the enforced minimum) and replaces every
      other logit by the filter value, each at its own vocabulary index. */
  method TopPFilter(logits: array<real>, perm: seq<nat>, w: seq<real>, topP: real, minKeep: int, filter: real)
    returns (ghost nucleus: nat)
    requires logits.Length >= 1 && SortsDescending(perm, logits[..])
    requires |w| == logits.Length && Softmax(w)
    modifies logits
    ensures IsNucleus(w, topP, nucleus)
    ensures KeepsPrefix(old(logits[..]), logits[..], perm, KeptCount(nucleus, minKeep, |w|), filter)
  {
    var cum := CumulativeSums(w);
    var sortedMask := SortedMask(cum, topP, minKeep);
    var mask := Scatter(sortedMask, perm);
    MaskedFill(logits, mask, filter);
    nucleus := NucleusExists(w, topP, 1);
    forall k | 1 <= k < |w| ensures sortedMask[k] <==> k >= KeptCount(nucleus, minKeep, |w|) {
      MaskIsPrefix(w, topP, minKeep, nucleus, k);
    }
  }

  /** The top-k branch: everything below the k-th largest logit is replaced; ties with it stay. */
  method TopKFilter(logits: array<real>, perm: seq<nat>, topK: int, minKeep: int, filter: real)
    requires logits.Length >= 1 && SortsDescending(perm, logits[..]) && topK > 0
    modifies logits
    ensures var k := Clamp(topK, minKeep, logits.Length); var threshold := old(logits[perm[k - 1]]);
            forall i :: 0 <= i < logits.Length ==>
              logits[i] == if old(logits[i]) < threshold then filter else old(logits[i])
  {
    var k := Clamp(topK, minKeep, logits.Length);
    var threshold := logits[perm[k - 1]];
    var mask := new bool[logits.Length](i requires 0 <= i < logits.Length reads logits => logits[i] < threshold);
    MaskedFill(logits, mask, filter);
  }

  /** min(max(topK, minKeep), n) */
  function Clamp(topK: int, minKeep: int, n: nat): (k: int)
    requires topK > 0 && n >= 1
    ensures 1 <= k <= n
  {
    var m := if topK < minKeep then minKeep else topK;
    if m < n then m else n
  }

  /** The number of places top-k keeps: the larger of the two counts asked for, but no more than there are. */
  lemma ClampIs(topK: int, minKeep: int, n: nat)
    requires topK > 0 && n >= 1
    ensures var k := Clamp(topK, minKeep, n);
            && (k == topK || k == minKeep || k == n)
            && (k < n ==> k >= topK && k >= minKeep)
            && (k == n ==> n <= topK || n <= minKeep)
  {
  }

  /** The whole function: top-k takes precedence, and with neither branch active nothing is returned. */
  method TopKTopPFilter(logits: array<real>, perm: seq<nat>, w: seq<real>, topK: int, topP: real, minKeep: int,
                        filter: real)
    returns (returned: bool, ghost nucleus: nat)
    requires logits.Length >= 1 && SortsDescending(perm, logits[..])
    requires |w| == logits.Length && Softmax(w)
    modifies logits
    ensures returned <==> topK > 0 || topP < 1.0
    ensures !returned ==> logits[..] == old(logits[..])
    ensures topK > 0 ==>
      forall i :: 0 <= i < logits.Length ==>
        logits[i] == if old(logits[i]) < old(logits[perm[Clamp(topK, minKeep, logits.Length) - 1]])
                     then filter else old(logits[i])
    ensures topK <= 0 && topP < 1.0 ==>
      && IsNucleus(w, topP, nucleus)
      && KeepsPrefix(old(logits[..]), logits[..], perm, KeptCount(nucleus, minKeep, |w|), filter)
  {
    nucleus := 0;
    if topK > 0 {
      TopKFilter(logits, perm, topK, minKeep, filter);
      return true, 0;
    }
    if topP < 1.0 {
      nucleus := TopPFilter(logits, perm, w, topP, minKeep, filter);
      return true, nucleus;
    }
    return false, 0;
  }

  // ----- What the nucleus is -----

  /** With the default minimum and a threshold in [0, 1): the kept tokens are never none, their mass exceeds
      the threshold, and without the last of them it would not. */
  lemma NucleusMass(w: seq<real>, topP: real, nucleus: nat)
    requires Softmax(w) && 0.0 <= topP < 1.0 && IsNucleus(w, topP, nucleus)
    ensures KeptCount(nucleus, 1, |w|) == nucleus >= 1
    ensures Mass(w, nucleus) > topP && Mass(w, nucleus - 1) <= topP
  {
    if nucleus == 1 {
      assert Mass(w, 0) == 0.0;
    }
  }

  /** No kept token has a smaller logit than a removed one. */
  lemma KeptAreLargest(before: seq<real>, perm: seq<nat>, kept: nat, i: nat, j: nat)
    requires SortsDescending(perm, before) && i < |before| && j < |before|
    requires (exists k :: 0 <= k < kept && k < |before| && perm[k] == i) && (exists k :: kept <= k < |before| && perm[k] == j)
    ensures before[i] >= before[j]
  {
  }

  /** Every logit of the vocabulary is accounted for: what is not kept is the filter value. */
  lemma KeepsPrefixEverywhere(before: seq<real>, after: seq<real>, perm: seq<nat>, kept: nat, filter: real, i: nat)
    requires IsPermutation(perm, |before|) && |after| == |before| && i < |before|
    requires KeepsPrefix(before, after, perm, kept, filter)
    ensures exists k :: 0 <= k < |before| && perm[k] == i && after[i] == if k < kept then before[i] else filter
  {
    PermutationIsOnto(perm, |before|, i);
    var k :| 0 <= k < |before| && perm[k] == i;
    assert after[perm[k]] == if k < kept then before[perm[k]] else filter;
  }

  /** Top-k keeps the first `k` in descending order, and of the rest only ties with the k-th. */
  lemma TopKKeepsTies(before: seq<real>, perm: seq<nat>, k: nat, j: nat)
    requires SortsDescending(perm, before) && 1 <= k <= |before| && j < |before|
    ensures !(before[perm[j]] < before[perm[k - 1]]) <==> j < k || before[perm[j]] == before[perm[k - 1]]
  {
    if j < k {
      assert before[perm[j]] >= before[perm[k - 1]];
    } else {
      assert before[perm[k - 1]] >= before[perm[j]];
    }
  }

  ghost function MassOf(w: seq<real>, s: set<nat>): real
    requires forall i :: i in s ==> i < |w|
  {
    if s == {} then 0.0
    else
      var i :| i in s;
      w[i] + MassOf(w, s - {i})
  }

  lemma {:induction false} MassOfRemove(w: seq<real>, s: set<nat>, i: nat)
    requires (forall k :: k in s ==> k < |w|) && i in s
    ensures MassOf(w, s) == w[i] + MassOf(w, s - {i})
    decreases |s|
  {
    var j :| j in s && MassOf(w, s) == w[j] + MassOf(w, s - {j});
    if j != i {
      MassOfRemove(w, s - {j}, i);
      MassOfRemove(w, s - {i}, j);
      assert s - {j} - {i} == s - {i} - {j};
    }
  }

  /** No set of `m` places carries more mass than the first `m`. */
  lemma {:induction false} PrefixIsHeaviest(w: seq<real>, s: set<nat>)
    requires Softmax(w) && forall i :: i in s ==> i < |w|
    ensures |s| <= |w| && MassOf(w, s) <= Mass(w, |s|)
    decreases |s|
  {
    if s != {} {
      var i := Largest(s);
      PrefixIsHeaviest(w, s - {i});
      MassOfRemove(w, s, i);
      LargestIsHigh(s, i);
    }
  }

  lemma {:induction false} Largest(s: set<nat>) returns (m: nat)
    requires s != {}
    ensures m in s && forall i :: i in s ==> i <= m
    decreases |s|
  {
    var x :| x in s;
    if s == {x} {
      m := x;
    } else {
      assert s - {x} != {};
      var y := Largest(s - {x});
      assert forall i :: i in s ==> i == x || i in s - {x};
      m := if x >= y then x else y;
    }
  }

  lemma LargestIsHigh(s: set<nat>, m: nat)
    requires m in s && forall i :: i in s ==> i <= m
    ensures |s| - 1 <= m
  {
    SubsetSize(s, Upto(m + 1));
  }

  /** The nucleus is a smallest set: any choice of tokens whose mass exceeds the threshold has at least as
      many tokens as the nucleus. */
  lemma NucleusIsSmallest(w: seq<real>, topP: real, nucleus: nat, s: set<nat>)
    requires Softmax(w) && 0.0 <= topP < 1.0 && IsNucleus(w, topP, nucleus)
    requires (forall i :: i in s ==> i < |w|) && MassOf(w, s) > topP
    ensures |s| >= nucleus
  {
    PrefixIsHeaviest(w, s);
    assert s != {};
  }

  /** A minimum of m > 1 is enforced with one token to spare: in the filtered logits the first m + 1 places are
      untouched, and when the nucleus is no larger than m, everything behind them is gone. */
  lemma MinimumKeepsOneMore(before: seq<real>, after: seq<real>, perm: seq<nat>, w: seq<real>, topP: real, minKeep: int,
                            nucleus: nat, filter: real, k: nat)
    requires IsPermutation(perm, |before|) && |after| == |before| == |w| && k < |before|
    requires IsNucleus(w, topP, nucleus) && minKeep > 1
    requires KeepsPrefix(before, after, perm, KeptCount(nucleus, minKeep, |w|), filter)
    ensures k <= minKeep ==> after[perm[k]] == before[perm[k]]
    ensures k > minKeep >= nucleus ==> after[perm[k]] == filter
  {
    assert after[perm[k]] == if k < KeptCount(nucleus, minKeep, |w|) then before[perm[k]] else filter;
  }

  /** What asking for a minimum promises: the larger of nucleus and minimum, or the whole vocabulary. */
  function AskedCount(nucleus: nat, minKeep: int, n: nat): nat {
    var k := if nucleus < minKeep then minKeep else nucleus;
    if k < n then k else n
  }

  /** That is what the code keeps if and only if no minimum above one is asked for, the nucleus exceeds the minimum
      anyway, or the vocabulary does not. */
  lemma KeptAsAskedIff(w: seq<real>, topP: real, minKeep: int, nucleus: nat)
    requires IsNucleus(w, topP, nucleus)
    ensures KeptCount(nucleus, minKeep, |w|) == AskedCount(nucleus, minKeep, |w|) <==>
            minKeep <= 1 || nucleus > minKeep || |w| <= minKeep
  {
  }
}
