/** Properties of the FREQUENT baseline estimator: the loop invariants of the
    slot arrays, the heavy-hitter guarantee, and what the final scan returns. */
module ModeProofs {
  import opened Types
  import opened ModeTally

  // ---------------------------------------------------------------------
  // Sums and per-value counts of the slot arrays
  // ---------------------------------------------------------------------

  /** Overwriting one counter changes the sum by the difference. */
  lemma {:induction false} SumUpdate(c: seq<nat>, k: nat, v: nat)
    requires k < |c|
    ensures Sum(c[k := v]) + c[k] == Sum(c) + v
    decreases |c|
  {
    if k == 0 {
      assert c[k := v][1..] == c[1..];
    } else {
      SumUpdate(c[1..], k - 1, v);
      assert c[k := v][1..] == c[1..][k - 1 := v];
    }
  }

  lemma {:induction false} SumZero(c: seq<nat>)
    requires forall i :: 0 <= i < |c| ==> c[i] == 0
    ensures Sum(c) == 0
    decreases |c|
  {
    if |c| > 0 {
      SumZero(c[1..]);
    }
  }

  /** No single counter exceeds the sum. */
  lemma SlotAtMostSum(c: seq<nat>, k: nat)
    requires k < |c|
    ensures c[k] <= Sum(c)
  {
    SumUpdate(c, k, 0);
  }

  /** Overwriting one slot changes the count of `x` by what the slot
      contributed before and after. */
  lemma {:induction false} CountOfUpdate(m: seq<Int16>, c: seq<nat>, k: nat, a: Int16, b: nat, x: Int16)
    requires |m| == |c| && k < |m|
    ensures CountOf(m[k := a], c[k := b], x) + (if m[k] == x then c[k] else 0)
         == CountOf(m, c, x) + (if a == x then b else 0)
    decreases |m|
  {
    if k == 0 {
      assert m[k := a][1..] == m[1..];
      assert c[k := b][1..] == c[1..];
    } else {
      CountOfUpdate(m[1..], c[1..], k - 1, a, b, x);
      assert m[k := a][1..] == m[1..][k - 1 := a];
      assert c[k := b][1..] == c[1..][k - 1 := b];
    }
  }

  /** A value no slot holds has count 0. */
  lemma {:induction false} CountOfAbsent(m: seq<Int16>, c: seq<nat>, x: Int16)
    requires |m| == |c|
    requires forall i :: 0 <= i < |m| ==> m[i] != x
    ensures CountOf(m, c, x) == 0
    decreases |m|
  {
    if |m| > 0 {
      CountOfAbsent(m[1..], c[1..], x);
    }
  }

  /** A slot's counter is part of the count of its own value. */
  lemma {:induction false} SlotAtMostCountOf(m: seq<Int16>, c: seq<nat>, k: nat)
    requires |m| == |c| && k < |m|
    ensures c[k] <= CountOf(m, c, m[k])
  {
    CountOfUpdate(m, c, k, m[k], 0, m[k]);
  }

  /** A slot holding another value and the count of `x` never add up to
      more than the sum of all counters. */
  lemma {:induction false} SlotPlusCountOf(m: seq<Int16>, c: seq<nat>, k: nat, x: Int16)
    requires |m| == |c| && k < |m| && m[k] != x
    ensures c[k] + CountOf(m, c, x) <= Sum(c)
    decreases |m|
  {
    if k == 0 {
      CountAtMostSum(m[1..], c[1..], x);
    } else {
      SlotPlusCountOf(m[1..], c[1..], k - 1, x);
    }
  }

  /** The count of one value never exceeds the sum of all counters. */
  lemma {:induction false} CountAtMostSum(m: seq<Int16>, c: seq<nat>, x: Int16)
    requires |m| == |c|
    ensures CountOf(m, c, x) <= Sum(c)
    decreases |m|
  {
    if |m| > 0 {
      CountAtMostSum(m[1..], c[1..], x);
    }
  }

  /** With no stale duplicates, a positive count of `x` is held entirely by
      one slot. */
  lemma {:induction false} CountOfIsSlot(m: seq<Int16>, c: seq<nat>, x: Int16)
    requires |m| == |c| && NoStaleDuplicates(m, c)
    requires CountOf(m, c, x) > 0
    ensures exists p :: 0 <= p < |m| && m[p] == x && c[p] == CountOf(m, c, x)
    decreases |m|
  {
    assert NoStaleDuplicates(m[1..], c[1..]) by {
      forall i, j | 0 <= i < j < |m| - 1 && m[1..][i] == m[1..][j]
        ensures c[1..][j] == 0
      {
        assert m[i + 1] == m[j + 1];
      }
    }
    if m[0] == x && c[0] > 0 {
      assert forall j :: 0 <= j < |m| - 1 && m[1..][j] == x ==> c[1..][j] == 0 by {
        forall j | 0 <= j < |m| - 1 && m[1..][j] == x
          ensures c[1..][j] == 0
        {
          assert m[0] == m[j + 1];
        }
      }
      ZeroSlotsCountZero(m[1..], c[1..], x);
      assert m[0] == x && c[0] == CountOf(m, c, x);
    } else {
      CountOfIsSlot(m[1..], c[1..], x);
      var p :| 0 <= p < |m| - 1 && m[1..][p] == x && c[1..][p] == CountOf(m[1..], c[1..], x);
      assert m[p + 1] == x && c[p + 1] == CountOf(m, c, x);
    }
  }

  /** When every slot holding `x` has counter 0, the count of `x` is 0. */
  lemma {:induction false} ZeroSlotsCountZero(m: seq<Int16>, c: seq<nat>, x: Int16)
    requires |m| == |c|
    requires forall j :: 0 <= j < |m| && m[j] == x ==> c[j] == 0
    ensures CountOf(m, c, x) == 0
    decreases |m|
  {
    if |m| > 0 {
      ZeroSlotsCountZero(m[1..], c[1..], x);
    }
  }

  /** Lowering counters that are all positive lowers the sum by the slot count. */
  lemma {:induction false} SumDecrement(c: seq<nat>)
    requires forall i :: 0 <= i < |c| ==> c[i] > 0
    ensures Sum(Decrement(c)) + |c| == Sum(c)
    decreases |c|
  {
    if |c| > 0 {
      assert Decrement(c)[1..] == Decrement(c[1..]);
      SumDecrement(c[1..]);
    }
  }

  /** Lowering the counters of pairwise distinct slots lowers the count of any
      one value by at most 1, and never raises it. */
  lemma {:induction false} CountOfDecrement(m: seq<Int16>, c: seq<nat>, x: Int16)
    requires |m| == |c|
    requires forall i, j :: 0 <= i < j < |m| ==> m[i] != m[j]
    ensures CountOf(m, Decrement(c), x) <= CountOf(m, c, x) <= CountOf(m, Decrement(c), x) + 1
    decreases |m|
  {
    if |m| > 0 {
      assert Decrement(c)[1..] == Decrement(c[1..]);
      if m[0] == x {
        CountOfAbsent(m[1..], c[1..], x);
        CountOfAbsent(m[1..], Decrement(c)[1..], x);
      } else {
        CountOfDecrement(m[1..], c[1..], x);
      }
    }
  }

  // ---------------------------------------------------------------------
  // One step of the main loop
  // ---------------------------------------------------------------------

  /** The invariant of the slot arrays that every step keeps. */
  ghost predicate Inv(t: Tally) {
    t.Valid() && NoStaleDuplicates(t.modes, t.counters)
  }

  lemma StepKeepsInv(t: Tally, v: Int16)
    requires Inv(t)
    ensures Inv(Step(t, v))
  {
    var t' := Step(t, v);
    var home := FindValue(t.modes, v, 0);
    if home == -1 && FindFree(t.counters, 0) != -1 {
      var free := FindFree(t.counters, 0);
      forall i, j | 0 <= i < j < Slots && t'.modes[i] == t'.modes[j]
        ensures t'.counters[j] == 0
      {
        assert i != free && j != free;
      }
    }
  }

  /** A counted sample raises the sum by 1; a sample with no slot lowers it
      by the number of slots. */
  lemma StepSum(t: Tally, v: Int16)
    requires Inv(t)
    ensures Homeless(t, v) ==> Sum(Step(t, v).counters) + Slots == Sum(t.counters)
    ensures !Homeless(t, v) ==> Sum(Step(t, v).counters) == Sum(t.counters) + 1
  {
    var home := FindValue(t.modes, v, 0);
    if home != -1 {
      SumUpdate(t.counters, home, t.counters[home] + 1);
    } else if FindFree(t.counters, 0) != -1 {
      var free := FindFree(t.counters, 0);
      SumUpdate(t.counters, free, t.counters[free] + 1);
    } else {
      SumDecrement(t.counters);
    }
  }

  /** A counted sample raises the count of its own value by 1 and leaves the
      others alone; a sample with no slot has count 0 and lowers any count by
      at most 1. */
  lemma StepCountOf(t: Tally, v: Int16, x: Int16)
    requires Inv(t)
    ensures !Homeless(t, v) ==>
      CountOf(Step(t, v).modes, Step(t, v).counters, x) == CountOf(t.modes, t.counters, x) + (if x == v then 1 else 0)
    ensures Homeless(t, v) ==>
      && CountOf(t.modes, t.counters, v) == 0
      && CountOf(Step(t, v).modes, Step(t, v).counters, x) <= CountOf(t.modes, t.counters, x)
      && CountOf(t.modes, t.counters, x) <= CountOf(Step(t, v).modes, Step(t, v).counters, x) + 1
  {
    var home := FindValue(t.modes, v, 0);
    if home != -1 {
      CountOfUpdate(t.modes, t.counters, home, v, t.counters[home] + 1, x);
      assert t.modes[home := v] == t.modes;
    } else if FindFree(t.counters, 0) != -1 {
      var free := FindFree(t.counters, 0);
      CountOfUpdate(t.modes, t.counters, free, v, t.counters[free] + 1, x);
    } else {
      CountOfAbsent(t.modes, t.counters, v);
      forall i, j | 0 <= i < j < Slots
        ensures t.modes[i] != t.modes[j]
      {
        assert t.counters[j] > 0;
      }
      CountOfDecrement(t.modes, t.counters, x);
    }
  }

  /** A slot with a positive counter after a step either took the sample or
      was already counted with the same value. */
  lemma StepPositiveSlots(t: Tally, v: Int16)
    requires Inv(t)
    ensures forall i :: 0 <= i < Slots && Step(t, v).counters[i] > 0 ==>
      Step(t, v).modes[i] == v || (t.counters[i] > 0 && Step(t, v).modes[i] == t.modes[i])
  {
  }

  // ---------------------------------------------------------------------
  // The whole main loop
  // ---------------------------------------------------------------------

  lemma PrefixLast(adcs: seq<Int16>)
    requires |adcs| > 0
    ensures adcs == adcs[..|adcs| - 1] + [adcs[|adcs| - 1]]
    ensures multiset(adcs) == multiset(adcs[..|adcs| - 1]) + multiset{adcs[|adcs| - 1]}
  {
    assert adcs == adcs[..|adcs| - 1] + [adcs[|adcs| - 1]];
  }

  /** Invariants of the main loop (Analysis.cc:117-144): only the first slot
      holding a value is ever counted, and every counted slot holds a value
      that occurs in the samples. */
  lemma {:induction false} RunInvariant(adcs: seq<Int16>)
    ensures Inv(Run(adcs))
    ensures forall i :: 0 <= i < Slots && Run(adcs).counters[i] > 0 ==> Run(adcs).modes[i] in adcs
    ensures forall i, j :: 0 <= i < j < Slots && Run(adcs).counters[i] > 0 && Run(adcs).counters[j] > 0 ==>
      Run(adcs).modes[i] != Run(adcs).modes[j]
    decreases |adcs|
  {
    if |adcs| > 0 {
      var pre := adcs[..|adcs| - 1];
      var v := adcs[|adcs| - 1];
      RunInvariant(pre);
      StepKeepsInv(Run(pre), v);
      StepPositiveSlots(Run(pre), v);
      PrefixLast(adcs);
    }
  }

  /** Every sample either adds 1 to the sum of the counters or removes one
      per slot, so sum + (Slots + 1) * drops is the number of samples. */
  lemma {:induction false} RunSum(adcs: seq<Int16>)
    ensures Sum(Run(adcs).counters) + (Slots + 1) * Drops(adcs) == |adcs|
    decreases |adcs|
  {
    if |adcs| == 0 {
      SumZero(Run(adcs).counters);
    } else {
      var pre := adcs[..|adcs| - 1];
      RunSum(pre);
      RunInvariant(pre);
      StepSum(Run(pre), adcs[|adcs| - 1]);
    }
  }

  /** The count the slots give a value lies between its number of
      occurrences less the drops and its number of occurrences. */
  lemma {:induction false} RunCountOf(adcs: seq<Int16>, x: Int16)
    ensures CountOf(Run(adcs).modes, Run(adcs).counters, x) <= multiset(adcs)[x]
    ensures multiset(adcs)[x] <= CountOf(Run(adcs).modes, Run(adcs).counters, x) + Drops(adcs)
    decreases |adcs|
  {
    if |adcs| == 0 {
      ZeroSlotsCountZero(Run(adcs).modes, Run(adcs).counters, x);
    } else {
      var pre := adcs[..|adcs| - 1];
      var v := adcs[|adcs| - 1];
      RunCountOf(pre, x);
      RunInvariant(pre);
      StepCountOf(Run(pre), v, x);
      PrefixLast(adcs);
      if Homeless(Run(pre), v) && x == v {
        StepCountOf(Run(pre), v, v);
      }
    }
  }

  /** No counter ever exceeds the number of samples consumed, so the
      source's `unsigned` counters wrap only beyond 2^32 samples. */
  lemma CountersBounded(adcs: seq<Int16>)
    ensures Sum(Run(adcs).counters) <= |adcs|
    ensures forall i :: 0 <= i < Slots ==> Run(adcs).counters[i] <= |adcs|
  {
    RunSum(adcs);
    forall i | 0 <= i < Slots
      ensures Run(adcs).counters[i] <= |adcs|
    {
      SlotAtMostSum(Run(adcs).counters, i);
    }
  }

  /** The FREQUENT guarantee: a value making up more than a 1/(Slots + 1)
      share of the samples ends in a slot with a positive counter. */
  lemma FrequentGuarantee(adcs: seq<Int16>, x: Int16)
    requires (Slots + 1) * multiset(adcs)[x] > |adcs|
    ensures exists i :: 0 <= i < Slots && Run(adcs).modes[i] == x && Run(adcs).counters[i] > 0
  {
    RunSum(adcs);
    RunCountOf(adcs, x);
    RunInvariant(adcs);
    CountOfIsSlot(Run(adcs).modes, Run(adcs).counters, x);
  }

  // ---------------------------------------------------------------------
  // The final scan
  // ---------------------------------------------------------------------

  /** The scan from slot `i` on, started from a state that describes slots
      `0..i`, returns 0 when every counter is 0 and otherwise the value of
      the first slot with the highest counter. */
  lemma {:induction false} SelectFromSpec(t: Tally, i: nat, best: nat, ret: Int16)
    requires t.Valid() && i <= Slots
    requires forall j :: 0 <= j < i ==> t.counters[j] <= best
    requires (best == 0 && ret == 0)
          || (exists k :: 0 <= k < i && t.counters[k] == best > 0 && t.modes[k] == ret
                          && forall j :: 0 <= j < k ==> t.counters[j] < best)
    ensures (forall j :: 0 <= j < Slots ==> t.counters[j] == 0) ==> SelectFrom(t, i, best, ret) == 0
    ensures (exists j :: 0 <= j < Slots && t.counters[j] > 0) ==>
      exists k :: FirstMaximum(t.counters, k) && SelectFrom(t, i, best, ret) == t.modes[k]
    decreases Slots - i
  {
    if i < Slots {
      if t.counters[i] > best {
        SelectFromSpec(t, i + 1, t.counters[i], t.modes[i]);
      } else {
        SelectFromSpec(t, i + 1, best, ret);
      }
    } else if exists j :: 0 <= j < Slots && t.counters[j] > 0 {
      var k :| 0 <= k < i && t.counters[k] == best > 0 && t.modes[k] == ret
               && forall j :: 0 <= j < k ==> t.counters[j] < best;
      assert FirstMaximum(t.counters, k);
    }
  }

  /** The final scan (Analysis.cc:146-158): 0 when every counter has
      cancelled to 0, otherwise the value of the lowest slot among those with
      the highest counter. */
  lemma SelectSpec(t: Tally)
    requires t.Valid()
    ensures (forall j :: 0 <= j < Slots ==> t.counters[j] == 0) ==> Select(t) == 0
    ensures (exists j :: 0 <= j < Slots && t.counters[j] > 0) ==>
      exists k :: FirstMaximum(t.counters, k) && Select(t) == t.modes[k]
  {
    SelectFromSpec(t, 0, 0, 0);
  }

  // ---------------------------------------------------------------------
  // What the estimate is
  // ---------------------------------------------------------------------

  /** The estimate is 0 when every counter has cancelled out, and otherwise
      a value that occurs in the waveform. */
  lemma ModeInInput(adcs: seq<Int16>)
    ensures (forall j :: 0 <= j < Slots ==> Run(adcs).counters[j] == 0) ==> ModeOf(adcs) == 0
    ensures (exists j :: 0 <= j < Slots && Run(adcs).counters[j] > 0) ==> ModeOf(adcs) in adcs
  {
    RunInvariant(adcs);
    SelectSpec(Run(adcs));
  }

  /** A value occurring in more than half of the samples is the estimate. */
  lemma MajorityMode(adcs: seq<Int16>, x: Int16)
    requires 2 * multiset(adcs)[x] > |adcs|
    ensures ModeOf(adcs) == x
  {
    var t := Run(adcs);
    RunSum(adcs);
    RunCountOf(adcs, x);
    RunInvariant(adcs);
    var cx := CountOf(t.modes, t.counters, x);
    CountOfIsSlot(t.modes, t.counters, x);
    var p :| 0 <= p < Slots && t.modes[p] == x && t.counters[p] == cx;
    SelectSpec(t);
    var k :| FirstMaximum(t.counters, k) && Select(t) == t.modes[k];
    if t.modes[k] != x {
      SlotPlusCountOf(t.modes, t.counters, k, x);
    }
  }

  lemma {:induction false} MultisetOfConstant(adcs: seq<Int16>, c: Int16)
    requires forall i :: 0 <= i < |adcs| ==> adcs[i] == c
    ensures multiset(adcs)[c] == |adcs|
    decreases |adcs|
  {
    if |adcs| > 0 {
      PrefixLast(adcs);
      MultisetOfConstant(adcs[..|adcs| - 1], c);
    }
  }

  /** A non-empty flat waveform has its own level as baseline. */
  lemma ConstantMode(adcs: seq<Int16>, c: Int16)
    requires |adcs| > 0
    requires forall i :: 0 <= i < |adcs| ==> adcs[i] == c
    ensures ModeOf(adcs) == c
  {
    MultisetOfConstant(adcs, c);
    MajorityMode(adcs, c);
  }

  lemma {:induction false} DistinctMultiplicity(adcs: seq<Int16>, x: Int16)
    requires forall i, j :: 0 <= i < j < |adcs| ==> adcs[i] != adcs[j]
    ensures multiset(adcs)[x] <= 1
    decreases |adcs|
  {
    if |adcs| > 0 {
      var pre := adcs[..|adcs| - 1];
      PrefixLast(adcs);
      DistinctMultiplicity(pre, x);
      if x == adcs[|adcs| - 1] {
        assert x !in pre;
      }
    }
  }

  lemma {:induction false} SumAtMostLength(c: seq<nat>)
    requires forall i :: 0 <= i < |c| ==> c[i] <= 1
    ensures Sum(c) <= |c|
    decreases |c|
  {
    if |c| > 0 {
      SumAtMostLength(c[1..]);
    }
  }

  /** No slot counts its value more often than it occurs. */
  lemma SlotAtMostOccurrences(adcs: seq<Int16>, k: nat)
    requires k < Slots
    ensures Run(adcs).counters[k] <= multiset(adcs)[Run(adcs).modes[k]]
  {
    SlotAtMostCountOf(Run(adcs).modes, Run(adcs).counters, k);
    RunCountOf(adcs, Run(adcs).modes[k]);
  }

  /** With pairwise distinct samples no counter exceeds 1. */
  lemma DistinctCountersAtMostOne(adcs: seq<Int16>)
    requires forall i, j :: 0 <= i < j < |adcs| ==> adcs[i] != adcs[j]
    ensures Sum(Run(adcs).counters) <= Slots
  {
    var t := Run(adcs);
    forall k | 0 <= k < Slots
      ensures t.counters[k] <= 1
    {
      SlotAtMostOccurrences(adcs, k);
      DistinctMultiplicity(adcs, t.modes[k]);
    }
    SumAtMostLength(t.counters);
  }

  /** Slots + 1 pairwise distinct samples cancel every counter, so the
      estimate is 0 whether or not 0 occurs in the waveform. */
  lemma DistinctSamplesCancel(adcs: seq<Int16>)
    requires |adcs| == Slots + 1
    requires forall i, j :: 0 <= i < j < |adcs| ==> adcs[i] != adcs[j]
    ensures forall j :: 0 <= j < Slots ==> Run(adcs).counters[j] == 0
    ensures ModeOf(adcs) == 0
  {
    var c := Run(adcs).counters;
    DistinctCountersAtMostOne(adcs);
    RunSum(adcs);
    assert Sum(c) == 0;
    forall k | 0 <= k < Slots
      ensures c[k] == 0
    {
      SlotAtMostSum(c, k);
    }
    SelectSpec(Run(adcs));
  }
}
