/** `SimpleDaqAnalysis::Mode` as the source writes it: nested loops over two
    fixed-size slot arrays, shown to compute the functional model. */
module ModeMethod {
  import opened Types
  import opened ModeTally
  import ModeProofs

  method Mode(adcs: seq<Int16>) returns (ret: Int16)
    ensures ret == ModeOf(adcs)
    ensures ret == 0 || ret in adcs
    ensures forall x: Int16 :: 2 * multiset(adcs)[x] > |adcs| ==> ret == x
  {
    var counters: seq<nat> := seq(Slots, _ => 0);
    var modes: seq<Int16> := seq(Slots, _ => 0);
    var n := 0;
    while n < |adcs|
      invariant 0 <= n <= |adcs|
      invariant Tally(modes, counters) == Run(adcs[..n])
    {
      var val := adcs[n];
      var home := -1;
      // look for a slot holding the value
      var i := 0;
      while i < Slots
        invariant 0 <= i <= Slots
        invariant home == -1
        invariant forall j :: 0 <= j < i ==> modes[j] != val
      {
        if modes[i] == val {
          home := i;
          break;
        }
        i := i + 1;
      }
      assert home == FindValue(modes, val, 0);
      // otherwise take over the first free slot
      if home < 0 {
        i := 0;
        while i < Slots
          invariant 0 <= i <= Slots
          invariant home == -1
          invariant forall j :: 0 <= j < i ==> counters[j] > 0
        {
          if counters[i] == 0 {
            home := i;
            modes := modes[i := val];
            break;
          }
          i := i + 1;
        }
        assert home == FindFree(counters, 0);
      }
      if home >= 0 {
        counters := counters[home := counters[home] + 1];
      } else {
        // no slot: lower every counter, saturating at 0
        ghost var before := counters;
        i := 0;
        while i < Slots
          invariant 0 <= i <= Slots
          invariant |counters| == Slots
          invariant forall j :: 0 <= j < i ==> counters[j] == (if before[j] == 0 then 0 else before[j] - 1)
          invariant forall j :: i <= j < Slots ==> counters[j] == before[j]
        {
          counters := counters[i := if counters[i] == 0 then 0 else counters[i] - 1];
          i := i + 1;
        }
        assert counters == Decrement(before);
      }
      assert adcs[..n + 1][..n] == adcs[..n];
      n := n + 1;
    }
    assert adcs[..n] == adcs;
    // the slot with the highest counter holds the mode
    var maxCounters := 0;
    ret := 0;
    var i := 0;
    while i < Slots
      invariant 0 <= i <= Slots
      invariant SelectFrom(Tally(modes, counters), i, maxCounters, ret) == ModeOf(adcs)
    {
      if counters[i] > maxCounters {
        maxCounters := counters[i];
        ret := modes[i];
      }
      i := i + 1;
    }
    ModeProofs.ModeInInput(adcs);
    forall x: Int16 | 2 * multiset(adcs)[x] > |adcs|
      ensures ret == x
    {
      ModeProofs.MajorityMode(adcs, x);
    }
  }
}
