/** A worked input on which the reuse of a stale slot decides the estimate. */
module ModeExamples {
  import opened Types
  import opened ModeTally

  /** Eleven distinct values, then 7 and 3 once more. */
  const Sample: seq<Int16> := [1, 2, 3, 4, 5, 6, 7, 8, 9, 10, 11, 7, 3]

  /** One more sample of a prefix, stated on given slot arrays. */
  lemma RunStep(a: seq<Int16>, k: nat, t: Tally, t': Tally)
    requires k < |a| && t.Valid()
    requires Run(a[..k]) == t && Step(t, a[k]) == t'
    ensures Run(a[..k + 1]) == t'
  {
    assert a[..k + 1][..k] == a[..k];
  }

  // One lemma per sample: unrolling several `Step`s in one proof is more than
  // the solver finishes within its resource limit.

  /** The slot arrays after `Sample[..1]`. */
  lemma Prefix1()
    ensures Run(Sample[..1]) == Tally([1, 0, 0, 0, 0, 0, 0, 0, 0, 0], [1, 0, 0, 0, 0, 0, 0, 0, 0, 0])
  {
    assert Run(Sample[..0]) == Initial();
    RunStep(Sample, 0,
      Tally([0, 0, 0, 0, 0, 0, 0, 0, 0, 0], [0, 0, 0, 0, 0, 0, 0, 0, 0, 0]),
      Tally([1, 0, 0, 0, 0, 0, 0, 0, 0, 0], [1, 0, 0, 0, 0, 0, 0, 0, 0, 0]));
  }

  /** The slot arrays after `Sample[..2]`. */
  lemma Prefix2()
    ensures Run(Sample[..2]) == Tally([1, 2, 0, 0, 0, 0, 0, 0, 0, 0], [1, 1, 0, 0, 0, 0, 0, 0, 0, 0])
  {
    Prefix1();
    RunStep(Sample, 1,
      Tally([1, 0, 0, 0, 0, 0, 0, 0, 0, 0], [1, 0, 0, 0, 0, 0, 0, 0, 0, 0]),
      Tally([1, 2, 0, 0, 0, 0, 0, 0, 0, 0], [1, 1, 0, 0, 0, 0, 0, 0, 0, 0]));
  }

  /** The slot arrays after `Sample[..3]`. */
  lemma Prefix3()
    ensures Run(Sample[..3]) == Tally([1, 2, 3, 0, 0, 0, 0, 0, 0, 0], [1, 1, 1, 0, 0, 0, 0, 0, 0, 0])
  {
    Prefix2();
    RunStep(Sample, 2,
      Tally([1, 2, 0, 0, 0, 0, 0, 0, 0, 0], [1, 1, 0, 0, 0, 0, 0, 0, 0, 0]),
      Tally([1, 2, 3, 0, 0, 0, 0, 0, 0, 0], [1, 1, 1, 0, 0, 0, 0, 0, 0, 0]));
  }

  /** The slot arrays after `Sample[..4]`. */
  lemma Prefix4()
    ensures Run(Sample[..4]) == Tally([1, 2, 3, 4, 0, 0, 0, 0, 0, 0], [1, 1, 1, 1, 0, 0, 0, 0, 0, 0])
  {
    Prefix3();
    RunStep(Sample, 3,
      Tally([1, 2, 3, 0, 0, 0, 0, 0, 0, 0], [1, 1, 1, 0, 0, 0, 0, 0, 0, 0]),
      Tally([1, 2, 3, 4, 0, 0, 0, 0, 0, 0], [1, 1, 1, 1, 0, 0, 0, 0, 0, 0]));
  }

  /** The slot arrays after `Sample[..5]`. */
  lemma Prefix5()
    ensures Run(Sample[..5]) == Tally([1, 2, 3, 4, 5, 0, 0, 0, 0, 0], [1, 1, 1, 1, 1, 0, 0, 0, 0, 0])
  {
    Prefix4();
    RunStep(Sample, 4,
      Tally([1, 2, 3, 4, 0, 0, 0, 0, 0, 0], [1, 1, 1, 1, 0, 0, 0, 0, 0, 0]),
      Tally([1, 2, 3, 4, 5, 0, 0, 0, 0, 0], [1, 1, 1, 1, 1, 0, 0, 0, 0, 0]));
  }

  /** The slot arrays after `Sample[..6]`. */
  lemma Prefix6()
    ensures Run(Sample[..6]) == Tally([1, 2, 3, 4, 5, 6, 0, 0, 0, 0], [1, 1, 1, 1, 1, 1, 0, 0, 0, 0])
  {
    Prefix5();
    RunStep(Sample, 5,
      Tally([1, 2, 3, 4, 5, 0, 0, 0, 0, 0], [1, 1, 1, 1, 1, 0, 0, 0, 0, 0]),
      Tally([1, 2, 3, 4, 5, 6, 0, 0, 0, 0], [1, 1, 1, 1, 1, 1, 0, 0, 0, 0]));
  }

  /** The slot arrays after `Sample[..7]`. */
  lemma Prefix7()
    ensures Run(Sample[..7]) == Tally([1, 2, 3, 4, 5, 6, 7, 0, 0, 0], [1, 1, 1, 1, 1, 1, 1, 0, 0, 0])
  {
    Prefix6();
    RunStep(Sample, 6,
      Tally([1, 2, 3, 4, 5, 6, 0, 0, 0, 0], [1, 1, 1, 1, 1, 1, 0, 0, 0, 0]),
      Tally([1, 2, 3, 4, 5, 6, 7, 0, 0, 0], [1, 1, 1, 1, 1, 1, 1, 0, 0, 0]));
  }

  /** The slot arrays after `Sample[..8]`. */
  lemma Prefix8()
    ensures Run(Sample[..8]) == Tally([1, 2, 3, 4, 5, 6, 7, 8, 0, 0], [1, 1, 1, 1, 1, 1, 1, 1, 0, 0])
  {
    Prefix7();
    RunStep(Sample, 7,
      Tally([1, 2, 3, 4, 5, 6, 7, 0, 0, 0], [1, 1, 1, 1, 1, 1, 1, 0, 0, 0]),
      Tally([1, 2, 3, 4, 5, 6, 7, 8, 0, 0], [1, 1, 1, 1, 1, 1, 1, 1, 0, 0]));
  }

  /** The slot arrays after `Sample[..9]`. */
  lemma Prefix9()
    ensures Run(Sample[..9]) == Tally([1, 2, 3, 4, 5, 6, 7, 8, 9, 0], [1, 1, 1, 1, 1, 1, 1, 1, 1, 0])
  {
    Prefix8();
    RunStep(Sample, 8,
      Tally([1, 2, 3, 4, 5, 6, 7, 8, 0, 0], [1, 1, 1, 1, 1, 1, 1, 1, 0, 0]),
      Tally([1, 2, 3, 4, 5, 6, 7, 8, 9, 0], [1, 1, 1, 1, 1, 1, 1, 1, 1, 0]));
  }

  /** The slot arrays after `Sample[..10]`. */
  lemma Prefix10()
    ensures Run(Sample[..10]) == Tally([1, 2, 3, 4, 5, 6, 7, 8, 9, 10], [1, 1, 1, 1, 1, 1, 1, 1, 1, 1])
  {
    Prefix9();
    RunStep(Sample, 9,
      Tally([1, 2, 3, 4, 5, 6, 7, 8, 9, 0], [1, 1, 1, 1, 1, 1, 1, 1, 1, 0]),
      Tally([1, 2, 3, 4, 5, 6, 7, 8, 9, 10], [1, 1, 1, 1, 1, 1, 1, 1, 1, 1]));
  }

  /** The slot arrays after `Sample[..11]`. */
  lemma Prefix11()
    ensures Run(Sample[..11]) == Tally([1, 2, 3, 4, 5, 6, 7, 8, 9, 10], [0, 0, 0, 0, 0, 0, 0, 0, 0, 0])
  {
    Prefix10();
    RunStep(Sample, 10,
      Tally([1, 2, 3, 4, 5, 6, 7, 8, 9, 10], [1, 1, 1, 1, 1, 1, 1, 1, 1, 1]),
      Tally([1, 2, 3, 4, 5, 6, 7, 8, 9, 10], [0, 0, 0, 0, 0, 0, 0, 0, 0, 0]));
  }

  /** The slot arrays after `Sample[..12]`. */
  lemma Prefix12()
    ensures Run(Sample[..12]) == Tally([1, 2, 3, 4, 5, 6, 7, 8, 9, 10], [0, 0, 0, 0, 0, 0, 1, 0, 0, 0])
  {
    Prefix11();
    RunStep(Sample, 11,
      Tally([1, 2, 3, 4, 5, 6, 7, 8, 9, 10], [0, 0, 0, 0, 0, 0, 0, 0, 0, 0]),
      Tally([1, 2, 3, 4, 5, 6, 7, 8, 9, 10], [0, 0, 0, 0, 0, 0, 1, 0, 0, 0]));
  }

  /** The slot arrays after `Sample[..13]`. */
  lemma Prefix13()
    ensures Run(Sample[..13]) == Tally([1, 2, 3, 4, 5, 6, 7, 8, 9, 10], [0, 0, 1, 0, 0, 0, 1, 0, 0, 0])
  {
    Prefix12();
    RunStep(Sample, 12,
      Tally([1, 2, 3, 4, 5, 6, 7, 8, 9, 10], [0, 0, 0, 0, 0, 0, 1, 0, 0, 0]),
      Tally([1, 2, 3, 4, 5, 6, 7, 8, 9, 10], [0, 0, 1, 0, 0, 0, 1, 0, 0, 0]));
  }

  /** After the eleventh distinct value every counter is 0 but the slots
      still hold 1..10; 7 and 3 are then counted in their stale slots 6 and
      2, and the tie goes to the lower slot, so the estimate is 3. Filling
      the first free slot instead would have put 7 in slot 0 and returned 7. */
  lemma StaleSlotDecidesTie()
    ensures Run(Sample).counters == [0, 0, 1, 0, 0, 0, 1, 0, 0, 0]
    ensures ModeOf(Sample) == 3
  {
    Prefix13();
    assert Sample[..13] == Sample;
  }
}
