/** A functional model of the baseline estimator `SimpleDaqAnalysis::Mode`:
    algorithm FREQUENT (Demaine, Lopez-Ortiz and Munro, ESA 2002) with a
    fixed number of (value, counter) slots, followed by a scan that returns
    the value of the slot with the highest counter. */
module ModeTally {
  import opened Types

  /** Number of slots; the source uses 10. */
  const Slots: nat := 10

  /** The slot arrays after some prefix of the samples: `modes[i]` is the
      value held by slot `i` and `counters[i]` its counter. A slot whose
      counter is 0 is free but still holds its last value. */
  datatype Tally = Tally(modes: seq<Int16>, counters: seq<nat>) {
    predicate Valid() {
      |modes| == Slots && |counters| == Slots
    }
  }

  /** Both arrays start zero-initialised: every slot is free and holds 0. */
  function Initial(): (t: Tally)
    ensures t.Valid()
    ensures forall i :: 0 <= i < Slots ==> t.modes[i] == 0 && t.counters[i] == 0
  {
    Tally(seq(Slots, _ => 0), seq(Slots, _ => 0))
  }

  /** The first slot at or after `from` whose value is `v`, whatever its
      counter, or -1 when there is none. */
  function FindValue(modes: seq<Int16>, v: Int16, from: nat): (home: int)
    requires from <= |modes|
    ensures home == -1 || from <= home < |modes|
    ensures home == -1 ==> forall j :: from <= j < |modes| ==> modes[j] != v
    ensures home != -1 ==> modes[home] == v && forall j :: from <= j < home ==> modes[j] != v
    decreases |modes| - from
  {
    if from == |modes| then -1
    else if modes[from] == v then from
    else FindValue(modes, v, from + 1)
  }

  /** The first slot at or after `from` whose counter is 0, or -1. */
  function FindFree(counters: seq<nat>, from: nat): (free: int)
    requires from <= |counters|
    ensures free == -1 || from <= free < |counters|
    ensures free == -1 ==> forall j :: from <= j < |counters| ==> counters[j] > 0
    ensures free != -1 ==> counters[free] == 0 && forall j :: from <= j < free ==> counters[j] > 0
    decreases |counters| - from
  {
    if from == |counters| then -1
    else if counters[from] == 0 then from
    else FindFree(counters, from + 1)
  }

  /** Every counter lowered by one, saturating at 0. */
  function Decrement(counters: seq<nat>): (r: seq<nat>)
    ensures |r| == |counters|
    ensures forall i :: 0 <= i < |counters| ==> r[i] <= counters[i] <= r[i] + 1
    ensures forall i :: 0 <= i < |counters| ==> (r[i] == counters[i] <==> counters[i] == 0)
  {
    seq(|counters|, i requires 0 <= i < |counters| => if counters[i] == 0 then 0 else counters[i] - 1)
  }

  /** A sample finds no slot: no slot holds its value and none is free. */
  predicate Homeless(t: Tally, v: Int16)
    requires t.Valid()
  {
    FindValue(t.modes, v, 0) == -1 && FindFree(t.counters, 0) == -1
  }

  /** One sample of the main loop: count it in the first slot holding its
      value, else take over the first free slot, else lower every counter. */
  function Step(t: Tally, v: Int16): (t': Tally)
    requires t.Valid()
    ensures t'.Valid()
  {
    var home := FindValue(t.modes, v, 0);
    if home != -1 then
      Tally(t.modes, t.counters[home := t.counters[home] + 1])
    else
      var free := FindFree(t.counters, 0);
      if free != -1 then
        Tally(t.modes[free := v], t.counters[free := t.counters[free] + 1])
      else
        Tally(t.modes, Decrement(t.counters))
  }

  /** The slots after the main loop has consumed all of `adcs`, in order. */
  function Run(adcs: seq<Int16>): (t: Tally)
    ensures t.Valid()
    decreases |adcs|
  {
    if |adcs| == 0 then Initial()
    else Step(Run(adcs[..|adcs| - 1]), adcs[|adcs| - 1])
  }

  /** How many samples of `adcs` found no slot. */
  ghost function Drops(adcs: seq<Int16>): nat
    decreases |adcs|
  {
    if |adcs| == 0 then 0
    else Drops(adcs[..|adcs| - 1]) + (if Homeless(Run(adcs[..|adcs| - 1]), adcs[|adcs| - 1]) then 1 else 0)
  }

  /** The final scan from slot `i` on, with the best counter so far `best`
      and its value `ret`; only a strictly larger counter replaces them. */
  function SelectFrom(t: Tally, i: nat, best: nat, ret: Int16): (r: Int16)
    requires t.Valid() && i <= Slots
    ensures r == ret || exists j :: i <= j < Slots && t.counters[j] > best && r == t.modes[j]
    decreases Slots - i
  {
    if i == Slots then ret
    else if t.counters[i] > best then SelectFrom(t, i + 1, t.counters[i], t.modes[i])
    else SelectFrom(t, i + 1, best, ret)
  }

  /** The scan starts with best counter 0 and value 0. */
  function Select(t: Tally): (r: Int16)
    requires t.Valid()
    ensures r == 0 || exists j :: 0 <= j < Slots && t.counters[j] > 0 && r == t.modes[j]
  {
    SelectFrom(t, 0, 0, 0)
  }

  /** The baseline estimate of a waveform. */
  function ModeOf(adcs: seq<Int16>): Int16
  {
    Select(Run(adcs))
  }

  /** Sum of the counters. */
  ghost function Sum(c: seq<nat>): nat
  {
    if |c| == 0 then 0 else c[0] + Sum(c[1..])
  }

  /** The total count the slots give the value `x`. */
  ghost function CountOf(m: seq<Int16>, c: seq<nat>, x: Int16): nat
    requires |m| == |c|
  {
    if |m| == 0 then 0 else (if m[0] == x then c[0] else 0) + CountOf(m[1..], c[1..], x)
  }

  /** A later slot repeating an earlier slot's value always has counter 0:
      only the first slot holding a value is ever counted. */
  ghost predicate NoStaleDuplicates(m: seq<Int16>, c: seq<nat>)
    requires |m| == |c|
  {
    forall i, j :: 0 <= i < j < |m| && m[i] == m[j] ==> c[j] == 0
  }

  /** The slot `k` holds the highest counter, which is positive, and every
      earlier slot has a strictly lower one. */
  ghost predicate FirstMaximum(c: seq<nat>, k: int)
  {
    && 0 <= k < |c|
    && c[k] > 0
    && (forall j :: 0 <= j < |c| ==> c[j] <= c[k])
    && (forall j :: 0 <= j < k ==> c[j] < c[k])
  }
}
