/** One call of `SimpleDaqAnalysis::analyze`: clear the per-event parts of
    every record, process the event's digits in order, then compute the
    noise metrics of every channel against its two circular neighbours. */
module DaqEvent {
  import opened Types
  import opened ModeTally
  import opened DaqChannel
  import ChannelMap
  import ModeProofs

  // ---------------------------------------------------------------------
  // Circular neighbours
  // ---------------------------------------------------------------------

  /** The channel before `i` in circular order. */
  function LastChannel(i: nat, n: nat): (r: nat)
    requires i < n
    ensures r < n
    ensures (r + 1) % n == i
  {
    if i == 0 then
      assert (n - 1 + 1) % n == 0;
      n - 1
    else
      assert (i - 1 + 1) % n == i;
      i - 1
  }

  /** The channel after `i` in circular order. */
  function NextChannel(i: nat, n: nat): (r: nat)
    requires i < n
    ensures r < n
    ensures r == (i + 1) % n
  {
    if i == n - 1 then 0 else i + 1
  }

  /** The two neighbour maps undo each other. */
  lemma NeighboursInverse(i: nat, n: nat)
    requires i < n
    ensures NextChannel(LastChannel(i, n), n) == i
    ensures LastChannel(NextChannel(i, n), n) == i
  {
  }

  // ---------------------------------------------------------------------
  // Construction and the start of an event
  // ---------------------------------------------------------------------

  /** The analyzer as constructed: one `blank` record and one default noise
      sample per channel, and an FFT buffer of the static input size when it
      is positive, else of the FFT code's default size. */
  function Construct(cfg: Config, blank: ChannelRecord, defaultFftSize: nat): (st: DaqState)
    ensures WellFormed(st, cfg)
    ensures st.eventInd == 0
    ensures cfg.staticInputSize > 0 ==> st.fftInputSize == cfg.staticInputSize
  {
    DaqState(0, seq(cfg.nChannels, _ => blank), seq(cfg.nChannels, _ => Unset),
             if cfg.staticInputSize > 0 then cfg.staticInputSize else defaultFftSize)
  }

  /** Only the waveform, the FFT output and the peaks are cleared. */
  function ClearRecord(rec: ChannelRecord): (r: ChannelRecord)
    ensures r.waveform == [] && r.fftReal == [] && r.fftImag == [] && r.peaks == []
    ensures SameKeptFields(r, rec)
  {
    rec.(waveform := [], fftReal := [], fftImag := [], peaks := [])
  }

  /** Two records agree on every field that the start of an event leaves
      alone. */
  predicate SameKeptFields(a: ChannelRecord, b: ChannelRecord) {
    && a.channelNo == b.channelNo
    && a.baseline == b.baseline
    && a.rms == b.rms
    && a.noiseRanges == b.noiseRanges
    && a.minAdc == b.minAdc
    && a.maxAdc == b.maxAdc
    && a.lastCorrelation == b.lastCorrelation
    && a.nextCorrelation == b.nextCorrelation
    && a.lastSumRms == b.lastSumRms
    && a.nextSumRms == b.nextSumRms
  }

  /** The start of an event as written: the records of all `n_channels`
      channels are cleared and the noise-sample vector is emptied. */
  function StartEventAsWritten(st: DaqState, cfg: Config): (r: DaqState)
    requires |st.records| == cfg.nChannels
    ensures |r.records| == cfg.nChannels && |r.noise| == 0
  {
    DaqState(st.eventInd + 1, seq(cfg.nChannels, i requires 0 <= i < cfg.nChannels => ClearRecord(st.records[i])),
             [], st.fftInputSize)
  }

  /** After the start of an event as written, the store into the noise
      vector for any accepted channel indexes past its end, and so does the
      neighbour pass for every channel. */
  lemma AsWrittenNoiseStoreOutOfRange(st: DaqState, cfg: Config, d: RawDigit)
    requires |st.records| == cfg.nChannels
    requires d.channel < cfg.nChannels
    ensures !(d.channel < |StartEventAsWritten(st, cfg).noise|)
    ensures !WellFormed(StartEventAsWritten(st, cfg), cfg)
  {
  }

  /** The start of an event with the noise vector reset to one default noise
      sample per channel, which the rest of the model uses. */
  function StartEvent(st: DaqState, cfg: Config): (r: DaqState)
    requires |st.records| == cfg.nChannels
    ensures WellFormed(r, cfg)
    ensures r.eventInd == st.eventInd + 1 && r.fftInputSize == st.fftInputSize
    ensures forall i :: 0 <= i < cfg.nChannels ==>
      && r.records[i].waveform == [] && r.records[i].fftReal == [] && r.records[i].fftImag == []
      && r.records[i].peaks == [] && r.noise[i] == Unset
      && SameKeptFields(r.records[i], st.records[i])
  {
    DaqState(st.eventInd + 1, seq(cfg.nChannels, i requires 0 <= i < cfg.nChannels => ClearRecord(st.records[i])),
             seq(cfg.nChannels, _ => Unset), st.fftInputSize)
  }

  // ---------------------------------------------------------------------
  // The digits of an event
  // ---------------------------------------------------------------------

  /** Every digit of the event through `ProcessChannel`, in order. */
  function ProcessAll(st: DaqState, cfg: Config, digits: seq<RawDigit>, ext: Externals): (r: DaqState)
    requires WellFormed(st, cfg)
    ensures WellFormed(r, cfg)
    ensures r.eventInd == st.eventInd
    decreases |digits|
  {
    if |digits| == 0 then st
    else ProcessChannel(ProcessAll(st, cfg, digits[..|digits| - 1], ext), cfg, digits[|digits| - 1], ext)
  }

  /** The digits whose channel is below `n_channels`, in order. */
  function Accepted(digits: seq<RawDigit>, cfg: Config): (acc: seq<RawDigit>)
    ensures forall k :: 0 <= k < |acc| ==> acc[k].channel < cfg.nChannels
    ensures forall d :: d in digits && d.channel < cfg.nChannels ==> d in acc
    ensures forall d :: d in acc ==> d in digits
    ensures forall d :: multiset(acc)[d] == (if d.channel < cfg.nChannels then multiset(digits)[d] else 0)
    decreases |digits|
  {
    if |digits| == 0 then []
    else
      var pre := digits[..|digits| - 1];
      var d := digits[|digits| - 1];
      assert digits == pre + [d];
      Accepted(pre, cfg) + (if d.channel < cfg.nChannels then [d] else [])
  }

  /** Filtering a concatenation filters each part and keeps them in order. */
  lemma {:induction false} AcceptedAppend(a: seq<RawDigit>, b: seq<RawDigit>, cfg: Config)
    ensures Accepted(a + b, cfg) == Accepted(a, cfg) + Accepted(b, cfg)
    decreases |b|
  {
    if |b| == 0 {
      assert a + b == a;
    } else {
      var pre := b[..|b| - 1];
      var d := b[|b| - 1];
      assert (a + b)[..|a + b| - 1] == a + pre;
      assert (a + b)[|a + b| - 1] == d;
      AcceptedAppend(a, pre, cfg);
    }
  }

  /** Digits of channels outside the analysed range change nothing. */
  lemma {:induction false} ProcessAllIgnoresRejected(st: DaqState, cfg: Config, digits: seq<RawDigit>, ext: Externals)
    requires WellFormed(st, cfg)
    ensures ProcessAll(st, cfg, digits, ext) == ProcessAll(st, cfg, Accepted(digits, cfg), ext)
    decreases |digits|
  {
    if |digits| > 0 {
      var pre := digits[..|digits| - 1];
      var d := digits[|digits| - 1];
      ProcessAllIgnoresRejected(st, cfg, pre, ext);
      var acc := Accepted(digits, cfg);
      if d.channel < cfg.nChannels {
        assert acc == Accepted(pre, cfg) + [d];
        assert acc[..|acc| - 1] == Accepted(pre, cfg);
        calc {
          ProcessAll(st, cfg, acc, ext);
          ProcessChannel(ProcessAll(st, cfg, Accepted(pre, cfg), ext), cfg, d, ext);
          ProcessChannel(ProcessAll(st, cfg, pre, ext), cfg, d, ext);
        }
      } else {
        assert acc == Accepted(pre, cfg);
      }
    }
  }

  /** A channel no digit names keeps its record and noise sample. */
  lemma {:induction false} ProcessAllUntouched(st: DaqState, cfg: Config, digits: seq<RawDigit>, ext: Externals, i: nat)
    requires WellFormed(st, cfg) && i < cfg.nChannels
    requires forall k :: 0 <= k < |digits| ==> digits[k].channel != i
    ensures ProcessAll(st, cfg, digits, ext).records[i] == st.records[i]
    ensures ProcessAll(st, cfg, digits, ext).noise[i] == st.noise[i]
    decreases |digits|
  {
    if |digits| > 0 {
      ProcessAllUntouched(st, cfg, digits[..|digits| - 1], ext, i);
    }
  }

  /** No digit of the event other than `digits[k]` names its channel. */
  predicate OnlyDigitFor(digits: seq<RawDigit>, k: nat)
    requires k < |digits|
  {
    forall l :: 0 <= l < |digits| && l != k ==> digits[l].channel != digits[k].channel
  }

  /** When no other digit names its channel, an accepted channel's record
      and noise sample are built from its own digit and its record before the
      event alone. */
  lemma {:induction false} ProcessAllDistinct(st: DaqState, cfg: Config, digits: seq<RawDigit>, ext: Externals, k: nat)
    requires WellFormed(st, cfg)
    requires k < |digits| && digits[k].channel < cfg.nChannels && OnlyDigitFor(digits, k)
    ensures ProcessAll(st, cfg, digits, ext).records[digits[k].channel]
         == UpdateRecord(st.records[digits[k].channel], cfg, digits[k], ext)
    ensures ProcessAll(st, cfg, digits, ext).noise[digits[k].channel]
         == NoiseFor(cfg, st.records[digits[k].channel], digits[k], ext)
    decreases |digits|
  {
    var pre := digits[..|digits| - 1];
    if k == |digits| - 1 {
      ProcessAllUntouched(st, cfg, pre, ext, digits[k].channel);
    } else {
      ProcessAllDistinct(st, cfg, pre, ext, k);
    }
  }

  // ---------------------------------------------------------------------
  // The cross-channel pass
  // ---------------------------------------------------------------------

  /** Record `i` with its four neighbour metrics computed from the
      waveforms and noise samples of `st`. */
  function WithMetrics(st: DaqState, cfg: Config, ext: Externals, i: nat): (r: ChannelRecord)
    requires WellFormed(st, cfg) && i < cfg.nChannels
    ensures r.(lastCorrelation := st.records[i].lastCorrelation, nextCorrelation := st.records[i].nextCorrelation,
               lastSumRms := st.records[i].lastSumRms, nextSumRms := st.records[i].nextSumRms) == st.records[i]
  {
    var n := cfg.nChannels;
    var last := LastChannel(i, n);
    var next := NextChannel(i, n);
    var rec := st.records[i];
    rec.(lastCorrelation := ext.correlation(st.noise[i], rec.waveform, st.noise[last], st.records[last].waveform),
         nextCorrelation := ext.correlation(st.noise[i], rec.waveform, st.noise[next], st.records[next].waveform),
         lastSumRms := ext.sumRms(st.noise[i], rec.waveform, st.noise[last], st.records[last].waveform),
         nextSumRms := ext.sumRms(st.noise[i], rec.waveform, st.noise[next], st.records[next].waveform))
  }

  /** The loop over channels `i..n_channels-1`, each iteration reading the
      records as the previous iterations left them. */
  function CrossPassLoop(st: DaqState, cfg: Config, ext: Externals, i: nat): (r: DaqState)
    requires WellFormed(st, cfg) && i <= cfg.nChannels
    ensures WellFormed(r, cfg)
    ensures r.noise == st.noise && r.eventInd == st.eventInd && r.fftInputSize == st.fftInputSize
    decreases cfg.nChannels - i
  {
    if i == cfg.nChannels then st
    else CrossPassLoop(st.(records := st.records[i := WithMetrics(st, cfg, ext, i)]), cfg, ext, i + 1)
  }

  /** Every channel's metrics computed at once from the records before the
      pass. */
  function CrossChannel(st: DaqState, cfg: Config, ext: Externals): (r: DaqState)
    requires WellFormed(st, cfg)
    ensures WellFormed(r, cfg)
  {
    st.(records := seq(cfg.nChannels, i requires 0 <= i < cfg.nChannels => WithMetrics(st, cfg, ext, i)))
  }

  /** Two records agree on everything but the four neighbour metrics. */
  predicate SameSignal(a: ChannelRecord, b: ChannelRecord) {
    a.(lastCorrelation := 0.0, nextCorrelation := 0.0, lastSumRms := 0.0, nextSumRms := 0.0)
      == b.(lastCorrelation := 0.0, nextCorrelation := 0.0, lastSumRms := 0.0, nextSumRms := 0.0)
  }

  /** The metrics of a channel read only its own record and noise sample and
      the waveforms and noise samples of its two neighbours; the other
      channels may differ arbitrarily. */
  lemma WithMetricsReads(s: DaqState, st: DaqState, cfg: Config, ext: Externals, i: nat)
    requires WellFormed(s, cfg) && WellFormed(st, cfg) && i < cfg.nChannels
    requires s.records[i] == st.records[i] && s.noise[i] == st.noise[i]
    requires s.noise[LastChannel(i, cfg.nChannels)] == st.noise[LastChannel(i, cfg.nChannels)]
    requires s.records[LastChannel(i, cfg.nChannels)].waveform == st.records[LastChannel(i, cfg.nChannels)].waveform
    requires s.noise[NextChannel(i, cfg.nChannels)] == st.noise[NextChannel(i, cfg.nChannels)]
    requires s.records[NextChannel(i, cfg.nChannels)].waveform == st.records[NextChannel(i, cfg.nChannels)].waveform
    ensures WithMetrics(s, cfg, ext, i) == WithMetrics(st, cfg, ext, i)
  {
  }

  /** Midway through the loop, iteration `i` computes the metrics it would
      compute on the state before the pass: earlier iterations wrote only
      metric fields, which it does not read. */
  lemma LoopIterationReadsPrePass(s: DaqState, st: DaqState, cfg: Config, ext: Externals, i: nat)
    requires WellFormed(s, cfg) && WellFormed(st, cfg) && i < cfg.nChannels
    requires s.noise == st.noise
    requires forall j :: 0 <= j < i ==> s.records[j] == WithMetrics(st, cfg, ext, j)
    requires forall j :: i <= j < cfg.nChannels ==> s.records[j] == st.records[j]
    ensures WithMetrics(s, cfg, ext, i) == WithMetrics(st, cfg, ext, i)
  {
    var last := LastChannel(i, cfg.nChannels);
    var next := NextChannel(i, cfg.nChannels);
    if last < i {
      assert s.records[last] == WithMetrics(st, cfg, ext, last);
    }
    if next < i {
      assert s.records[next] == WithMetrics(st, cfg, ext, next);
    }
    WithMetricsReads(s, st, cfg, ext, i);
  }

  /** The sequential loop computes the same as the all-at-once pass: an
      iteration writes only metric fields, which no later iteration reads. */
  lemma {:induction false} CrossPassLoopIsParallel(s: DaqState, st: DaqState, cfg: Config, ext: Externals, i: nat)
    requires WellFormed(s, cfg) && WellFormed(st, cfg) && i <= cfg.nChannels
    requires s.noise == st.noise && s.eventInd == st.eventInd && s.fftInputSize == st.fftInputSize
    requires forall j :: 0 <= j < i ==> s.records[j] == WithMetrics(st, cfg, ext, j)
    requires forall j :: i <= j < cfg.nChannels ==> s.records[j] == st.records[j]
    ensures CrossPassLoop(s, cfg, ext, i) == CrossChannel(st, cfg, ext)
    decreases cfg.nChannels - i
  {
    var n := cfg.nChannels;
    if i == n {
      assert s.records == CrossChannel(st, cfg, ext).records;
    } else {
      LoopIterationReadsPrePass(s, st, cfg, ext, i);
      var s' := s.(records := s.records[i := WithMetrics(s, cfg, ext, i)]);
      assert CrossPassLoop(s, cfg, ext, i) == CrossPassLoop(s', cfg, ext, i + 1);
      CrossPassLoopIsParallel(s', st, cfg, ext, i + 1);
    }
  }

  /** The pass changes nothing but the neighbour metrics, and each channel's
      metrics pair it with its circular predecessor and successor. */
  lemma CrossPassSpec(st: DaqState, cfg: Config, ext: Externals, i: nat)
    requires WellFormed(st, cfg) && i < cfg.nChannels
    ensures SameSignal(CrossPassLoop(st, cfg, ext, 0).records[i], st.records[i])
    ensures CrossPassLoop(st, cfg, ext, 0).records[i].lastCorrelation
         == ext.correlation(st.noise[i], st.records[i].waveform,
                            st.noise[(i + cfg.nChannels - 1) % cfg.nChannels],
                            st.records[(i + cfg.nChannels - 1) % cfg.nChannels].waveform)
    ensures CrossPassLoop(st, cfg, ext, 0).records[i].nextCorrelation
         == ext.correlation(st.noise[i], st.records[i].waveform,
                            st.noise[(i + 1) % cfg.nChannels],
                            st.records[(i + 1) % cfg.nChannels].waveform)
    ensures CrossPassLoop(st, cfg, ext, 0).records[i].lastSumRms
         == ext.sumRms(st.noise[i], st.records[i].waveform,
                       st.noise[(i + cfg.nChannels - 1) % cfg.nChannels],
                       st.records[(i + cfg.nChannels - 1) % cfg.nChannels].waveform)
    ensures CrossPassLoop(st, cfg, ext, 0).records[i].nextSumRms
         == ext.sumRms(st.noise[i], st.records[i].waveform,
                       st.noise[(i + 1) % cfg.nChannels],
                       st.records[(i + 1) % cfg.nChannels].waveform)
  {
    CrossPassLoopIsParallel(st, st, cfg, ext, 0);
    assert CrossPassLoop(st, cfg, ext, 0).records[i] == WithMetrics(st, cfg, ext, i);
    LastIsPredecessor(i, cfg.nChannels);
  }

  /** The channel before `i` is `i - 1` modulo the channel count. */
  lemma LastIsPredecessor(i: nat, n: nat)
    requires i < n
    ensures LastChannel(i, n) == (i + n - 1) % n
  {
    if i == 0 {
      assert (i + n - 1) % n == n - 1;
    } else {
      assert (i + n - 1) % n == i - 1;
    }
  }

  // ---------------------------------------------------------------------
  // A whole event
  // ---------------------------------------------------------------------

  /** `analyze`: start the event, process its digits, run the neighbour pass. */
  function Analyze(st: DaqState, cfg: Config, digits: seq<RawDigit>, ext: Externals): (r: DaqState)
    requires |st.records| == cfg.nChannels
    ensures WellFormed(r, cfg)
    ensures r.eventInd == st.eventInd + 1
  {
    CrossPassLoop(ProcessAll(StartEvent(st, cfg), cfg, digits, ext), cfg, ext, 0)
  }

  /** When no other digit of the event names it, an accepted channel's
      waveform is exactly its samples, its baseline is their mode, its
      extrema are their running maximum and minimum, its FFT parts have equal
      length, and with `noise_range_sampling` 0 its noise
      ranges are the fixed window whatever the samples. */
  lemma AnalyzeAcceptedChannel(st: DaqState, cfg: Config, digits: seq<RawDigit>, ext: Externals, k: nat)
    requires |st.records| == cfg.nChannels
    requires k < |digits| && digits[k].channel < cfg.nChannels && OnlyDigitFor(digits, k)
    ensures Analyze(st, cfg, digits, ext).records[digits[k].channel].waveform == digits[k].adcs
    ensures Analyze(st, cfg, digits, ext).records[digits[k].channel].channelNo == digits[k].channel
    ensures Analyze(st, cfg, digits, ext).records[digits[k].channel].baseline == ModeOf(digits[k].adcs)
    ensures |Analyze(st, cfg, digits, ext).records[digits[k].channel].fftReal|
         == |Analyze(st, cfg, digits, ext).records[digits[k].channel].fftImag|
    ensures Analyze(st, cfg, digits, ext).records[digits[k].channel].maxAdc == RunningMax(digits[k].adcs)
    ensures Analyze(st, cfg, digits, ext).records[digits[k].channel].minAdc == RunningMin(digits[k].adcs)
    ensures cfg.noiseRangeSampling == 0 ==>
      Analyze(st, cfg, digits, ext).records[digits[k].channel].noiseRanges == [FixedNoiseWindow(cfg)]
  {
    var s0 := StartEvent(st, cfg);
    var s1 := ProcessAll(s0, cfg, digits, ext);
    ProcessAllDistinct(s0, cfg, digits, ext, k);
    CrossPassSpec(s1, cfg, ext, digits[k].channel);
  }

  /** A channel the event does not name has an empty waveform, FFT output
      and peak list, but keeps the baseline, extrema, RMS and noise ranges
      of the last event that named it. */
  lemma AnalyzeAbsentChannel(st: DaqState, cfg: Config, digits: seq<RawDigit>, ext: Externals, i: nat)
    requires |st.records| == cfg.nChannels && i < cfg.nChannels
    requires forall k :: 0 <= k < |digits| ==> digits[k].channel != i
    ensures Analyze(st, cfg, digits, ext).records[i].waveform == []
    ensures Analyze(st, cfg, digits, ext).records[i].fftReal == []
    ensures Analyze(st, cfg, digits, ext).records[i].fftImag == []
    ensures Analyze(st, cfg, digits, ext).records[i].peaks == []
    ensures Analyze(st, cfg, digits, ext).records[i].rms == st.records[i].rms
    ensures Analyze(st, cfg, digits, ext).records[i].baseline == st.records[i].baseline
    ensures Analyze(st, cfg, digits, ext).records[i].minAdc == st.records[i].minAdc
    ensures Analyze(st, cfg, digits, ext).records[i].maxAdc == st.records[i].maxAdc
    ensures Analyze(st, cfg, digits, ext).records[i].noiseRanges == st.records[i].noiseRanges
  {
    var s0 := StartEvent(st, cfg);
    var s1 := ProcessAll(s0, cfg, digits, ext);
    ProcessAllUntouched(s0, cfg, digits, ext, i);
    CrossPassSpec(s1, cfg, ext, i);
  }

  /** A flat non-empty digit of level `c` gets baseline `c`, minimum `c` and
      maximum `max(0, c)`. */
  lemma FlatDigit(rec: ChannelRecord, cfg: Config, d: RawDigit, ext: Externals, c: Int16)
    requires |d.adcs| > 0 && forall i :: 0 <= i < |d.adcs| ==> d.adcs[i] == c
    ensures UpdateRecord(rec, cfg, d, ext).baseline == c
    ensures UpdateRecord(rec, cfg, d, ext).minAdc == MinSample(c)
    ensures UpdateRecord(rec, cfg, d, ext).maxAdc == (if c > 0 then c else 0)
  {
    ModeProofs.ConstantMode(d.adcs, c);
  }

  /** The default channel count equals the channels the channel map lays
      out on its boards. */
  lemma DefaultChannelCount()
    ensures ChannelMap.NBoards * ChannelMap.NFemPerBoard * ChannelMap.NChannelPerFem == DefaultConfig.nChannels
  {
  }
}
