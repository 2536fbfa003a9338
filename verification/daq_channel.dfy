/** Per-channel processing of `SimpleDaqAnalysis::ProcessChannel`: the
    channel-range filter, the waveform copy with its running minimum and
    maximum, the baseline, and the choice of noise sample. The FFT, the peak
    finder and the noise statistics are opaque functions supplied by the
    caller. */
module DaqChannel {
  import opened Types
  import opened ModeTally

  /** The configuration fields the analysis reads. */
  datatype Config = Config(
    nChannels: UInt32,
    noiseRangeSampling: UInt32,
    nNoiseSamples: UInt32,
    nSmoothingSamples: UInt32,
    thresholdHi: real,
    thresholdLo: real,
    staticInputSize: int)

  /** The defaults used when a parameter is absent from the configuration. */
  const DefaultConfig: Config := Config(16, 0, 20, 1, 100.0, -1.0, -1)

  /** One `raw::RawDigit`: a channel id and its ADC samples (`NADC()` of them). */
  datatype RawDigit = RawDigit(channel: UInt32, adcs: seq<Int16>)

  /** The running minimum starts at `DBL_MAX`, above every sample. */
  datatype MinAdc = DblMax | MinSample(value: int)

  /** A signal region found by the peak finder; only its identity flows
      through this model. */
  datatype Peak = Peak(startTick: int, endTick: int, amplitude: real)

  /** A tick interval used for noise statistics. */
  datatype NoiseRange = NoiseRange(start: nat, end: nat)

  /** A noise sample, recorded by the constructor it was built with: from
      explicit ranges, from the peak list, or default-constructed. */
  datatype NoiseSample =
    | FromRanges(ranges: seq<NoiseRange>, baseline: int)
    | FromPeaks(peaks: seq<Peak>, baseline: int, nadc: nat)
    | Unset

  /** The results kept for one channel. */
  datatype ChannelRecord = ChannelRecord(
    channelNo: nat,
    waveform: seq<int>,
    baseline: int,
    fftReal: seq<real>,
    fftImag: seq<real>,
    peaks: seq<Peak>,
    rms: real,
    noiseRanges: seq<NoiseRange>,
    minAdc: MinAdc,
    maxAdc: int,
    lastCorrelation: real,
    nextCorrelation: real,
    lastSumRms: real,
    nextSumRms: real)

  /** The collaborators whose code is not part of this model. */
  datatype Externals = Externals(
    fft: seq<int> -> seq<(real, real)>,
    findPeaks: (seq<int>, int, UInt32, real, real) -> seq<Peak>,
    peakRanges: (seq<Peak>, int, nat) -> seq<NoiseRange>,
    rms: (NoiseSample, seq<int>) -> real,
    correlation: (NoiseSample, seq<int>, NoiseSample, seq<int>) -> real,
    sumRms: (NoiseSample, seq<int>, NoiseSample, seq<int>) -> real)

  /** The analyzer's state between calls: the per-channel records, the noise
      samples, and the input size of the reused FFT buffer. */
  datatype DaqState = DaqState(
    eventInd: nat,
    records: seq<ChannelRecord>,
    noise: seq<NoiseSample>,
    fftInputSize: nat)

  /** One record and one noise sample per configured channel. */
  predicate WellFormed(st: DaqState, cfg: Config) {
    |st.records| == cfg.nChannels && |st.noise| == cfg.nChannels
  }

  /** The maximum kept while copying the samples, which starts at 0. */
  function RunningMax(adcs: seq<Int16>): (mx: int)
    ensures mx >= 0
    ensures forall i :: 0 <= i < |adcs| ==> adcs[i] <= mx
    ensures mx == 0 || mx in adcs
    decreases |adcs|
  {
    if |adcs| == 0 then 0
    else
      var m := RunningMax(adcs[..|adcs| - 1]);
      var adc := adcs[|adcs| - 1];
      assert adcs == adcs[..|adcs| - 1] + [adc];
      if adc > m then adc else m
  }

  /** The minimum kept while copying the samples, which starts at `DBL_MAX`. */
  function RunningMin(adcs: seq<Int16>): (mn: MinAdc)
    ensures mn == DblMax <==> |adcs| == 0
    ensures mn.MinSample? ==> mn.value in adcs && forall i :: 0 <= i < |adcs| ==> mn.value <= adcs[i]
    decreases |adcs|
  {
    if |adcs| == 0 then DblMax
    else
      var m := RunningMin(adcs[..|adcs| - 1]);
      var adc := adcs[|adcs| - 1];
      assert adcs == adcs[..|adcs| - 1] + [adc];
      match m
      case DblMax => MinSample(adc)
      case MinSample(v) => if adc < v then MinSample(adc) else m
  }

  /** The fixed leading noise window `{0, n_noise_samples - 1}`, computed in
      `unsigned` arithmetic. */
  function FixedNoiseWindow(cfg: Config): (r: NoiseRange)
    ensures r.start == 0
    ensures cfg.nNoiseSamples > 0 ==> r.end + 1 == cfg.nNoiseSamples
    ensures cfg.nNoiseSamples == 0 ==> r.end == TwoTo32 - 1
  {
    NoiseRange(0, SubU32(cfg.nNoiseSamples, 1))
  }

  /** The noise sample of a channel: the fixed window when
      `noise_range_sampling` is 0, else the complement of the peaks. */
  function ChooseNoiseSample(cfg: Config, baseline: int, peaks: seq<Peak>, nadc: nat): (ns: NoiseSample)
    ensures cfg.noiseRangeSampling == 0 ==> ns == FromRanges([FixedNoiseWindow(cfg)], baseline)
    ensures cfg.noiseRangeSampling != 0 ==> ns.FromPeaks? && ns.peaks == peaks && ns.nadc == nadc
    ensures !ns.Unset? && ns.baseline == baseline
  {
    if cfg.noiseRangeSampling == 0 then FromRanges([FixedNoiseWindow(cfg)], baseline)
    else FromPeaks(peaks, baseline, nadc)
  }

  /** `NoiseSample::Ranges()`: explicit ranges are kept as given; the ranges
      of a peak-derived sample come from the noise code. */
  function Ranges(ns: NoiseSample, ext: Externals): seq<NoiseRange>
  {
    match ns
    case FromRanges(ranges, _) => ranges
    case FromPeaks(peaks, baseline, nadc) => ext.peakRanges(peaks, baseline, nadc)
    case Unset => []
  }

  /** The real parts of the FFT bins, in bin order. */
  function RealParts(bins: seq<(real, real)>): (re: seq<real>)
    ensures |re| == |bins|
    ensures forall i :: 0 <= i < |bins| ==> re[i] == bins[i].0
  {
    seq(|bins|, i requires 0 <= i < |bins| => bins[i].0)
  }

  /** The imaginary parts of the FFT bins, in bin order. */
  function ImagParts(bins: seq<(real, real)>): (im: seq<real>)
    ensures |im| == |bins|
    ensures forall i :: 0 <= i < |bins| ==> im[i] == bins[i].1
  {
    seq(|bins|, i requires 0 <= i < |bins| => bins[i].1)
  }

  /** The peaks found on an accepted channel's accumulated waveform. */
  function PeaksFor(cfg: Config, rec: ChannelRecord, d: RawDigit, ext: Externals): seq<Peak>
  {
    ext.findPeaks(rec.waveform + d.adcs, ModeOf(d.adcs), cfg.nSmoothingSamples, cfg.thresholdHi, cfg.thresholdLo)
  }

  /** The noise sample stored for an accepted channel. */
  function NoiseFor(cfg: Config, rec: ChannelRecord, d: RawDigit, ext: Externals): (ns: NoiseSample)
    ensures !ns.Unset? && ns.baseline == ModeOf(d.adcs)
    ensures cfg.noiseRangeSampling == 0 ==> ns == FromRanges([FixedNoiseWindow(cfg)], ModeOf(d.adcs))
    ensures cfg.noiseRangeSampling != 0 ==> ns.FromPeaks? && ns.peaks == PeaksFor(cfg, rec, d, ext) && ns.nadc == |d.adcs|
  {
    ChooseNoiseSample(cfg, ModeOf(d.adcs), PeaksFor(cfg, rec, d, ext), |d.adcs|)
  }

  /** The new record of an accepted channel. Samples and FFT bins are
      appended to what the record already holds; peaks, baseline, extrema,
      RMS and noise ranges are replaced. */
  function UpdateRecord(rec: ChannelRecord, cfg: Config, d: RawDigit, ext: Externals): (r: ChannelRecord)
    ensures r.channelNo == d.channel
    ensures r.waveform == rec.waveform + d.adcs
    ensures |r.fftReal| - |rec.fftReal| == |r.fftImag| - |rec.fftImag|
    ensures rec.fftReal <= r.fftReal && rec.fftImag <= r.fftImag
    ensures r.baseline == ModeOf(d.adcs)
    ensures r.maxAdc == RunningMax(d.adcs) && r.minAdc == RunningMin(d.adcs)
    ensures cfg.noiseRangeSampling == 0 ==> r.noiseRanges == [FixedNoiseWindow(cfg)]
    ensures r.lastCorrelation == rec.lastCorrelation && r.nextCorrelation == rec.nextCorrelation
    ensures r.lastSumRms == rec.lastSumRms && r.nextSumRms == rec.nextSumRms
  {
    var wave := rec.waveform + d.adcs;
    var bins := ext.fft(d.adcs);
    var ns := NoiseFor(cfg, rec, d, ext);
    rec.(channelNo := d.channel,
         waveform := wave,
         baseline := ModeOf(d.adcs),
         maxAdc := RunningMax(d.adcs),
         minAdc := RunningMin(d.adcs),
         fftReal := rec.fftReal + RealParts(bins),
         fftImag := rec.fftImag + ImagParts(bins),
         peaks := PeaksFor(cfg, rec, d, ext),
         noiseRanges := Ranges(ns, ext),
         rms := ext.rms(ns, wave))
  }

  /** One digit of an event: a channel id at or beyond `n_channels` is
      skipped; otherwise the FFT buffer is resized to the sample count and the
      channel's record and noise sample are rebuilt, touching no other
      channel. */
  function ProcessChannel(st: DaqState, cfg: Config, d: RawDigit, ext: Externals): (r: DaqState)
    requires WellFormed(st, cfg)
    ensures WellFormed(r, cfg)
    ensures d.channel >= cfg.nChannels ==> r == st
    ensures d.channel < cfg.nChannels ==>
      && r.eventInd == st.eventInd
      && r.fftInputSize == |d.adcs|
      && r.records[d.channel] == UpdateRecord(st.records[d.channel], cfg, d, ext)
      && r.noise[d.channel] == NoiseFor(cfg, st.records[d.channel], d, ext)
      && (forall i :: 0 <= i < cfg.nChannels && i != d.channel ==> r.records[i] == st.records[i] && r.noise[i] == st.noise[i])
  {
    if d.channel < cfg.nChannels then
      var ch := d.channel;
      var fftSize := if st.fftInputSize != |d.adcs| then |d.adcs| else st.fftInputSize;
      DaqState(st.eventInd,
               st.records[ch := UpdateRecord(st.records[ch], cfg, d, ext)],
               st.noise[ch := NoiseFor(cfg, st.records[ch], d, ext)],
               fftSize)
    else st
  }
}
