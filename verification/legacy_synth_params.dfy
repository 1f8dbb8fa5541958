/** The older synthesiser parameter loader (SynthParameters.cpp). It reads
    the same kind of document as the newer one but fewer keys: the filter
    is always a band-pass, and the envelope's peak and release are never
    set. */
module LegacySynthParams {
  import opened Results
  import SynthParams

  /** `Wave` and `Pass` of the older header. */
  datatype Wave = Sine | Sawtooth | Triangle | Square | Noise
  datatype Pass = NoFilter | Lowpass | Highpass | Bandpass | Bandstop

  function WaveName(w: Wave): string {
    match w
    case Sine => "sine"
    case Sawtooth => "sawtooth"
    case Triangle => "triangle"
    case Square => "square"
    case Noise => "noise"
  }

  /** `strToWave`: the five names and nothing else. */
  function StrToWave(s: string): (r: Result<Wave>)
    ensures r.Ok? <==> s in {"sine", "square", "sawtooth", "triangle", "noise"}
    ensures r.Ok? ==> WaveName(r.value) == s
    ensures r.Err? ==> r.error == "Unknown wave type"
  {
    if s == "sine" then Ok(Sine)
    else if s == "square" then Ok(Square)
    else if s == "sawtooth" then Ok(Sawtooth)
    else if s == "triangle" then Ok(Triangle)
    else if s == "noise" then Ok(Noise)
    else Err("Unknown wave type")
  }

  lemma WaveRoundTrip(w: Wave)
    ensures StrToWave(WaveName(w)) == Ok(w)
  {
  }

  /** `Harmonic`, `ADSR`, `LFO`, `IIR` and `Parameters` of the older header. */
  datatype Harmonic = Harmonic(mult: nat, amplitude: real, phase: real, wave: Wave)
  datatype Adsr = Adsr(peak: real, attackTime: real, decayTime: real, sustainTime: real,
                       releaseTime: real, averageSize: real)
  datatype Lfo = Lfo(frequency: real, amplitude: real, harmonics: seq<Harmonic>)
  datatype Iir = Iir(pass: Pass, order: nat, lower: real, upper: real)
  datatype Parameters = Parameters(poliphony: nat, volume: real, adsr: Adsr, vibrato: Lfo, tremolo: Lfo,
                                   iir: Iir, sampleDepth: nat, harmonics: seq<Harmonic>)

  predicate WavesKnown(entries: seq<SynthParams.HarmonicEntry>) {
    forall i :: 0 <= i < |entries| ==> StrToWave(entries[i].wave).Ok?
  }

  function Harmonics(entries: seq<SynthParams.HarmonicEntry>): (hs: seq<Harmonic>)
    requires WavesKnown(entries)
    ensures |hs| == |entries|
  {
    seq(|entries|, i requires 0 <= i < |entries| =>
      Harmonic(entries[i].mult, entries[i].amplitude, entries[i].phase, StrToWave(entries[i].wave).value))
  }

  /** `readHarmonics`: entries appended in input order. */
  method ReadHarmonics(entries: seq<SynthParams.HarmonicEntry>, harmonics: seq<Harmonic>)
    returns (r: Result<seq<Harmonic>>)
    ensures r.Ok? <==> WavesKnown(entries)
    ensures r.Ok? ==> r.value == harmonics + Harmonics(entries)
    ensures r.Err? ==> r.error == "Unknown wave type"
  {
    var acc := harmonics;
    for i := 0 to |entries|
      invariant WavesKnown(entries[..i])
      invariant acc == harmonics + Harmonics(entries[..i])
    {
      var h := entries[i];
      var w := StrToWave(h.wave);
      if w.Err? {
        return Err(w.error);
      }
      acc := acc + [Harmonic(h.mult, h.amplitude, h.phase, w.value)];
      assert entries[..i + 1][..i] == entries[..i];
    }
    assert entries[..|entries|] == entries;
    return Ok(acc);
  }

  /** The two readings agree on which wave names are known. */
  lemma SameWaveNames(s: string)
    ensures StrToWave(s).Ok? <==> SynthParams.StrToWave(s).Ok?
  {
  }

  predicate AllWavesKnown(doc: SynthParams.Document) {
    WavesKnown(doc.harmonics) && WavesKnown(doc.vibrato.harmonics) && WavesKnown(doc.tremolo.harmonics)
  }

  /** `loadSynthParameters` after parsing. Only an unknown wave name fails;
      the filter is a band-pass whatever the document says; "lowpass" is the
      envelope's smoothing size. The object is allocated without
      initialisation and the envelope's peak and release are never
      assigned: they keep the indeterminate values `garbage` stands for. */
  method LoadSynthParameters(doc: SynthParams.Document, garbage: Adsr) returns (r: Result<Parameters>)
    ensures r.Ok? <==> AllWavesKnown(doc)
    ensures r.Err? ==> r.error == "Unknown wave type"
    ensures r.Ok? ==>
      var p := r.value;
      && p.adsr == Adsr(garbage.peak, doc.adsr.attack, doc.adsr.decay, doc.adsr.sustain,
                        garbage.releaseTime, doc.adsr.lowpass)
      && p.poliphony == doc.poliphony && p.volume == doc.volume && p.sampleDepth == doc.depth
      && p.harmonics == Harmonics(doc.harmonics)
      && p.vibrato == Lfo(doc.vibrato.freq, doc.vibrato.amplitude, Harmonics(doc.vibrato.harmonics))
      && p.tremolo == Lfo(doc.tremolo.freq, doc.tremolo.amplitude, Harmonics(doc.tremolo.harmonics))
      && p.iir == Iir(Bandpass, doc.filter.order, doc.filter.lower, doc.filter.upper)
  {
    var adsr := garbage.(attackTime := doc.adsr.attack, sustainTime := doc.adsr.sustain,
                         decayTime := doc.adsr.decay, averageSize := doc.adsr.lowpass);
    var harmonics :- ReadHarmonics(doc.harmonics, []);
    var vibratoHarmonics :- ReadHarmonics(doc.vibrato.harmonics, []);
    var vibrato := Lfo(doc.vibrato.freq, doc.vibrato.amplitude, vibratoHarmonics);
    var tremoloHarmonics :- ReadHarmonics(doc.tremolo.harmonics, []);
    var tremolo := Lfo(doc.tremolo.freq, doc.tremolo.amplitude, tremoloHarmonics);
    var iir := Iir(Bandpass, doc.filter.order, doc.filter.lower, doc.filter.upper);
    return Ok(Parameters(doc.poliphony, doc.volume, adsr, vibrato, tremolo, iir, doc.depth, harmonics));
  }
}
