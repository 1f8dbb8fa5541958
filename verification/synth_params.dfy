/** The synthesiser parameter loader (synth/SynthParameters.cpp). The JSON
    document is modelled by the values it holds under the keys the loader
    reads; the wave and filter names are checked, and an unknown name
    raises an error. */
module SynthParams {
  import opened Results

  /** `Wave`. */
  datatype Wave = Sine | Square | Sawtooth | Triangle | Noise

  /** `Pass`: the filter kinds, `NONE` included. */
  datatype Pass = NoFilter | Lowpass | Highpass | Bandpass | Bandstop

  function WaveName(w: Wave): string {
    match w
    case Sine => "sine"
    case Square => "square"
    case Sawtooth => "sawtooth"
    case Triangle => "triangle"
    case Noise => "noise"
  }

  function PassName(p: Pass): string {
    match p
    case NoFilter => "none"
    case Lowpass => "lowpass"
    case Highpass => "highpass"
    case Bandpass => "bandpass"
    case Bandstop => "bandstop"
  }

  /** `strToWave`: exactly the five names are accepted, each naming one wave. */
  function StrToWave(s: string): (r: Result<Wave>)
    ensures r.Ok? <==> s in {"sine", "square", "sawtooth", "triangle", "noise"}
    ensures r.Ok? ==> WaveName(r.value) == s
    ensures r.Err? ==> r.error == "Unknown wave type"
  {
    if s == "sine" then Ok(Sine)
    else if s == "square" then Ok(Square)
    else if s == "sawtooth" then Ok(Sawtooth)
    else if s == "triangle" then Ok(Triangle)
    else if s == "noise" then Ok(Noise)
    else Err("Unknown wave type")
  }

  /** `strToPass`: exactly the five names are accepted, each naming one kind. */
  function StrToPass(s: string): (r: Result<Pass>)
    ensures r.Ok? <==> s in {"none", "lowpass", "highpass", "bandpass", "bandstop"}
    ensures r.Ok? ==> PassName(r.value) == s
    ensures r.Err? ==> r.error == "Unknown pass type"
  {
    if s == "none" then Ok(NoFilter)
    else if s == "lowpass" then Ok(Lowpass)
    else if s == "highpass" then Ok(Highpass)
    else if s == "bandpass" then Ok(Bandpass)
    else if s == "bandstop" then Ok(Bandstop)
    else Err("Unknown pass type")
  }

  /** Every wave is read back from its name. */
  lemma WaveRoundTrip(w: Wave)
    ensures StrToWave(WaveName(w)) == Ok(w)
  {
  }

  /** Every filter kind is read back from its name. */
  lemma PassRoundTrip(p: Pass)
    ensures StrToPass(PassName(p)) == Ok(p)
  {
  }

  /** One entry of a harmonics array: `[mult, amplitude, phase, wave]`. */
  datatype HarmonicEntry = HarmonicEntry(mult: nat, amplitude: real, phase: real, wave: string)

  /** The document, by the keys the loader reads. */
  datatype AdsrDoc = AdsrDoc(peak: real, attack: real, decay: real, sustain: real, release: real, lowpass: real)
  datatype LfoDoc = LfoDoc(freq: real, amplitude: real, harmonics: seq<HarmonicEntry>)
  datatype FilterDoc = FilterDoc(filterType: string, order: nat, lower: real, upper: real)
  datatype Document = Document(adsr: AdsrDoc, poliphony: nat, volume: real, velocity: real, depth: nat,
                               harmonics: seq<HarmonicEntry>, vibrato: LfoDoc, tremolo: LfoDoc,
                               filter: FilterDoc)

  /** `Harmonic`, `ADSR`, `LFO`, `IIR` and `Parameters`. */
  datatype Harmonic = Harmonic(mult: nat, amplitude: real, phase: real, wave: Wave)
  datatype Adsr = Adsr(peak: real, attackTime: real, decayTime: real, sustainTime: real,
                       releaseTime: real, averageSize: real)
  datatype Lfo = Lfo(frequency: real, amplitude: real, harmonics: seq<Harmonic>)
  datatype Iir = Iir(pass: Pass, order: nat, lower: real, upper: real)
  datatype Parameters = Parameters(poliphony: nat, volume: real, velocityPower: real, adsr: Adsr,
                                   vibrato: Lfo, tremolo: Lfo, iir: Iir, sampleDepth: nat,
                                   harmonics: seq<Harmonic>)

  predicate WavesKnown(entries: seq<HarmonicEntry>) {
    forall i :: 0 <= i < |entries| ==> StrToWave(entries[i].wave).Ok?
  }

  /** The harmonics an array of known entries describes, in order. */
  function Harmonics(entries: seq<HarmonicEntry>): (hs: seq<Harmonic>)
    requires WavesKnown(entries)
    ensures |hs| == |entries|
  {
    seq(|entries|, i requires 0 <= i < |entries| =>
      Harmonic(entries[i].mult, entries[i].amplitude, entries[i].phase, StrToWave(entries[i].wave).value))
  }

  /** `readHarmonics`: one harmonic appended per entry, in order; an entry
      with an unknown wave name raises the error. */
  method ReadHarmonics(entries: seq<HarmonicEntry>, harmonics: seq<Harmonic>) returns (r: Result<seq<Harmonic>>)
    ensures r.Ok? <==> WavesKnown(entries)
    ensures r.Ok? ==> r.value == harmonics + Harmonics(entries)
    ensures r.Err? ==> r.error == "Unknown wave type"
  {
    var acc := harmonics;
    for i := 0 to |entries|
      invariant WavesKnown(entries[..i])
      invariant acc == harmonics + Harmonics(entries[..i])
    {
      var h := entries[i];
      var w := StrToWave(h.wave);
      if w.Err? {
        return Err(w.error);
      }
      acc := acc + [Harmonic(h.mult, h.amplitude, h.phase, w.value)];
      assert entries[..i + 1][..i] == entries[..i];
    }
    assert entries[..|entries|] == entries;
    return Ok(acc);
  }

  predicate AllWavesKnown(doc: Document) {
    WavesKnown(doc.harmonics) && WavesKnown(doc.vibrato.harmonics) && WavesKnown(doc.tremolo.harmonics)
  }

  /** `loadSynthParameters` after parsing: "lowpass" is the envelope's
      smoothing size, "velocity" the velocity power and "depth" the sample
      depth; the filter kind goes through `strToPass`. Wave names are
      checked before the filter kind. */
  method LoadSynthParameters(doc: Document) returns (r: Result<Parameters>)
    ensures r.Ok? <==> AllWavesKnown(doc) && StrToPass(doc.filter.filterType).Ok?
    ensures r.Err? ==> r.error == if AllWavesKnown(doc) then "Unknown pass type" else "Unknown wave type"
    ensures r.Ok? ==>
      var p := r.value;
      && p.adsr == Adsr(doc.adsr.peak, doc.adsr.attack, doc.adsr.decay, doc.adsr.sustain,
                        doc.adsr.release, doc.adsr.lowpass)
      && p.poliphony == doc.poliphony && p.volume == doc.volume
      && p.velocityPower == doc.velocity && p.sampleDepth == doc.depth
      && p.harmonics == Harmonics(doc.harmonics)
      && p.vibrato == Lfo(doc.vibrato.freq, doc.vibrato.amplitude, Harmonics(doc.vibrato.harmonics))
      && p.tremolo == Lfo(doc.tremolo.freq, doc.tremolo.amplitude, Harmonics(doc.tremolo.harmonics))
      && p.iir == Iir(StrToPass(doc.filter.filterType).value, doc.filter.order, doc.filter.lower, doc.filter.upper)
  {
    var adsr := Adsr(doc.adsr.peak, doc.adsr.attack, doc.adsr.decay, doc.adsr.sustain,
                     doc.adsr.release, doc.adsr.lowpass);
    var harmonics :- ReadHarmonics(doc.harmonics, []);
    var vibratoHarmonics :- ReadHarmonics(doc.vibrato.harmonics, []);
    var vibrato := Lfo(doc.vibrato.freq, doc.vibrato.amplitude, vibratoHarmonics);
    var tremoloHarmonics :- ReadHarmonics(doc.tremolo.harmonics, []);
    var tremolo := Lfo(doc.tremolo.freq, doc.tremolo.amplitude, tremoloHarmonics);
    var pass :- StrToPass(doc.filter.filterType);
    var iir := Iir(pass, doc.filter.order, doc.filter.lower, doc.filter.upper);
    return Ok(Parameters(doc.poliphony, doc.volume, doc.velocity, adsr, vibrato, tremolo, iir,
                         doc.depth, harmonics));
  }
}
