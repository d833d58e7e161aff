/** An audible oscillator: a waveform node followed by a gain stage. */
module Oscillators {
  import opened Audio
  import opened Options

  /** The parameter names the oscillator's changeParameter switch recognises. */
  datatype OscillatorParam = Level | Type | Frequency

  function ParamName(p: OscillatorParam): string {
    match p
    case Level => "level"
    case Type => "type"
    case Frequency => "frequency"
  }

  /** The switch on a parameter name: the parameter it names, or None for a name it ignores. */
  function ParseParam(name: string): (r: Option<OscillatorParam>)
    ensures r.Some? ==> ParamName(r.value) == name
    ensures r.None? ==> forall p :: ParamName(p) != name
  {
    if name == "level" then Some(Level)
    else if name == "type" then Some(Type)
    else if name == "frequency" then Some(Frequency)
    else None
  }

  /** The value kind each recognised parameter is cast to: `type` takes a waveform, the others a number. */
  predicate Accepts(parameter: string, value: ParamValue) {
    match ParseParam(parameter)
    case Some(Type) => value.Wave?
    case Some(_) => value.Number?
    case None => true
  }

  /** What noteToFrequency divides the base pitch by; an octave setting of 0 means no transposition. */
  function Divider(octave: int): (d: int)
    ensures d != 0
  {
    if octave != 0 then octave * 2 else 1
  }

  class Oscillator {
    /** The equal-tempered pitch of a MIDI note, 440 * 2^((note - 69) / 12); left uninterpreted. */
    const basePitch: int -> real
    /** The velocity-to-gain curve of the helpers module; left uninterpreted. */
    const velocityToGain: real -> real
    /** Never reassigned after construction. */
    const octave: int
    /** The oscillator node's type. */
    var waveform: OscillatorType
    /** The last value set on the oscillator node's frequency. */
    var frequency: real
    /** The last value set on the output gain. */
    var level: real

    constructor (basePitch: int -> real, velocityToGain: real -> real,
                 waveform: OscillatorType := Sawtooth, octave: int := 0)
      ensures this.basePitch == basePitch && this.velocityToGain == velocityToGain
      ensures this.waveform == waveform && this.octave == octave
      ensures frequency == 440.0 && level == 1.0
    {
      this.basePitch := basePitch;
      this.velocityToGain := velocityToGain;
      this.waveform := waveform;
      frequency := 440.0;
      level := 1.0;
      this.octave := octave;
    }

    /** The base pitch transposed by the divider: unchanged at octave 0, divided by 2 * octave otherwise. */
    function NoteToFrequency(note: int): (f: real)
      ensures f * Divider(octave) as real == basePitch(note)
      ensures octave == 0 ==> f == basePitch(note)
    {
      basePitch(note) / Divider(octave) as real
    }

    /** An immediate jump of the node's frequency to the note's pitch; type and level stay. */
    method PlayNote(note: int)
      modifies this
      ensures frequency == NoteToFrequency(note)
      ensures waveform == old(waveform) && level == old(level)
    {
      var f := NoteToFrequency(note);
      frequency := f;
    }

    /** The effect of changeParameter: the named setting changes, the other two stay. */
    twostate predicate ParameterChanged(parameter: string, value: ParamValue)
      requires Accepts(parameter, value)
      reads this
    {
      var p := ParseParam(parameter);
      level == (if p == Some(Level) then velocityToGain(value.x) else old(level)) &&
      waveform == (if p == Some(Type) then value.wave else old(waveform)) &&
      frequency == (if p == Some(Frequency) then value.x else old(frequency))
    }

    method ChangeParameter(parameter: string, value: ParamValue)
      requires Accepts(parameter, value)
      modifies this
      ensures ParameterChanged(parameter, value)
    {
      match ParseParam(parameter)
      case Some(Level) =>
        var gain := velocityToGain(value.x);
        level := gain;
      case Some(Type) =>
        waveform := value.wave;
      case Some(Frequency) =>
        frequency := value.x;
      case None =>
    }
  }

  /** A nonzero octave setting divides the untransposed frequency by twice the setting. */
  lemma OctaveDivides(a: Oscillator, b: Oscillator, note: int)
    requires a.basePitch == b.basePitch && a.octave == 0 && b.octave != 0
    ensures b.NoteToFrequency(note) * (2 * b.octave) as real == a.NoteToFrequency(note)
  {
  }
}
