/** The low-frequency oscillator: a free-running waveform node followed by a depth gain. */
module Lfos {
  import opened Audio
  import opened Options

  /** The parameter names the LFO's changeParameter switch recognises; there is no `type`. */
  datatype LfoParam = Level | Frequency

  function ParamName(p: LfoParam): string {
    match p
    case Level => "level"
    case Frequency => "frequency"
  }

  /** The switch on a parameter name: the parameter it names, or None for a name it ignores. */
  function ParseParam(name: string): (r: Option<LfoParam>)
    ensures r.Some? ==> ParamName(r.value) == name
    ensures r.None? ==> forall p :: ParamName(p) != name
  {
    if name == "level" then Some(Level)
    else if name == "frequency" then Some(Frequency)
    else None
  }

  /** Both recognised parameters are cast to a number. */
  predicate Accepts(parameter: string, value: ParamValue) {
    ParseParam(parameter).Some? ==> value.Number?
  }

  class Lfo {
    /** The oscillator node's type. */
    var waveform: OscillatorType
    /** The last value set on the oscillator node's frequency. */
    var frequency: real
    /** The last value set on the output gain: the modulation depth. */
    var level: real

    constructor (waveform: OscillatorType := Sine)
      ensures this.waveform == waveform && frequency == 3.0 && level == 0.0
    {
      this.waveform := waveform;
      frequency := 3.0;
      level := 0.0;
    }

    /** The effect of changeParameter: level takes the raw value, frequency the value; the waveform never changes. */
    twostate predicate ParameterChanged(parameter: string, value: ParamValue)
      requires Accepts(parameter, value)
      reads this
    {
      var p := ParseParam(parameter);
      level == (if p == Some(Level) then value.x else old(level)) &&
      frequency == (if p == Some(Frequency) then value.x else old(frequency)) &&
      waveform == old(waveform)
    }

    method ChangeParameter(parameter: string, value: ParamValue)
      requires Accepts(parameter, value)
      modifies this
      ensures ParameterChanged(parameter, value)
    {
      match ParseParam(parameter)
      case Some(Level) => level := value.x;
      case Some(Frequency) => frequency := value.x;
      case None =>
    }
  }
}
