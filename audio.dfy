/**
 * The part of the Web Audio API the synthesizer modules drive, reduced to
 * the values they set. Signal generation itself happens in the browser and
 * is not part of this model.
 */
module Audio {

  /** The waveforms an OscillatorNode accepts by assignment ('custom' needs a PeriodicWave and is not modelled). */
  datatype OscillatorType = Sine | Square | Sawtooth | Triangle

  /** The BiquadFilterType values. */
  datatype BiquadFilterType = Lowpass | Highpass | Bandpass | Lowshelf | Highshelf | Peaking | Notch | Allpass

  /** The `number | OscillatorType | BiquadFilterType` value a control surface hands to changeParameter. */
  datatype ParamValue = Number(x: real) | Wave(wave: OscillatorType) | FilterKind(kind: BiquadFilterType)

  /** One automation call made on an AudioParam, with its target value and time in seconds. */
  datatype Event =
    | Cancel(time: real)
    | SetValue(value: real, time: real)
    | LinearRamp(value: real, time: real)

  /** A GainNode whose `gain` AudioParam is the log of the automation calls made on it, oldest first. */
  class GainNode {
    var gain: seq<Event>

    constructor ()
      ensures gain == []
    {
      gain := [];
    }

    /** AudioParam.cancelScheduledValues */
    method CancelScheduledValues(time: real)
      modifies this
      ensures gain == old(gain) + [Cancel(time)]
    {
      gain := gain + [Cancel(time)];
    }

    /** AudioParam.setValueAtTime */
    method SetValueAtTime(value: real, time: real)
      modifies this
      ensures gain == old(gain) + [SetValue(value, time)]
    {
      gain := gain + [SetValue(value, time)];
    }

    /** AudioParam.linearRampToValueAtTime */
    method LinearRampToValueAtTime(value: real, time: real)
      modifies this
      ensures gain == old(gain) + [LinearRamp(value, time)]
    {
      gain := gain + [LinearRamp(value, time)];
    }
  }

  /** A BiquadFilterNode: its type, and the last values set on its `frequency` and `Q` AudioParams. */
  class BiquadFilterNode {
    var filterType: BiquadFilterType
    var frequency: real
    var q: real

    /** The defaults Web Audio gives a new BiquadFilterNode. */
    constructor ()
      ensures filterType == Lowpass && frequency == 350.0 && q == 1.0
    {
      filterType := Lowpass;
      frequency := 350.0;
      q := 1.0;
    }
  }
}
