/** The ADSR envelope: a gain node whose gain is driven by a schedule of automation events. */
module Envelopes {
  import opened Audio
  import opened Options

  /** The parameter names the envelope's changeParameter switch recognises. */
  datatype EnvelopeParam = Attack | Decay | Sustain | Release

  function ParamName(p: EnvelopeParam): string {
    match p
    case Attack => "attack"
    case Decay => "decay"
    case Sustain => "sustain"
    case Release => "release"
  }

  /** The switch on a parameter name: the parameter it names, or None for a name it ignores. */
  function ParseParam(name: string): (r: Option<EnvelopeParam>)
    ensures r.Some? ==> ParamName(r.value) == name
    ensures r.None? ==> forall p :: ParamName(p) != name
  {
    if name == "attack" then Some(Attack)
    else if name == "decay" then Some(Decay)
    else if name == "sustain" then Some(Sustain)
    else if name == "release" then Some(Release)
    else None
  }

  /** The duration a 0..127 stage setting stands for: the whole range spans five seconds. */
  function StageSeconds(setting: real): real {
    setting / 127.0 * 5.0
  }

  /**
   * The automation triggerOn records at time `now` for peak gain `peak`:
   * start over from silence, ramp to the peak by the end of the attack, and,
   * unless decay is at its maximum 127, ramp on to the sustain fraction of the
   * peak by the end of the decay.
   */
  function TriggerOnEvents(attack: real, decay: real, sustain: real, peak: real, now: real): (r: seq<Event>)
    ensures 3 <= |r| <= 4 && (|r| == 4 <==> decay < 127.0)
    ensures r[0] == Cancel(now) && r[1] == SetValue(0.0, now)
    ensures r[2] == LinearRamp(peak, now + StageSeconds(attack))
    ensures |r| == 4 ==> r[3] == LinearRamp(sustain / 127.0 * peak, r[2].time + StageSeconds(decay))
    ensures r[|r| - 1].LinearRamp? && r[|r| - 1].value == (if decay < 127.0 then sustain / 127.0 * peak else peak)
    ensures attack >= 0.0 && decay >= 0.0 ==>
              forall i, j :: 0 <= i < j < |r| ==> now <= r[i].time <= r[j].time
  {
    var attackEnd := now + StageSeconds(attack);
    [Cancel(now), SetValue(0.0, now), LinearRamp(peak, attackEnd)]
    + (if decay < 127.0 then [LinearRamp(sustain / 127.0 * peak, attackEnd + StageSeconds(decay))] else [])
  }

  /**
   * The automation triggerOff records at time `now`: drop what is scheduled and
   * ramp to silence by the end of the release. Nothing sets a value, so the
   * ramp starts from whatever the gain is at `now`.
   */
  function TriggerOffEvents(release: real, now: real): (r: seq<Event>)
    ensures |r| == 2 && r[0] == Cancel(now)
    ensures forall i :: 0 <= i < |r| ==> !r[i].SetValue?
    ensures r[|r| - 1] == LinearRamp(0.0, now + StageSeconds(release))
    ensures release >= 0.0 ==> forall i :: 0 <= i < |r| ==> r[i].time >= now
  {
    [Cancel(now), LinearRamp(0.0, now + StageSeconds(release))]
  }

  class Envelope {
    /** The velocity-to-gain curve of the helpers module; left uninterpreted. */
    const velocityToGain: real -> real
    const input: GainNode
    const output: GainNode
    var attack: real
    var decay: real
    var sustain: real
    var release: real

    /** Input and output are one node, so a ramp scheduled through either lands on the same gain. */
    predicate Valid() {
      input == output
    }

    constructor (velocityToGain: real -> real, now: real)
      ensures Valid() && fresh(output) && this.velocityToGain == velocityToGain
      ensures output.gain == [SetValue(0.0, now)]
      ensures attack == 0.0 && decay == 127.0 && sustain == 127.0 && release == 0.0
    {
      this.velocityToGain := velocityToGain;
      var node := new GainNode();
      input := node;
      output := node;
      node.SetValueAtTime(0.0, now);
      attack := 0.0;
      decay := 127.0;
      sustain := 127.0;
      release := 0.0;
    }

    method TriggerOn(velocity: real, now: real)
      requires Valid()
      modifies output
      ensures output.gain == old(output.gain) + TriggerOnEvents(attack, decay, sustain, velocityToGain(velocity), now)
    {
      var gain := velocityToGain(velocity);
      var attackTime := now + attack / 127.0 * 5.0;
      var decayTime := attackTime + (decay / 127.0 * 5.0);
      var sustainLevel := (sustain / 127.0) * gain;
      assert attackTime == now + StageSeconds(attack) && decayTime == attackTime + StageSeconds(decay);
      output.CancelScheduledValues(now);
      output.SetValueAtTime(0.0, now);
      output.LinearRampToValueAtTime(gain, attackTime);
      if decay < 127.0 {
        input.LinearRampToValueAtTime(sustainLevel, decayTime);
        assert TriggerOnEvents(attack, decay, sustain, gain, now)[3] == LinearRamp(sustainLevel, decayTime);
        assert TriggerOnEvents(attack, decay, sustain, gain, now)
            == [Cancel(now), SetValue(0.0, now), LinearRamp(gain, attackTime), LinearRamp(sustainLevel, decayTime)];
      }
    }

    method TriggerOff(now: real)
      modifies output
      ensures output.gain == old(output.gain) + TriggerOffEvents(release, now)
    {
      output.CancelScheduledValues(now);
      var releaseTime := now + ((release / 127.0) * 5.0);
      output.LinearRampToValueAtTime(0.0, releaseTime);
    }

    /** The effect of changeParameter: the named stage setting takes the value, the other three stay. */
    twostate predicate ParameterChanged(parameter: string, value: real)
      reads this
    {
      var p := ParseParam(parameter);
      attack == (if p == Some(Attack) then value else old(attack)) &&
      decay == (if p == Some(Decay) then value else old(decay)) &&
      sustain == (if p == Some(Sustain) then value else old(sustain)) &&
      release == (if p == Some(Release) then value else old(release))
    }

    method ChangeParameter(parameter: string, value: real)
      modifies this
      ensures ParameterChanged(parameter, value)
    {
      match ParseParam(parameter)
      case Some(Attack) => attack := value;
      case Some(Decay) => decay := value;
      case Some(Sustain) => sustain := value;
      case Some(Release) => release := value;
      case None =>
    }
  }
}
