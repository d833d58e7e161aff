/**
 * The monophonic synthesizer: a note-state machine over a set of held notes,
 * the MIDI Note On / Note Off dispatch feeding it, and the routing of
 * parameter changes to its five modules.
 */
module Synth {
  import opened Audio
  import opened Options
  import opened HeldNotes
  import Oscillators
  import Envelopes
  import Filters
  import Lfos

  /** The destination names the synthesizer's changeParameter switch recognises. */
  datatype Destination = ToOscillator | ToSubOscillator | ToFilter | ToEnvelope | ToLfo

  function DestinationName(d: Destination): string {
    match d
    case ToOscillator => "oscillator"
    case ToSubOscillator => "subOscillator"
    case ToFilter => "filter"
    case ToEnvelope => "envelope"
    case ToLfo => "lfo"
  }

  /** The switch on a destination name: the module it names, or None for a name it ignores. */
  function ParseDestination(name: string): (r: Option<Destination>)
    ensures r.Some? ==> DestinationName(r.value) == name
    ensures r.None? ==> forall d :: DestinationName(d) != name
  {
    if name == "filter" then Some(ToFilter)
    else if name == "oscillator" then Some(ToOscillator)
    else if name == "subOscillator" then Some(ToSubOscillator)
    else if name == "envelope" then Some(ToEnvelope)
    else if name == "lfo" then Some(ToLfo)
    else None
  }

  /** The casts changeParameter makes on the way to the named module. */
  predicate Accepts(destination: string, parameter: string, value: ParamValue) {
    match ParseDestination(destination)
    case Some(ToOscillator) => Oscillators.Accepts(parameter, value)
    case Some(ToSubOscillator) => Oscillators.Accepts(parameter, value)
    case Some(ToFilter) => Filters.Accepts(parameter, value)
    case Some(ToEnvelope) => Envelopes.ParseParam(parameter).Some? ==> value.Number?
    case Some(ToLfo) => Lfos.Accepts(parameter, value)
    case None => true
  }

  /** An element of the Uint8Array a MIDI message arrives in. */
  type Byte = x: int | 0 <= x < 256

  /** A three-byte MIDI channel message: status byte and two data bytes. */
  datatype MidiMessage = MidiMessage(status: Byte, data1: Byte, data2: Byte)

  /** Note On on channel 1 (MIDI 1.0 status 9nH with n = 0). */
  const NOTE_ON: Byte := 0x90
  /** Note Off on channel 1 (MIDI 1.0 status 8nH with n = 0). */
  const NOTE_OFF: Byte := 0x80
  /** Active Sensing, a system real-time message (MIDI 1.0 status FEH). */
  const ACTIVE_SENSING: Byte := 0xFE

  /** What a MIDI message means to the synthesizer. */
  datatype MidiAction =
    | Ignored                                // not even logged
    | Logged                                 // only the status message changes
    | PressNote(note: Byte, velocity: Byte)  // a note-on
    | ReleaseNote(note: Byte)                // a note-off

  /**
   * The MIDI 1.0 reading of a message, as far as the synthesizer listens:
   * Active Sensing is dropped, Note On and Note Off are heard on channel 1
   * only, and a Note On with velocity 0 stands for a Note Off.
   */
  function Classify(m: MidiMessage): (a: MidiAction)
    ensures a.Ignored? <==> m.status == 254
    ensures a.PressNote? <==> m.status == 144 && m.data2 > 0
    ensures a.ReleaseNote? <==> m.status == 128 || (m.status == 144 && m.data2 == 0)
    ensures a.PressNote? ==> a.note == m.data1 && a.velocity == m.data2
    ensures a.ReleaseNote? ==> a.note == m.data1
  {
    if m.status == ACTIVE_SENSING then Ignored
    else if m.status == NOTE_ON && m.data2 != 0 then PressNote(m.data1, m.data2)
    else if m.status == NOTE_ON || m.status == NOTE_OFF then ReleaseNote(m.data1)
    else Logged
  }

  /** The human-readable status message, by content: '', 'Event: e' or 'Event: e, Note: n, Velocity: v'. */
  datatype StatusText = Blank | EventText(event: Byte) | NoteEventText(event: Byte, note: Byte, velocity: Byte)

  /** The text a logged message leaves: note and velocity are spelled out for Note On only. */
  function TextFor(m: MidiMessage): StatusText {
    if m.status == NOTE_ON then NoteEventText(m.status, m.data1, m.data2) else EventText(m.status)
  }

  /** JavaScript truthiness of an optional velocity: present and nonzero. */
  predicate Truthy(velocity: Option<int>) {
    velocity.Some? && velocity.value != 0
  }

  /** The state object shared with the user interface. */
  class SynthState {
    var message: StatusText
    var status: string
    var activeNotes: seq<int>

    /** The default state. */
    constructor ()
      ensures message == Blank && status == "Waiting for midi" && activeNotes == []
    {
      message := Blank;
      status := "Waiting for midi";
      activeNotes := [];
    }
  }

  class Synthesizer {
    const state: SynthState
    const oscillator: Oscillators.Oscillator
    const subOscillator: Oscillators.Oscillator
    const lfo: Lfos.Lfo
    const filter: Filters.Filter
    const envelope: Envelopes.Envelope
    /** The Set of held notes, in insertion order. */
    var activeNotes: seq<int>

    /**
     * The held notes are duplicate-free and mirrored in the shared state; the
     * modules are wired as built: two distinct oscillators on one tuning, the
     * sub-oscillator at octave setting 1.
     */
    ghost predicate Valid()
      reads this, state
    {
      NoDup(activeNotes) && state.activeNotes == activeNotes &&
      envelope.Valid() && filter.Valid() &&
      oscillator != subOscillator &&
      oscillator.octave == 0 && subOscillator.octave == 1 &&
      oscillator.basePitch == subOscillator.basePitch
    }

    constructor (state: SynthState, basePitch: int -> real, velocityToGain: real -> real, now: real)
      modifies state
      ensures Valid() && this.state == state
      ensures fresh(oscillator) && fresh(subOscillator) && fresh(lfo) && fresh(filter) && fresh(envelope)
      ensures fresh(envelope.output) && fresh(filter.output)
      ensures activeNotes == []
      ensures state.message == old(state.message) && state.status == old(state.status)
      ensures oscillator.basePitch == basePitch && oscillator.velocityToGain == velocityToGain
      ensures subOscillator.velocityToGain == velocityToGain && envelope.velocityToGain == velocityToGain
      ensures oscillator.waveform == Sawtooth && subOscillator.waveform == Sine && lfo.waveform == Sine
      ensures envelope.output.gain == [SetValue(0.0, now)]
      ensures envelope.attack == 0.0 && envelope.decay == 127.0 && envelope.sustain == 127.0 && envelope.release == 0.0
      ensures oscillator.frequency == 440.0 && oscillator.level == 1.0
      ensures subOscillator.frequency == 440.0 && subOscillator.level == 1.0
      ensures lfo.frequency == 3.0 && lfo.level == 0.0
      ensures filter.output.filterType == Lowpass && filter.output.frequency == 20000.0 && filter.output.q == 1.0
    {
      this.state := state;
      envelope := new Envelopes.Envelope(velocityToGain, now);
      oscillator := new Oscillators.Oscillator(basePitch, velocityToGain);
      subOscillator := new Oscillators.Oscillator(basePitch, velocityToGain, Sine, 1);
      lfo := new Lfos.Lfo(Sine);
      filter := new Filters.Filter();
      activeNotes := [];
      new;
      state.activeNotes := activeNotes;
    }

    /**
     * The effect of noteOn: the note joins the held set, both oscillators jump
     * to its pitch (last note wins) and nothing else about them changes, and
     * the envelope is triggered exactly when a truthy velocity is given.
     */
    twostate predicate NoteOnDone(note: int, velocity: Option<int>, now: real)
      reads this, oscillator, subOscillator, envelope, envelope.output
    {
      activeNotes == Added(old(activeNotes), note) &&
      oscillator.frequency == oscillator.NoteToFrequency(note) &&
      subOscillator.frequency == subOscillator.NoteToFrequency(note) &&
      oscillator.waveform == old(oscillator.waveform) && oscillator.level == old(oscillator.level) &&
      subOscillator.waveform == old(subOscillator.waveform) && subOscillator.level == old(subOscillator.level) &&
      envelope.output.gain == old(envelope.output.gain) +
        (if Truthy(velocity)
         then Envelopes.TriggerOnEvents(envelope.attack, envelope.decay, envelope.sustain,
                                        envelope.velocityToGain(velocity.value as real), now)
         else [])
    }

    /**
     * The effect of noteOff: the note leaves the held set; if none is left the
     * envelope releases and the oscillators keep their pitch, otherwise both
     * retune to the highest note still held and the envelope is not touched.
     */
    twostate predicate NoteOffDone(note: int, now: real)
      reads this, oscillator, subOscillator, envelope, envelope.output
    {
      activeNotes == Removed(old(activeNotes), note) &&
      oscillator.waveform == old(oscillator.waveform) && oscillator.level == old(oscillator.level) &&
      subOscillator.waveform == old(subOscillator.waveform) && subOscillator.level == old(subOscillator.level) &&
      if activeNotes == [] then
        envelope.output.gain == old(envelope.output.gain) + Envelopes.TriggerOffEvents(envelope.release, now) &&
        oscillator.frequency == old(oscillator.frequency) &&
        subOscillator.frequency == old(subOscillator.frequency)
      else
        oscillator.frequency == oscillator.NoteToFrequency(Highest(activeNotes)) &&
        subOscillator.frequency == subOscillator.NoteToFrequency(Highest(activeNotes)) &&
        envelope.output.gain == old(envelope.output.gain)
    }

    method NoteOn(note: int, velocity: Option<int>, now: real)
      requires Valid()
      modifies this, state, oscillator, subOscillator, envelope.output
      ensures Valid() && NoteOnDone(note, velocity, now)
      ensures state.message == old(state.message) && state.status == old(state.status)
    {
      activeNotes := Added(activeNotes, note);
      state.activeNotes := activeNotes;
      oscillator.PlayNote(note);
      subOscillator.PlayNote(note);
      if Truthy(velocity) {
        envelope.TriggerOn(velocity.value as real, now);
      }
    }

    method NoteOff(note: int, now: real)
      requires Valid()
      modifies this, state, oscillator, subOscillator, envelope.output
      ensures Valid() && NoteOffDone(note, now)
      ensures state.message == old(state.message) && state.status == old(state.status)
    {
      activeNotes := Removed(activeNotes, note);
      state.activeNotes := activeNotes;
      if |activeNotes| == 0 {
        envelope.TriggerOff(now);
      } else {
        var highest := Highest(activeNotes);
        NoteOn(highest, None, now);
      }
    }

    method OnMIDIMessage(m: MidiMessage, now: real)
      requires Valid()
      modifies this, state, oscillator, subOscillator, envelope.output
      ensures Valid() && state.status == old(state.status)
      ensures match Classify(m)
        case Ignored => unchanged(this, state, oscillator, subOscillator, envelope.output)
        case Logged => unchanged(this, oscillator, subOscillator, envelope.output) &&
                       state.activeNotes == old(state.activeNotes) && state.message == TextFor(m)
        case PressNote(n, v) => NoteOnDone(n, Some(v), now) && state.message == TextFor(m)
        case ReleaseNote(n) => NoteOffDone(n, now) && state.message == TextFor(m)
    {
      var event := m.status;
      if event != 254 {
        var text := EventText(event);
        if event == 144 {
          var note, velocity := m.data1, m.data2;
          text := NoteEventText(event, note, velocity);
          if velocity > 0 {
            NoteOn(note, Some(velocity), now);
          } else {
            NoteOff(note, now);
          }
        }
        if event == 128 {
          var note := m.data1;
          NoteOff(note, now);
        }
        state.message := text;
      }
    }

    method ChangeParameter(destination: string, parameter: string, value: ParamValue)
      requires Valid() && Accepts(destination, parameter, value)
      modifies oscillator, subOscillator, filter.input, envelope, lfo
      ensures Valid()
      ensures var d := ParseDestination(destination);
        (if d == Some(ToOscillator) then oscillator.ParameterChanged(parameter, value) else unchanged(oscillator)) &&
        (if d == Some(ToSubOscillator) then subOscillator.ParameterChanged(parameter, value) else unchanged(subOscillator)) &&
        (if d == Some(ToFilter) then filter.ParameterChanged(parameter, value) else unchanged(filter.output)) &&
        (if d == Some(ToEnvelope)
         then (if value.Number? then envelope.ParameterChanged(parameter, value.x) else unchanged(envelope))
         else unchanged(envelope)) &&
        (if d == Some(ToLfo) then lfo.ParameterChanged(parameter, value) else unchanged(lfo))
    {
      match ParseDestination(destination)
      case Some(ToFilter) => filter.ChangeParameter(parameter, value);
      case Some(ToOscillator) => oscillator.ChangeParameter(parameter, value);
      case Some(ToSubOscillator) => subOscillator.ChangeParameter(parameter, value);
      case Some(ToEnvelope) =>
        // a value of another kind only reaches the envelope under a name it ignores
        if value.Number? {
          envelope.ChangeParameter(parameter, value.x);
        }
      case Some(ToLfo) => lfo.ChangeParameter(parameter, value);
      case None =>
    }

    /** The sub-oscillator, at octave setting 1, plays every note at half the main oscillator's pitch: an octave below. */
    lemma SubOscillatorOctaveBelow(note: int)
      requires Valid()
      ensures 2.0 * subOscillator.NoteToFrequency(note) == oscillator.NoteToFrequency(note)
    {
    }
  }

  /**
   * Hold 60, then 64, release 64: the voice glides back to 60 and the gain
   * schedule is left alone; release 60: the envelope releases and the pitch
   * stays where it was.
   */
  method LegatoScenario(basePitch: int -> real, velocityToGain: real -> real, now: real)
  {
    var state := new SynthState();
    var synth := new Synthesizer(state, basePitch, velocityToGain, now);
    synth.NoteOn(60, Some(100), now);
    assert synth.activeNotes == [60];
    synth.NoteOn(64, Some(100), now);
    assert synth.activeNotes == [60, 64];
    ghost var held := synth.envelope.output.gain;
    synth.NoteOff(64, now);
    assert Removed([60, 64], 64) == [60];
    assert synth.activeNotes == [60];
    assert Highest([60]) == 60;
    assert synth.oscillator.frequency == basePitch(60);
    assert synth.envelope.output.gain == held;
    synth.NoteOff(60, now);
    assert Removed([60], 60) == [];
    assert synth.oscillator.frequency == basePitch(60);
    assert synth.envelope.output.gain == held + Envelopes.TriggerOffEvents(0.0, now);
  }
}
