# Monophonic Web Audio synthesizer — control logic in Dafny

This project models the control layer of a browser synthesizer built on the
Web Audio API. The browser generates and mixes the sound; the code modelled
here decides what the audio nodes are told. It covers:

- the `Synthesizer`: a monophonic note-state machine with last-note priority
  over a `Set` of held notes, which is mirrored into the UI state. It also
  dispatches MIDI 1.0 Note On (90H) and Note Off (80H) on channel 1, drops
  Active Sensing (FEH), and routes `changeParameter` to one of its five
  modules;
- the ADSR `Envelope`: its four stage settings and the gain automation it
  schedules on note-on and note-off;
- the `Oscillator`, `Filter` and `Lfo` modules: their constructor defaults,
  the string-keyed `changeParameter` switches, and the oscillator's
  octave-divider rule used when a note is played.

Modules follow the source files. `Audio` holds the Web Audio substrate:
a `GainNode` whose `gain` parameter is a log of automation events, a
`BiquadFilterNode`, and the value types. `HeldNotes` holds the JavaScript `Set`
semantics and `Math.max`. `Oscillators`, `Envelopes`, `Filters`, `Lfos` and
`Synth` hold one class each.

How the model represents the source:

- A JavaScript `Set` iterates in insertion order. So `activeNotes` is a
  duplicate-free `seq<int>` in insertion order, and `Array.from` is that same
  list.
- The envelope's gain `AudioParam` is the list of calls made on it:
  `Cancel(t)`, `SetValue(v, t)` or `LinearRamp(v, t)`. The audio clock
  `currentTime` is a parameter `now`.
- The envelope's `input` and `output` are one node. So the decay ramp
  written through `input` lands on the same schedule as the attack written
  through `output`. The filter's input and output are likewise one
  `BiquadFilterNode`.
- Oscillator, LFO and filter `AudioParam`s are kept as "the last value set".
- `velocityToGain` comes from a helpers file that is not part of this model.
  The equal-tempered pitch `440 * 2^((n - 69) / 12)` is kept abstract too. Both
  are function-valued constructor arguments, and nothing is assumed about them.
- The TypeScript casts `value as number` and `value as OscillatorType`
  become a precondition (`Accepts`): a parameter the module recognises receives
  a value of the kind it is cast to. Names a module ignores take any value.
- The sub-oscillator is built with octave setting 1. `noteToFrequency`
  therefore divides its pitch by 2, so it sounds one octave *below* the main
  oscillator, not above. The model follows the code
  (`Synth.Synthesizer.SubOscillatorOctaveBelow`).

## Model

| member | source | states |
|---|---|---|
| `HeldNotes.Added` | src/modules/synth.ts:95 | `Set.add`: the result holds exactly the old notes plus `n` and stays duplicate-free. A note already held leaves the list unchanged; a new one goes last. |
| `HeldNotes.Removed` | src/modules/synth.ts:106 | `Set.delete`: the result holds exactly the old notes except `n` and stays duplicate-free. Deleting an absent note changes nothing. |
| `HeldNotes.Highest` | src/modules/synth.ts:111 | `Math.max` over the held notes: the result is one of them and no held note is higher. |
| `HeldNotes.RemovedKeepsOrder` | src/modules/synth.ts:106-107 | Deleting a held note closes the gap: the notes before and after it keep their insertion order, which `state.activeNotes` shows. |
| `HeldNotes.RemovedAfterAdded` | src/modules/synth.ts:94-114 | Pressing a note that is not held and then releasing it restores the held list exactly, order included. |
| `HeldNotes.RetuneKeepsHeld` | src/modules/synth.ts:110-113 | The internal `noteOn(highest)` re-adds a note already held, so it leaves the set unchanged. |
| `Oscillators.ParseParam` | src/modules/oscillator.ts:39-52 | The switch recognises exactly `level`, `type` and `frequency`. Any other name maps to None. |
| `Oscillators.Divider` | src/modules/oscillator.ts:30 | The divider is never 0: an octave setting of 0 means no transposition rather than a division by zero. |
| `Oscillators.Oscillator.constructor` | src/modules/oscillator.ts:16-27 | Defaults: sawtooth, octave 0, frequency 440, output gain 1. The octave is fixed from then on. |
| `Oscillators.Oscillator.NoteToFrequency` | src/modules/oscillator.ts:29-32 | The frequency times the divider is the base pitch of the note. At octave 0 the frequency is the base pitch itself. |
| `Oscillators.Oscillator.PlayNote` | src/modules/oscillator.ts:34-37 | The frequency becomes `noteToFrequency(note)`. Waveform and level stay. |
| `Oscillators.Oscillator.ChangeParameter` | src/modules/oscillator.ts:39-52 | `level` sets only the gain, to `velocityToGain(v)`. `type` sets only the waveform. `frequency` sets only the frequency, to `v` without the divider. Other names change nothing. |
| `Oscillators.OctaveDivides` | src/modules/oscillator.ts:29-32 | At a nonzero octave `o`, the frequency is the octave-0 frequency divided by `2 * o`. |
| `Envelopes.ParseParam` | src/modules/envelope.ts:49-63 | The switch recognises exactly `attack`, `decay`, `sustain` and `release`. Any other name maps to None. |
| `Envelopes.TriggerOnEvents` | src/modules/envelope.ts:29-41 | triggerOn's schedule starts with cancel(now) and set(0, now), then ramps to the peak at now + attack·5/127. A fourth ramp, to sustain/127 of the peak at attack end + decay·5/127, exists if and only if decay < 127. The held level is that fraction when decay < 127 and the peak otherwise. With non-negative attack and decay, all times are ≥ now and in order. |
| `Envelopes.TriggerOffEvents` | src/modules/envelope.ts:43-47 | triggerOff's schedule is cancel(now) then a ramp to 0 at now + release·5/127. Nothing sets a value, so the release starts from the current gain. With non-negative release, all times are ≥ now. |
| `Envelopes.Envelope.constructor` | src/modules/envelope.ts:18-27 | Input and output are one node. The gain gets set(0, now). Defaults: attack 0, decay 127, sustain 127, release 0. |
| `Envelopes.Envelope.TriggerOn` | src/modules/envelope.ts:29-41 | Appends `TriggerOnEvents` for peak `velocityToGain(velocity)` to the gain schedule. The decay ramp goes through `input`, the same node. The stage settings are not modified. |
| `Envelopes.Envelope.TriggerOff` | src/modules/envelope.ts:43-47 | Appends `TriggerOffEvents` to the gain schedule. The stage settings are not modified. |
| `Envelopes.Envelope.ChangeParameter` | src/modules/envelope.ts:49-63 | A recognised name sets exactly that one stage setting. Any other name leaves all four unchanged. |
| `Filters.ParseParam` | src/modules/filter.ts:22-34 | The switch recognises exactly `cutoff`, `resonance` and `type`. Any other name maps to None. |
| `Filters.Filter.constructor` | src/modules/filter.ts:12-20 | Input and output are one node: lowpass, cutoff 20000, Q 1. |
| `Filters.Filter.ChangeParameter` | src/modules/filter.ts:22-34 | Each change is written through the input and seen at the output. `cutoff` sets only the frequency, `resonance` only Q, `type` only the filter type. Other names change nothing. |
| `Lfos.ParseParam` | src/modules/lfo.ts:26-35 | The switch recognises exactly `level` and `frequency`. `type` and every other name map to None. |
| `Lfos.Lfo.constructor` | src/modules/lfo.ts:14-24 | Frequency 3 and output gain 0 (no modulation depth). The waveform is the given type, sine by default. |
| `Lfos.Lfo.ChangeParameter` | src/modules/lfo.ts:26-35 | `level` sets only the gain, to the raw value (no velocity curve). `frequency` sets only the frequency. The waveform never changes. |
| `Synth.ParseDestination` | src/modules/synth.ts:116-134 | The switch recognises exactly the five module names. Any other destination maps to None. |
| `Synth.Classify` | src/modules/synth.ts:72-92 | Status 254 is ignored. 144 with velocity > 0 is a note-on. 144 with velocity 0, or 128, is a note-off of the first data byte. Every other status is only logged. |
| `Synth.SynthState.constructor` | src/modules/synth.ts:12-16 | Default state: empty message, status "Waiting for midi", no active notes. |
| `Synth.Synthesizer.constructor` | src/modules/synth.ts:37-60 | Builds the five modules at their defaults: main oscillator sawtooth at octave 0, sub-oscillator sine at octave 1, sine LFO. The held set starts empty and is mirrored into the state. |
| `Synth.Synthesizer.NoteOn` | src/modules/synth.ts:94-103 | The note joins the duplicate-free set, which `state.activeNotes` mirrors. Both oscillators retune to it whatever else is held. The envelope schedule grows by triggerOn's events if and only if the velocity is present and nonzero. |
| `Synth.Synthesizer.NoteOff` | src/modules/synth.ts:105-114 | The note leaves the set. If none is left, triggerOff's events are appended and neither oscillator is retuned. Otherwise both retune to the highest held note, the set only loses the note, and the envelope is untouched. |
| `Synth.Synthesizer.OnMIDIMessage` | src/modules/synth.ts:72-92 | Status 254 changes nothing, not even the message. A note-on acts as `noteOn(note, velocity)` and a note-off as `noteOff(note)`. Every status but 254 sets the message, with note and velocity only for 144. |
| `Synth.Synthesizer.ChangeParameter` | src/modules/synth.ts:116-134 | The change goes to exactly the named module, and the other four are unchanged. An unknown destination changes nothing. |
| `Synth.Synthesizer.SubOscillatorOctaveBelow` | src/modules/synth.ts:42 | For every note, the sub-oscillator's pitch is half the main oscillator's: one octave below. |

## Left out

- Web Audio plumbing: creating the `AudioContext`, creating nodes, `start()`
  and the `connect` wiring of the graph (src/modules/synth.ts:39-52).
- `bindMidi` and the `midiAccess` constructor argument: device enumeration and
  callback binding are I/O.
- Sound: per-sample generation, ramp interpolation, filtering, and the LFO's
  additive modulation of the oscillator frequencies. An oscillator's
  `frequency` is the last value set on its parameter, not the frequency that
  sounds under modulation.
- The time argument of `setValueAtTime` on oscillator, LFO and filter
  parameters. Only the value is kept.
- Floating point: all arithmetic is on exact reals.
- `velocityToGain` and the pitch `440 * 2^((n - 69) / 12)` are uninterpreted.
  The helpers file is not part of this model.
- MIDI packets shorter than three bytes. JavaScript would read `undefined` for
  the missing data bytes. Messages are modelled as three bytes.
- The message text is kept by content (status, note, velocity), not as the
  formatted string.
- Values of the wrong kind for a recognised parameter, such as a number for
  `type` or a waveform for `frequency`. The TypeScript casts do not check them,
  and the model excludes them by precondition.
- The `'custom'` oscillator type, which needs a PeriodicWave.
- The filter's `cutoff` field is another name for `input.frequency`, and it is
  not modelled separately.
- The code neither checks the length of MIDI messages nor clamps values to
  0–127, and the model does neither.
- Envelopes.TriggerOnEvents: does not model the `RangeError` Web Audio raises
  for a negative event time. Nothing clamps the settings, so an attack low
  enough that now + attack·5/127 is negative can occur, and so can a decay
  low enough that the decay end is negative. The browser then stops
  `triggerOn` at the first such ramp, and only the events before it are
  recorded. The model records all of them.
- Envelopes.TriggerOffEvents: likewise, a release low enough that
  now + release·5/127 is negative makes the browser record only the cancel
  and throw. The model records both events.
- Synth.Synthesizer.OnMIDIMessage: does not model that exception leaving a
  call part-way, with `state.message` left unset.
  - On a note-on, the note has already been added and both oscillators
    retuned when `triggerOn` throws.
  - On a note-off, only the path that empties the set can throw, in
    `triggerOff`. By then the note has been removed and the oscillators are
    untouched. The retune path calls `noteOn` with no velocity, so it never
    reaches the envelope.
  - The model always completes the call and sets the message.
- Synth.Synthesizer.constructor: the source's default argument
  `state = defaultState` is not modelled. The caller always passes the state
  object. In the source, every synthesizer built without one shares the one
  module-level default object and writes its `activeNotes` into it. The model
  cannot express that sharing: `Valid()` ties `state.activeNotes` to one
  synthesizer's held notes. So once one of several synthesizers on a shared
  state plays a note, the others can no longer be operated.
