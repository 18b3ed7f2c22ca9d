# microbity in Dafny

A Dafny model of the core of microbity, a set of bare-metal Rust demos for
the BBC micro:bit v2. The model covers:

- **MIDI player** (`midi_player.dfy`). `Midi` merges up to eight parsed
  tracks into one stream ordered by time. Each track keeps one cached
  pending event and one tick accumulator, and the earliest due track is
  cached as well. `next_midi_event` turns popped events into note-on and
  note-off events. `AppState` keeps a four-voice note table driven by a
  tick timer, fills the sample buffers from the highest sounding key, and
  lets the buttons nudge voice 0.
- **Sample producers.** The tone generator (`tone_generator.dfy`): a sine
  voice with a phase offset and saturating note buttons. The beeper
  (`beeper.dfy`) and the PCM player (`pcm_player.dfy`): a read cursor that
  wraps around the audio data. The PCM player also has a run-time sample
  rate and refresh count, which the buttons change and from which the
  counter top is recomputed.
- **The double-buffer hand-off** (`handoff.dfy`), shared by the four
  audio demos. The pulse generator streams one of two buffers by itself.
  The firmware's register writes to it are recorded as a trace of actions.
  The buffer the generator owns, the one it was last told to stream, is a
  function of that trace. The invariant proved is the conservative rule
  the handlers follow: software never rewrites the owned buffer.
- **The scrolling thermometer** (`temp.dfy`): digit glyphs rendered into a
  column framebuffer, a 5x5 window that scrolls across it, and the
  wrapping compare registers of the timer.
- **The I2C display driver** (`i2c_display.dfy`): command and data
  framing, recorded as a trace of bus writes; the packed initialisation
  parameters; the byte-increment loop of `run`.
- **The BLE thermometer's value encoding** (`ble_temp.dfy`): the 5-byte
  temperature value and the fixed-point readout.
- **The volume meter's bar-graph image** (`volume.dfy`).
- **The bare-metal LED matrix driver** (`led.dfy`): the matrix state and
  the row scan, recorded as a trace of pin changes and delays.

Shared helpers:

- `wrappers.dfy`: `Option` and the fixed-width casts.
- `modular.dfy`: facts about modular arithmetic.

Interrupt handlers are methods that run atomically. A peripheral event
flag is a boolean field, and a panic is an `ok` result of `false`.
Integers are unbounded. Rust's release-mode wrapping is written out
wherever the source relies on it or can overflow.

## Model

| member | source | states |
|---|---|---|
| Wrappers.WrapU8 | src/app/midi_player.rs:490 | `as u8` and wrapping u8 arithmetic: the result is below 256, congruent to the input, and equal to it when it fits |
| Wrappers.WrapU16 | src/app/pcm_player.rs:131-132 | `as u16` truncation: below 2^16, congruent to the input, and equal to it when it fits |
| Wrappers.WrapU32 | src/app/temp.rs:248-250 | `wrapping_add` on u32: below 2^32, congruent to the input, and equal to it when it fits |
| Wrappers.WrapI8 | src/app/ble_temp.rs:158 | reading the low 8 bits as two's complement: in [-128, 128), congruent to the input, and the identity on i8 values |
| Wrappers.WrapI16 | src/app/ble_temp.rs:130 | `readout as i16`: in [-2^15, 2^15), congruent to the input, and the identity on i16 values |
| Wrappers.WrapI32 | src/app/ble_temp.rs:125 | an i32 result of wrapping multiplication: in [-2^31, 2^31), congruent to the input, and the identity on i32 values |
| HandOff.Service | src/app/beeper.rs:160-164 | servicing buffer k is three writes: clear flag k, start sequence 1-k, refill k |
| HandOff.ServiceKeepsExclusive | src/app/beeper.rs:156-172 | a service keeps ownership exclusive: 1-k is started before k is refilled, so k is refilled while the generator owns 1-k, which it still owns afterwards |
| HandOff.RefillFirstBreaksExclusive | src/app/tone_generator.rs:247-251 | ownership exclusivity is the conservative rule "never rewrite the buffer most recently started"; refilling k before starting 1-k breaks that rule, so the start-then-refill order of the handlers is what keeps it |
| HandOff.Extend | src/app/midi_player.rs:332-335 | one more write keeps ownership exclusive unless it refills the owned buffer; a sequence start makes that buffer the owned one, and a stop leaves none |
| HandOff.RestartKeepsExclusive | src/app/tone_generator.rs:230-242 | stop, refill 0, refill 1, start 0 keeps ownership exclusive and ends with buffer 0 streaming |
| HandOff.Sequencer.Do | src/app/midi_player.rs:332-335 | a register write is appended to the trace, the owned buffer follows it, and the exclusivity invariant is kept |
| MidiPlayer.TimecodeTicksAsWritten | src/app/midi_player.rs:71 | the timecode product as written: it is computed in u8, so it is below 256, and it is exact only while fps * n < 256 |
| MidiPlayer.TimecodeOverflowWitness | src/app/midi_player.rs:71 | for 25 fps with 40 subframes the u8 product is 232, not 1000 |
| MidiPlayer.TicksPerSecond | src/app/midi_player.rs:69-72 | corrected: metrical gives the ticks field; timecode gives the full product fps * n, which agrees with the u8 product whenever that one does not wrap |
| MidiPlayer.AsNote | src/app/midi_player.rs:142-157 | only note-on/note-off MIDI messages give a note event, keeping their channel and key; note-on with velocity 0 becomes note-off, and any other note-on keeps its non-zero velocity |
| MidiPlayer.AbsTickMonotone | src/app/midi_player.rs:118-125 | absolute ticks along one track never decrease |
| MidiPlayer.Due | src/app/midi_player.rs:104-107 | the due tick of a slot is its accumulator plus the pending event's delta; an empty slot has none |
| MidiPlayer.DueUpdate | src/app/midi_player.rs:120-122 | refreshing one slot changes only that slot's due tick |
| MidiPlayer.Earliest | src/app/midi_player.rs:100-116 | the slot chosen by the `<=` scan is an index of the input |
| MidiPlayer.EarliestIsMinimum | src/app/midi_player.rs:100-116 | the choice is None exactly when every slot is empty; otherwise its tick is the slot's due tick and the minimum of all due ticks, and every later slot is due strictly later (ties go to the highest index) |
| MidiPlayer.PopKeepsOrder | src/app/midi_player.rs:118-125 | replacing the chosen slot by an event due no earlier never makes the next choice earlier |
| MidiPlayer.EarliestScenario | src/app/midi_player.rs:104-111 | concrete choices: earliest first, exhausted slots skipped, a tie won by slot 1 |
| MidiPlayer.LeftDecrements | src/app/midi_player.rs:118-125 | popping one event of one track leaves one fewer event to pop |
| MidiPlayer.LeftZero | src/app/midi_player.rs:118-125 | no event is left to pop exactly when every track has been popped to its end |
| MidiPlayer.ReplaysSnoc | src/app/midi_player.rs:118-125 | popping the next unpopped event of a track, at its absolute tick and no earlier than the previous pop, keeps a log that replays the tracks and counts one more pop of that track |
| MidiPlayer.NotesAppend | src/app/midi_player.rs:127-159 | the note events of two runs of pops, one after the other, are the note events of their concatenation |
| MidiPlayer.RunSnoc | src/app/midi_player.rs:127-159 | one more pop due by the tick extends a run of pops due by the tick, and adds its note event, if it has one, at the end |
| MidiPlayer.Midi.TicksPerSecClock | src/app/midi_player.rs:96-98 | the clock rate ignores the header: always 288 |
| MidiPlayer.Midi.Load | src/app/midi_player.rs:66-94 | at most the first eight tracks are kept, nothing is popped yet and the log of pops is empty, the slots and the cached choice are consistent, and the header rate is the corrected ticks per second |
| MidiPlayer.Midi.UpdateNextTrack | src/app/midi_player.rs:100-116 | the loop leaves the cached choice equal to the earliest due slot (ties to the highest index), which restores the object invariant |
| MidiPlayer.Midi.NextEvent | src/app/midi_player.rs:118-125 | with no choice, nothing changes; otherwise it returns the next unpopped event of the chosen track, due at the cached tick, which is recorded in `ticks[i]`; only slot i changes, the next choice is due no earlier, one event fewer remains, and the log gains exactly that pop (track, position, tick, event), so the log keeps replaying the tracks in tick order |
| MidiPlayer.Midi.PopChosen | src/app/midi_player.rs:119-124 | as `next_event` once track i, due at t, has been chosen |
| MidiPlayer.Midi.PopSlot | src/app/midi_player.rs:119-122 | takes the cached event of slot i, caches the track's next event, and records t; other slots are unchanged |
| MidiPlayer.Midi.PopLogged | src/app/midi_player.rs:119-124 | `next_event` once track i, due at t, has been chosen: the popped event is the track's next unpopped one, due at t, and the log gains exactly that pop while still replaying the tracks in tick order |
| MidiPlayer.Midi.PopDue | src/app/midi_player.rs:139 | one pop inside `next_midi_event`: the log gains exactly the returned event, due by `tick`, and one event fewer remains |
| MidiPlayer.Midi.PopNext | src/app/midi_player.rs:139 | one pop of a run: the run grows by one pop, due by `tick`, whose event is the one returned, and the run's note events grow by that event's note image when it has one |
| MidiPlayer.Midi.PopUntilNote | src/app/midi_player.rs:130-158 | the loop once the choice is due: at least one pop, every pop due by `tick` and recorded in the log, stopping at the first note event (returned), at the end of the tracks, or when the next choice is due later; the skipped pops carry no note event |
| MidiPlayer.Midi.NoChoiceIffNothingLeft | src/app/midi_player.rs:100-116 | the merge's cached choice is empty exactly when no event of any track is left to pop, so `next_midi_event` reports Finished exactly at the end of the song |
| MidiPlayer.Midi.NextMidiEvent | src/app/midi_player.rs:127-159 | Finished when nothing remains; otherwise Pending, with no state change, when the next event is due after `tick`; otherwise it pops events until one maps to a note, skipping the rest; it ends with Finished again or a pending choice due after `tick`. The pops it reports are exactly what the log gains, each due by `tick`, and the note events among them are exactly the returned one (none for Finished or Pending) |
| MidiPlayer.ApplyNote | src/app/midi_player.rs:381-396 | note-on stores its key in the channel's slot; note-off empties it whatever key it held; no other slot changes |
| MidiPlayer.ApplyAllUntouched | src/app/midi_player.rs:362-375 | a slot no event of a run addresses keeps its value |
| MidiPlayer.ApplyAllAppend | src/app/midi_player.rs:362-375 | applying two runs in turn is applying their concatenation |
| MidiPlayer.ApplyAllLast | src/app/midi_player.rs:362-375 | after a run, each channel's slot is decided by the last event on that channel |
| MidiPlayer.ApplyAllSnoc | src/app/midi_player.rs:362-366 | applying one more event after a run is applying the extended run |
| MidiPlayer.HighestNote | src/app/midi_player.rs:300-303 | None exactly when every voice is silent; otherwise an active key that no active key exceeds |
| MidiPlayer.NudgeUp | src/app/midi_player.rs:488-491 | button A: voice 0, or 60 when empty, plus one, wrapping in u8 |
| MidiPlayer.NudgeDown | src/app/midi_player.rs:494-497 | button B: voice 0, or 60 when empty, minus one, wrapping in u8 |
| MidiPlayer.NudgeInverse | src/app/midi_player.rs:481-499 | button B undoes button A and the other way round; 255 goes up to 0 and 0 goes down to 255 |
| MidiPlayer.AppState.constructor | src/app/midi_player.rs:205-220 | all voices silent, tick 0, nothing written to the generator, and the tracks loaded |
| MidiPlayer.AppState.HandleMidiEvent | src/app/midi_player.rs:378-397 | a channel of 4 or more panics and changes nothing; otherwise the event is applied to the voice table |
| MidiPlayer.AppState.Stop | src/app/midi_player.rs:345-357 | the tick timer stops, then the generator stops, and nothing streams afterwards |
| MidiPlayer.AppState.Step | src/app/midi_player.rs:359-376 | the tick goes up by exactly one, and the log grows by exactly the pops of this step, each due by the new tick. If it waits, the note events among those pops, in order, are the events applied to the voice table, and the next pop is due later. If it stops, nothing remains, all voices are silent and both devices are stopped. A panic comes from the last note event popped, whose channel is out of range; the note events before it are exactly the ones applied to the voice table |
| MidiPlayer.AppState.Advance | src/app/midi_player.rs:363 | one `next_midi_event` call at the current tick as `step` sees it: the run of pops grows by what the log gains, all due by the tick, with exactly the returned note event added to its note events |
| MidiPlayer.AppState.Round | src/app/midi_player.rs:362-374 | one pass of the loop of `step`: a note event is applied to the voice table (or panics on a bad channel), Pending and Finished end the step, Finished with no event left to pop; the voice table stays the run's note events applied in order |
| MidiPlayer.AppState.Apply | src/app/midi_player.rs:364-366 | a note event with a valid channel extends the run applied to the voice table; a bad channel panics and changes nothing |
| MidiPlayer.AppState.SilenceAndStop | src/app/midi_player.rs:368-372 | on Finished every voice is silenced and both devices are stopped |
| MidiPlayer.AppState.FillBuffer | src/app/midi_player.rs:296-322 | every sample of the buffer is 0 when no voice is active, otherwise the waveform of the highest active key at its sample time; the other buffer is unchanged and the clock moves on by one buffer |
| MidiPlayer.AppState.Rewrite | src/app/midi_player.rs:296-322 | a fill of buffer k, which the generator does not own, is recorded; k then holds the waveform of the voice table from the old clock on, the other buffer is unchanged, and the clock moves on by one buffer |
| MidiPlayer.AppState.FillBoth | src/app/midi_player.rs:325-326 | buffer 0 holds the waveform from the old clock, buffer 1 from one buffer later, and the clock moves on by two buffers |
| MidiPlayer.AppState.Start | src/app/midi_player.rs:324-330 | fill 0, fill 1, start the tick timer, start sequence 0; buffer 0 holds the waveform from the old clock, buffer 1 from one buffer later, and the generator owns buffer 0 afterwards |
| MidiPlayer.AppState.HandlePwm | src/app/midi_player.rs:399-417 | services flag 0 if set, otherwise flag 1 if set, never both in one call; each service is clear, start the other sequence, refill; the serviced buffer holds the waveform from the old clock, the other is unchanged, and the clock moves on by one buffer; with no flag set the buffers and the clock are unchanged |
| MidiPlayer.AppState.ServiceTo | src/app/midi_player.rs:402-406 | one service of buffer k: k holds the waveform from the old clock on, 1-k is unchanged and owned afterwards |
| MidiPlayer.AppState.HandleButtons | src/app/midi_player.rs:481-499 | button A nudges voice 0 up, then button B nudges it down; other voices are unchanged |
| ToneGenerator.CounterTopValue | src/app/tone_generator.rs:19-22 | the counter top 2^24 / 160000 = 104 is the number of whole clock cycles in one sample period |
| ToneGenerator.Phase | src/app/tone_generator.rs:96-97 | the phase index of sample i is below the period |
| ToneGenerator.NextOffset | src/app/tone_generator.rs:107 | the stored offset is below the period and is the phase index of the sample after the buffer |
| ToneGenerator.PhaseContinues | src/app/tone_generator.rs:96-107 | two consecutive fills continue the phase without a gap |
| ToneGenerator.SaturatingInc | src/app/tone_generator.rs:271 | plus one, staying at 255 |
| ToneGenerator.SaturatingDec | src/app/tone_generator.rs:281 | minus one, staying at 0 |
| ToneGenerator.NoteGen.constructor | src/app/tone_generator.rs:71-78 | key 64, volume 127, offset 0 |
| ToneGenerator.NoteGen.FillBuffer | src/app/tone_generator.rs:90-108 | a zero period panics and changes nothing; otherwise sample i gets the wave at phase (offset + i) % period, the offset becomes (offset + 512) % period, and the other buffer is unchanged |
| ToneGenerator.NoteGen.SetNote | src/app/tone_generator.rs:110-112 | stores the key and resets the offset to 0 |
| ToneGenerator.App.constructor | src/app/tone_generator.rs:132-139 | a fresh note generator and nothing written to the pulse generator |
| ToneGenerator.App.RestartSequence | src/app/tone_generator.rs:230-242 | stop, fill 0, fill 1, start 0, in that order: buffer 0 holds the wave from the old offset, buffer 1 continues from the next offset, and the offset moves on by two buffers; a panicking fill ends it after the stop with the offset and the buffers unchanged |
| ToneGenerator.App.FinishRestart | src/app/tone_generator.rs:238-241 | once buffer 0 holds the wave from `start`, buffer 1 is filled from the next offset and sequence 0 is started: the trace ends with the restart block, the generator owns buffer 0, and both rows hold consecutive stretches of the wave |
| ToneGenerator.App.HandlePwmSeqEnd | src/app/tone_generator.rs:244-262 | at most one flag is serviced per call, flag 0 first; each service starts the other sequence before refilling; the serviced buffer holds the wave from the old offset, the other is unchanged and the offset moves on by one buffer; a panic names the flag being serviced and leaves the offset and the buffers unchanged, as does a call with no flag set |
| ToneGenerator.App.ServiceBuffer | src/app/tone_generator.rs:247-258 | clear k, start 1-k, refill k with the wave from the old offset, moving the offset on by one buffer; the other buffer is unchanged; a panicking fill stops after the start and changes no sample |
| ToneGenerator.App.HandleButtonInput | src/app/tone_generator.rs:264-289 | button A raises the key with saturation, otherwise button B lowers it with saturation; either one restarts the sequence from offset 0, buffer 0 holding the wave of the new key from phase 0 and buffer 1 continuing it; a zero period panics after the stop, leaving that one write in the trace, the offset at 0 and the buffers as they were; with neither, nothing changes: key, offset, buffers and trace |
| Beeper.ConstantsValue | src/app/beeper.rs:25-42 | the stride is 1, and the counter top is 1035, the largest value that fits 2700 samples per second each played 6 times |
| Beeper.Cursor | src/app/beeper.rs:198 | the cursor after k samples is below the data length |
| Beeper.CursorCompose | src/app/beeper.rs:191-203 | reading a samples and then b more is reading a + b |
| Beeper.FillSamples | src/app/beeper.rs:191-203 | cell i holds the scaled sample at (cursor + i * stride) % len, and the cursor after the last cell is returned |
| Beeper.Player.constructor | src/app/beeper.rs:46-52 | cursor 0, and nothing written to the pulse generator |
| Beeper.Player.FillNextBuffer | src/app/beeper.rs:174-185 | an id other than 0 or 1 panics and changes nothing; otherwise buffer id is refilled from CURSOR, the other is unchanged, and CURSOR moves on by one buffer |
| Beeper.Player.Service | src/app/beeper.rs:160-170 | clear k, start 1-k, refill k from the cursor |
| Beeper.Player.HandlePwm | src/app/beeper.rs:156-172 | flag 0 is serviced, then flag 1, and both can be in one call; buffer 1 then continues the audio where buffer 0 stopped; a buffer whose flag was not set is unchanged |
| Beeper.Player.Start | src/app/beeper.rs:77-84 | both buffers are filled while nothing streams, then sequence 0 starts; buffer 0 holds the audio from the old cursor, buffer 1 continues it, and the cursor moves on by two buffers |
| PcmPlayer.Countertop | src/app/pcm_player.rs:128-133 | None exactly when the u32-wrapped divisor is 0; otherwise a u16 value |
| PcmPlayer.CountertopExact | src/app/pcm_player.rs:39-42 | with no wrap-around or truncation, the counter top is the largest period that fits the sample rate and refresh count |
| PcmPlayer.DefaultCountertop | src/app/pcm_player.rs:26-42 | the defaults 16000 and 3 give 262 |
| PcmPlayer.ZeroDivisors | src/app/pcm_player.rs:131-132 | a sample rate of 0, or a refresh count of 2^32 - 1, divides by zero |
| PcmPlayer.Up | src/app/pcm_player.rs:69-76 | only the selected setting changes: refresh + 1 or rate + 100, modulo 2^32 |
| PcmPlayer.Down | src/app/pcm_player.rs:78-85 | only the selected setting changes: refresh - 1 or rate - 100, modulo 2^32 |
| PcmPlayer.UpDownInverse | src/app/pcm_player.rs:68-86 | down undoes up and up undoes down, wrap-around included |
| PcmPlayer.DownWraps | src/app/pcm_player.rs:82 | lowering a rate of 50 wraps to 2^32 - 50 |
| PcmPlayer.Pos | src/app/pcm_player.rs:300 | the read index is below the data length |
| PcmPlayer.PosCompose | src/app/pcm_player.rs:300-310 | for a whole-number stride, the next buffer read from the returned position continues the previous one (the firmware's fractional stride does not have this property; see "## Left out") |
| PcmPlayer.UnitStride | src/app/pcm_player.rs:298-300 | with stride 1 the returned position is (cursor + 512) % len |
| PcmPlayer.FillSamples | src/app/pcm_player.rs:293-311 | cell i holds the scaled sample at pos(i), and pos(buffer length) is returned |
| PcmPlayer.Player.constructor | src/app/pcm_player.rs:26-66 | rate 16000, refresh 3, counter top 1, cursor 0, and the buttons set to the sample rate |
| PcmPlayer.Player.ConfigurePwm | src/app/pcm_player.rs:128-150 | a zero divisor panics and changes nothing; otherwise the counter top and its register take the computed value and the refresh register takes the refresh count |
| PcmPlayer.Player.FillNextBuffer | src/app/pcm_player.rs:280-291 | an id other than 0 or 1 panics and changes nothing; otherwise buffer id is filled from pos(i) and CURSOR takes pos(512) |
| PcmPlayer.Player.Service | src/app/pcm_player.rs:244-254 | clear k, start 1-k, refill k |
| PcmPlayer.Player.HandlePwm | src/app/pcm_player.rs:240-256 | flag 0 then flag 1, both possibly in one call; buffer 0 is read from the old cursor and buffer 1 continues where buffer 0 stopped; the cursor moves on by one buffer per serviced flag; a buffer whose flag was not set is unchanged |
| PcmPlayer.Player.HandleButtons | src/app/pcm_player.rs:258-278 | button A moves the selected setting up and reconfigures; then button B moves it down and reconfigures; the first panic ends the handler; after a successful reconfiguration the counter top and both registers (counter top, refresh) hold the new settings' values; with neither button they are unchanged |
| PcmPlayer.Player.FillBoth | src/app/pcm_player.rs:108-111 | buffer 0 is read from the old cursor, buffer 1 continues where it stopped, and the cursor moves on by two buffers |
| PcmPlayer.Player.Start | src/app/pcm_player.rs:92-125 | the generator is configured first, the counter top and both registers taking the settings' values (a zero divisor panics before anything else happens, leaving the cursor and the buffers unchanged), then both buffers are filled, buffer 0 from the old cursor and buffer 1 continuing it, the cursor moves on by two buffers, then sequence 0 starts |
| Temp.GlyphColumn | src/app/temp.rs:163-167 | pixel y of glyph column x of digit n is NUM_ARRAY[n][y][x] |
| Temp.CharColumns | src/app/temp.rs:159-179 | four columns for a digit, three for '.', none for anything else, each 5 pixels high |
| Temp.RenderLength | src/app/temp.rs:159-185 | the framebuffer holds 4 * digits + 3 * dots + 3 columns, each 5 pixels high |
| Temp.ColumnsShape | src/app/temp.rs:159-180 | the characters contribute 4 * digits + 3 * dots columns |
| Temp.RenderFits | src/app/temp.rs:54-58 | any text of at most nine characters fits the 40-column framebuffer |
| Temp.RenderScenario | src/app/temp.rs:150-188 | "23.5" renders as 18 columns, "1" starts with the glyph's left column, and other characters give only the padding |
| Temp.Window | src/app/temp.rs:201-208 | the image is 5x5 |
| Temp.FillMatrix | src/app/temp.rs:191-208 | the nested loops give pixel (j, i) = fb[(i + offset) % len][j] |
| Temp.WindowScrolls | src/app/temp.rs:197-208 | scrolling by one moves every window column one place left |
| Temp.Advance | src/app/temp.rs:248-250 | the advanced register is below 2^32 and exact when there is no overflow |
| Temp.AdvanceTwice | src/app/temp.rs:245-258 | two wrapping advances are one advance by the sum, so compare events stay periodic across the wrap |
| Temp.IntervalsValue | src/app/temp.rs:62-65 | 131072 and 8192 ticks, one temperature reading every 16 scroll steps |
| Temp.Thermometer.constructor | src/app/temp.rs:86-100 | empty framebuffer, offset 0, and both compare registers at their first interval |
| Temp.Thermometer.Push | src/app/temp.rs:168 | a push onto a full framebuffer panics; otherwise the column is appended |
| Temp.Thermometer.PushAll | src/app/temp.rs:173-177 | the columns are appended in order; it panics exactly when they do not fit, with the framebuffer full |
| Temp.Thermometer.UpdateFramebuffer | src/app/temp.rs:150-188 | the framebuffer becomes the rendering of the text and the offset 0; it panics exactly when the rendering exceeds 40 columns, leaving its first 40 and the offset as it was |
| Temp.Thermometer.UpdateLedDisplay | src/app/temp.rs:190-218 | an empty framebuffer changes nothing; otherwise the offset becomes (offset + 1) % len and the window at the new offset is shown |
| Temp.Thermometer.HandleTimer | src/app/temp.rs:240-263 | each pending compare event is cleared and its register advanced with wrapping; the scroll event also scrolls one column and shows the new window, unless the framebuffer is empty, in which case offset and display are unchanged |
| I2cDisplay.CmdBytes | src/app/i2c_display.rs:121-125 | cmd.len() + 1 bytes that the panel decodes as exactly that command |
| I2cDisplay.FillChunk | src/app/i2c_display.rs:134-135 | the buffer starts with 0x40 followed by the chunk |
| I2cDisplay.DataWritesCount | src/app/i2c_display.rs:132-138 | ceil(len / 16) writes |
| I2cDisplay.DataWritesShape | src/app/i2c_display.rs:132-138 | every write goes to the address, starts with 0x40 and carries 1 to 16 data bytes, 16 in all but the last |
| I2cDisplay.DataWritesRoundTrip | src/app/i2c_display.rs:133-137 | the panel reassembles exactly the data sent, in order |
| I2cDisplay.Nibbles | src/app/i2c_display.rs:103 | the high nibble of the packed byte is hi's low nibble, and the low nibble is lo's low nibble |
| I2cDisplay.PackedConstants | src/app/i2c_display.rs:79-115 | 17 commands; precharge 0x2F, clock divide 0x80, multiplex 63, and the other packed parameter bytes |
| I2cDisplay.CmdWritesDecode | src/app/i2c_display.rs:79-115 | each initialisation write reaches the address and is decoded as its command, in order, with no display data |
| I2cDisplay.ByteInc | src/app/i2c_display.rs:38 | `wrapping_add(1)` on a byte is + 1 modulo 256 |
| I2cDisplay.ShadeValue | src/app/i2c_display.rs:36-39 | after k passes every byte is 0x23 + k modulo 256 |
| I2cDisplay.Panel.constructor | src/app/i2c_display.rs:15 | the frame buffer starts filled with 0x23 |
| I2cDisplay.Panel.SendCmd | src/app/i2c_display.rs:117-126 | a command of 8 bytes or more fails the assertion and sends nothing; otherwise one write of 0x00 followed by the command |
| I2cDisplay.Panel.SendData | src/app/i2c_display.rs:128-139 | the trace grows by exactly the chunked data writes |
| I2cDisplay.Panel.InitializeDisplay | src/app/i2c_display.rs:79-115 | the initialisation commands, in order, one write each |
| I2cDisplay.Panel.RunPass | src/app/i2c_display.rs:36-42 | every byte goes up by 1 modulo 256, then the whole buffer is sent |
| BleTemp.FixedTempGattValue | src/app/ble_temp.rs:157-162 | five bytes; bytes 2 and 4 are 0 and byte 3 is -digits as a signed byte |
| BleTemp.GattRoundTrip | src/app/ble_temp.rs:159-161 | bytes 0 and 1, read back as a little-endian i16, give n |
| BleTemp.ExponentByte | src/app/ble_temp.rs:158 | the exponent byte reads back as -digits (0xFE for two digits), and -128 is its own negation |
| BleTemp.Readout | src/app/ble_temp.rs:125 | the readout fits i32 |
| BleTemp.ReadoutHundredths | src/app/ble_temp.rs:125 | without overflow the readout is the quarter-degree value times 25 |
| BleTemp.PublishedReading | src/app/ble_temp.rs:123-130 | for a reading that fits 16 bits after scaling, the receiver decodes the temperature in hundredths of a degree, with exponent -2 |
| Volume.Row | src/app/volume.rs:32 | five cells, all 1 or all 0 |
| Volume.VolumeImage | src/app/volume.rs:31-37 | a 5x5 image |
| Volume.RowThresholds | src/app/volume.rs:31-37 | each row is uniform, and row r is lit exactly when the level exceeds 100, 80, 60, 40, 20 respectively |
| Volume.BarGraph | src/app/volume.rs:31-37 | a lit row has every lower row lit, and a dark row has every upper row dark |
| Volume.Extremes | src/app/volume.rs:31-37 | a level of at most 20 gives a dark image, and one above 100 a fully lit one |
| Volume.LouderLightsMore | src/app/volume.rs:31-37 | a louder level never darkens a cell |
| Led.RowScans | src/raw/led.rs:40-42 | the five row scans, row 0 first |
| Led.LitColumnsIff | src/raw/led.rs:61-65 | column c is pulled low exactly when its cell is non-zero, and nothing else happens in that loop |
| Led.RowScanShape | src/raw/led.rs:54-71 | the row goes high first and low last, lit columns go low, every column goes high, and no other row is touched |
| Led.ScansFrame | src/raw/led.rs:39-43 | after whole frames, the next n scans are rows 0 to n-1 |
| Led.ShowIsScans | src/raw/led.rs:38-44 | `show(time)` is 5 * time row scans cycling through rows 0 to 4 |
| Led.LedMatrix.constructor | src/raw/led.rs:26-36 | the matrix starts dark and no pin has changed |
| Led.LedMatrix.SetMatrix | src/raw/led.rs:46-48 | the whole matrix is replaced |
| Led.LedMatrix.SetCell | src/raw/led.rs:50-52 | an index of 5 or more panics and changes nothing; otherwise the cell becomes 1 or 0 and no other cell changes |
| Led.LedMatrix.LightUpRow | src/raw/led.rs:54-71 | the pin trace grows by exactly the row's scan |
| Led.LedMatrix.ScanFrame | src/raw/led.rs:40-42 | rows 0 to 4 are scanned in order |
| Led.LedMatrix.Show | src/raw/led.rs:38-44 | the frame is scanned `time` times |

## Left out

- MIDI parsing by the `midly` library (`midi_player.rs:68`, `77-78`): the model starts from already parsed tracks, so their unwraps are not modelled.
- Floating-point arithmetic is an opaque function field given to the constructor. This covers:
  - `key_to_period` and `Waveform::sample`, including the triangle branch;
  - the `timestamp` accumulation, modelled as a sample counter;
  - `NoteGen::freq` and `NoteGen::period`;
  - the sample scaling in the beeper and the PCM player;
  - the PCM player's f32 stride, modelled as a whole number;
  - the RTC prescaler rounding in `setup_timer`.
- MidiPlayer.Midi: tick accumulators and due ticks are unbounded naturals. The u32 width and the `u32::MAX` starting value of the scan are not modelled. The scan with a None start is equivalent to it for every due tick up to `u32::MAX`.
- MidiPlayer.AppState.Step: the u32 tick counter is unbounded.
- Overflow checks are taken as release-mode wrapping, not debug-mode panics:
  - the u8 timecode product;
  - the u8 voice nudge;
  - `target * (refresh + 1)` in `configure_pwm`;
  - the fixed-point multiplication by 100;
  - `-digits` as an i8.
- MidiPlayer.Earliest: when two tracks are due at the same tick, the highest track index wins, because the scan at `midi_player.rs:108` replaces its choice on `<=`. The model keeps that tie-break.
- Peripheral register plumbing (`setup_pwm`, `setup_timer`, `setup_interrupt`, `setup_buttons`, `setup_i2c`, display, temperature and PPI setup) is not modelled. Only sequence starts, stops, refills and tick-timer starts and stops are kept, as trace actions.
- Interrupt concurrency (`free`, `Mutex`, atomics, `wfi`) is not modelled. Each handler is one atomic method, and peripheral event flags are boolean fields.
- Temp: the `write!` formatting of the reading into the 10-character string is left out. `UpdateFramebuffer` takes the text.
- Temp: the temperature peripheral handler and the display driver are left out. Shown images are recorded in a trace.
- BleTemp: the softdevice, the async tasks, `sd_temp_get`'s error path, and GATT set and notify are I/O. Only the readout and the value encoding are modelled.
- I2cDisplay: the status read at `i2c_display.rs:32-34`, the `sleep` delays, and TWIM transfer errors (`unwrap`) are left out. Every write is taken to succeed.
- I2cDisplay: `initialize_display_2` (`i2c_display.rs:45-77`) is never called and is not part of this model.
- Volume: the microphone sampling and the serial output are I/O. The image is a function of the level.
- Led: `Timer::delay_us` is recorded as a delay action, not as elapsed time.
- Beeper.Player and PcmPlayer.Player: the constructors require a non-empty audio asset. The firmware would divide by zero on an empty one, but its asset is a fixed non-empty file.
- HandOff.Owner: the end-of-sequence event is not an action of the trace. A buffer counts as owned from its sequence start until the next start or stop, even after its sequence has ended and the hardware no longer reads it. Ownership exclusivity is therefore a conservative rule, stricter than what the hardware needs.
- MidiPlayer.Midi.Load: the header rate is stored in `ticksPerSec` as the corrected product. The field is written at `midi_player.rs:89` but never read: the tick timer takes its rate from `ticks_per_sec()`, always 288 (`midi_player.rs:96-98`, used at `:275`).
- PcmPlayer.PosCompose: the continuity it proves holds only for the model's whole-number stride. The firmware's stride is `16000 as f32 / target as f32` (`pcm_player.rs:298`), fractional for almost every rate the buttons reach. `pos(512)` truncates stride·512, and the next buffer then starts its own truncated offsets from that base, so a sample is repeated or skipped at each buffer boundary. For a target of 16100 (stride ≈ 0.99379), `pos(512)` is cursor + 508, and cells 0 and 1 of the next buffer both read cursor + 508, where one 1024-cell fill would read cursor + 508 and then cursor + 509. The model does not capture this.
- Beeper.Player.Start and PcmPlayer.Player.Start require a pulse generator with no prior writes. This is the state at reset.
- RTT logging (`rprintln!`, `dbg!`) and the debug helpers `dump_mem`, `naive` and `sleep` are not modelled.

## Findings

| source | as written | input that shows it | evidently intended | confidence | as-written member | corrected member |
|---|---|---|---|---|---|---|
| src/app/midi_player.rs:71 | `(fps.as_int() * n) as usize` multiplies two u8 values before widening, so the product wraps at 256 in a release build and panics in a debug build | a timecode header with 25 fps and 40 subframes: `load` panics in a debug build; a release build stores 232 instead of 1000 in the `ticks_per_sec` field, which nothing reads (playback runs at `ticks_per_sec()`, 288), so playback is unaffected | widen first, then multiply: fps * n ticks per second | not executed | MidiPlayer.TimecodeOverflowWitness | MidiPlayer.TicksPerSecond |
