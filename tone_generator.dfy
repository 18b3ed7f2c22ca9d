/** The tone generator (src/app/tone_generator.rs): one sine voice whose
    note the two buttons move up and down, streamed through the pulse
    generator from two 512-sample buffers. */
module ToneGenerator {
  import opened Wrappers
  import opened HandOff
  import opened Modular

  const SAMPLE_RATE: nat := 160000
  const BUFFER_SIZE: nat := 512
  const PWM_CLOCK_FREQ: nat := 0x100_0000  // 1 << 24, prescaler DIV_1
  /** `(PWM_CLOCK_FREQ / SAMPLE_RATE) as u16`. */
  const PWM_COUNTER_TOP: nat := WrapU16(PWM_CLOCK_FREQ / SAMPLE_RATE)

  /** The counter top is the number of whole pulse-clock cycles in one
      sample period: 104. */
  lemma CounterTopValue()
    ensures PWM_COUNTER_TOP * SAMPLE_RATE <= PWM_CLOCK_FREQ < (PWM_COUNTER_TOP + 1) * SAMPLE_RATE
    ensures PWM_COUNTER_TOP == 104
  {
  }

  /** The phase index of sample i of a buffer that starts at `offset`. */
  function Phase(offset: nat, i: nat, period: nat): (r: nat)
    requires period > 0
    ensures r < period
  {
    (offset + i) % period
  }

  /** The offset stored after one buffer: the phase index of the sample that
      follows it. */
  function NextOffset(offset: nat, period: nat): (r: nat)
    requires period > 0
    ensures r < period
    ensures r == Phase(offset, BUFFER_SIZE, period)
  {
    (offset + BUFFER_SIZE) % period
  }

  /** Two consecutive fills continue the phase without a gap: sample i of
      the next buffer has the phase of sample 512 + i counted from the
      previous buffer's start. */
  lemma PhaseContinues(offset: nat, period: nat, i: nat)
    requires period > 0
    ensures Phase(NextOffset(offset, period), i, period) == Phase(offset, BUFFER_SIZE + i, period)
  {
    ModAddLeft(offset + BUFFER_SIZE, i, period);
  }

  /** `u8::saturating_add(1)` and `u8::saturating_sub(1)`. */
  function SaturatingInc(n: nat): (r: nat)
    requires n < U8_LIMIT
    ensures r < U8_LIMIT
    ensures n < 255 ==> r == n + 1
    ensures n == 255 ==> r == 255
  {
    if n < 255 then n + 1 else 255
  }

  function SaturatingDec(n: nat): (r: nat)
    requires n < U8_LIMIT
    ensures r < U8_LIMIT
    ensures n > 0 ==> r == n - 1
    ensures n == 0 ==> r == 0
  {
    if n > 0 then n - 1 else 0
  }

  class NoteGen {
    /** MIDI key; 60 is middle C. */
    var note: nat
    var volume: nat
    var offset: nat
    /** `buffers: [[u16; 512]; 2]`. */
    const buffers: array2<nat>
    /** `period()`: samples per waveform period of a key (f32 arithmetic,
        not modelled; truncates to 0 for very high keys). */
    const periodOf: nat -> nat
    /** The scaled sine sample at a phase index, for a period and a volume
        (f32 arithmetic, not modelled). */
    const wave: (nat, nat, nat) -> nat

    ghost predicate Valid()
      reads this
    {
      buffers.Length0 == 2 && buffers.Length1 == BUFFER_SIZE &&
      note < U8_LIMIT && volume < U8_LIMIT
    }

    /** `NoteGen::new`: key 64, volume 127, offset 0, silent buffers. */
    constructor (periodOf: nat -> nat, wave: (nat, nat, nat) -> nat)
      ensures Valid() && fresh(buffers)
      ensures note == 64 && volume == 127 && offset == 0
      ensures this.periodOf == periodOf && this.wave == wave
    {
      note, volume, offset := 64, 127, 0;
      buffers := new nat[2, BUFFER_SIZE]((_, _) => 0);
      this.periodOf, this.wave := periodOf, wave;
    }

    /** Row k holds one buffer of the current key's wave from phase index
        `start` on. */
    ghost predicate RowFrom(k: nat, start: nat)
      reads this`note, this`volume, buffers
    {
      k < buffers.Length0 && BUFFER_SIZE <= buffers.Length1 && periodOf(note) > 0 &&
      forall i :: 0 <= i < BUFFER_SIZE ==>
        buffers[k, i] == wave(Phase(start, i, periodOf(note)), periodOf(note), volume)
    }

    /** `fill_buffer(idx)`: a zero period makes the first `%` panic before
        anything is written (`ok` false, nothing changes); otherwise sample
        i takes phase index `(offset + i) % period`, and the offset moves on
        by one buffer. */
    method FillBuffer(idx: nat) returns (ok: bool)
      requires Valid() && idx < 2
      modifies this`offset, buffers
      ensures Valid()
      ensures ok == (periodOf(note) > 0)
      ensures !ok ==> offset == old(offset) && unchanged(buffers)
      ensures ok ==> offset == NextOffset(old(offset), periodOf(note))
      ensures ok ==> forall i :: 0 <= i < BUFFER_SIZE ==>
        buffers[idx, i] == wave(Phase(old(offset), i, periodOf(note)), periodOf(note), volume)
      ensures forall j, i :: 0 <= j < 2 && j != idx && 0 <= i < BUFFER_SIZE ==>
        buffers[j, i] == old(buffers[j, i])
    {
      var period := periodOf(note);
      if period == 0 {
        return false;
      }
      ok := true;
      var i := 0;
      while i < BUFFER_SIZE
        invariant 0 <= i <= BUFFER_SIZE
        invariant forall k :: 0 <= k < i ==> buffers[idx, k] == wave(Phase(offset, k, period), period, volume)
        invariant forall j, k :: 0 <= j < 2 && j != idx && 0 <= k < BUFFER_SIZE ==>
          buffers[j, k] == old(buffers[j, k])
        modifies buffers
      {
        buffers[idx, i] := wave((offset + i) % period, period, volume);
        i := i + 1;
      }
      offset := (offset + BUFFER_SIZE) % period;
    }

    /** `set_note`: store the key and restart the phase. */
    method SetNote(n: nat)
      requires Valid() && n < U8_LIMIT
      modifies this`note, this`offset
      ensures Valid() && note == n && offset == 0
    {
      note := n;
      offset := 0;
    }
  }

  /** The application state shared by the two interrupt handlers. */
  class App {
    const gen: NoteGen
    /** PWM end-of-sequence flags and the two button event flags. */
    var seqEnd0: bool
    var seqEnd1: bool
    var buttonA: bool
    var buttonB: bool
    /** Register writes to the pulse generator. */
    const pwm: Sequencer

    ghost predicate Valid()
      reads this, gen, pwm
    {
      gen.Valid() && pwm.Valid()
    }

    constructor (periodOf: nat -> nat, wave: (nat, nat, nat) -> nat)
      ensures Valid() && fresh(gen) && fresh(gen.buffers) && fresh(pwm)
      ensures gen.note == 64 && gen.offset == 0 && pwm.trace == []
      ensures !seqEnd0 && !seqEnd1 && !buttonA && !buttonB
    {
      gen := new NoteGen(periodOf, wave);
      pwm := new Sequencer();
      seqEnd0, seqEnd1, buttonA, buttonB := false, false, false, false;
    }

    /** `restart_sequence`: stop, fill buffer 0, fill buffer 1, start
        sequence 0. A fill that panics ends the handler there. */
    method RestartSequence() returns (ok: bool)
      requires Valid()
      modifies pwm, gen`offset, gen.buffers
      ensures Valid()
      ensures ok == (gen.periodOf(gen.note) > 0)
      ensures ok ==> pwm.trace == old(pwm.trace) + Restart() && pwm.streaming == Some(0)
      ensures !ok ==> pwm.trace == old(pwm.trace) + [StopPwm] && pwm.streaming == None
      ensures ok ==> gen.offset == NextOffset(NextOffset(old(gen.offset), gen.periodOf(gen.note)), gen.periodOf(gen.note))
      ensures ok ==>
        gen.RowFrom(0, old(gen.offset)) && gen.RowFrom(1, NextOffset(old(gen.offset), gen.periodOf(gen.note)))
      ensures !ok ==> gen.offset == old(gen.offset) && unchanged(gen.buffers)
    {
      pwm.Do(StopPwm);
      ok := gen.FillBuffer(0);
      if !ok {
        return;
      }
      assert gen.RowFrom(0, old(gen.offset));
      FinishRestart(old(pwm.trace), old(gen.offset));
    }

    /** The rest of `restart_sequence` once buffer 0 was filled from
        `start`: record that fill, fill buffer 1, start sequence 0. */
    method FinishRestart(ghost t0: seq<Action>, ghost start: nat)
      requires Valid() && pwm.trace == t0 + [StopPwm] && pwm.streaming == None
      requires gen.RowFrom(0, start) && gen.offset == NextOffset(start, gen.periodOf(gen.note))
      modifies pwm, gen`offset, gen.buffers
      ensures Valid() && pwm.trace == t0 + Restart() && pwm.streaming == Some(0)
      ensures gen.offset == NextOffset(NextOffset(start, gen.periodOf(gen.note)), gen.periodOf(gen.note))
      ensures gen.RowFrom(0, start) && gen.RowFrom(1, NextOffset(start, gen.periodOf(gen.note)))
    {
      pwm.Do(Refill(0));
      var ok := gen.FillBuffer(1);
      pwm.Do(Refill(1));
      pwm.Do(StartSeq(0));
      assert pwm.trace == t0 + Restart();
    }

    /** `handle_pwm_seqend`: service flag 0 if set, otherwise flag 1 if
        set; at most one per call. Servicing k clears its flag, starts the
        other sequence, then refills k. */
    method HandlePwmSeqEnd() returns (ok: bool)
      requires Valid()
      modifies pwm, this`seqEnd0, this`seqEnd1, gen`offset, gen.buffers
      ensures Valid()
      ensures old(seqEnd0) ==> !seqEnd0 && seqEnd1 == old(seqEnd1)
      ensures !old(seqEnd0) ==> !seqEnd0 && !seqEnd1
      ensures ok == ((!old(seqEnd0) && !old(seqEnd1)) || gen.periodOf(gen.note) > 0)
      ensures ok ==> pwm.trace == old(pwm.trace) + (if old(seqEnd0) then Service(0) else if old(seqEnd1) then Service(1) else [])
      ensures !ok ==> pwm.trace == old(pwm.trace) + Service(if old(seqEnd0) then 0 else 1)[..2]
      ensures (old(seqEnd0) || old(seqEnd1)) && ok ==>
        gen.offset == NextOffset(old(gen.offset), gen.periodOf(gen.note))
      ensures old(seqEnd0) && ok ==>
        gen.RowFrom(0, old(gen.offset)) && forall i :: 0 <= i < BUFFER_SIZE ==> gen.buffers[1, i] == old(gen.buffers[1, i])
      ensures !old(seqEnd0) && old(seqEnd1) && ok ==>
        gen.RowFrom(1, old(gen.offset)) && forall i :: 0 <= i < BUFFER_SIZE ==> gen.buffers[0, i] == old(gen.buffers[0, i])
      ensures !ok || (!old(seqEnd0) && !old(seqEnd1)) ==> gen.offset == old(gen.offset) && unchanged(gen.buffers)
    {
      if seqEnd0 {
        seqEnd0 := false;
        ok := ServiceBuffer(0);
        return;
      }
      if seqEnd1 {
        seqEnd1 := false;
        ok := ServiceBuffer(1);
        return;
      }
      ok := true;
    }

    method ServiceBuffer(k: nat) returns (ok: bool)
      requires Valid() && k < 2
      modifies pwm, gen`offset, gen.buffers
      ensures Valid() && pwm.streaming == Some(1 - k)
      ensures ok == (gen.periodOf(gen.note) > 0)
      ensures ok ==> pwm.trace == old(pwm.trace) + Service(k)
      ensures !ok ==> pwm.trace == old(pwm.trace) + Service(k)[..2]
      ensures ok ==> gen.offset == NextOffset(old(gen.offset), gen.periodOf(gen.note)) && gen.RowFrom(k, old(gen.offset))
      ensures ok && k == 0 ==> forall i :: 0 <= i < BUFFER_SIZE ==> gen.buffers[1, i] == old(gen.buffers[1, i])
      ensures ok && k == 1 ==> forall i :: 0 <= i < BUFFER_SIZE ==> gen.buffers[0, i] == old(gen.buffers[0, i])
      ensures !ok ==> gen.offset == old(gen.offset) && unchanged(gen.buffers)
    {
      pwm.Do(ClearSeqEnd(k));
      pwm.Do(StartSeq(1 - k));
      ok := gen.FillBuffer(k);
      if !ok {
        assert pwm.trace == old(pwm.trace) + Service(k)[..2];
        return;
      }
      pwm.Do(Refill(k));
      assert pwm.trace == old(pwm.trace) + Service(k);
    }

    /** `handle_button_input`: button A raises the key by one, saturating
        at 255; otherwise button B lowers it, saturating at 0; either one
        then restarts the sequence. At most one button per call. */
    method HandleButtonInput() returns (ok: bool)
      requires Valid()
      modifies pwm, this`buttonA, this`buttonB, gen`note, gen`offset, gen.buffers
      ensures Valid()
      ensures old(buttonA) ==> !buttonA && buttonB == old(buttonB) && gen.note == SaturatingInc(old(gen.note))
      ensures !old(buttonA) && old(buttonB) ==> !buttonA && !buttonB && gen.note == SaturatingDec(old(gen.note))
      ensures !old(buttonA) && !old(buttonB) ==>
        !buttonA && !buttonB && gen.note == old(gen.note) && pwm.trace == old(pwm.trace)
        && gen.offset == old(gen.offset) && unchanged(gen.buffers)
      ensures ok == ((!old(buttonA) && !old(buttonB)) || gen.periodOf(gen.note) > 0)
      ensures (old(buttonA) || old(buttonB)) && ok ==>
        pwm.trace == old(pwm.trace) + Restart() && pwm.streaming == Some(0)
        && gen.offset == NextOffset(NextOffset(0, gen.periodOf(gen.note)), gen.periodOf(gen.note))
        && gen.RowFrom(0, 0) && gen.RowFrom(1, NextOffset(0, gen.periodOf(gen.note)))
      ensures (old(buttonA) || old(buttonB)) && !ok ==>
        pwm.trace == old(pwm.trace) + [StopPwm] && pwm.streaming == None
        && gen.offset == 0 && unchanged(gen.buffers)
    {
      if buttonA {
        buttonA := false;
        gen.SetNote(SaturatingInc(gen.note));
        ok := RestartSequence();
        return;
      }
      if buttonB {
        buttonB := false;
        gen.SetNote(SaturatingDec(gen.note));
        ok := RestartSequence();
        return;
      }
      ok := true;
    }
  }
}
