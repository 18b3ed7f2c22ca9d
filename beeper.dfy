/** The beeper (src/app/beeper.rs): plays 8-bit PCM audio through the pulse
    generator, one sample per cell of two 512-cell buffers, reading the
    audio data from a cursor that wraps around at its end. */
module Beeper {
  import opened Wrappers
  import opened HandOff
  import opened Modular

  const DATA_SAMPLE_RATE: nat := 2700
  const TARGET_SAMPLE_RATE: nat := 2700
  /** Each sample is played REFRESH + 1 times. */
  const REFRESH: nat := 5
  const PWM_CLOCK_FREQ: nat := 0x100_0000  // 1 << 24, prescaler DIV_1
  /** `(PWM_CLOCK_FREQ / (TARGET_SAMPLE_RATE * (REFRESH + 1))) as u16`. */
  const PWM_COUNTERTOP: nat := WrapU16(PWM_CLOCK_FREQ / (TARGET_SAMPLE_RATE * (REFRESH + 1)))
  const BUF_LEN: nat := 512
  /** `(DATA_SAMPLE_RATE / TARGET_SAMPLE_RATE) as usize`. */
  const SAMPLE_STRIDE: nat := DATA_SAMPLE_RATE / TARGET_SAMPLE_RATE

  /** One sample lasts REFRESH + 1 pulse periods of PWM_COUNTERTOP clock
      cycles: the counter top is the largest that fits the target rate. */
  lemma ConstantsValue()
    ensures SAMPLE_STRIDE == 1
    ensures PWM_COUNTERTOP == 1035
    ensures PWM_COUNTERTOP * (REFRESH + 1) * TARGET_SAMPLE_RATE <= PWM_CLOCK_FREQ
    ensures (PWM_COUNTERTOP + 1) * (REFRESH + 1) * TARGET_SAMPLE_RATE > PWM_CLOCK_FREQ
  {
  }

  /** The read cursor after k samples from `cursor`. */
  function Cursor(cursor: nat, k: nat, len: nat): (r: nat)
    requires len > 0
    ensures r < len
  {
    (cursor + k * SAMPLE_STRIDE) % len
  }

  /** Reading a samples and then b more is reading a + b samples. */
  lemma CursorCompose(cursor: nat, a: nat, b: nat, len: nat)
    requires len > 0
    ensures Cursor(Cursor(cursor, a, len), b, len) == Cursor(cursor, a + b, len)
  {
    ModAddLeft(cursor + a * SAMPLE_STRIDE, b * SAMPLE_STRIDE, len);
  }

  /** `fill_samples`: every cell gets the scaled sample under the cursor,
      which then moves on by SAMPLE_STRIDE modulo the data length; the
      cursor after the last cell is returned. */
  method FillSamples(buffer: array<nat>, data: seq<nat>, cursor: nat, scale: nat -> nat) returns (next: nat)
    requires |data| > 0 && cursor < |data|
    modifies buffer
    ensures next == Cursor(cursor, buffer.Length, |data|)
    ensures forall i :: 0 <= i < buffer.Length ==> buffer[i] == scale(data[Cursor(cursor, i, |data|)])
  {
    next := cursor;
    var i := 0;
    while i < buffer.Length
      invariant 0 <= i <= buffer.Length
      invariant next == Cursor(cursor, i, |data|)
      invariant forall k :: 0 <= k < i ==> buffer[k] == scale(data[Cursor(cursor, k, |data|)])
    {
      buffer[i] := scale(data[next]);
      CursorCompose(cursor, i, 1, |data|);
      next := (next + SAMPLE_STRIDE) % |data|;
      i := i + 1;
    }
  }

  class Player {
    const buffer0: array<nat>
    const buffer1: array<nat>
    /** AUDIO_DATA, the bytes of the audio asset. */
    const data: seq<nat>
    /** The u8 to u16 sample conversion (f32 arithmetic, not modelled). */
    const scale: nat -> nat
    /** CURSOR. */
    var cursor: nat
    var seqEnd0: bool
    var seqEnd1: bool
    const pwm: Sequencer

    ghost predicate Valid()
      reads this, pwm
    {
      buffer0.Length == BUF_LEN && buffer1.Length == BUF_LEN && buffer0 != buffer1 &&
      |data| > 0 && cursor < |data| && pwm.Valid()
    }

    function Buffer(id: nat): array<nat>
      reads this
      requires id < 2
    {
      if id == 0 then buffer0 else buffer1
    }

    constructor (data: seq<nat>, scale: nat -> nat)
      requires |data| > 0
      ensures Valid() && fresh(buffer0) && fresh(buffer1) && fresh(pwm)
      ensures this.data == data && cursor == 0 && pwm.trace == []
    {
      buffer0 := new nat[BUF_LEN](_ => 0);
      buffer1 := new nat[BUF_LEN](_ => 0);
      this.data, this.scale := data, scale;
      cursor := 0;
      seqEnd0, seqEnd1 := false, false;
      pwm := new Sequencer();
    }

    /** `fill_next_buffer(id)`: any id but 0 and 1 panics (`ok` false,
        nothing changes); otherwise buffer id is refilled from CURSOR and
        CURSOR takes the returned cursor. */
    method FillNextBuffer(id: nat) returns (ok: bool)
      requires Valid() && (id < 2 ==> pwm.streaming != Some(id))
      modifies this`cursor, buffer0, buffer1, pwm
      ensures Valid()
      ensures ok == (id < 2)
      ensures !ok ==> (cursor == old(cursor) && pwm.trace == old(pwm.trace)
        && unchanged(buffer0) && unchanged(buffer1))
      ensures ok ==> (cursor == Cursor(old(cursor), BUF_LEN, |data|)
        && pwm.trace == old(pwm.trace) + [Refill(id)] && pwm.streaming == old(pwm.streaming))
      ensures ok ==> forall i :: 0 <= i < BUF_LEN ==>
        Buffer(id)[i] == scale(data[Cursor(old(cursor), i, |data|)])
      ensures ok ==> unchanged(Buffer(1 - id))
    {
      if id >= 2 {
        return false;
      }
      ok := true;
      pwm.Do(Refill(id));
      cursor := FillSamples(Buffer(id), data, cursor, scale);
    }

    /** Servicing flag k: clear it, start the other sequence, refill k. */
    method Service(k: nat)
      requires Valid() && k < 2
      modifies this`cursor, buffer0, buffer1, pwm
      ensures Valid()
      ensures pwm.trace == old(pwm.trace) + HandOff.Service(k) && pwm.streaming == Some(1 - k)
      ensures cursor == Cursor(old(cursor), BUF_LEN, |data|)
      ensures forall i :: 0 <= i < BUF_LEN ==> Buffer(k)[i] == scale(data[Cursor(old(cursor), i, |data|)])
      ensures unchanged(Buffer(1 - k))
    {
      pwm.Do(ClearSeqEnd(k));
      pwm.Do(StartSeq(1 - k));
      var ok := FillNextBuffer(k);
      assert pwm.trace == old(pwm.trace) + HandOff.Service(k);
    }

    /** The PWM0 handler: flag 0 first, then flag 1; both may be serviced
        in one call, buffer 1 then continuing the audio where buffer 0
        stopped. */
    method HandlePwm()
      requires Valid()
      modifies this`seqEnd0, this`seqEnd1, this`cursor, buffer0, buffer1, pwm
      ensures Valid() && !seqEnd0 && !seqEnd1
      ensures pwm.trace == old(pwm.trace) + (if old(seqEnd0) then HandOff.Service(0) else [])
        + (if old(seqEnd1) then HandOff.Service(1) else [])
      ensures cursor == Cursor(old(cursor), (if old(seqEnd0) then BUF_LEN else 0)
        + (if old(seqEnd1) then BUF_LEN else 0), |data|)
      ensures old(seqEnd0) ==> forall i :: 0 <= i < BUF_LEN ==>
        buffer0[i] == scale(data[Cursor(old(cursor), i, |data|)])
      ensures var mid := if old(seqEnd0) then Cursor(old(cursor), BUF_LEN, |data|) else old(cursor);
        old(seqEnd1) ==> forall i :: 0 <= i < BUF_LEN ==> buffer1[i] == scale(data[Cursor(mid, i, |data|)])
      ensures !old(seqEnd0) ==> unchanged(buffer0)
      ensures !old(seqEnd1) ==> unchanged(buffer1)
    {
      ghost var c0 := cursor;
      if seqEnd0 {
        seqEnd0 := false;
        Service(0);
      }
      if seqEnd1 {
        seqEnd1 := false;
        Service(1);
        if old(seqEnd0) {
          CursorCompose(c0, BUF_LEN, BUF_LEN, |data|);
        }
      }
    }

    /** `play_sound_data` up to the idle loop: fill both buffers while
        nothing streams, then start sequence 0. */
    method Start()
      requires Valid() && pwm.trace == []
      modifies this`cursor, buffer0, buffer1, pwm
      ensures Valid()
      ensures pwm.trace == [Refill(0), Refill(1), StartSeq(0)] && pwm.streaming == Some(0)
      ensures cursor == Cursor(old(cursor), 2 * BUF_LEN, |data|)
      ensures forall i :: 0 <= i < BUF_LEN ==> buffer0[i] == scale(data[Cursor(old(cursor), i, |data|)])
      ensures forall i :: 0 <= i < BUF_LEN ==>
        buffer1[i] == scale(data[Cursor(Cursor(old(cursor), BUF_LEN, |data|), i, |data|)])
    {
      ghost var c0 := cursor;
      var ok := FillNextBuffer(0);
      ghost var b0 := buffer0[..];
      ok := FillNextBuffer(1);
      assert buffer0[..] == b0;
      CursorCompose(c0, BUF_LEN, BUF_LEN, |data|);
      pwm.Do(StartSeq(0));
    }
  }
}
