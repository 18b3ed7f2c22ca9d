/** The PCM player (src/app/pcm_player.rs): the beeper's double-buffered
    audio output with a run-time sample rate and refresh count, which the
    two buttons adjust and from which the pulse generator's counter top is
    recomputed. */
module PcmPlayer {
  import opened Wrappers
  import opened HandOff
  import opened Modular

  const DATA_SAMPLE_RATE: nat := 16000
  const PWM_CLOCK_FREQ: nat := 0x100_0000  // 1 << 24, prescaler DIV_1
  const BUF_LEN: nat := 512
  const DEFAULT_TARGET_SAMPLE_RATE: nat := 16000
  const DEFAULT_REFRESH: nat := 3

  /** `configure_pwm`'s counter top: the clock frequency over the
      number of clock cycles per second of samples, as u32 arithmetic
      truncated to u16. A divisor of 0 panics (None). */
  function Countertop(target: nat, refresh: nat): (r: Option<nat>)
    requires target < U32_LIMIT && refresh < U32_LIMIT
    ensures r.None? <==> WrapU32(target * WrapU32(refresh + 1)) == 0
    ensures r.Some? ==> r.value < U16_LIMIT
  {
    var divisor := WrapU32(target * WrapU32(refresh + 1));
    if divisor == 0 then None else Some(WrapU16(PWM_CLOCK_FREQ / divisor))
  }

  /** Without wrap-around or truncation, the counter top is the largest
      number of clock cycles per pulse period that fits the requested
      sample rate and refresh count. */
  lemma CountertopExact(target: nat, refresh: nat)
    requires target < U32_LIMIT && refresh < U32_LIMIT
    requires 0 < target * (refresh + 1) < U32_LIMIT
    requires PWM_CLOCK_FREQ / (target * (refresh + 1)) < U16_LIMIT
    ensures var d, r := target * (refresh + 1), Countertop(target, refresh);
      r.Some? && r.value * d <= PWM_CLOCK_FREQ < (r.value + 1) * d
  {
    var d := target * (refresh + 1);
    assert refresh + 1 <= d by {
      MulLe(1, target, refresh + 1);
    }
    assert WrapU32(refresh + 1) == refresh + 1;
    assert WrapU32(target * WrapU32(refresh + 1)) == d;
    var q := PWM_CLOCK_FREQ / d;
    assert Countertop(target, refresh) == Some(q);
    assert PWM_CLOCK_FREQ == q * d + PWM_CLOCK_FREQ % d;
    assert (q + 1) * d == q * d + d;
  }

  /** The defaults (16000 samples per second, each played 4 times) give a
      counter top of 262. */
  lemma DefaultCountertop()
    ensures Countertop(DEFAULT_TARGET_SAMPLE_RATE, DEFAULT_REFRESH) == Some(262)
  {
    assert WrapU32(DEFAULT_TARGET_SAMPLE_RATE * WrapU32(DEFAULT_REFRESH + 1)) == 64000;
  }

  /** A sample rate of 0, or a refresh count whose successor wraps to 0,
      makes `configure_pwm` divide by zero. */
  lemma ZeroDivisors(target: nat, refresh: nat)
    requires target < U32_LIMIT && refresh < U32_LIMIT
    ensures Countertop(0, refresh).None?
    ensures Countertop(target, U32_LIMIT - 1).None?
  {
  }

  datatype ButtonFunction = PwmRefresh | TargetSampleRate

  /** TARGET_SAMPLE_RATE and PWM_REFRESH. */
  datatype Settings = Settings(targetRate: nat, refresh: nat) {
    ghost predicate Valid() {
      targetRate < U32_LIMIT && refresh < U32_LIMIT
    }
  }

  /** `ButtonFunction::up`: a wrapping fetch_add on the selected setting
      only (refresh by 1, sample rate by 100). */
  function Up(f: ButtonFunction, s: Settings): (r: Settings)
    requires s.Valid()
    ensures r.Valid()
    ensures f.PwmRefresh? ==> r.targetRate == s.targetRate && r.refresh == (s.refresh + 1) % U32_LIMIT
    ensures f.TargetSampleRate? ==> r.refresh == s.refresh && r.targetRate == (s.targetRate + 100) % U32_LIMIT
  {
    match f
    case PwmRefresh => s.(refresh := WrapU32(s.refresh + 1))
    case TargetSampleRate => s.(targetRate := WrapU32(s.targetRate + 100))
  }

  /** `ButtonFunction::down`: a wrapping fetch_sub on the selected setting. */
  function Down(f: ButtonFunction, s: Settings): (r: Settings)
    requires s.Valid()
    ensures r.Valid()
    ensures f.PwmRefresh? ==> r.targetRate == s.targetRate && r.refresh == (s.refresh - 1) % U32_LIMIT
    ensures f.TargetSampleRate? ==> r.refresh == s.refresh && r.targetRate == (s.targetRate - 100) % U32_LIMIT
  {
    match f
    case PwmRefresh => s.(refresh := WrapU32(s.refresh - 1))
    case TargetSampleRate => s.(targetRate := WrapU32(s.targetRate - 100))
  }

  /** Pressing the other button undoes a press, wrap-around included. */
  lemma UpDownInverse(f: ButtonFunction, s: Settings)
    requires s.Valid()
    ensures Down(f, Up(f, s)) == s
    ensures Up(f, Down(f, s)) == s
  {
    match f
    case PwmRefresh =>
      AddSubInverse(s.refresh, 1, U32_LIMIT);
      assert Up(f, s).refresh == (s.refresh + 1) % U32_LIMIT;
      assert Down(f, s).refresh == (s.refresh - 1) % U32_LIMIT;
    case TargetSampleRate =>
      AddSubInverse(s.targetRate, 100, U32_LIMIT);
      assert Up(f, s).targetRate == (s.targetRate + 100) % U32_LIMIT;
      assert Down(f, s).targetRate == (s.targetRate - 100) % U32_LIMIT;
  }

  /** Lowering the sample rate below 100 wraps it to near 2^32 rather
      than stopping at 0. */
  lemma DownWraps()
    ensures Down(TargetSampleRate, Settings(50, 3)).targetRate == U32_LIMIT - 50
  {
  }

  /** The `pos` closure of `fill_samples`: the data index read for cell i,
      with the stride taken as a whole number. */
  function Pos(cursor: nat, stride: nat, i: nat, len: nat): (r: nat)
    requires len > 0
    ensures r < len
  {
    (cursor + stride * i) % len
  }

  /** The next buffer continues where the previous one stopped: cell i read
      from the returned cursor is cell a + i read from the old one. */
  lemma PosCompose(cursor: nat, stride: nat, a: nat, i: nat, len: nat)
    requires len > 0
    ensures Pos(Pos(cursor, stride, a, len), stride, i, len) == Pos(cursor, stride, a + i, len)
  {
    assert stride * (a + i) == stride * a + stride * i;
    ModAddLeft(cursor + stride * a, stride * i, len);
  }

  /** At the data's own sample rate (stride 1) a buffer moves the cursor by
      exactly its length. */
  lemma UnitStride(cursor: nat, len: nat)
    requires len > 0
    ensures Pos(cursor, 1, BUF_LEN, len) == (cursor + BUF_LEN) % len
  {
  }

  /** `fill_samples`: cell i gets the scaled sample at `pos(i)`, and
      `pos(buffer.len())` is returned. */
  method FillSamples(buffer: array<nat>, data: seq<nat>, cursor: nat, stride: nat,
                     countertop: nat, scale: (nat, nat) -> nat) returns (next: nat)
    requires |data| > 0
    modifies buffer
    ensures next == Pos(cursor, stride, buffer.Length, |data|)
    ensures forall i :: 0 <= i < buffer.Length ==>
      buffer[i] == scale(data[Pos(cursor, stride, i, |data|)], countertop)
  {
    var i := 0;
    while i < buffer.Length
      invariant 0 <= i <= buffer.Length
      invariant forall k :: 0 <= k < i ==> buffer[k] == scale(data[Pos(cursor, stride, k, |data|)], countertop)
    {
      buffer[i] := scale(data[(cursor + stride * i) % |data|], countertop);
      i := i + 1;
    }
    next := (cursor + stride * buffer.Length) % |data|;
  }

  class Player {
    const buffer0: array<nat>
    const buffer1: array<nat>
    /** AUDIO_DATA, the bytes of the audio asset. */
    const data: seq<nat>
    /** The u8 to u16 sample conversion for a counter top (f32
        arithmetic, not modelled). */
    const scale: (nat, nat) -> nat
    /** The read stride for a target sample rate, DATA_SAMPLE_RATE over
        it, as a whole number (f32 arithmetic, not modelled). */
    const strideOf: nat -> nat
    var settings: Settings
    /** PWM_COUNTERTOP, and what the counter top and sequence refresh
        registers hold. */
    var countertop: nat
    var regCountertop: nat
    var regRefresh: nat
    /** BUTTON_FUNCTION (never reassigned after start-up). */
    const buttonFunction: ButtonFunction
    /** CURSOR. */
    var cursor: nat
    var seqEnd0: bool
    var seqEnd1: bool
    var buttonA: bool
    var buttonB: bool
    const pwm: Sequencer

    ghost predicate Valid()
      reads this, pwm
    {
      buffer0.Length == BUF_LEN && buffer1.Length == BUF_LEN && buffer0 != buffer1 &&
      |data| > 0 && settings.Valid() && pwm.Valid()
    }

    function Buffer(id: nat): array<nat>
      reads this
      requires id < 2
    {
      if id == 0 then buffer0 else buffer1
    }

    /** The statics at reset: sample rate 16000, refresh 3, counter top 1,
        cursor 0, the buttons on the sample rate. */
    constructor (data: seq<nat>, scale: (nat, nat) -> nat, strideOf: nat -> nat)
      requires |data| > 0
      ensures Valid() && fresh(buffer0) && fresh(buffer1) && fresh(pwm)
      ensures settings == Settings(DEFAULT_TARGET_SAMPLE_RATE, DEFAULT_REFRESH)
      ensures countertop == 1 && cursor == 0 && buttonFunction == TargetSampleRate
      ensures this.data == data && pwm.trace == []
    {
      buffer0 := new nat[BUF_LEN](_ => 0);
      buffer1 := new nat[BUF_LEN](_ => 0);
      this.data, this.scale, this.strideOf := data, scale, strideOf;
      settings := Settings(DEFAULT_TARGET_SAMPLE_RATE, DEFAULT_REFRESH);
      countertop, regCountertop, regRefresh := 1, 0, 0;
      buttonFunction := TargetSampleRate;
      cursor := 0;
      seqEnd0, seqEnd1, buttonA, buttonB := false, false, false, false;
      pwm := new Sequencer();
    }

    /** `configure_pwm`: recompute the counter top from the settings and
        write it and the refresh count to the registers; a zero divisor
        panics (`ok` false, nothing changes). */
    method ConfigurePwm() returns (ok: bool)
      requires Valid()
      modifies this`countertop, this`regCountertop, this`regRefresh
      ensures Valid()
      ensures ok == Countertop(settings.targetRate, settings.refresh).Some?
      ensures ok ==> (countertop == regCountertop == Countertop(settings.targetRate, settings.refresh).value
        && regRefresh == settings.refresh)
      ensures !ok ==> (countertop == old(countertop) && regCountertop == old(regCountertop)
        && regRefresh == old(regRefresh))
    {
      var c := Countertop(settings.targetRate, settings.refresh);
      if c.None? {
        return false;
      }
      ok := true;
      countertop := c.value;
      regCountertop := c.value;
      regRefresh := settings.refresh;
    }

    /** `fill_next_buffer(id)`: any id but 0 and 1 panics (`ok` false,
        nothing changes); otherwise buffer id is refilled from CURSOR and
        CURSOR takes the returned position. */
    method FillNextBuffer(id: nat) returns (ok: bool)
      requires Valid() && (id < 2 ==> pwm.streaming != Some(id))
      modifies this`cursor, buffer0, buffer1, pwm
      ensures Valid()
      ensures ok == (id < 2)
      ensures !ok ==> (cursor == old(cursor) && pwm.trace == old(pwm.trace)
        && unchanged(buffer0) && unchanged(buffer1))
      ensures ok ==> (cursor == Pos(old(cursor), strideOf(settings.targetRate), BUF_LEN, |data|)
        && pwm.trace == old(pwm.trace) + [Refill(id)] && pwm.streaming == old(pwm.streaming))
      ensures ok ==> forall i :: 0 <= i < BUF_LEN ==>
        Buffer(id)[i] == scale(data[Pos(old(cursor), strideOf(settings.targetRate), i, |data|)], countertop)
      ensures ok ==> unchanged(Buffer(1 - id))
    {
      if id >= 2 {
        return false;
      }
      ok := true;
      pwm.Do(Refill(id));
      cursor := FillSamples(Buffer(id), data, cursor, strideOf(settings.targetRate), countertop, scale);
    }

    /** Servicing flag k: clear it, start the other sequence, refill k. */
    method Service(k: nat)
      requires Valid() && k < 2
      modifies this`cursor, buffer0, buffer1, pwm
      ensures Valid()
      ensures pwm.trace == old(pwm.trace) + HandOff.Service(k) && pwm.streaming == Some(1 - k)
      ensures cursor == Pos(old(cursor), strideOf(settings.targetRate), BUF_LEN, |data|)
      ensures forall i :: 0 <= i < BUF_LEN ==>
        Buffer(k)[i] == scale(data[Pos(old(cursor), strideOf(settings.targetRate), i, |data|)], countertop)
      ensures unchanged(Buffer(1 - k))
    {
      pwm.Do(ClearSeqEnd(k));
      pwm.Do(StartSeq(1 - k));
      var ok := FillNextBuffer(k);
      assert pwm.trace == old(pwm.trace) + HandOff.Service(k);
    }

    /** The PWM0 handler: flag 0 first, then flag 1; both may be serviced
        in one call, buffer 1 then continuing where buffer 0 stopped. */
    method HandlePwm()
      requires Valid()
      modifies this`seqEnd0, this`seqEnd1, this`cursor, buffer0, buffer1, pwm
      ensures Valid() && !seqEnd0 && !seqEnd1
      ensures pwm.trace == old(pwm.trace) + (if old(seqEnd0) then HandOff.Service(0) else [])
        + (if old(seqEnd1) then HandOff.Service(1) else [])
      ensures var stride := strideOf(settings.targetRate);
        var mid := if old(seqEnd0) then Pos(old(cursor), stride, BUF_LEN, |data|) else old(cursor);
        (old(seqEnd1) ==> forall i :: 0 <= i < BUF_LEN ==>
          buffer1[i] == scale(data[Pos(mid, stride, i, |data|)], countertop))
        && (old(seqEnd0) && old(seqEnd1) ==> cursor == Pos(old(cursor), stride, 2 * BUF_LEN, |data|))
        && (old(seqEnd0) != old(seqEnd1) ==> cursor == Pos(old(cursor), stride, BUF_LEN, |data|))
      ensures old(seqEnd0) ==> forall i :: 0 <= i < BUF_LEN ==>
        buffer0[i] == scale(data[Pos(old(cursor), strideOf(settings.targetRate), i, |data|)], countertop)
      ensures !old(seqEnd0) && !old(seqEnd1) ==> cursor == old(cursor)
      ensures !old(seqEnd0) ==> unchanged(buffer0)
      ensures !old(seqEnd1) ==> unchanged(buffer1)
    {
      ghost var c0 := cursor;
      if seqEnd0 {
        seqEnd0 := false;
        Service(0);
      }
      if seqEnd1 {
        seqEnd1 := false;
        Service(1);
        if old(seqEnd0) {
          PosCompose(c0, strideOf(settings.targetRate), BUF_LEN, BUF_LEN, |data|);
        }
      }
    }

    /** The GPIOTE handler: button A moves the selected setting up, button
        B moves it down, each followed by `configure_pwm`; both may apply.
        A panic in the first reconfiguration ends the handler. */
    method HandleButtons() returns (ok: bool)
      requires Valid()
      modifies this`settings, this`buttonA, this`buttonB, this`countertop, this`regCountertop, this`regRefresh
      ensures Valid() && !buttonA
      ensures var afterA := if old(buttonA) then Up(buttonFunction, old(settings)) else old(settings);
        var okA := !old(buttonA) || Countertop(afterA.targetRate, afterA.refresh).Some?;
        (!okA ==> !ok && settings == afterA && buttonB == old(buttonB))
        && (okA ==> (!buttonB
          && settings == (if old(buttonB) then Down(buttonFunction, afterA) else afterA)
          && ok == (!old(buttonB) || Countertop(settings.targetRate, settings.refresh).Some?)))
      ensures ok && (old(buttonA) || old(buttonB)) ==>
        countertop == regCountertop == Countertop(settings.targetRate, settings.refresh).value
        && regRefresh == settings.refresh
      ensures !old(buttonA) && !old(buttonB) ==>
        countertop == old(countertop) && regCountertop == old(regCountertop) && regRefresh == old(regRefresh)
    {
      ok := true;
      if buttonA {
        buttonA := false;
        settings := Up(buttonFunction, settings);
        ok := ConfigurePwm();
        if !ok {
          return;
        }
      }
      if buttonB {
        buttonB := false;
        settings := Down(buttonFunction, settings);
        ok := ConfigurePwm();
      }
    }

    /** The two `fill_next_buffer` calls of `play_sound_data`: buffer 0,
        then buffer 1 from where buffer 0 stopped. */
    method FillBoth()
      requires Valid() && pwm.streaming == None
      modifies this`cursor, buffer0, buffer1, pwm
      ensures Valid() && pwm.trace == old(pwm.trace) + [Refill(0), Refill(1)] && pwm.streaming == None
      ensures var stride := strideOf(settings.targetRate);
        var mid := Pos(old(cursor), stride, BUF_LEN, |data|);
        cursor == Pos(old(cursor), stride, 2 * BUF_LEN, |data|)
        && (forall i :: 0 <= i < BUF_LEN ==> buffer0[i] == scale(data[Pos(old(cursor), stride, i, |data|)], countertop))
        && (forall i :: 0 <= i < BUF_LEN ==> buffer1[i] == scale(data[Pos(mid, stride, i, |data|)], countertop))
    {
      ghost var (c0, t0) := (cursor, pwm.trace);
      var filled := FillNextBuffer(0);
      ghost var b0 := buffer0[..];
      filled := FillNextBuffer(1);
      assert buffer0[..] == b0;
      assert pwm.trace == t0 + [Refill(0), Refill(1)];
      PosCompose(c0, strideOf(settings.targetRate), BUF_LEN, BUF_LEN, |data|);
    }

    /** `play_sound_data` up to the idle loop: configure the generator,
        fill both buffers while nothing streams, then start sequence 0. */
    method Start() returns (ok: bool)
      requires Valid() && pwm.trace == []
      modifies this`cursor, this`countertop, this`regCountertop, this`regRefresh, buffer0, buffer1, pwm
      ensures Valid()
      ensures ok == Countertop(settings.targetRate, settings.refresh).Some?
      ensures ok ==> pwm.trace == [Refill(0), Refill(1), StartSeq(0)] && pwm.streaming == Some(0)
      ensures ok ==>
        countertop == regCountertop == Countertop(settings.targetRate, settings.refresh).value && regRefresh == settings.refresh
      ensures !ok ==>
        countertop == old(countertop) && regCountertop == old(regCountertop) && regRefresh == old(regRefresh)
      ensures var stride := strideOf(settings.targetRate);
        var mid := Pos(old(cursor), stride, BUF_LEN, |data|);
        ok ==> (cursor == Pos(old(cursor), stride, 2 * BUF_LEN, |data|)
          && (forall i :: 0 <= i < BUF_LEN ==> buffer0[i] == scale(data[Pos(old(cursor), stride, i, |data|)], countertop))
          && (forall i :: 0 <= i < BUF_LEN ==> buffer1[i] == scale(data[Pos(mid, stride, i, |data|)], countertop)))
      ensures !ok ==> pwm.trace == [] && cursor == old(cursor) && unchanged(buffer0) && unchanged(buffer1)
    {
      ok := ConfigurePwm();
      if !ok {
        return;
      }
      FillBoth();
      pwm.Do(StartSeq(0));
    }
  }
}
