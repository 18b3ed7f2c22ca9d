/** The MIDI player (src/app/midi_player.rs): a bounded k-way merge of up to
    eight pre-parsed tracks into one time-ordered stream of note events, a
    four-slot voice table driven by a tick timer, and the double-buffered
    sample output. */
module MidiPlayer {
  import opened Wrappers
  import opened HandOff
  import opened Modular

  const MAX_TRACKS: nat := 8
  const VOICES: nat := 4
  const BUFFER_SIZE: nat := 16
  const SAMPLE_RATE: nat := 16387
  const PWM_CLOCK_FREQ: nat := 0x100_0000  // 1 << 24, prescaler DIV_1
  const PWM_COUNTERTOP: nat := PWM_CLOCK_FREQ / SAMPLE_RATE

  // ---------------------------------------------------------------------
  // Events as the parser hands them over

  datatype MidiMessage =
    | NoteOnMsg(key: nat, vel: nat)
    | NoteOffMsg(key: nat, vel: nat)
    | OtherMessage  // aftertouch, controller, program change, pitch bend, ...

  datatype TrackEventKind =
    | Midi(channel: nat, message: MidiMessage)
    | NonMidi  // system exclusive, escape and meta events

  datatype TrackEvent = TrackEvent(delta: nat, kind: TrackEventKind)

  datatype MidiEvent = NoteOn(key: nat, vel: nat) | NoteOff(key: nat)

  datatype NextMidiEvent = Event(channel: nat, event: MidiEvent) | Finished | Pending

  /** The header's timing field. */
  datatype Timing = Metrical(ticksPerBeat: nat) | Timecode(fps: nat, subframes: nat)

  /** Ticks per second as `Midi::load` computes it from a timecode header,
      AS WRITTEN: `fps.as_int() * n` multiplies two u8 values before the
      widening cast, so the product wraps at 256. */
  function TimecodeTicksAsWritten(fps: nat, subframes: nat): (r: nat)
    requires fps < U8_LIMIT && subframes < U8_LIMIT
    ensures r < U8_LIMIT
    ensures fps * subframes < U8_LIMIT ==> r == fps * subframes
  {
    WrapU8(fps * subframes)
  }

  /** A 25 frame-per-second header with 40 subframes (millisecond
      resolution) gives a u8 product of 232 instead of 1000 ticks per
      second. */
  lemma TimecodeOverflowWitness()
    ensures TimecodeTicksAsWritten(25, 40) == 232
    ensures TimecodeTicksAsWritten(25, 40) != 25 * 40
  {
  }

  /** Ticks per second from the header, with the product widened first. */
  function TicksPerSecond(timing: Timing): (r: nat)
    ensures timing.Metrical? ==> r == timing.ticksPerBeat
    ensures timing.Timecode? ==> r == timing.fps * timing.subframes
    ensures timing.Timecode? && timing.fps * timing.subframes < U8_LIMIT
      && timing.fps < U8_LIMIT && timing.subframes < U8_LIMIT
      ==> r == TimecodeTicksAsWritten(timing.fps, timing.subframes)
  {
    match timing
    case Metrical(n) => n
    case Timecode(fps, n) => fps * n
  }

  /** The note interpretation of a popped event (lines 142-157): a note-on
      with velocity 0 is a note-off; every other message and every non-MIDI
      event is skipped (None). */
  function AsNote(kind: TrackEventKind): (r: Option<(nat, MidiEvent)>)
    ensures r.Some? <==> kind.Midi? && (kind.message.NoteOnMsg? || kind.message.NoteOffMsg?)
    ensures r.Some? ==> r.value.0 == kind.channel && r.value.1.key == kind.message.key
    ensures r.Some? ==> (r.value.1.NoteOn? <==> kind.message.NoteOnMsg? && kind.message.vel != 0)
    ensures r.Some? && r.value.1.NoteOn? ==> r.value.1.vel == kind.message.vel && r.value.1.vel > 0
  {
    match kind
    case Midi(channel, NoteOnMsg(key, vel)) =>
      if vel == 0 then Some((channel, NoteOff(key))) else Some((channel, NoteOn(key, vel)))
    case Midi(channel, NoteOffMsg(key, _)) => Some((channel, NoteOff(key)))
    case _ => None
  }

  // ---------------------------------------------------------------------
  // The merge, as functions

  /** The absolute tick of event k of a track: the sum of the deltas of the
      events before it, plus its own (so AbsTick(track, 0) == 0 and event k
      fires at AbsTick(track, k + 1)). */
  function AbsTick(track: seq<TrackEvent>, k: nat): nat
    requires k <= |track|
  {
    if k == 0 then 0 else AbsTick(track, k - 1) + track[k - 1].delta
  }

  lemma {:induction false} AbsTickMonotone(track: seq<TrackEvent>, j: nat, k: nat)
    requires j <= k <= |track|
    ensures AbsTick(track, j) <= AbsTick(track, k)
  {
    if j < k {
      AbsTickMonotone(track, j, k - 1);
    }
  }

  /** The due tick of every track slot: `ticks[i] + delta` of its pending
      event, or None for an exhausted track. */
  function Due(pending: seq<Option<TrackEvent>>, ticks: seq<nat>, n: nat): (d: seq<Option<nat>>)
    requires n <= |pending| && n <= |ticks|
    ensures |d| == n
    ensures forall i :: 0 <= i < n ==> d[i] == if pending[i].Some? then Some(ticks[i] + pending[i].value.delta) else None
  {
    seq(n, i requires 0 <= i < n => if pending[i].Some? then Some(ticks[i] + pending[i].value.delta) else None)
  }

  /** Refreshing one slot changes only that slot's due tick. */
  lemma DueUpdate(pending: seq<Option<TrackEvent>>, ticks: seq<nat>, n: nat, i: nat,
                  p: Option<TrackEvent>, t: nat)
    requires n <= |pending| && n <= |ticks| && i < n
    ensures Due(pending[i := p], ticks[i := t], n)
      == Due(pending, ticks, n)[i := if p.Some? then Some(t + p.value.delta) else None]
  {
  }

  /** The scan of `update_next_track` over the due ticks, slot 0 first: a
      slot replaces the current choice when its tick is `<=` the earliest so
      far. */
  function Earliest(due: seq<Option<nat>>): (r: Option<(nat, nat)>)
    ensures r.Some? ==> r.value.0 < |due|
  {
    if due == [] then None
    else
      var prev := Earliest(due[..|due| - 1]);
      var last := due[|due| - 1];
      if last.Some? && (prev.None? || last.value <= prev.value.1) then Some((|due| - 1, last.value))
      else prev
  }

  /** `update_next_track` picks the minimum due tick, and among the slots
      sharing it the one with the HIGHEST index; it finds nothing exactly
      when every slot is exhausted. */
  lemma {:induction false} EarliestIsMinimum(due: seq<Option<nat>>)
    ensures Earliest(due).None? <==> forall j :: 0 <= j < |due| ==> due[j].None?
    ensures Earliest(due).Some? ==>
      var (i, t) := Earliest(due).value;
      i < |due| && due[i] == Some(t)
      && (forall j :: 0 <= j < |due| && due[j].Some? ==> t <= due[j].value)
      && (forall j :: i < j < |due| && due[j].Some? ==> t < due[j].value)
  {
    if due != [] {
      var init := due[..|due| - 1];
      EarliestIsMinimum(init);
      assert forall j :: 0 <= j < |init| ==> init[j] == due[j];
      var prev := Earliest(init);
      var last := due[|due| - 1];
      if last.Some? && (prev.None? || last.value <= prev.value.1) {
        assert Earliest(due) == Some((|due| - 1, last.value));
      } else {
        assert Earliest(due) == prev;
        if prev.Some? {
          assert last.Some? ==> prev.value.1 < last.value;
        }
      }
    }
  }

  /** Replacing the chosen slot by an event due no earlier (or by nothing)
      never makes the next choice earlier: popped ticks never decrease. */
  lemma PopKeepsOrder(due: seq<Option<nat>>, x: Option<nat>)
    requires Earliest(due).Some?
    requires x.Some? ==> x.value >= Earliest(due).value.1
    ensures var next := Earliest(due[Earliest(due).value.0 := x]);
      next.Some? ==> next.value.1 >= Earliest(due).value.1
  {
    var (i, t) := Earliest(due).value;
    var due' := due[i := x];
    EarliestIsMinimum(due);
    EarliestIsMinimum(due');
  }

  /** Scenario: track 0 plays a note at tick 0 and releases it at tick 10,
      track 1 plays a note at tick 5. */
  lemma EarliestScenario()
    ensures Earliest([Some(0), Some(5)]) == Some((0, 0))
    ensures Earliest([Some(10), Some(5)]) == Some((1, 5))
    ensures Earliest([Some(10), None]) == Some((0, 10))
    ensures Earliest([Some(7), Some(7)]) == Some((1, 7))
  {
    assert [Some(0), Some(5)][..1] == [Some(0)];
    assert [Some(10), Some(5)][..1] == [Some(10)];
    assert [Some(10), None][..1] == [Some(10)];
    assert [Some(7), Some(7)][..1] == [Some(7)];
  }

  /** Events of one track still to be popped. */
  function Unpopped(track: seq<TrackEvent>, consumed: nat): nat {
    if consumed <= |track| then |track| - consumed else 0
  }

  /** Events still to be popped, over all tracks. */
  function Left(source: seq<seq<TrackEvent>>, consumed: seq<nat>): nat
  {
    if source == [] || consumed == [] then 0
    else Unpopped(source[0], consumed[0]) + Left(source[1..], consumed[1..])
  }

  lemma {:induction false} LeftDecrements(source: seq<seq<TrackEvent>>, consumed: seq<nat>, i: nat)
    requires |consumed| == |source| && i < |source| && consumed[i] < |source[i]|
    requires forall j :: 0 <= j < |source| ==> consumed[j] <= |source[j]|
    ensures Left(source, consumed[i := consumed[i] + 1]) + 1 == Left(source, consumed)
  {
    var c := consumed[i := consumed[i] + 1];
    if i == 0 {
      assert c[1..] == consumed[1..];
    } else {
      assert c[1..] == consumed[1..][i - 1 := consumed[i] + 1];
      LeftDecrements(source[1..], consumed[1..], i - 1);
    }
  }

  /** Nothing is left exactly when every track has been popped to its end. */
  lemma {:induction false} LeftZero(source: seq<seq<TrackEvent>>, consumed: seq<nat>)
    requires |consumed| == |source|
    ensures Left(source, consumed) == 0 <==> forall j :: 0 <= j < |source| ==> consumed[j] >= |source[j]|
  {
    if source != [] {
      LeftZero(source[1..], consumed[1..]);
      assert forall j :: 1 <= j < |source| ==> source[1..][j - 1] == source[j] && consumed[1..][j - 1] == consumed[j];
    }
  }

  /** Slot state of one track: `consumed` events of `track` have been popped;
      the slot holds the next one (or nothing once the track is exhausted),
      the iterator holds the rest, and `tick` is the absolute tick of the last
      popped event. */
  ghost predicate SlotMatches(track: seq<TrackEvent>, consumed: nat, pending: Option<TrackEvent>,
                              rest: seq<TrackEvent>, tick: nat)
  {
    consumed <= |track| && tick == AbsTick(track, consumed) &&
    if consumed < |track| then pending == Some(track[consumed]) && rest == track[consumed + 1..]
    else pending == None && rest == []
  }

  /** One pop of the merge: the track it came from, the event's position in
      that track, its absolute tick, and the event. */
  datatype Popped = Popped(track: nat, index: nat, tick: nat, event: TrackEvent)

  /** How many events of each of `n` tracks a log of pops has taken. */
  function PopCounts(log: seq<Popped>, n: nat): (c: seq<nat>)
    ensures |c| == n
  {
    if log == [] then seq(n, _ => 0)
    else
      var c := PopCounts(log[..|log| - 1], n);
      var x := log[|log| - 1];
      if x.track < n then c[x.track := c[x.track] + 1] else c
  }

  /** A log of pops replays the tracks: each entry is the next unpopped event
      of its track at its absolute tick, and ticks never decrease along the
      log, so every track comes out in its own order and the merge in tick
      order. */
  ghost predicate Replays(source: seq<seq<TrackEvent>>, log: seq<Popped>)
  {
    log == [] ||
    (var init, x := log[..|log| - 1], log[|log| - 1];
     Replays(source, init) && x.track < |source| &&
     x.index == PopCounts(init, |source|)[x.track] && x.index < |source[x.track]| &&
     x.event == source[x.track][x.index] && x.tick == AbsTick(source[x.track], x.index + 1) &&
     (init != [] ==> init[|init| - 1].tick <= x.tick))
  }

  /** Popping the next event of a track, due no earlier than the last pop,
      extends a replaying log and counts one more pop of that track. */
  lemma ReplaysSnoc(source: seq<seq<TrackEvent>>, log: seq<Popped>, x: Popped)
    requires Replays(source, log)
    requires x.track < |source| && x.index == PopCounts(log, |source|)[x.track]
    requires x.index < |source[x.track]| && x.event == source[x.track][x.index]
    requires x.tick == AbsTick(source[x.track], x.index + 1)
    requires log != [] ==> log[|log| - 1].tick <= x.tick
    ensures Replays(source, log + [x])
    ensures PopCounts(log + [x], |source|) == PopCounts(log, |source|)[x.track := x.index + 1]
  {
    assert (log + [x])[..|log|] == log;
  }

  /** The note events a run of pops yields, in order: the pops that are not
      a note on/off are skipped. */
  function Notes(pops: seq<Popped>): seq<(nat, MidiEvent)>
  {
    if pops == [] then []
    else
      var tail := match AsNote(pops[|pops| - 1].event.kind)
        case Some(n) => [n]
        case None => [];
      Notes(pops[..|pops| - 1]) + tail
  }

  lemma {:induction false} NotesAppend(a: seq<Popped>, b: seq<Popped>)
    ensures Notes(a + b) == Notes(a) + Notes(b)
    decreases |b|
  {
    if b == [] {
      assert a + b == a;
    } else {
      assert (a + b)[..|a + b| - 1] == a + b[..|b| - 1];
      NotesAppend(a, b[..|b| - 1]);
    }
  }

  /** One more pop, due by `tick`, at the end of a run of pops. */
  lemma RunSnoc(log0: seq<Popped>, run: seq<Popped>, x: Popped, tick: nat)
    requires forall k :: 0 <= k < |run| ==> run[k].tick <= tick
    requires x.tick <= tick
    ensures (log0 + run) + [x] == log0 + (run + [x])
    ensures forall k :: 0 <= k < |run + [x]| ==> (run + [x])[k].tick <= tick
    ensures Notes(run + [x]) == Notes(run) + match AsNote(x.event.kind) case Some(n) => [n] case None => []
  {
    assert (run + [x])[..|run|] == run;
  }

  // ---------------------------------------------------------------------
  // The merge, as the firmware runs it

  class Midi {
    /** The remaining events of each track's forward-only iterator. */
    var tracks: seq<seq<TrackEvent>>
    const nextEvent: array<Option<TrackEvent>>
    const ticks: array<nat>
    var nextTrack: Option<(nat, nat)>
    const ticksPerSec: nat

    /** The parsed tracks and how many events of each were popped. */
    ghost const source: seq<seq<TrackEvent>>
    ghost var consumed: seq<nat>
    /** Every pop so far, oldest first. */
    ghost var log: seq<Popped>

    /** Every slot agrees with its track. */
    ghost predicate SlotsValid()
      reads this, nextEvent, ticks
    {
      nextEvent.Length == MAX_TRACKS && ticks.Length == MAX_TRACKS &&
      |source| <= MAX_TRACKS && |tracks| == |source| && |consumed| == |source| &&
      (forall i {:trigger SlotMatches(source[i], consumed[i], nextEvent[i], tracks[i], ticks[i])} ::
        0 <= i < |source| ==> SlotMatches(source[i], consumed[i], nextEvent[i], tracks[i], ticks[i])) &&
      (forall i :: |source| <= i < MAX_TRACKS ==> nextEvent[i].None?)
    }

    /** The due tick of every track. */
    ghost function DueNow(): seq<Option<nat>>
      reads nextEvent, ticks
      requires |source| <= MAX_TRACKS && nextEvent.Length == MAX_TRACKS && ticks.Length == MAX_TRACKS
    {
      Due(nextEvent[..], ticks[..], |source|)
    }

    /** The object invariant: the slots agree with the tracks, and the cached
        choice is the earliest due slot. */
    ghost predicate Valid()
      reads this, nextEvent, ticks
    {
      SlotsValid() && nextTrack == Earliest(DueNow())
    }

    /** The pops so far replay the tracks, account for every popped event,
        and none is due after the next choice. */
    ghost predicate LogValid()
      reads this`log, this`consumed, this`nextTrack
    {
      Replays(source, log) && consumed == PopCounts(log, |source|) &&
      (log != [] && nextTrack.Some? ==> log[|log| - 1].tick <= nextTrack.value.1)
    }

    ghost function Remaining(): nat
      reads this
    {
      Left(source, consumed)
    }

    /** The merge has no choice exactly when no event is left to pop. */
    lemma NoChoiceIffNothingLeft()
      requires Valid()
      ensures nextTrack.None? <==> Remaining() == 0
    {
      var due := DueNow();
      EarliestIsMinimum(due);
      LeftZero(source, consumed);
      forall j | 0 <= j < |source|
        ensures due[j].None? <==> consumed[j] >= |source[j]|
      {
        assert SlotMatches(source[j], consumed[j], nextEvent[j], tracks[j], ticks[j]);
      }
    }

    /** `Midi::ticks_per_sec`: ignores the header and returns 72 * 4. */
    function TicksPerSecClock(): (r: nat)
      ensures r == 288
    {
      72 * 4
    }

    /** `Midi::load` from pre-parsed tracks: keep at most eight, cache the
        first event of each, all accumulators at 0, then choose the next
        track. */
    constructor Load(timing: Timing, parsed: seq<seq<TrackEvent>>)
      ensures Valid() && fresh(nextEvent) && fresh(ticks)
      ensures source == if |parsed| <= MAX_TRACKS then parsed else parsed[..MAX_TRACKS]
      ensures forall i :: 0 <= i < |source| ==> consumed[i] == 0
      ensures LogValid() && log == []
      ensures ticksPerSec == TicksPerSecond(timing)
    {
      var n := if |parsed| <= MAX_TRACKS then |parsed| else MAX_TRACKS;
      var src := parsed[..n];
      var ne := new Option<TrackEvent>[MAX_TRACKS](_ => None);
      var tk := new nat[MAX_TRACKS](_ => 0);
      var rest: seq<seq<TrackEvent>> := [];
      var i := 0;
      while i < n
        invariant 0 <= i <= n && |rest| == i
        invariant forall j :: 0 <= j < MAX_TRACKS ==> tk[j] == 0
        invariant forall j :: i <= j < MAX_TRACKS ==> ne[j].None?
        invariant forall j :: 0 <= j < i ==> SlotMatches(src[j], 0, ne[j], rest[j], tk[j])
      {
        if |src[i]| > 0 {
          ne[i] := Some(src[i][0]);
          rest := rest + [src[i][1..]];
        } else {
          rest := rest + [[]];
        }
        i := i + 1;
      }
      tracks := rest;
      nextEvent := ne;
      ticks := tk;
      source := src;
      consumed := PopCounts([], n);
      log := [];
      ticksPerSec := TicksPerSecond(timing);
      nextTrack := None;
      new;
      UpdateNextTrack();
    }

    /** `update_next_track`: the loop over the slots, keeping the earliest
        due tick seen so far (ties go to the later slot). */
    method UpdateNextTrack()
      requires SlotsValid()
      modifies this`nextTrack
      ensures Valid()
    {
      var due := Due(nextEvent[..], ticks[..], |tracks|);
      var earliest: Option<(nat, nat)> := None;
      var i := 0;
      while i < |tracks|
        invariant 0 <= i <= |tracks|
        invariant earliest == Earliest(due[..i])
      {
        assert due[..i + 1][..i] == due[..i];
        if nextEvent[i].Some? {
          var eventTick := ticks[i] + nextEvent[i].value.delta;
          if earliest.None? || eventTick <= earliest.value.1 {
            earliest := Some((i, eventTick));
          }
        }
        i := i + 1;
      }
      assert due[..|tracks|] == due;
      nextTrack := earliest;
    }

    /** `next_event`: pop the cached event of the chosen track, refill only
        that slot from the track's iterator, record the tick, choose again. */
    method NextEvent() returns (e: Option<TrackEvent>)
      requires Valid() && LogValid()
      modifies this, nextEvent, ticks
      ensures Valid() && LogValid()
      ensures old(nextTrack).None? ==>
        e.None? && unchanged(this) && unchanged(nextEvent) && unchanged(ticks)
      ensures old(nextTrack).Some? ==>
        var (i, t) := old(nextTrack).value;
        i < |source| && old(consumed[i]) < |source[i]|
        && e == Some(source[i][old(consumed[i])])
        && t == AbsTick(source[i], old(consumed[i]) + 1)
        && consumed == old(consumed)[i := old(consumed[i]) + 1]
        && ticks[i] == t
        && ticks[..] == old(ticks[..])[i := t]
        && nextEvent[..] == old(nextEvent[..])[i := nextEvent[i]]
        && (nextTrack.Some? ==> nextTrack.value.1 >= t)
        && log == old(log) + [Popped(i, old(consumed[i]), t, e.value)]
      ensures Remaining() + (if e.Some? then 1 else 0) == old(Remaining())
    {
      if nextTrack.None? {
        return None;
      }
      var (i, t) := nextTrack.value;
      var ev := PopLogged(i, t);
      e := Some(ev);
    }

    /** `next_event` once track i, due at t, has been chosen, with the pop
        appended to the log. */
    method PopLogged(i: nat, t: nat) returns (ev: TrackEvent)
      requires Valid() && LogValid() && nextTrack == Some((i, t))
      modifies this, nextEvent, ticks
      ensures Valid() && LogValid()
      ensures i < |source| && old(consumed[i]) < |source[i]|
      ensures ev == source[i][old(consumed[i])]
      ensures t == AbsTick(source[i], old(consumed[i]) + 1)
      ensures consumed == old(consumed)[i := old(consumed[i]) + 1]
      ensures ticks[i] == t
      ensures ticks[..] == old(ticks[..])[i := t]
      ensures nextEvent[..] == old(nextEvent[..])[i := nextEvent[i]]
      ensures nextTrack.Some? ==> nextTrack.value.1 >= t
      ensures log == old(log) + [Popped(i, old(consumed[i]), t, ev)]
      ensures Remaining() + 1 == old(Remaining())
    {
      ghost var before := log;
      ghost var k := consumed[i];
      assert log != [] ==> log[|log| - 1].tick <= t;
      ev := PopChosen(i, t);
      ghost var x := Popped(i, k, t, ev);
      ReplaysSnoc(source, before, x);
      log := log + [x];
    }

    /** `next_event` once track i, due at t, has been chosen. */
    method PopChosen(i: nat, t: nat) returns (ev: TrackEvent)
      requires Valid() && nextTrack == Some((i, t))
      modifies this`tracks, this`consumed, this`nextTrack, nextEvent, ticks
      ensures Valid()
      ensures i < |source| && old(consumed[i]) < |source[i]|
      ensures ev == source[i][old(consumed[i])]
      ensures t == AbsTick(source[i], old(consumed[i]) + 1)
      ensures consumed == old(consumed)[i := old(consumed[i]) + 1]
      ensures ticks[i] == t
      ensures ticks[..] == old(ticks[..])[i := t]
      ensures nextEvent[..] == old(nextEvent[..])[i := nextEvent[i]]
      ensures nextTrack.Some? ==> nextTrack.value.1 >= t
      ensures Remaining() + 1 == old(Remaining())
    {
      ghost var left := Remaining();
      ghost var due := DueNow();
      assert i < |source| && nextEvent[i].Some? && t == ticks[i] + nextEvent[i].value.delta by {
        EarliestIsMinimum(due);
        assert due[i] == Some(t);
      }
      ghost var (pending, accs) := (nextEvent[..], ticks[..]);
      ev := PopSlot(i, t);
      ghost var (c1, ne1, tk1) := (consumed, nextEvent[..], ticks[..]);
      assert Earliest(DueNow()).Some? ==> Earliest(DueNow()).value.1 >= t by {
        ghost var x := if nextEvent[i].Some? then Some(t + nextEvent[i].value.delta) else None;
        DueUpdate(pending, accs, |source|, i, nextEvent[i], t);
        assert DueNow() == due[i := x];
        PopKeepsOrder(due, x);
      }
      UpdateNextTrack();
      assert consumed == c1 && nextEvent[..] == ne1 && ticks[..] == tk1;
      assert Remaining() + 1 == left;
    }

    /** The slot part of `next_event` for the chosen track i, due at t:
        take its cached event, cache the iterator's next one, record t. */
    method PopSlot(i: nat, t: nat) returns (ev: TrackEvent)
      requires SlotsValid() && i < |source| && nextEvent[i].Some?
      requires t == ticks[i] + nextEvent[i].value.delta
      modifies this`tracks, this`consumed, nextEvent, ticks
      ensures SlotsValid()
      ensures i < |source| && old(consumed[i]) < |source[i]|
      ensures ev == source[i][old(consumed[i])]
      ensures t == AbsTick(source[i], old(consumed[i]) + 1)
      ensures consumed == old(consumed)[i := old(consumed[i]) + 1]
      ensures ticks[i] == t
      ensures nextEvent[i].Some? ==> nextEvent[i].value.delta + t >= t
      ensures nextEvent[..] == old(nextEvent[..])[i := nextEvent[i]]
      ensures ticks[..] == old(ticks[..])[i := t]
      ensures Left(source, consumed) + 1 == Left(source, old(consumed))
    {
      ev := nextEvent[i].value;
      ghost var k := consumed[i];
      assert SlotMatches(source[i], k, nextEvent[i], tracks[i], ticks[i]);
      assert k < |source[i]| && ev == source[i][k];
      forall j | 0 <= j < |source|
        ensures consumed[j] <= |source[j]|
      {
        assert SlotMatches(source[j], consumed[j], nextEvent[j], tracks[j], ticks[j]);
      }
      LeftDecrements(source, consumed, i);
      if |tracks[i]| > 0 {
        nextEvent[i] := Some(tracks[i][0]);
        assert tracks[i][0] == source[i][k + 1];
        assert tracks[i][1..] == source[i][k + 2..];
        tracks := tracks[i := tracks[i][1..]];
      } else {
        nextEvent[i] := None;
      }
      ticks[i] := t;
      consumed := consumed[i := k + 1];
      assert SlotMatches(source[i], consumed[i], nextEvent[i], tracks[i], ticks[i]);
      forall j | 0 <= j < |source|
        ensures SlotMatches(source[j], consumed[j], nextEvent[j], tracks[j], ticks[j])
      {
        if j != i {
          assert SlotMatches(source[j], old(consumed[j]), old(nextEvent[j]), old(tracks[j]), old(ticks[j]));
        }
      }
    }

    /** One pop of `next_midi_event`'s loop, once the chosen track is due
        by `tick`: `x` is the pop the log records. */
    method PopDue(tick: nat) returns (e: TrackEvent, ghost x: Popped)
      requires Valid() && LogValid()
      requires nextTrack.Some? && nextTrack.value.1 <= tick
      modifies this, nextEvent, ticks
      ensures Valid() && LogValid()
      ensures log == old(log) + [x] && x.event == e && x.tick <= tick
      ensures Remaining() + 1 == old(Remaining())
    {
      var ev := NextEvent();
      e := ev.value;
      x := log[|log| - 1];
    }

    /** One pop of a run of pops that started after `log0`: the run
        grows by the pop the log records. */
    method PopNext(tick: nat, ghost log0: seq<Popped>, ghost run: seq<Popped>) returns (e: TrackEvent, ghost run': seq<Popped>)
      requires Valid() && LogValid() && log == log0 + run
      requires forall k :: 0 <= k < |run| ==> run[k].tick <= tick
      requires nextTrack.Some? && nextTrack.value.1 <= tick
      modifies this, nextEvent, ticks
      ensures Valid() && LogValid() && log == log0 + run'
      ensures |run'| == |run| + 1 && run'[|run|].event == e
      ensures forall k :: 0 <= k < |run'| ==> run'[k].tick <= tick
      ensures Notes(run') == Notes(run) + match AsNote(e.kind) case Some(n) => [n] case None => []
      ensures Remaining() + 1 == old(Remaining())
    {
      ghost var x;
      e, x := PopDue(tick);
      RunSnoc(log0, run, x, tick);
      run' := run + [x];
    }

    /** `next_midi_event(tick)`: Finished when every track is exhausted,
        Pending when the next event is due after `tick`, otherwise pop
        events until one is a note on/off. `popped` lists the pops of this
        call as the log records them; each was due by `tick`. */
    method NextMidiEvent(tick: nat) returns (r: NextMidiEvent, ghost popped: seq<Popped>)
      requires Valid() && LogValid()
      modifies this, nextEvent, ticks
      ensures Valid() && LogValid()
      ensures log == old(log) + popped
      ensures forall k :: 0 <= k < |popped| ==> popped[k].tick <= tick
      ensures old(nextTrack).None? ==> r == Finished
      ensures old(nextTrack).Some? && old(nextTrack).value.1 > tick ==> r == Pending && popped == []
      ensures popped == [] ==> unchanged(this) && unchanged(nextEvent) && unchanged(ticks)
      ensures r.Finished? ==> nextTrack.None? && Remaining() == 0
      ensures r.Pending? ==> nextTrack.Some? && nextTrack.value.1 > tick
      ensures r.Event? ==> |popped| > 0 && AsNote(popped[|popped| - 1].event.kind) == Some((r.channel, r.event))
      ensures r.Event? ==> Notes(popped) == [(r.channel, r.event)]
      ensures !r.Event? ==> Notes(popped) == []
      ensures Remaining() + |popped| == old(Remaining())
    {
      if nextTrack.None? {
        NoChoiceIffNothingLeft();
        return Finished, [];
      }
      if nextTrack.value.1 > tick {
        return Pending, [];
      }
      r, popped := PopUntilNote(tick);
      if r.Finished? {
        NoChoiceIffNothingLeft();
      }
    }

    /** The loop of `next_midi_event` once the chosen track is due by
        `tick`: pop at least one event, and stop at the first note on/off,
        at the end of every track, or when the next event is due later. */
    method PopUntilNote(tick: nat) returns (r: NextMidiEvent, ghost popped: seq<Popped>)
      requires Valid() && LogValid()
      requires nextTrack.Some? && nextTrack.value.1 <= tick
      modifies this, nextEvent, ticks
      ensures Valid() && LogValid()
      ensures log == old(log) + popped && popped != []
      ensures forall k :: 0 <= k < |popped| ==> popped[k].tick <= tick
      ensures r.Finished? ==> nextTrack.None?
      ensures r.Pending? ==> nextTrack.Some? && nextTrack.value.1 > tick
      ensures r.Event? ==> AsNote(popped[|popped| - 1].event.kind) == Some((r.channel, r.event))
      ensures r.Event? ==> Notes(popped) == [(r.channel, r.event)]
      ensures !r.Event? ==> Notes(popped) == []
      ensures Remaining() + |popped| == old(Remaining())
    {
      ghost var (log0, left0) := (log, Remaining());
      popped := [];
      while true
        invariant Valid() && LogValid()
        invariant log == log0 + popped
        invariant forall k :: 0 <= k < |popped| ==> popped[k].tick <= tick
        invariant popped == [] ==> nextTrack.Some? && nextTrack.value.1 <= tick
        invariant Notes(popped) == []
        invariant Remaining() + |popped| == left0
        decreases Remaining()
      {
        if nextTrack.None? {
          return Finished, popped;
        }
        if nextTrack.value.1 > tick {
          return Pending, popped;
        }
        var e;
        e, popped := PopNext(tick, log0, popped);
        var note := AsNote(e.kind);
        if note.Some? {
          return Event(note.value.0, note.value.1), popped;
        }
      }
    }
  }

  // ---------------------------------------------------------------------
  // The voice table

  /** A note event applied to the voice table: note-on stores its key in
      the channel's slot, note-off empties the slot whatever key it held. */
  function ApplyNote(notes: seq<Option<nat>>, channel: nat, event: MidiEvent): (r: seq<Option<nat>>)
    requires channel < |notes|
    ensures |r| == |notes|
    ensures r[channel] == if event.NoteOn? then Some(event.key) else None
    ensures forall j :: 0 <= j < |notes| && j != channel ==> r[j] == notes[j]
  {
    notes[channel := if event.NoteOn? then Some(event.key) else None]
  }

  function ApplyAll(notes: seq<Option<nat>>, events: seq<(nat, MidiEvent)>): (r: seq<Option<nat>>)
    requires forall k :: 0 <= k < |events| ==> events[k].0 < |notes|
    ensures |r| == |notes|
    decreases |events|
  {
    if events == [] then notes
    else ApplyAll(ApplyNote(notes, events[0].0, events[0].1), events[1..])
  }

  /** A slot that no event of the run addresses keeps its value. */
  lemma {:induction false} ApplyAllUntouched(notes: seq<Option<nat>>, events: seq<(nat, MidiEvent)>, c: nat)
    requires forall k :: 0 <= k < |events| ==> events[k].0 < |notes|
    requires c < |notes|
    requires forall k :: 0 <= k < |events| ==> events[k].0 != c
    ensures ApplyAll(notes, events)[c] == notes[c]
    decreases |events|
  {
    if events != [] {
      assert events[0].0 != c;
      var n1 := ApplyNote(notes, events[0].0, events[0].1);
      assert forall k :: 0 <= k < |events[1..]| ==> events[1..][k] == events[k + 1];
      ApplyAllUntouched(n1, events[1..], c);
    }
  }

  /** Running two batches one after the other is running their concatenation. */
  lemma {:induction false} ApplyAllAppend(notes: seq<Option<nat>>, a: seq<(nat, MidiEvent)>, b: seq<(nat, MidiEvent)>)
    requires forall k :: 0 <= k < |a| ==> a[k].0 < |notes|
    requires forall k :: 0 <= k < |b| ==> b[k].0 < |notes|
    ensures ApplyAll(notes, a + b) == ApplyAll(ApplyAll(notes, a), b)
    decreases |a|
  {
    if a != [] {
      assert (a + b)[0] == a[0];
      assert (a + b)[1..] == a[1..] + b;
      ApplyAllAppend(ApplyNote(notes, a[0].0, a[0].1), a[1..], b);
    } else {
      assert a + b == b;
    }
  }

  /** The voice table after a run of events: the last event on a channel
      decides that channel's slot. */
  lemma ApplyAllLast(notes: seq<Option<nat>>, events: seq<(nat, MidiEvent)>, k: nat)
    requires forall m :: 0 <= m < |events| ==> events[m].0 < |notes|
    requires k < |events|
    requires forall m :: k < m < |events| ==> events[m].0 != events[k].0
    ensures ApplyAll(notes, events)[events[k].0]
      == if events[k].1.NoteOn? then Some(events[k].1.key) else None
  {
    var (c, e) := events[k];
    var a, b := events[..k], events[k + 1..];
    assert events == a + [(c, e)] + b;
    ApplyAllAppend(notes, a + [(c, e)], b);
    ApplyAllSnoc(notes, a, c, e);
    ApplyAllUntouched(ApplyAll(notes, a + [(c, e)]), b, c);
  }

  lemma ApplyAllSnoc(notes: seq<Option<nat>>, events: seq<(nat, MidiEvent)>, c: nat, e: MidiEvent)
    requires forall k :: 0 <= k < |events| ==> events[k].0 < |notes|
    requires c < |notes|
    ensures ApplyAll(notes, events + [(c, e)]) == ApplyNote(ApplyAll(notes, events), c, e)
    decreases |events|
  {
    if events != [] {
      assert (events + [(c, e)])[1..] == events[1..] + [(c, e)];
      ApplyAllSnoc(ApplyNote(notes, events[0].0, events[0].1), events[1..], c, e);
    }
  }

  /** The key that sounds: the highest key among the active voices, or
      None when every voice is silent. */
  function HighestNote(notes: seq<Option<nat>>): (h: Option<nat>)
    ensures h.None? <==> forall j :: 0 <= j < |notes| ==> notes[j].None?
    ensures h.Some? ==> exists j :: 0 <= j < |notes| && notes[j] == h
    ensures h.Some? ==> forall j :: 0 <= j < |notes| && notes[j].Some? ==> notes[j].value <= h.value
  {
    if notes == [] then None
    else
      var rest := HighestNote(notes[1..]);
      assert forall j :: 1 <= j < |notes| ==> notes[j] == notes[1..][j - 1];
      if notes[0].None? then rest
      else if rest.None? || rest.value <= notes[0].value then notes[0]
      else rest
  }

  /** The GPIOTE nudge on voice 0: an empty slot counts as key 60, and the
      u8 key wraps. */
  function NudgeUp(slot: Option<nat>): (r: nat)
    ensures r < U8_LIMIT
    ensures slot.GetOr(60) < 255 ==> r == slot.GetOr(60) + 1
  {
    WrapU8(slot.GetOr(60) + 1)
  }

  function NudgeDown(slot: Option<nat>): (r: nat)
    ensures r < U8_LIMIT
    ensures 0 < slot.GetOr(60) < U8_LIMIT ==> r == slot.GetOr(60) - 1
  {
    WrapU8(slot.GetOr(60) - 1)
  }

  /** Button B undoes button A and the other way round, wrap-around
      included: key 255 goes up to 0 and key 0 down to 255. */
  lemma NudgeInverse(slot: Option<nat>)
    requires slot.GetOr(60) < U8_LIMIT
    ensures NudgeDown(Some(NudgeUp(slot))) == slot.GetOr(60)
    ensures NudgeUp(Some(NudgeDown(slot))) == slot.GetOr(60)
    ensures NudgeUp(Some(255)) == 0 && NudgeDown(Some(0)) == 255
  {
    AddSubInverse(slot.GetOr(60), 1, U8_LIMIT);
  }

  /** How one run of `step` ends: waiting for a later tick, stopped at the
      end of the song, or panicked on a note event whose channel is outside
      the voice table. */
  datatype StepOutcome = Waiting | Stopped | Panicked(channel: nat, event: MidiEvent)

  class AppState {
    const notes: array<Option<nat>>
    const midi: Midi
    var tick: nat
    /** `buffers: [[u16; 16]; 2]`. */
    const buffers: array2<nat>
    /** `timestamp`, counted in samples rather than seconds. */
    var sampleClock: nat
    /** The waveform sample for a key at a sample time, scaled to the
        compare-register range (f32 arithmetic, not modelled). */
    const synth: (nat, nat) -> nat
    /** PWM end-of-sequence flags and the two button event flags. */
    var seqEnd0: bool
    var seqEnd1: bool
    var buttonA: bool
    var buttonB: bool
    /** Register writes to the pulse generator and the tick timer. */
    const pwm: Sequencer

    ghost predicate Valid()
      reads this, midi, midi.nextEvent, midi.ticks, notes, buffers, pwm
    {
      midi.Valid() && midi.LogValid() && notes.Length == VOICES &&
      buffers.Length0 == 2 && buffers.Length1 == BUFFER_SIZE && pwm.Valid()
    }

    /** `AppState::new` with pre-parsed tracks. */
    constructor (timing: Timing, parsed: seq<seq<TrackEvent>>, synth: (nat, nat) -> nat)
      ensures Valid() && fresh(midi) && fresh(midi.nextEvent) && fresh(midi.ticks)
      ensures fresh(notes) && fresh(buffers) && fresh(pwm)
      ensures notes[..] == [None, None, None, None] && tick == 0 && pwm.trace == []
      ensures midi.log == []
      ensures midi.source == if |parsed| <= MAX_TRACKS then parsed else parsed[..MAX_TRACKS]
    {
      notes := new Option<nat>[VOICES](_ => None);
      midi := new Midi.Load(timing, parsed);
      buffers := new nat[2, BUFFER_SIZE]((_, _) => 0);
      tick := 0;
      sampleClock := 0;
      this.synth := synth;
      seqEnd0, seqEnd1, buttonA, buttonB := false, false, false, false;
      pwm := new Sequencer();
      new;
      assert notes[..] == [None, None, None, None];
    }

    /** `handle_midi_event`: the channel must be a voice slot (the assert
        panics otherwise, `ok` false); only that slot changes. */
    method HandleMidiEvent(channel: nat, event: MidiEvent) returns (ok: bool)
      requires Valid()
      modifies notes
      ensures Valid()
      ensures ok == (channel < VOICES)
      ensures ok ==> notes[..] == ApplyNote(old(notes[..]), channel, event)
      ensures !ok ==> notes[..] == old(notes[..])
    {
      if channel >= VOICES {
        return false;
      }
      ok := true;
      match event
      case NoteOn(key, _) => notes[channel] := Some(key);
      case NoteOff(_) => notes[channel] := None;
    }

    /** `stop`: stop the tick timer and the pulse generator. */
    method Stop()
      requires Valid()
      modifies pwm
      ensures Valid() && pwm.trace == old(pwm.trace) + [StopClock, StopPwm] && pwm.streaming == None
    {
      pwm.Do(StopClock);
      pwm.Do(StopPwm);
      assert pwm.trace == old(pwm.trace) + [StopClock, StopPwm];
    }

    /** One call of `next_midi_event` at the current tick, as `step` sees
        it: `popped` grows from `before` by the pops of this call. */
    method Advance(ghost log0: seq<Popped>, ghost before: seq<Popped>)
      returns (next: NextMidiEvent, ghost popped: seq<Popped>)
      requires Valid() && midi.log == log0 + before
      requires forall k :: 0 <= k < |before| ==> before[k].tick <= tick
      modifies midi, midi.nextEvent, midi.ticks
      ensures Valid() && midi.log == log0 + popped
      ensures forall k :: 0 <= k < |popped| ==> popped[k].tick <= tick
      ensures next.Event? ==>
        Notes(popped) == Notes(before) + [(next.channel, next.event)] && midi.Remaining() < old(midi.Remaining())
      ensures !next.Event? ==> Notes(popped) == Notes(before)
      ensures next.Pending? ==> midi.nextTrack.Some? && midi.nextTrack.value.1 > tick
      ensures next.Finished? ==> midi.nextTrack.None?
    {
      ghost var more: seq<Popped>;
      next, more := midi.NextMidiEvent(tick);
      NotesAppend(before, more);
      popped := before + more;
      assert midi.log == log0 + popped;
    }

    /** `handle_midi_event` inside `step`'s loop: the voice table, which
        was `start` with the run `handled` applied, gets one more event. */
    method Apply(ghost start: seq<Option<nat>>, ghost handled: seq<(nat, MidiEvent)>, channel: nat, event: MidiEvent)
      returns (ok: bool)
      requires Valid() && |start| == VOICES
      requires forall k :: 0 <= k < |handled| ==> handled[k].0 < VOICES
      requires notes[..] == ApplyAll(start, handled)
      modifies notes
      ensures Valid() && ok == (channel < VOICES)
      ensures ok ==> notes[..] == ApplyAll(start, handled + [(channel, event)])
      ensures !ok ==> notes[..] == old(notes[..])
    {
      ok := HandleMidiEvent(channel, event);
      if ok {
        ApplyAllSnoc(start, handled, channel, event);
      }
    }

    /** One round of `step`'s loop at the current tick: fetch the next note
        event and apply it (None: go on), or report why the step ends
        (Stopped: every track is exhausted, the caller silences the voices
        and stops). `handled` and
        `popped` grow from `hb` and `pb`; the voice table was `start` before
        the step, the trace `trace0`, and the log `log0`. */
    method Round(ghost log0: seq<Popped>, ghost start: seq<Option<nat>>, ghost trace0: seq<Action>,
                 ghost hb: seq<(nat, MidiEvent)>, ghost pb: seq<Popped>)
      returns (done: Option<StepOutcome>, ghost handled: seq<(nat, MidiEvent)>, ghost popped: seq<Popped>)
      requires Valid() && |start| == VOICES && pwm.trace == trace0
      requires midi.log == log0 + pb && hb == Notes(pb)
      requires forall k :: 0 <= k < |pb| ==> pb[k].tick <= tick
      requires forall k :: 0 <= k < |hb| ==> hb[k].0 < VOICES
      requires notes[..] == ApplyAll(start, hb)
      modifies notes, midi, midi.nextEvent, midi.ticks
      ensures Valid() && midi.log == log0 + popped
      ensures forall k :: 0 <= k < |popped| ==> popped[k].tick <= tick
      ensures forall k :: 0 <= k < |handled| ==> handled[k].0 < VOICES
      ensures notes[..] == ApplyAll(start, handled)
      ensures done.None? || done == Some(Waiting) || done == Some(Stopped) ==>
        handled == Notes(popped) && pwm.trace == trace0
      ensures done.None? ==> midi.Remaining() < old(midi.Remaining())
      ensures done == Some(Waiting) ==> midi.nextTrack.Some? && midi.nextTrack.value.1 > tick
      ensures done == Some(Stopped) ==>
        midi.nextTrack.None? && midi.Remaining() == 0 && handled == Notes(popped) && pwm.trace == trace0
      ensures done.Some? && done.value.Panicked? ==>
        done.value.channel >= VOICES && pwm.trace == trace0
        && Notes(popped) == handled + [(done.value.channel, done.value.event)]
    {
      handled := hb;
      var next: NextMidiEvent;
      next, popped := Advance(log0, pb);
      match next
      case Event(channel, event) =>
        var ok := Apply(start, hb, channel, event);
        if !ok {
          return Some(Panicked(channel, event)), hb, popped;
        }
        handled := hb + [(channel, event)];
        done := None;
      case Pending =>
        done := Some(Waiting);
      case Finished =>
        midi.NoChoiceIffNothingLeft();
        done := Some(Stopped);
    }

    /** `step`, run by the tick timer: advance the tick by one and apply
        every event due by then; on Finished silence all voices and stop.
        `popped` lists the pops of this step as the log records them, and
        `handled` the note events applied. */
    method Step() returns (r: StepOutcome, ghost handled: seq<(nat, MidiEvent)>, ghost popped: seq<Popped>)
      requires Valid()
      modifies this`tick, notes, midi, midi.nextEvent, midi.ticks, pwm
      ensures Valid()
      ensures tick == old(tick) + 1
      ensures midi.log == old(midi.log) + popped
      ensures forall k :: 0 <= k < |popped| ==> popped[k].tick <= tick
      ensures forall k :: 0 <= k < |handled| ==> handled[k].0 < VOICES
      ensures r.Waiting? ==>
        midi.nextTrack.Some? && midi.nextTrack.value.1 > tick && handled == Notes(popped)
        && notes[..] == ApplyAll(old(notes[..]), handled) && pwm.trace == old(pwm.trace)
      ensures r.Stopped? ==>
        midi.nextTrack.None? && midi.Remaining() == 0 && handled == Notes(popped) && notes[..] == [None, None, None, None]
        && pwm.trace == old(pwm.trace) + [StopClock, StopPwm]
      ensures r.Panicked? ==>
        r.channel >= VOICES && pwm.trace == old(pwm.trace)
        && Notes(popped) == handled + [(r.channel, r.event)]
        && notes[..] == ApplyAll(old(notes[..]), handled)
    {
      ghost var (log0, start, trace0) := (midi.log, notes[..], pwm.trace);
      tick := tick + 1;
      handled := [];
      popped := [];
      while true
        invariant Valid() && tick == old(tick) + 1
        invariant pwm.trace == trace0
        invariant midi.log == log0 + popped
        invariant forall k :: 0 <= k < |popped| ==> popped[k].tick <= tick
        invariant handled == Notes(popped)
        invariant forall k :: 0 <= k < |handled| ==> handled[k].0 < VOICES
        invariant notes[..] == ApplyAll(start, handled)
        decreases midi.Remaining()
      {
        var done: Option<StepOutcome>;
        done, handled, popped := Round(log0, start, trace0, handled, popped);
        if done == Some(Stopped) {
          SilenceAndStop();
          return Stopped, handled, popped;
        } else if done.Some? {
          return done.value, handled, popped;
        }
      }
    }

    /** The end of the song: every voice falls silent, then `stop`. */
    method SilenceAndStop()
      requires Valid()
      modifies notes, pwm
      ensures Valid() && notes[..] == [None, None, None, None]
      ensures pwm.trace == old(pwm.trace) + [StopClock, StopPwm] && pwm.streaming == None
    {
      notes[0], notes[1], notes[2], notes[3] := None, None, None, None;
      assert notes[..] == [None, None, None, None];
      Stop();
    }

    /** The sample buffer `fill_buffer(idx)` writes: silence (0) when no
        voice is active, otherwise the waveform of the highest active key. */
    ghost function FilledRow(clock: nat, active: seq<Option<nat>>): (row: seq<nat>)
      ensures |row| == BUFFER_SIZE
    {
      var h := HighestNote(active);
      seq(BUFFER_SIZE, i requires 0 <= i => if h.None? then 0 else synth(h.value, clock + i))
    }

    /** Row k of the output holds the waveform of the current voice table
        from sample time `clock` on. */
    ghost predicate RowHolds(k: nat, clock: nat)
      reads buffers, notes
    {
      k < buffers.Length0 && BUFFER_SIZE <= buffers.Length1 &&
      forall i :: 0 <= i < BUFFER_SIZE ==> buffers[k, i] == FilledRow(clock, notes[..])[i]
    }

    method FillBuffer(idx: nat)
      requires Valid() && idx < 2
      modifies this`sampleClock, buffers
      ensures Valid()
      ensures sampleClock == old(sampleClock) + BUFFER_SIZE
      ensures forall i :: 0 <= i < BUFFER_SIZE ==>
        buffers[idx, i] == FilledRow(old(sampleClock), notes[..])[i]
      ensures forall j, i :: 0 <= j < 2 && j != idx && 0 <= i < BUFFER_SIZE ==> buffers[j, i] == old(buffers[j, i])
    {
      var highest := HighestNote(notes[..]);
      var i := 0;
      while i < BUFFER_SIZE
        invariant 0 <= i <= BUFFER_SIZE
        invariant forall j :: 0 <= j < i ==> buffers[idx, j] == FilledRow(sampleClock, notes[..])[j]
        invariant forall k, j :: 0 <= k < 2 && k != idx && 0 <= j < BUFFER_SIZE ==> buffers[k, j] == old(buffers[k, j])
        modifies buffers
      {
        if highest.None? {
          buffers[idx, i] := 0;
        } else {
          buffers[idx, i] := synth(highest.value, sampleClock + i);
        }
        i := i + 1;
      }
      sampleClock := sampleClock + BUFFER_SIZE;
    }

    /** `fill_buffer(k)` as seen by the pulse generator: buffer k is
        rewritten, which is only allowed while the generator does not own k. */
    method Rewrite(k: nat)
      requires Valid() && k < 2 && pwm.streaming != Some(k)
      modifies this`sampleClock, buffers, pwm
      ensures Valid() && pwm.trace == old(pwm.trace) + [Refill(k)]
      ensures pwm.streaming == old(pwm.streaming)
      ensures sampleClock == old(sampleClock) + BUFFER_SIZE
      ensures RowHolds(k, old(sampleClock))
      ensures forall j, i :: 0 <= j < 2 && j != k && 0 <= i < BUFFER_SIZE ==> buffers[j, i] == old(buffers[j, i])
    {
      FillBuffer(k);
      pwm.Do(Refill(k));
    }

    /** The two `fill_buffer` calls of `start`: buffer 0, then buffer 1. */
    method FillBoth()
      requires Valid() && pwm.streaming == None
      modifies this`sampleClock, buffers, pwm
      ensures Valid() && pwm.trace == old(pwm.trace) + [Refill(0), Refill(1)] && pwm.streaming == None
      ensures sampleClock == old(sampleClock) + 2 * BUFFER_SIZE
      ensures RowHolds(0, old(sampleClock)) && RowHolds(1, old(sampleClock) + BUFFER_SIZE)
    {
      ghost var (t0, c0) := (pwm.trace, sampleClock);
      Rewrite(0);
      ghost var row0 := FilledRow(c0, notes[..]);
      assert forall i :: 0 <= i < BUFFER_SIZE ==> buffers[0, i] == row0[i];
      Rewrite(1);
      assert forall i :: 0 <= i < BUFFER_SIZE ==> buffers[0, i] == row0[i];
      assert pwm.trace == t0 + [Refill(0), Refill(1)];
    }

    /** `start`: fill both buffers, start the tick timer, stream buffer 0. */
    method Start()
      requires Valid() && pwm.streaming == None
      modifies this`sampleClock, buffers, pwm
      ensures Valid()
      ensures pwm.trace == old(pwm.trace) + [Refill(0), Refill(1), StartClock, StartSeq(0)]
      ensures pwm.streaming == Some(0)
      ensures sampleClock == old(sampleClock) + 2 * BUFFER_SIZE
      ensures RowHolds(0, old(sampleClock)) && RowHolds(1, old(sampleClock) + BUFFER_SIZE)
    {
      ghost var t0 := pwm.trace;
      FillBoth();
      pwm.Do(StartClock);
      pwm.Do(StartSeq(0));
      Append4(t0, Refill(0), Refill(1), StartClock, StartSeq(0));
    }

    /** `handle_pwm`: service flag 0 if set, else flag 1 if set; at most
        one per call. */
    method HandlePwm()
      requires Valid()
      modifies this`seqEnd0, this`seqEnd1, this`sampleClock, buffers, pwm
      ensures Valid()
      ensures pwm.trace == old(pwm.trace) + (if old(seqEnd0) then Service(0) else if old(seqEnd1) then Service(1) else [])
      ensures old(seqEnd0) ==> !seqEnd0 && seqEnd1 == old(seqEnd1)
      ensures !old(seqEnd0) ==> !seqEnd0 && !seqEnd1
      ensures sampleClock == old(sampleClock) + if old(seqEnd0) || old(seqEnd1) then BUFFER_SIZE else 0
      ensures old(seqEnd0) ==>
        RowHolds(0, old(sampleClock)) && forall i :: 0 <= i < BUFFER_SIZE ==> buffers[1, i] == old(buffers[1, i])
      ensures !old(seqEnd0) && old(seqEnd1) ==>
        RowHolds(1, old(sampleClock)) && forall i :: 0 <= i < BUFFER_SIZE ==> buffers[0, i] == old(buffers[0, i])
      ensures !old(seqEnd0) && !old(seqEnd1) ==> unchanged(buffers)
    {
      if seqEnd0 {
        seqEnd0 := false;
        ServiceTo(0);
        return;
      }
      if seqEnd1 {
        seqEnd1 := false;
        ServiceTo(1);
        return;
      }
    }

    /** One service of buffer k: clear its flag, start the other buffer,
        refill k. */
    method ServiceTo(k: nat)
      requires Valid() && k < 2
      modifies this`sampleClock, buffers, pwm
      ensures Valid() && pwm.trace == old(pwm.trace) + Service(k) && pwm.streaming == Some(1 - k)
      ensures sampleClock == old(sampleClock) + BUFFER_SIZE
      ensures RowHolds(k, old(sampleClock))
      ensures forall j, i :: 0 <= j < 2 && j != k && 0 <= i < BUFFER_SIZE ==> buffers[j, i] == old(buffers[j, i])
    {
      pwm.Do(ClearSeqEnd(k));
      pwm.Do(StartSeq(1 - k));
      Rewrite(k);
      assert pwm.trace == old(pwm.trace) + Service(k);
    }

    /** The GPIOTE handler: button A raises voice 0 by one, button B
        lowers it; an empty voice 0 starts from key 60. Both may apply. */
    method HandleButtons()
      requires Valid()
      modifies this`buttonA, this`buttonB, notes
      ensures Valid()
      ensures !buttonA && !buttonB
      ensures var afterA := if old(buttonA) then Some(NudgeUp(old(notes[0]))) else old(notes[0]);
        notes[0] == (if old(buttonB) then Some(NudgeDown(afterA)) else afterA)
      ensures forall j :: 1 <= j < VOICES ==> notes[j] == old(notes[j])
    {
      if buttonA {
        buttonA := false;
        notes[0] := Some(NudgeUp(notes[0]));
      }
      if buttonB {
        buttonB := false;
        notes[0] := Some(NudgeDown(notes[0]));
      }
    }
  }
}
