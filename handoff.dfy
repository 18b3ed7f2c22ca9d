/** The double-buffer hand-off shared by the four audio demos.

    The pulse generator (PWM0) streams one of two sample buffers on its own.
    The firmware only sees it through a handful of register writes, which the
    model records as a trace of actions. Which buffer the hardware owns is a
    function of that trace (`Owner`): starting sequence k makes k the owned
    buffer until the next start or stop. The end-of-sequence event itself is
    not an action of the trace, so ownership is conservative: a buffer whose
    sequence has just ended still counts as owned until the other one is
    started. */
module HandOff {
  import opened Wrappers

  datatype Action =
    | StopPwm               // tasks_stop of the pulse generator
    | StartSeq(id: nat)     // tasks_seqstart[id]
    | ClearSeqEnd(id: nat)  // events_seqend[id] written back to 0
    | Refill(buf: nat)      // software rewrites sample buffer `buf`
    | StartClock            // tick timer started (MIDI player only)
    | StopClock             // tick timer stopped (MIDI player only)

  /** The buffer the pulse generator was last told to stream, after the
      actions of `t` (None after a stop). */
  function Owner(t: seq<Action>): Option<nat> {
    if t == [] then None
    else match t[|t| - 1]
      case StopPwm => None
      case StartSeq(k) => Some(k)
      case _ => Owner(t[..|t| - 1])
  }

  /** Exclusive buffer ownership, the conservative rule the handlers
      follow: software never rewrites the buffer the pulse generator was
      last told to stream. */
  ghost predicate Exclusive(t: seq<Action>) {
    forall p :: 0 <= p < |t| && t[p].Refill? ==> Owner(t[..p]) != Some(t[p].buf)
  }

  /** What a handler does for an end-of-sequence event on buffer k: clear
      the flag, start the other buffer, then refill k. */
  function Service(k: nat): (s: seq<Action>)
    requires k < 2
    ensures |s| == 3 && s[1] == StartSeq(1 - k) && s[2] == Refill(k)
  {
    [ClearSeqEnd(k), StartSeq(1 - k), Refill(k)]
  }

  lemma OwnerOfPrefix(t: seq<Action>, u: seq<Action>, p: nat)
    requires p <= |t|
    ensures (t + u)[..p] == t[..p]
  {
  }

  /** Appending a service of buffer k keeps ownership exclusive: the other
      buffer is started before k is refilled, so k is refilled while the
      generator owns the other buffer, which it still owns afterwards. */
  lemma {:induction false} ServiceKeepsExclusive(t: seq<Action>, k: nat)
    requires k < 2 && Exclusive(t)
    ensures Exclusive(t + Service(k))
    ensures Owner((t + Service(k))[..|t| + 2]) == Some(1 - k)
    ensures Owner(t + Service(k)) == Some(1 - k)
  {
    var u := t + Service(k);
    assert u[..|t| + 1] == t + [ClearSeqEnd(k)];
    assert (t + [ClearSeqEnd(k)])[..|t|] == t;
    assert u[..|t| + 2] == u[..|t| + 1] + [StartSeq(1 - k)];
    assert u[..|u| - 1] == u[..|t| + 2];
    forall p | 0 <= p < |u| && u[p].Refill?
      ensures Owner(u[..p]) != Some(u[p].buf)
    {
      if p < |t| {
        OwnerOfPrefix(t, Service(k), p);
        assert u[p] == t[p];
      } else {
        assert p == |t| + 2;
      }
    }
  }

  /** The handlers start the other buffer BEFORE refilling k, and that order
      matters for the rule: refilling k first rewrites the buffer most
      recently started, which `Exclusive` forbids. (The trace does not record
      the end-of-sequence event, after which the hardware no longer reads k,
      so this breaks the conservative rule rather than showing a rewrite of
      samples still being read.) */
  lemma RefillFirstBreaksExclusive(k: nat)
    requires k < 2
    ensures !Exclusive([StartSeq(k), ClearSeqEnd(k), Refill(k), StartSeq(1 - k)])
  {
    var t := [StartSeq(k), ClearSeqEnd(k), Refill(k), StartSeq(1 - k)];
    assert t[..2] == [StartSeq(k), ClearSeqEnd(k)];
    assert t[..2][..1] == [StartSeq(k)];
    assert Owner(t[..2]) == Some(k);
    assert t[2] == Refill(k);
  }

  /** The effect of one more action on the owned buffer, and the
      condition under which it keeps ownership exclusive. */
  lemma Extend(t: seq<Action>, a: Action)
    requires Exclusive(t)
    requires a.Refill? ==> Owner(t) != Some(a.buf)
    ensures Exclusive(t + [a])
    ensures Owner(t + [a]) == match a
      case StopPwm => None
      case StartSeq(k) => Some(k)
      case _ => Owner(t)
  {
    var u := t + [a];
    assert u[..|t|] == t;
    forall p | 0 <= p < |u| && u[p].Refill?
      ensures Owner(u[..p]) != Some(u[p].buf)
    {
      if p < |t| {
        OwnerOfPrefix(t, [a], p);
      }
    }
  }

  /** Four writes one after another are the four-write block. */
  lemma Append4(t: seq<Action>, a: Action, b: Action, c: Action, d: Action)
    ensures t + [a] + [b] + [c] + [d] == t + [a, b, c, d]
  {
  }

  /** `restart_sequence` of the tone generator: stop, refill both buffers
      while nothing streams, then start sequence 0. */
  function Restart(): seq<Action> {
    [StopPwm, Refill(0), Refill(1), StartSeq(0)]
  }

  lemma RestartKeepsExclusive(t: seq<Action>)
    requires Exclusive(t)
    ensures Exclusive(t + Restart()) && Owner(t + Restart()) == Some(0)
  {
    Extend(t, StopPwm);
    Extend(t + [StopPwm], Refill(0));
    Extend(t + [StopPwm] + [Refill(0)], Refill(1));
    Extend(t + [StopPwm] + [Refill(0)] + [Refill(1)], StartSeq(0));
    assert t + [StopPwm] + [Refill(0)] + [Refill(1)] + [StartSeq(0)] == t + Restart();
  }

  /** The register writes a firmware issues to its pulse generator (and,
      for the MIDI player, its tick timer), with the buffer it owns. */
  class Sequencer {
    var trace: seq<Action>
    ghost var streaming: Option<nat>

    ghost predicate Valid()
      reads this
    {
      Exclusive(trace) && streaming == Owner(trace)
    }

    constructor ()
      ensures Valid() && trace == [] && streaming == None
    {
      trace := [];
      streaming := None;
    }

    /** Issue one write. Rewriting a buffer is only allowed while the
        generator owns the other one (or nothing). */
    method Do(a: Action)
      requires Valid() && (a.Refill? ==> streaming != Some(a.buf))
      modifies this
      ensures Valid() && trace == old(trace) + [a]
      ensures streaming == match a
        case StopPwm => None
        case StartSeq(k) => Some(k)
        case _ => old(streaming)
    {
      Extend(trace, a);
      trace := trace + [a];
      streaming := match a
        case StopPwm => None
        case StartSeq(k) => Some(k)
        case _ => streaming;
    }
  }
}
