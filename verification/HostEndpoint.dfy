/** The reconciler as the worker runs it: a 128-entry shadow and two bounded queues. */
module HostEndpoint {
  import opened Prelude
  import opened HostOutput

  function NoteSet(levels: seq<bool>): set<nat> {
    set n | 0 <= n < |levels| && levels[n]
  }

  /** Status counters wrap. */
  const COUNTER: nat := 0x1_0000_0000_0000_0000

  class Endpoint {
    const outputNotes: array<bool>
    var releaseOut: seq<Edge>
    var realtimeOut: seq<Edge>
    const releaseCapacity: nat
    const realtimeCapacity: nat
    var egressEvents: nat
    var egressDropped: nat
    /** How many pushes were refused. */
    ghost var refused: nat
    /** The notes marked in `outputNotes`. */
    ghost var sounding: set<nat>
    ghost var received: seq<Edge>
    ghost var emitted: seq<Edge>

    ghost predicate Valid()
      reads this, outputNotes
    {
      && outputNotes.Length == NOTES
      && egressEvents == |emitted| % COUNTER && egressDropped == refused % COUNTER
      && InRange(sounding)
      && forall n :: 0 <= n < NOTES ==> (outputNotes[n] <==> n in sounding)
    }

    ghost function State(): Output
      reads this
    {
      Output(sounding, releaseOut, realtimeOut, releaseCapacity, realtimeCapacity, received, emitted)
    }

    constructor (releases: nat, realtime: nat)
      ensures Valid() && fresh(outputNotes) && State() == Start(releases, realtime)
    {
      outputNotes := new bool[NOTES](_ => false);
      releaseOut, realtimeOut := [], [];
      releaseCapacity, realtimeCapacity := releases, realtime;
      egressEvents, egressDropped, refused := 0, 0, 0;
      sounding, received, emitted := {}, [], [];
    }

    /** The audio callback's side: releases before anything else. */
    method Receive() returns (event: Option<Edge>)
      requires Valid()
      modifies this
      ensures Valid() && State() == TryRecv(old(State())) && refused == old(refused)
      ensures event.None? <==> old(releaseOut) == [] && old(realtimeOut) == []
      ensures event.Some? ==> received == old(received) + [event.value]
    {
      if releaseOut != [] {
        event := Some(releaseOut[0]);
        releaseOut := releaseOut[1..];
      } else if realtimeOut != [] {
        event := Some(realtimeOut[0]);
        realtimeOut := realtimeOut[1..];
      } else {
        return None;
      }
      received := received + [event.value];
    }

    /** Stands for the callback running in between: it receives `n` times. */
    method Interleave(n: nat)
      requires Valid()
      modifies this
      ensures Valid() && State() == Drain(old(State()), n) && refused == old(refused)
    {
      var i: nat := n;
      while i > 0
        invariant 0 <= i <= n && Valid() && refused == old(refused)
        invariant Drain(State(), i) == Drain(old(State()), n)
      {
        var _ := Receive();
        i := i - 1;
      }
    }

    method Refuse() returns (accepted: bool)
      requires Valid()
      modifies this`egressDropped, this`refused
      ensures Valid() && !accepted && refused == old(refused) + 1
    {
      egressDropped := (egressDropped + 1) % COUNTER;
      refused := refused + 1;
      return false;
    }

    /** Push one edge; a full queue is counted and leaves the shadow as it was. */
    method Offer(e: Edge) returns (accepted: bool)
      requires Valid() && e.note < NOTES
      modifies this, outputNotes
      ensures Valid()
      ensures accepted <==> Fits(old(State()), e)
      ensures State() == if accepted then Push(old(State()), e) else old(State())
      ensures refused == old(refused) + if accepted then 0 else 1
    {
      if e.down {
        if |realtimeOut| >= realtimeCapacity {
          accepted := Refuse();
          return;
        }
        realtimeOut := realtimeOut + [e];
      } else {
        if |releaseOut| >= releaseCapacity {
          accepted := Refuse();
          return;
        }
        releaseOut := releaseOut + [e];
      }
      outputNotes[e.note] := e.down;
      sounding := Apply(sounding, e);
      emitted := emitted + [e];
      egressEvents := (egressEvents + 1) % COUNTER;
      return true;
    }

    /** Push one planned edge after the callback had its turn; `rest` is what remains of the plan. */
    method PushPlanned(e: Edge, drains: nat -> nat, k: nat, ghost rest: seq<Edge>) returns (accepted: bool)
      requires Valid() && e.note < NOTES
      modifies this, outputNotes
      ensures Valid()
      ensures PushAll(old(State()), [e] + rest, drains, k)
           == if accepted then PushAll(State(), rest, drains, k + 1) else State()
      ensures accepted ==> sounding == Apply(old(sounding), e)
      ensures refused == old(refused) + if accepted then 0 else 1
    {
      UnfoldPush(State(), e, rest, drains, k);
      DrainKeeps(State(), drains(k));
      Interleave(drains(k));
      accepted := Offer(e);
    }

    method ReleasePhase(target: array<bool>, drains: nat -> nat, ghost goal: set<nat>, ghost tail: seq<Edge>)
      returns (done: bool, k: nat)
      requires Valid() && Marks(target, goal) && target != outputNotes
      modifies this, outputNotes
      ensures Valid()
      ensures PushAll(old(State()), Releases(old(sounding), goal) + tail, drains, 0)
           == if done then PushAll(State(), tail, drains, k) else State()
      ensures refused == old(refused) + if done then 0 else 1
      ensures done ==> forall n :: n in goal ==> (n in sounding <==> n in old(sounding))
    {
      ghost var on := sounding;
      ghost var whole := PushAll(State(), Releases(on, goal) + tail, drains, 0);
      k := 0;
      var note := LOWEST;
      while note < NOTES
        invariant note <= NOTES && Valid() && Marks(target, goal) && refused == old(refused)
        invariant whole == PushAll(State(), ReleasesFrom(on, goal, note) + tail, drains, k)
        invariant forall n :: note <= n < NOTES || n in goal ==> (n in sounding <==> n in on)
      {
        ghost var rest := ReleasesFrom(on, goal, note + 1) + tail;
        ReleaseStep(on, goal, note, tail);
        assert (outputNotes[note] <==> note in on) && (target[note] <==> note in goal);
        if outputNotes[note] && !target[note] {
          var accepted := PushPlanned(Edge(note, false), drains, k, rest);
          if !accepted {
            return false, k;
          }
          k := k + 1;
        }
        note := note + 1;
      }
      ReleasesDone(on, goal, tail);
      return true, k;
    }

    method AdditionPhase(target: array<bool>, drains: nat -> nat, first: nat, ghost goal: set<nat>,
                         ghost tail: seq<Edge>)
      returns (done: bool, k: nat)
      requires Valid() && Marks(target, goal) && target != outputNotes
      modifies this, outputNotes
      ensures Valid()
      ensures PushAll(old(State()), Additions(old(sounding), goal) + tail, drains, first)
           == if done then PushAll(State(), tail, drains, k) else State()
      ensures refused == old(refused) + if done then 0 else 1
    {
      ghost var on := sounding;
      ghost var whole := PushAll(State(), Additions(on, goal) + tail, drains, first);
      k := first;
      var note := LOWEST;
      while note < NOTES
        invariant note <= NOTES && Valid() && Marks(target, goal) && refused == old(refused)
        invariant whole == PushAll(State(), AdditionsFrom(on, goal, note) + tail, drains, k)
        invariant forall n :: note <= n < NOTES ==> (n in sounding <==> n in on)
      {
        ghost var rest := AdditionsFrom(on, goal, note + 1) + tail;
        AdditionStep(on, goal, note, tail);
        assert (outputNotes[note] <==> note in on) && (target[note] <==> note in goal);
        if !outputNotes[note] && target[note] {
          var accepted := PushPlanned(Edge(note, true), drains, k, rest);
          if !accepted {
            return false, k;
          }
          k := k + 1;
        }
        note := note + 1;
      }
      AdditionsDone(on, goal, tail);
      return true, k;
    }

    /** `target` is what the host should sound; `drains` is when the callback runs in between. */
    method ReconcileHostOutput(target: array<bool>, drains: nat -> nat)
      requires Valid() && target.Length == NOTES && target != outputNotes
      modifies this, outputNotes
      ensures Valid()
      ensures State() == Pass(old(State()), NoteSet(target[..]), drains)
      ensures old(refused) <= refused <= old(refused) + 1
    {
      ghost var on, goal := sounding, NoteSet(target[..]);
      var done, k := ReleasePhase(target, drains, goal, Additions(on, goal));
      if done {
        SameAdditions(on, sounding, goal, LOWEST);
        assert Additions(on, goal) + [] == Additions(on, goal);
        done, k := AdditionPhase(target, drains, k, goal, []);
      }
    }
  }

  ghost predicate Marks(levels: array<bool>, notes: set<nat>)
    reads levels
  {
    levels.Length == NOTES && forall n :: 0 <= n < NOTES ==> (levels[n] <==> n in notes)
  }

  lemma AdditionsDone(on: set<nat>, goal: set<nat>, tail: seq<Edge>)
    ensures AdditionsFrom(on, goal, NOTES) + tail == tail
  {
  }

  lemma AdditionStep(on: set<nat>, goal: set<nat>, note: nat, tail: seq<Edge>)
    requires note < NOTES
    ensures var rest := AdditionsFrom(on, goal, note + 1) + tail;
            AdditionsFrom(on, goal, note) + tail == if note !in on && note in goal then [Edge(note, true)] + rest
                else rest
  {
  }

  lemma ReleaseStep(on: set<nat>, goal: set<nat>, note: nat, tail: seq<Edge>)
    requires note < NOTES
    ensures var rest := ReleasesFrom(on, goal, note + 1) + tail;
            ReleasesFrom(on, goal, note) + tail == if note in on && note !in goal then [Edge(note, false)] + rest
                else rest
  {
  }

  lemma ReleasesDone(on: set<nat>, goal: set<nat>, tail: seq<Edge>)
    ensures ReleasesFrom(on, goal, NOTES) + tail == tail
  {
  }

  lemma {:induction false} SameAdditions(a: set<nat>, b: set<nat>, target: set<nat>, n: nat)
    requires forall m :: n <= m < NOTES && m in target ==> (m in a <==> m in b)
    ensures AdditionsFrom(a, target, n) == AdditionsFrom(b, target, n)
    decreases NOTES - n
  {
    if n < NOTES {
      SameAdditions(a, b, target, n + 1);
    }
  }

  lemma UnfoldPush(o: Output, e: Edge, rest: seq<Edge>, drains: nat -> nat, k: nat)
    ensures var o1 := Drain(o, drains(k));
            PushAll(o, [e] + rest, drains, k) == if Fits(o1, e) then PushAll(Push(o1, e), rest, drains, k + 1) else o1
  {
    assert ([e] + rest)[1..] == rest;
  }
}
