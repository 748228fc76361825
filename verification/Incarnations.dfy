/** Bounded replay memory for transport incarnations, and the unbounded history it stands for. */
module Incarnations {
  import opened Prelude

  const MAX_PEERS: nat := 64
  const REMEMBERED: nat := 8

  type Peer = nat
  type Incarnation = nat

  datatype Observation = First | Known | Reincarnated | CapacityRefused

  /** The bounded memory: per peer a queue of recent values, oldest first. */
  type Memory = map<Peer, seq<Incarnation>>

  function Observe(seen: Memory, peer: Peer, value: Incarnation): (Memory, Observation) {
    if peer !in seen && |seen| >= MAX_PEERS then (seen, CapacityRefused)
    else
      var values := if peer in seen then seen[peer] else [];
      if value in values then (seen, Known)
      else
        var pushed := values + [value];
        (seen[peer := if |pushed| > REMEMBERED then pushed[1..] else pushed],
         if values == [] then First else Reincarnated)
  }

  // ---- The history it refines ---------------------------------------------------

  /** Every value ever newly accepted, per peer, in order. */
  type Full = map<Peer, seq<Incarnation>>

  /** The last eight. */
  function Window(all: seq<Incarnation>): seq<Incarnation> {
    if |all| <= REMEMBERED then all else all[|all| - REMEMBERED..]
  }

  function Accepted(full: Full, peer: Peer): seq<Incarnation> {
    if peer in full then full[peer] else []
  }

  /** The rule stated on full history: nothing is ever forgotten, only looked at through a window. */
  function Judge(full: Full, peer: Peer, value: Incarnation): Observation {
    if peer !in full && |full| >= MAX_PEERS then CapacityRefused
    else if value in Window(Accepted(full, peer)) then Known
    else if Accepted(full, peer) == [] then First
    else Reincarnated
  }

  function Record(full: Full, peer: Peer, value: Incarnation): Full {
    var o := Judge(full, peer, value);
    if o == First || o == Reincarnated then full[peer := Accepted(full, peer) + [value]] else full
  }

  datatype Hello = Hello(peer: Peer, value: Incarnation)

  function Remembered(hellos: seq<Hello>): Memory {
    if hellos == [] then map[]
    else
      var h := hellos[|hellos| - 1];
      Observe(Remembered(hellos[..|hellos| - 1]), h.peer, h.value).0
  }

  function History(hellos: seq<Hello>): Full {
    if hellos == [] then map[]
    else
      var h := hellos[|hellos| - 1];
      Record(History(hellos[..|hellos| - 1]), h.peer, h.value)
  }

  ghost predicate NoRepeats(s: seq<Incarnation>) {
    forall i, j :: 0 <= i < j < |s| ==> s[i] != s[j]
  }

  ghost predicate Refines(seen: Memory, full: Full) {
    && seen.Keys == full.Keys
    && |full| <= MAX_PEERS
    && (forall p :: p in full ==> full[p] != [] && seen[p] == Window(full[p]) && NoRepeats(Window(full[p])))
  }

  lemma WindowPush(all: seq<Incarnation>, value: Incarnation)
    requires NoRepeats(Window(all)) && value !in Window(all)
    ensures var pushed := Window(all) + [value];
            && Window(all + [value]) == (if |pushed| > REMEMBERED then pushed[1..] else pushed)
            && NoRepeats(Window(all + [value]))
  {
  }

  lemma KeysSize(m: Memory)
    ensures |m| == |m.Keys|
  {
  }

  lemma ObserveRefines(seen: Memory, full: Full, peer: Peer, value: Incarnation)
    requires Refines(seen, full)
    ensures Observe(seen, peer, value).1 == Judge(full, peer, value)
    ensures Refines(Observe(seen, peer, value).0, Record(full, peer, value))
  {
    KeysSize(seen);
    KeysSize(full);
    if peer in full {
      assert seen[peer] == Window(full[peer]);
    }
    var o := Judge(full, peer, value);
    if o == First || o == Reincarnated {
      WindowPush(Accepted(full, peer), value);
      RecordRefines(seen, full, peer, Accepted(full, peer) + [value]);
    }
  }

  lemma RecordRefines(seen: Memory, full: Full, peer: Peer, all: seq<Incarnation>)
    requires Refines(seen, full) && (peer in full || |full| < MAX_PEERS)
    requires all != [] && NoRepeats(Window(all))
    ensures Refines(seen[peer := Window(all)], full[peer := all])
  {
    var full' := full[peer := all];
    KeysSize(full);
    KeysSize(full');
    assert full'.Keys == full.Keys + {peer};
  }

  lemma {:induction false} RunRefines(hellos: seq<Hello>)
    ensures Refines(Remembered(hellos), History(hellos))
  {
    if hellos != [] {
      var n := |hellos| - 1;
      RunRefines(hellos[..n]);
      ObserveRefines(Remembered(hellos[..n]), History(hellos[..n]), hellos[n].peer, hellos[n].value);
    }
  }

  /**
   After any sequence of hellos: each peer's memory is exactly the last min(8, length)
   values newly accepted from it, without duplicates; at most 64 peers are tracked; the
   next value is Known exactly when it lies in that window; and a refusal, which happens
   exactly for a 65th peer, changes nothing.
   */
  lemma MemoryIsTheWindow(hellos: seq<Hello>, peer: Peer, value: Incarnation)
    ensures var seen, full := Remembered(hellos), History(hellos);
            var (seen', o) := Observe(seen, peer, value);
            && |seen| <= MAX_PEERS
            && seen.Keys == full.Keys
            && (forall p :: p in seen ==>
                              && seen[p] == Window(full[p]) && NoRepeats(seen[p])
                              && |seen[p]| == if |full[p]| < REMEMBERED then |full[p]| else REMEMBERED)
            && (o == Known <==> peer in full && value in Window(full[peer]))
            && (o == CapacityRefused <==> peer !in full && |full| == MAX_PEERS)
            && (o == First <==> peer !in full && |full| < MAX_PEERS)
            && (o == Known || o == CapacityRefused <==> seen' == seen)
  {
    RunRefines(hellos);
    var seen, full := Remembered(hellos), History(hellos);
    KeysSize(seen);
    KeysSize(full);
    ObserveRefines(seen, full, peer, value);
    var (seen', o) := Observe(seen, peer, value);
    if o == First || o == Reincarnated {
      var values := if peer in seen then seen[peer] else [];
      assert value !in values;
      assert seen'[peer][|seen'[peer]| - 1] == value;
    }
  }

  class RtcIncarnationTracker {
    var seen: Memory

    constructor ()
      ensures seen == map[]
    {
      seen := map[];
    }

    method ObserveHello(peer: Peer, value: Incarnation) returns (o: Observation)
      modifies this
      ensures (seen, o) == Observe(old(seen), peer, value)
    {
      if peer !in seen && |seen| >= MAX_PEERS {
        return CapacityRefused;
      }
      var values := if peer in seen then seen[peer] else [];
      if value in values {
        return Known;
      }
      o := if values == [] then First else Reincarnated;
      values := values + [value];
      if |values| > REMEMBERED {
        values := values[1..];
      }
      seen := seen[peer := values];
    }
  }
}
