/**
 The desktop snapshot read off the run alone: every field is what the last operation
 about it said, and so is what each subscriber has been told.
 */
module DesktopHistory {
  import opened Prelude
  import opened KeyedSeq
  import opened DesktopRuntime
  import opened DesktopEvents
  import PS = PeerSync

  function Operations(actions: seq<Action>): seq<Op> {
    if actions == [] then []
    else
      Operations(actions[..|actions| - 1])
      + if actions[|actions| - 1].Operate? then [actions[|actions| - 1].op] else []
  }

  // ---- What each field should be ----------------------------------------------

  /** The room joined last, unless it was left since. */
  function RoomNow(ops: seq<Op>): RoomInfo {
    if ops == [] then NoRoom
    else
      match ops[|ops| - 1]
      case Join(name, topic, ticket) => RoomInfo(name, Some(topic), Some(ticket))
      case Leave => NoRoom
      case _ => RoomNow(ops[..|ops| - 1])
  }

  /** The last materialisation of all; leaving a room does not forget its tuning. */
  function LastView(ops: seq<Op>): Option<RoomView> {
    if ops == [] then None
    else
      match ops[|ops| - 1]
      case ApplyRoomView(view) => Some(view)
      case _ => LastView(ops[..|ops| - 1])
  }

  /** The last materialisation since the last room was left. */
  function Music(ops: seq<Op>): Option<RoomView> {
    if ops == [] then None
    else
      match ops[|ops| - 1]
      case ApplyRoomView(view) => Some(view)
      case Leave => None
      case _ => Music(ops[..|ops| - 1])
  }

  /** In the present room, the first voice of a session and then whichever came with a greater sequence. */
  function VoiceNow(ops: seq<Op>, k: (nat, nat)): Option<Voice> {
    if ops == [] then None
    else
      var before := VoiceNow(ops[..|ops| - 1], k);
      match ops[|ops| - 1]
      case Join(_, _, _) => None
      case Leave => None
      case ApplyPresence(voice) =>
        if VoiceKey(voice) == k && (before.None? || before.value.sequence < voice.sequence) then Some(voice) else before
      case _ => before
  }

  /** The last update of a peer of the present room that was not removed since. */
  function UpdateNow(ops: seq<Op>, author: nat): Option<Op> {
    if ops == [] then None
    else
      match ops[|ops| - 1]
      case Join(_, _, _) => None
      case Leave => None
      case RemovePeer(a) => if a == author then None else UpdateNow(ops[..|ops| - 1], author)
      case UpdatePeer(a, _, _, _) => if a == author then Some(ops[|ops| - 1]) else UpdateNow(ops[..|ops| - 1], author)
      case _ => UpdateNow(ops[..|ops| - 1], author)
  }

  function PortsNow(ops: seq<Op>): MidiPorts {
    if ops == [] then MidiPorts([], [])
    else
      match ops[|ops| - 1]
      case UpdatePorts(ports) => ports
      case _ => PortsNow(ops[..|ops| - 1])
  }

  // ---- The snapshot -------------------------------------------------------------

  /** Room, music and ports. */
  ghost predicate FieldsAre(s: Snapshot, ops: seq<Op>) {
    && s.room == RoomNow(ops) && s.midi == PortsNow(ops)
    && (match LastView(ops)
        case None => s.tuning.None? && s.tuningId.None?
        case Some(view) => s.tuning == Some(view.tuning) && s.tuningId == Some(view.tuning.id))
    && (match Music(ops)
        case None => s.shared == {} && s.pieces == [] && s.rules == RoomRules(false, None)
        case Some(view) => s.shared == view.shared && s.pieces == view.pieces && s.rules == view.rules)
  }

  /** A listed peer has the path and source of its last update, and the round trip never measured here. */
  ghost predicate PeerIs(peer: Option<Peer>, update: Option<Op>) {
    && (peer.Some? <==> update.Some?)
    && (update.Some? ==> update.value.UpdatePeer? && peer.value.path == update.value.path
                         && peer.value.discovery == update.value.discovery && peer.value.roundTrip.None?)
  }

  ghost predicate KeyedAre(s: Snapshot, ops: seq<Op>, k: (nat, nat), author: nat) {
    && Find(s.voices, VoiceKey, k) == VoiceNow(ops, k)
    && PeerIs(Find(s.peers, PeerKey, author), UpdateNow(ops, author))
  }

  lemma FieldsStep(c: Core, op: Op, ops: seq<Op>)
    requires FieldsAre(c.snapshot, ops) && TuningInv(c.snapshot)
    ensures FieldsAre(Apply(c, op).0.snapshot, ops + [op])
  {
    assert (ops + [op])[..|ops|] == ops;
  }

  lemma VoicesStep(c: Core, op: Op, ops: seq<Op>, k: (nat, nat))
    requires Find(c.snapshot.voices, VoiceKey, k) == VoiceNow(ops, k)
    ensures Find(Apply(c, op).0.snapshot.voices, VoiceKey, k) == VoiceNow(ops + [op], k)
  {
    assert (ops + [op])[..|ops|] == ops;
    if op.ApplyPresence? {
      UpsertFinds(c.snapshot.voices, VoiceKey, op.voice, k);
    }
  }

  lemma PeersStep(c: Core, op: Op, ops: seq<Op>, author: nat)
    requires PeerIs(Find(c.snapshot.peers, PeerKey, author), UpdateNow(ops, author))
    ensures PeerIs(Find(Apply(c, op).0.snapshot.peers, PeerKey, author), UpdateNow(ops + [op], author))
  {
    assert (ops + [op])[..|ops|] == ops;
    match op {
      case UpdatePeer(a, discovery, path, support) =>
        UpdateKeepsRoundTrip(c, a, discovery, path, support, author);
      case RemovePeer(a) => WithoutFinds(c.snapshot.peers, PeerKey, a, author);
      case MarkLane(a, lane, done) => MarkFinds(c, a, lane, done, author);
      case _ =>
    }
  }

  /** Marking a lane changes no more of a listed peer than its flag, and lists nobody. */
  lemma MarkFinds(c: Core, a: nat, lane: PS.Lane, done: bool, author: nat)
    ensures var before := Find(c.snapshot.peers, PeerKey, author);
            var after := Find(Apply(c, MarkLane(a, lane, done)).0.snapshot.peers, PeerKey, author);
            && (before.Some? <==> after.Some?)
            && (before.Some? ==> after.value == before.value.(synchronized := after.value.synchronized))
  {
    var existing := Find(c.snapshot.peers, PeerKey, a);
    if existing.Some? {
      FindHit(c.snapshot.peers, PeerKey, a);
      var sync := PS.MarkLane(SyncOf(c, a, PS.Sync(PS.Tag(lane), 0)), lane, done);
      UpsertFinds(c.snapshot.peers, PeerKey, existing.value.(synchronized := PS.Synchronized(sync)), author);
    }
  }

  /**
   In every run each field of the snapshot is what the last operation about it said: the
   room, the tuning, the shared set, pieces and rules of the last materialisation, the
   greatest voice of each session in the room, each peer's last update, the ports.
   */
  lemma {:induction false} SnapshotIsTheHistory(actions: seq<Action>, k: (nat, nat), author: nat)
    requires RunOk(actions)
    ensures FieldsAre(Run(actions).core.snapshot, Operations(actions))
    ensures KeyedAre(Run(actions).core.snapshot, Operations(actions), k, author)
  {
    if actions != [] {
      var n := |actions| - 1;
      var r := Run(actions[..n]);
      SnapshotIsTheHistory(actions[..n], k, author);
      RunKeeps(actions[..n]);
      match actions[n] {
        case Subscribe(_, _) => assert Operations(actions) == Operations(actions[..n]);
        case Operate(op, delivers) =>
          var (core, events) := Apply(r.core, op);
          EmitKeepsCore(r.(core := core), events, delivers, 0);
          FieldsStep(r.core, op, Operations(actions[..n]));
          VoicesStep(r.core, op, Operations(actions[..n]), k);
          PeersStep(r.core, op, Operations(actions[..n]), author);
      }
    }
  }

  /** And so a subscriber, from its events alone, knows the last materialisation. */
  lemma SubscribersKnowTheMusic(actions: seq<Action>, i: nat)
    requires RunOk(actions) && i < |Run(actions).subscribers|
    ensures var seen := LogView(Run(actions).subscribers[i].log);
            var ops := Operations(actions);
            && seen.room == RoomNow(ops) && seen.midi == PortsNow(ops)
            && (LastView(ops).Some? ==> seen.tuning == Some(LastView(ops).value.tuning))
            && (match Music(ops)
                case None => seen.shared == {} && seen.pieces == map[] && seen.rules == RoomRules(false, None)
                case Some(view) => && seen.shared == view.shared && seen.rules == view.rules
                                   && seen.pieces == ToMap(view.pieces, PieceKey))
  {
    EventsReproduceTheSnapshot(actions);
    SnapshotIsTheHistory(actions, (0, 0), 0);
    EmptyMaps();
  }

  // ---- Who is still subscribed, and what they are sent -------------------------------

  /** The number of the k-th event after a sequence; numbers stop growing at the greatest. */
  function Number(sequence: nat, k: nat): nat {
    if sequence + k + 1 <= MAX_SEQUENCE then sequence + k + 1 else MAX_SEQUENCE
  }

  /** A log with some events appended, numbered on one by one. */
  function Continued(log: seq<Envelope>, sequence: nat, events: seq<AppEvent>): seq<Envelope> {
    log + seq(|events|, k requires 0 <= k < |events| => Envelope(Number(sequence, k), events[k]))
  }

  /** The subscriber's channel takes all of n events, the first of them being number `from` of the operation. */
  ghost predicate TakesAll(id: nat, delivers: (nat, nat) -> bool, from: nat, n: nat) {
    forall k :: from <= k < from + n ==> delivers(k, id)
  }

  /** The subscriber an earlier one has become, if its channel took everything. */
  ghost predicate Became(s: Subscriber, t: Subscriber, sequence: nat, events: seq<AppEvent>,
                         delivers: (nat, nat) -> bool, from: nat) {
    TakesAll(s.id, delivers, from, |events|) && t == Subscriber(s.id, Continued(s.log, sequence, events))
  }

  /** What some subscriber has become, its channel having taken everything. */
  ghost predicate Served(subs: seq<Subscriber>, t: Subscriber, sequence: nat, events: seq<AppEvent>,
                         delivers: (nat, nat) -> bool, from: nat) {
    exists s :: s in subs && Became(s, t, sequence, events, delivers, from)
  }

  lemma {:induction false} DeliverIff(subs: seq<Subscriber>, e: Envelope, delivers: nat -> bool, t: Subscriber)
    ensures t in Deliver(subs, e, delivers)
            <==> exists s :: s in subs && delivers(s.id) && t == Subscriber(s.id, s.log + [e])
  {
    if subs != [] {
      DeliverIff(subs[1..], e, delivers, t);
      if s :| s in subs && delivers(s.id) && t == Subscriber(s.id, s.log + [e]) {
        assert s == subs[0] || s in subs[1..];
      }
    }
  }

  lemma ContinuedCons(log: seq<Envelope>, sequence: nat, events: seq<AppEvent>)
    requires events != [] && sequence <= MAX_SEQUENCE
    ensures Continued(log + [Envelope(NextSequence(sequence), events[0])], NextSequence(sequence), events[1..])
         == Continued(log, sequence, events)
  {
    var a := Continued(log + [Envelope(NextSequence(sequence), events[0])], NextSequence(sequence), events[1..]);
    var b := Continued(log, sequence, events);
    forall i | 0 <= i < |a| ensures a[i] == b[i] {
      if i > |log| {
        assert events[1..][i - |log| - 1] == events[i - |log|];
      }
    }
  }

  lemma {:induction false} EmitAllIff(r: Runtime, events: seq<AppEvent>, delivers: (nat, nat) -> bool, from: nat,
                                      t: Subscriber)
    requires r.sequence <= MAX_SEQUENCE
    ensures var r' := EmitAll(r, events, delivers, from);
            && (t in r'.subscribers <==> Served(r.subscribers, t, r.sequence, events, delivers, from))
            && r'.sequence == if events == [] then r.sequence else Number(r.sequence, |events| - 1)
    decreases |events|
  {
    if events == [] {
      forall s: Subscriber ensures Became(s, t, r.sequence, events, delivers, from) <==> t == s {
        assert Continued(s.log, r.sequence, events) == s.log;
      }
    } else {
      var d := (id: nat) => delivers(from, id);
      var r1 := Emit(r, events[0], d);
      var e := Envelope(NextSequence(r.sequence), events[0]);
      EmitAllIff(r1, events[1..], delivers, from + 1, t);
      if s :| s in r.subscribers && Became(s, t, r.sequence, events, delivers, from) {
        FirstThenRest(s, t, r.sequence, events, delivers, from);
        DeliverIff(r.subscribers, e, d, Subscriber(s.id, s.log + [e]));
      }
      if s1 :| s1 in r1.subscribers && Became(s1, t, r1.sequence, events[1..], delivers, from + 1) {
        DeliverIff(r.subscribers, e, d, s1);
        var s :| s in r.subscribers && d(s.id) && s1 == Subscriber(s.id, s.log + [e]);
        FirstThenRest(s, t, r.sequence, events, delivers, from);
      }
    }
  }

  lemma FirstThenRest(s: Subscriber, t: Subscriber, sequence: nat, events: seq<AppEvent>,
                      delivers: (nat, nat) -> bool, from: nat)
    requires events != [] && sequence <= MAX_SEQUENCE
    ensures var n := NextSequence(sequence);
            Became(s, t, sequence, events, delivers, from)
            <==> delivers(from, s.id)
                 && Became(Subscriber(s.id, s.log + [Envelope(n, events[0])]), t, n, events[1..], delivers, from + 1)
  {
    ContinuedCons(s.log, sequence, events);
    TakesFirst(s.id, delivers, from, |events|);
  }

  lemma TakesFirst(id: nat, delivers: (nat, nat) -> bool, from: nat, n: nat)
    requires n > 0
    ensures TakesAll(id, delivers, from, n) <==> delivers(from, id) && TakesAll(id, delivers, from + 1, n - 1)
  {
    if TakesAll(id, delivers, from, n) {
      assert from <= from < from + n;
      assert delivers(from, id);
      forall k | from + 1 <= k < from + n ensures delivers(k, id) {
      }
      assert TakesAll(id, delivers, from + 1, n - 1);
    }
    if delivers(from, id) && TakesAll(id, delivers, from + 1, n - 1) {
      forall k | from <= k < from + n ensures delivers(k, id) {
      }
      assert TakesAll(id, delivers, from, n);
    }
  }

  /**
   In any run an operation leaves subscribed exactly those whose channels took all its
   events; each has then been sent just these events, in order, under the next numbers one
   by one; and the numbers go on from there.
   */
  lemma OperationReachesSubscribers(actions: seq<Action>, op: Op, delivers: (nat, nat) -> bool, t: Subscriber)
    requires RunOk(actions)
    ensures var r, r' := Run(actions), Run(actions + [Operate(op, delivers)]);
            var events := Apply(r.core, op).1;
            && (t in r'.subscribers <==> Served(r.subscribers, t, r.sequence, events, delivers, 0))
            && r'.sequence == if events == [] then r.sequence else Number(r.sequence, |events| - 1)
  {
    RunKeeps(actions);
    assert (actions + [Operate(op, delivers)])[..|actions|] == actions;
    var r := Run(actions);
    var r1 := r.(core := Apply(r.core, op).0);
    EmitAllIff(r1, Apply(r.core, op).1, delivers, 0, t);
    assert Run(actions + [Operate(op, delivers)]) == EmitAll(r1, Apply(r.core, op).1, delivers, 0);
    assert r1.subscribers == r.subscribers && r1.sequence == r.sequence;
  }

  /** And a new subscriber is added to the others, with the whole snapshot under the next number, if that gets out. */
  lemma SubscriptionAdds(actions: seq<Action>, id: nat, ok: bool, t: Subscriber)
    ensures var r, r' := Run(actions), Run(actions + [Subscribe(id, ok)]);
            var first := Subscriber(id, [Envelope(NextSequence(r.sequence), FullSnapshot(r.core.snapshot))]);
            && (t in r'.subscribers <==> t in r.subscribers || (ok && t == first))
            && r'.core == r.core && r'.sequence == NextSequence(r.sequence)
  {
    assert (actions + [Subscribe(id, ok)])[..|actions|] == actions;
  }

  /** A reported diagnostic goes out once and changes nothing anyone could see. */
  lemma ReportsGoOut(c: Core)
    ensures Apply(c, Report) == (c, [Diagnostic]) && Read(ViewOf(c.snapshot), Diagnostic) == ViewOf(c.snapshot)
  {
  }
}
