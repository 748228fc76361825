/** The runtime state as it is kept under its lock: a snapshot of vectors, bit fields and live channels. */
module AppRuntime {
  import opened Prelude
  import opened KeyedSeq
  import opened DesktopRuntime
  import PS = PeerSync

  /** Linear search, as the vectors are searched. */
  method Position<K(==), V>(s: seq<V>, key: V -> K, k: K) returns (i: nat)
    ensures i <= |s|
    ensures i < |s| ==> key(s[i]) == k
    ensures forall j :: 0 <= j < i ==> key(s[j]) != k
  {
    i := 0;
    while i < |s| && key(s[i]) != k
      invariant i <= |s|
      invariant forall j :: 0 <= j < i ==> key(s[j]) != k
    {
      i := i + 1;
    }
  }

  lemma {:induction false} PositionFinds<K, V>(s: seq<V>, key: V -> K, k: K, i: nat)
    requires i <= |s| && (i < |s| ==> key(s[i]) == k) && forall j :: 0 <= j < i ==> key(s[j]) != k
    ensures Find(s, key, k) == if i < |s| then Some(s[i]) else None
  {
    if i > 0 {
      assert forall j :: 0 <= j < i - 1 ==> s[1..][j] == s[j + 1];
      PositionFinds(s[1..], key, k, i - 1);
    }
  }

  lemma {:induction false} PositionUpserts<K, V>(s: seq<V>, key: V -> K, v: V, i: nat)
    requires i <= |s| && (i < |s| ==> key(s[i]) == key(v)) && forall j :: 0 <= j < i ==> key(s[j]) != key(v)
    ensures Upsert(s, key, v) == if i < |s| then s[i := v] else s + [v]
  {
    if i > 0 {
      assert forall j :: 0 <= j < i - 1 ==> s[1..][j] == s[j + 1];
      PositionUpserts(s[1..], key, v, i - 1);
    }
  }

  lemma {:induction false} DeliverLast(subs: seq<Subscriber>, x: Subscriber, e: Envelope, delivers: nat -> bool)
    ensures Deliver(subs + [x], e, delivers)
         == Deliver(subs, e, delivers) + (if delivers(x.id) then [x.(log := x.log + [e])] else [])
  {
    if subs == [] {
      assert subs + [x] == [x];
    } else {
      DeliverLast(subs[1..], x, e, delivers);
      assert (subs + [x])[0] == subs[0] && (subs + [x])[1..] == subs[1..] + [x];
    }
  }

  lemma {:induction false} RemovedLast(was: seq<Piece>, x: Piece, pieces: seq<Piece>)
    ensures RemovedPieces(was + [x], pieces)
         == RemovedPieces(was, pieces) + RemovalOf(x, pieces)
  {
    if was == [] {
      assert was + [x] == [x];
    } else {
      RemovedLast(was[1..], x, pieces);
      assert (was + [x])[0] == was[0] && (was + [x])[1..] == was[1..] + [x];
    }
  }

  lemma {:induction false} UpsertedLast(was: seq<Piece>, pieces: seq<Piece>, x: Piece)
    ensures UpsertedPieces(was, pieces + [x])
         == UpsertedPieces(was, pieces) + UpsertOf(was, x)
  {
    if pieces == [] {
      assert pieces + [x] == [x];
    } else {
      UpsertedLast(was, pieces[1..], x);
      assert (pieces + [x])[0] == pieces[0] && (pieces + [x])[1..] == pieces[1..] + [x];
    }
  }

  /** Send to each subscriber in turn and keep those whose channel took the envelope. */
  method Retain(subs: seq<Subscriber>, e: Envelope, delivers: nat -> bool) returns (kept: seq<Subscriber>)
    ensures kept == Deliver(subs, e, delivers)
  {
    kept := [];
    var i := 0;
    while i < |subs|
      invariant i <= |subs|
      invariant kept == Deliver(subs[..i], e, delivers)
    {
      DeliverLast(subs[..i], subs[i], e, delivers);
      assert subs[..i + 1] == subs[..i] + [subs[i]];
      if delivers(subs[i].id) {
        kept := kept + [subs[i].(log := subs[i].log + [e])];
      }
      i := i + 1;
    }
    assert subs[..i] == subs;
  }

  method RemovedEvents(was: seq<Piece>, pieces: seq<Piece>) returns (events: seq<AppEvent>)
    ensures events == RemovedPieces(was, pieces)
  {
    events := [];
    var i := 0;
    while i < |was|
      invariant i <= |was|
      invariant events == RemovedPieces(was[..i], pieces)
    {
      var at := Position(pieces, PieceKey, was[i].id);
      PositionFinds(pieces, PieceKey, was[i].id, at);
      RemovedLast(was[..i], was[i], pieces);
      assert was[..i + 1] == was[..i] + [was[i]];
      if at == |pieces| {
        events := events + [PieceRemoved(was[i].id)];
      }
      i := i + 1;
    }
    assert was[..i] == was;
  }

  method UpsertedEvents(was: seq<Piece>, pieces: seq<Piece>) returns (events: seq<AppEvent>)
    ensures events == UpsertedPieces(was, pieces)
  {
    events := [];
    var i := 0;
    while i < |pieces|
      invariant i <= |pieces|
      invariant events == UpsertedPieces(was, pieces[..i])
    {
      var at := Position(was, PieceKey, pieces[i].id);
      PositionFinds(was, PieceKey, pieces[i].id, at);
      UpsertedLast(was, pieces[..i], pieces[i]);
      assert pieces[..i + 1] == pieces[..i] + [pieces[i]];
      if at == |was| || was[at] != pieces[i] {
        events := events + [PieceUpserted(pieces[i])];
      }
      i := i + 1;
    }
    assert pieces[..i] == pieces;
  }

  class RuntimeState {
    var sequence: nat
    var snapshot: Snapshot
    var peerSync: map<nat, PS.Sync>
    var subscribers: seq<Subscriber>

    function State(): Runtime
      reads this
    {
      Runtime(Core(snapshot, peerSync), sequence, subscribers)
    }

    constructor ()
      ensures State() == InitialRuntime
    {
      sequence := 0;
      snapshot := EmptySnapshot;
      peerSync := map[];
      subscribers := [];
    }

    method EmitLocked(event: AppEvent, delivers: nat -> bool)
      modifies this`sequence, this`subscribers
      ensures State() == Emit(old(State()), event, delivers)
    {
      sequence := NextSequence(sequence);
      subscribers := Retain(subscribers, Envelope(sequence, event), delivers);
    }

    method EmitEvents(events: seq<AppEvent>, delivers: (nat, nat) -> bool)
      modifies this`sequence, this`subscribers
      ensures State() == EmitAll(old(State()), events, delivers, 0)
    {
      var i := 0;
      while i < |events|
        invariant i <= |events|
        invariant EmitAll(State(), events[i..], delivers, i) == EmitAll(old(State()), events, delivers, 0)
      {
        assert events[i..][1..] == events[i + 1..];
        EmitLocked(events[i], (id: nat) => delivers(i, id));
        i := i + 1;
      }
    }

    method RegisterSubscriber(id: nat, ok: bool)
      modifies this
      ensures State() == Register(old(State()), id, ok)
    {
      sequence := NextSequence(sequence);
      var envelope := Envelope(sequence, FullSnapshot(snapshot));
      if !ok {
        return;
      }
      subscribers := subscribers + [Subscriber(id, [envelope])];
    }

    method EnterRoom(name: Option<string>, topic: string, ticket: string, delivers: (nat, nat) -> bool)
      modifies this
      ensures State() == Step(old(State()), Operate(Join(name, topic, ticket), delivers))
    {
      var room := RoomInfo(name, Some(topic), Some(ticket));
      snapshot := snapshot.(room := room);
      peerSync := map[];
      snapshot := snapshot.(peers := []);
      snapshot := snapshot.(voices := []);
      EmitEvents([RoomChanged(room)], delivers);
    }

    method LeaveRoom(delivers: (nat, nat) -> bool)
      modifies this
      ensures State() == Step(old(State()), Operate(Leave, delivers))
    {
      snapshot := snapshot.(room := NoRoom);
      snapshot := snapshot.(shared := {}, pieces := [], rules := RoomRules(false, None));
      snapshot := snapshot.(voices := []);
      peerSync := map[];
      snapshot := snapshot.(peers := []);
      EmitEvents([RoomChanged(NoRoom)], delivers);
    }

    /** Install a materialisation and collect its events; nothing is sent yet. */
    method InstallView(view: RoomView) returns (events: seq<AppEvent>)
      modifies this`snapshot
      ensures snapshot == WithView(old(snapshot), view)
      ensures events == ViewEvents(old(snapshot), view)
    {
      events := [];
      ghost var s := snapshot;
      if snapshot.tuning != Some(view.tuning) {
        snapshot := snapshot.(tuning := Some(view.tuning), tuningId := Some(view.tuning.id));
        events := events + [TuningChanged(view.tuning)];
      }
      if snapshot.shared != view.shared {
        snapshot := snapshot.(shared := view.shared);
        events := events + [PitchSetChanged(view.shared)];
      }
      ghost var first := events;
      assert first == (if s.tuning != Some(view.tuning) then [TuningChanged(view.tuning)] else [])
                      + (if s.shared != view.shared then [PitchSetChanged(view.shared)] else []);
      var removed := RemovedEvents(snapshot.pieces, view.pieces);
      var upserted := UpsertedEvents(snapshot.pieces, view.pieces);
      events := events + removed + upserted;
      assert events == first + RemovedPieces(s.pieces, view.pieces) + UpsertedPieces(s.pieces, view.pieces);
      snapshot := snapshot.(pieces := view.pieces);
      if snapshot.rules != view.rules {
        snapshot := snapshot.(rules := view.rules);
        events := events + [RoomConfigChanged(view.rules)];
      }
    }

    method ApplyView(view: RoomView, delivers: (nat, nat) -> bool)
      modifies this
      ensures State() == Step(old(State()), Operate(ApplyRoomView(view), delivers))
    {
      var events := InstallView(view);
      EmitEvents(events, delivers);
    }

    method Presence(voice: Voice, delivers: (nat, nat) -> bool)
      modifies this
      ensures State() == Step(old(State()), Operate(ApplyPresence(voice), delivers))
    {
      var voices := snapshot.voices;
      var i := Position(voices, VoiceKey, VoiceKey(voice));
      PositionFinds(voices, VoiceKey, VoiceKey(voice), i);
      PositionUpserts(voices, VoiceKey, voice, i);
      if i < |voices| {
        if voice.sequence <= voices[i].sequence {
          return;
        }
        snapshot := snapshot.(voices := voices[i := voice]);
      } else {
        snapshot := snapshot.(voices := voices + [voice]);
      }
      EmitEvents([VoiceUpdated(voice)], delivers);
    }

    method PeerChanged(author: nat, discovery: nat, path: PS.PeerPath, support: bv8, delivers: (nat, nat) -> bool)
      modifies this
      ensures State() == Step(old(State()), Operate(UpdatePeer(author, discovery, path, support), delivers))
    {
      var sync := if author in peerSync then peerSync[author] else PS.Sync(0, 0);
      sync := PS.UpdateRequirements(sync, support, path);
      peerSync := peerSync[author := sync];
      var peer := Peer(author, path, discovery, None, PS.Synchronized(sync));
      var peers := snapshot.peers;
      var i := Position(peers, PeerKey, author);
      PositionFinds(peers, PeerKey, author, i);
      if i < |peers| {
        peer := peer.(roundTrip := peers[i].roundTrip);
        PositionUpserts(peers, PeerKey, peer, i);
        snapshot := snapshot.(peers := peers[i := peer]);
      } else {
        snapshot := snapshot.(peers := Insert(peers, PeerKey, peer));
      }
      EmitEvents([PeerUpdated(peer)], delivers);
    }

    method PeerGone(author: nat, delivers: (nat, nat) -> bool)
      modifies this
      ensures State() == Step(old(State()), Operate(RemovePeer(author), delivers))
    {
      peerSync := peerSync - {author};
      snapshot := snapshot.(peers := Without(snapshot.peers, PeerKey, author));
      EmitEvents([PeerRemoved(author)], delivers);
    }

    method LaneMarked(author: nat, lane: PS.Lane, done: bool, delivers: (nat, nat) -> bool)
      modifies this
      ensures State() == Step(old(State()), Operate(MarkLane(author, lane, done), delivers))
    {
      var sync := if author in peerSync then peerSync[author] else PS.Sync(PS.Tag(lane), 0);
      sync := PS.MarkLane(sync, lane, done);
      peerSync := peerSync[author := sync];
      var peers := snapshot.peers;
      var i := Position(peers, PeerKey, author);
      PositionFinds(peers, PeerKey, author, i);
      if i == |peers| {
        return;
      }
      if peers[i].synchronized == PS.Synchronized(sync) {
        return;
      }
      var peer := peers[i].(synchronized := PS.Synchronized(sync));
      PositionUpserts(peers, PeerKey, peer, i);
      snapshot := snapshot.(peers := peers[i := peer]);
      EmitEvents([PeerUpdated(peer)], delivers);
    }
  }
}
