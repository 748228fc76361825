/**
 The desktop runtime: one snapshot under a lock, changed by room, peer and presence
 operations, and summarised to subscribers as a stream of events.
 */
module DesktopRuntime {
  import opened Prelude
  import opened KeyedSeq
  import PS = PeerSync

  const MAX_SEQUENCE: nat := 0xFFFF_FFFF_FFFF_FFFF

  datatype Tuning = Tuning(id: nat, body: nat)
  datatype Piece = Piece(id: nat, owner: nat, emoji: string, pitch: Option<nat>)
  datatype Voice = Voice(author: nat, session: nat, sequence: nat, pitch: Option<nat>, expires: nat)
  datatype Peer = Peer(author: nat, path: PS.PeerPath, discovery: nat, roundTrip: Option<nat>, synchronized: bool)

  function PieceKey(p: Piece): nat {
    p.id
  }

  function VoiceKey(v: Voice): (nat, nat) {
    (v.author, v.session)
  }

  function PeerKey(p: Peer): nat {
    p.author
  }

  /** Name, topic and ticket of the room entered, if any. */
  datatype RoomInfo = RoomInfo(name: Option<string>, topic: Option<string>, ticket: Option<string>)
  datatype RoomRules = RoomRules(locked: bool, emojis: Option<string>)
  datatype MidiPorts = MidiPorts(inputs: seq<nat>, outputs: seq<nat>)

  datatype Snapshot = Snapshot(
    room: RoomInfo, tuning: Option<Tuning>, tuningId: Option<nat>, shared: set<nat>,
    pieces: seq<Piece>, rules: RoomRules, voices: seq<Voice>, peers: seq<Peer>, midi: MidiPorts)

  /** What a subscriber can know of a snapshot: vectors are read by key. */
  datatype View = View(
    room: RoomInfo, tuning: Option<Tuning>, tuningId: Option<nat>, shared: set<nat>,
    pieces: map<nat, Piece>, rules: RoomRules, voices: map<(nat, nat), Voice>, peers: map<nat, Peer>, midi: MidiPorts)

  ghost function ViewOf(s: Snapshot): View {
    View(s.room, s.tuning, s.tuningId, s.shared, ToMap(s.pieces, PieceKey), s.rules,
         ToMap(s.voices, VoiceKey), ToMap(s.peers, PeerKey), s.midi)
  }

  datatype AppEvent =
    | FullSnapshot(snapshot: Snapshot)
    | RoomChanged(room: RoomInfo)
    | TuningChanged(tuning: Tuning)
    | PitchSetChanged(shared: set<nat>)
    | PieceUpserted(piece: Piece)
    | PieceRemoved(id: nat)
    | RoomConfigChanged(rules: RoomRules)
    | VoiceUpdated(voice: Voice)
    | PeerUpdated(peer: Peer)
    | PeerRemoved(author: nat)
    | MidiPortsChanged(ports: MidiPorts)
    | Diagnostic

  const NoRoom: RoomInfo := RoomInfo(None, None, None)

  /** How a subscriber reads one event: a room with a topic was joined, one without was left. */
  ghost function Read(v: View, e: AppEvent): View {
    match e
    case FullSnapshot(s) => ViewOf(s)
    case RoomChanged(room) =>
      if room.topic.Some? then v.(room := room, voices := map[], peers := map[])
      else v.(room := room, shared := {}, pieces := map[], rules := RoomRules(false, None), voices := map[],
              peers := map[])
    case TuningChanged(tuning) => v.(tuning := Some(tuning), tuningId := Some(tuning.id))
    case PitchSetChanged(shared) => v.(shared := shared)
    case PieceUpserted(piece) => v.(pieces := v.pieces[piece.id := piece])
    case PieceRemoved(id) => v.(pieces := v.pieces - {id})
    case RoomConfigChanged(rules) => v.(rules := rules)
    case VoiceUpdated(voice) => v.(voices := v.voices[VoiceKey(voice) := voice])
    case PeerUpdated(peer) => v.(peers := v.peers[peer.author := peer])
    case PeerRemoved(author) => v.(peers := v.peers - {author})
    case MidiPortsChanged(ports) => v.(midi := ports)
    case Diagnostic => v
  }

  ghost function ReadAll(v: View, events: seq<AppEvent>): View
    decreases |events|
  {
    if events == [] then v else ReadAll(Read(v, events[0]), events[1..])
  }

  // ---- Operations -------------------------------------------------------------

  /** What the replicas materialise. `pieces` lists the piece map in ascending order of id. */
  datatype RoomView = RoomView(tuning: Tuning, shared: set<nat>, pieces: seq<Piece>, rules: RoomRules)

  datatype Op =
    | Join(name: Option<string>, topic: string, ticket: string)
    | Leave
    | ApplyRoomView(view: RoomView)
    | ApplyPresence(voice: Voice)
    | UpdatePeer(author: nat, discovery: nat, path: PS.PeerPath, support: bv8)
    | RemovePeer(author: nat)
    | MarkLane(author: nat, lane: PS.Lane, done: bool)
    | UpdatePorts(ports: MidiPorts)
    | Report

  datatype Core = Core(snapshot: Snapshot, sync: map<nat, PS.Sync>)

  function RemovalOf(p: Piece, new_: seq<Piece>): seq<AppEvent> {
    if Find(new_, PieceKey, p.id).None? then [PieceRemoved(p.id)] else []
  }

  function RemovedPieces(old_: seq<Piece>, new_: seq<Piece>): seq<AppEvent> {
    if old_ == [] then [] else RemovalOf(old_[0], new_) + RemovedPieces(old_[1..], new_)
  }

  function UpsertOf(old_: seq<Piece>, p: Piece): seq<AppEvent> {
    if Find(old_, PieceKey, p.id) != Some(p) then [PieceUpserted(p)] else []
  }

  function UpsertedPieces(old_: seq<Piece>, new_: seq<Piece>): seq<AppEvent> {
    if new_ == [] then [] else UpsertOf(old_, new_[0]) + UpsertedPieces(old_, new_[1..])
  }

  /** The events for a new materialisation, in the order they are emitted. */
  function ViewEvents(s: Snapshot, v: RoomView): seq<AppEvent> {
    (if s.tuning != Some(v.tuning) then [TuningChanged(v.tuning)] else [])
    + (if s.shared != v.shared then [PitchSetChanged(v.shared)] else [])
    + RemovedPieces(s.pieces, v.pieces) + UpsertedPieces(s.pieces, v.pieces)
    + (if s.rules != v.rules then [RoomConfigChanged(v.rules)] else [])
  }

  function WithView(s: Snapshot, v: RoomView): Snapshot {
    var tuned := if s.tuning != Some(v.tuning) then s.(tuning := Some(v.tuning), tuningId := Some(v.tuning.id)) else s;
    tuned.(shared := v.shared, pieces := v.pieces, rules := v.rules)
  }

  /** A peer keeps its measured round trip; a new one is placed by author. */
  function PutPeer(peers: seq<Peer>, peer: Peer): seq<Peer> {
    if Find(peers, PeerKey, peer.author).Some? then Upsert(peers, PeerKey, peer) else Insert(peers, PeerKey, peer)
  }

  function SyncOf(c: Core, author: nat, otherwise: PS.Sync): PS.Sync {
    if author in c.sync then c.sync[author] else otherwise
  }

  function DoUpdatePeer(c: Core, author: nat, discovery: nat, path: PS.PeerPath, support: bv8): (Core, seq<AppEvent>) {
    var sync := PS.UpdateRequirements(SyncOf(c, author, PS.Sync(0, 0)), support, path);
    var existing := Find(c.snapshot.peers, PeerKey, author);
    var peer := Peer(author, path, discovery,
                     if existing.Some? then existing.value.roundTrip else None, PS.Synchronized(sync));
    (Core(c.snapshot.(peers := PutPeer(c.snapshot.peers, peer)), c.sync[author := sync]), [PeerUpdated(peer)])
  }

  function DoMarkLane(c: Core, author: nat, lane: PS.Lane, done: bool): (Core, seq<AppEvent>) {
    var sync := PS.MarkLane(SyncOf(c, author, PS.Sync(PS.Tag(lane), 0)), lane, done);
    var c1 := c.(sync := c.sync[author := sync]);
    var existing := Find(c.snapshot.peers, PeerKey, author);
    if existing.None? || existing.value.synchronized == PS.Synchronized(sync) then (c1, [])
    else
      var peer := existing.value.(synchronized := PS.Synchronized(sync));
      (c1.(snapshot := c.snapshot.(peers := Upsert(c.snapshot.peers, PeerKey, peer))), [PeerUpdated(peer)])
  }

  function DoPresence(c: Core, voice: Voice): (Core, seq<AppEvent>) {
    var existing := Find(c.snapshot.voices, VoiceKey, VoiceKey(voice));
    if existing.Some? && voice.sequence <= existing.value.sequence then (c, [])
    else (c.(snapshot := c.snapshot.(voices := Upsert(c.snapshot.voices, VoiceKey, voice))), [VoiceUpdated(voice)])
  }

  function Apply(c: Core, op: Op): (Core, seq<AppEvent>) {
    var s := c.snapshot;
    match op
    case Join(name, topic, ticket) =>
      var room := RoomInfo(name, Some(topic), Some(ticket));
      (Core(s.(room := room, voices := [], peers := []), map[]), [RoomChanged(room)])
    case Leave =>
      (Core(s.(room := NoRoom, shared := {}, pieces := [], rules := RoomRules(false, None), voices := [],
               peers := []), map[]),
       [RoomChanged(NoRoom)])
    case ApplyRoomView(view) => (c.(snapshot := WithView(s, view)), ViewEvents(s, view))
    case ApplyPresence(voice) => DoPresence(c, voice)
    case UpdatePeer(author, discovery, path, support) => DoUpdatePeer(c, author, discovery, path, support)
    case RemovePeer(author) =>
      (Core(s.(peers := Without(s.peers, PeerKey, author)), c.sync - {author}), [PeerRemoved(author)])
    case MarkLane(author, lane, done) => DoMarkLane(c, author, lane, done)
    case UpdatePorts(ports) =>
      if s.midi == ports then (c, []) else (c.(snapshot := s.(midi := ports)), [MidiPortsChanged(ports)])
    case Report => (c, [Diagnostic])
  }

  // ---- Emission ---------------------------------------------------------------

  datatype Envelope = Envelope(sequence: nat, event: AppEvent)

  /** A subscriber and everything delivered to it. */
  datatype Subscriber = Subscriber(id: nat, log: seq<Envelope>)

  datatype Runtime = Runtime(core: Core, sequence: nat, subscribers: seq<Subscriber>)

  function NextSequence(sequence: nat): nat {
    if sequence < MAX_SEQUENCE then sequence + 1 else MAX_SEQUENCE
  }

  /** `delivers` says whose channel still takes the envelope; the others are dropped. */
  function Deliver(subs: seq<Subscriber>, e: Envelope, delivers: nat -> bool): seq<Subscriber> {
    if subs == [] then []
    else (if delivers(subs[0].id) then [subs[0].(log := subs[0].log + [e])] else []) + Deliver(subs[1..], e, delivers)
  }

  function Emit(r: Runtime, event: AppEvent, delivers: nat -> bool): Runtime {
    var n := NextSequence(r.sequence);
    r.(sequence := n, subscribers := Deliver(r.subscribers, Envelope(n, event), delivers))
  }

  function EmitAll(r: Runtime, events: seq<AppEvent>, delivers: (nat, nat) -> bool, k: nat): Runtime
    decreases |events|
  {
    if events == [] then r
    else EmitAll(Emit(r, events[0], (id: nat) => delivers(k, id)), events[1..], delivers, k + 1)
  }

  /** A new subscriber gets the whole snapshot first; if even that fails it is not kept. */
  function Register(r: Runtime, id: nat, ok: bool): Runtime {
    var n := NextSequence(r.sequence);
    r.(sequence := n,
       subscribers := if ok then r.subscribers + [Subscriber(id, [Envelope(n, FullSnapshot(r.core.snapshot))])]
           else r.subscribers)
  }

  datatype Action = Operate(op: Op, delivers: (nat, nat) -> bool) | Subscribe(id: nat, ok: bool)

  function Step(r: Runtime, a: Action): Runtime {
    match a
    case Operate(op, delivers) =>
      var (core, events) := Apply(r.core, op);
      EmitAll(r.(core := core), events, delivers, 0)
    case Subscribe(id, ok) => Register(r, id, ok)
  }

  const EmptySnapshot: Snapshot :=
    Snapshot(NoRoom, None, None, {}, [], RoomRules(false, None), [], [], MidiPorts([], []))

  const InitialRuntime: Runtime := Runtime(Core(EmptySnapshot, map[]), 0, [])

  function Run(actions: seq<Action>): Runtime {
    if actions == [] then InitialRuntime else Step(Run(actions[..|actions| - 1]), actions[|actions| - 1])
  }
}
