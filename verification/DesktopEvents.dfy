/** The event stream agrees with the snapshot it summarises, for every run of the runtime. */
module DesktopEvents {
  import opened Prelude
  import opened KeyedSeq
  import opened DesktopRuntime
  import PS = PeerSync

  lemma {:induction false} ReadAppend(v: View, a: seq<AppEvent>, b: seq<AppEvent>)
    ensures ReadAll(v, a + b) == ReadAll(ReadAll(v, a), b)
    decreases |a|
  {
    if a == [] {
      assert a + b == b;
    } else {
      assert (a + b)[1..] == a[1..] + b;
      ReadAppend(Read(v, a[0]), a[1..], b);
    }
  }

  lemma ReadOne(v: View, e: AppEvent)
    ensures ReadAll(v, [e]) == Read(v, e)
  {
    assert [e][1..] == [];
  }

  // ---- Pieces -----------------------------------------------------------------

  /** Reading the removals takes out exactly the ids that are gone. */
  lemma {:induction false} ReadRemovals(v: View, old_: seq<Piece>, new_: seq<Piece>)
    ensures var v' := ReadAll(v, RemovedPieces(old_, new_));
            && v' == v.(pieces := v'.pieces)
            && (forall k :: k in v'.pieces <==>
                              (k in v.pieces && !(k in Keys(old_, PieceKey) && Find(new_, PieceKey, k).None?)))
            && (forall k :: k in v'.pieces ==> v'.pieces[k] == v.pieces[k])
    decreases |old_|
  {
    if old_ != [] {
      var id := old_[0].id;
      var rest := RemovedPieces(old_[1..], new_);
      KeysStep(old_);
      if Find(new_, PieceKey, id).None? {
        assert RemovedPieces(old_, new_) == [PieceRemoved(id)] + rest;
        ReadAppend(v, [PieceRemoved(id)], rest);
        ReadOne(v, PieceRemoved(id));
        ReadRemovals(Read(v, PieceRemoved(id)), old_[1..], new_);
      } else {
        assert RemovedPieces(old_, new_) == rest;
        ReadRemovals(v, old_[1..], new_);
      }
    }
  }

  lemma KeysStep(s: seq<Piece>)
    requires s != []
    ensures Keys(s, PieceKey) == Keys(s[1..], PieceKey) + {s[0].id}
  {
    forall k ensures k in Keys(s, PieceKey) <==> k in Keys(s[1..], PieceKey) || k == s[0].id {
      if k in Keys(s, PieceKey) && k != s[0].id {
        var i :| 0 <= i < |s| && PieceKey(s[i]) == k;
        assert PieceKey(s[1..][i - 1]) == k;
      }
      if k in Keys(s[1..], PieceKey) {
        var i :| 0 <= i < |s[1..]| && PieceKey(s[1..][i]) == k;
        assert PieceKey(s[i + 1]) == k;
      }
      assert PieceKey(s[0]) == s[0].id;
    }
  }

  /** Reading the upserts puts in exactly the pieces that are new or different. */
  lemma {:induction false} ReadUpserts(v: View, old_: seq<Piece>, new_: seq<Piece>)
    requires Ascending(new_, PieceKey)
    ensures var v' := ReadAll(v, UpsertedPieces(old_, new_));
            && v' == v.(pieces := v'.pieces)
            && forall k :: UpsertedAt(v.pieces, v'.pieces, old_, new_, k)
    decreases |new_|
  {
    if new_ != [] {
      var p := new_[0];
      var rest := UpsertedPieces(old_, new_[1..]);
      if Find(old_, PieceKey, p.id) != Some(p) {
        assert UpsertedPieces(old_, new_) == [PieceUpserted(p)] + rest;
        ReadAppend(v, [PieceUpserted(p)], rest);
        ReadOne(v, PieceUpserted(p));
        ReadUpserts(Read(v, PieceUpserted(p)), old_, new_[1..]);
      } else {
        assert UpsertedPieces(old_, new_) == rest;
        ReadUpserts(v, old_, new_[1..]);
      }
      var v' := ReadAll(v, UpsertedPieces(old_, new_));
      forall k ensures UpsertedAt(v.pieces, v'.pieces, old_, new_, k) {
        UpsertedAtCons(v.pieces, v'.pieces, old_, new_, k);
      }
    }
  }

  lemma UpsertedAtCons(before: map<nat, Piece>, after: map<nat, Piece>, old_: seq<Piece>, new_: seq<Piece>, k: nat)
    requires new_ != [] && Ascending(new_, PieceKey)
    requires var p := new_[0];
             var before1 := if Find(old_, PieceKey, p.id) != Some(p) then before[p.id := p] else before;
             UpsertedAt(before1, after, old_, new_[1..], k)
    ensures UpsertedAt(before, after, old_, new_, k)
  {
    FirstIsOnly(new_);
  }

  ghost predicate UpsertedAt(before: map<nat, Piece>, after: map<nat, Piece>, old_: seq<Piece>, new_: seq<Piece>,
                             k: nat) {
    var found := Find(new_, PieceKey, k);
    if found.Some? && Find(old_, PieceKey, k) != found then k in after && after[k] == found.value
    else (k in after <==> k in before) && (k in before ==> after[k] == before[k])
  }

  lemma FirstIsOnly(s: seq<Piece>)
    requires s != [] && Ascending(s, PieceKey)
    ensures Find(s[1..], PieceKey, s[0].id).None?
  {
    FindHit(s[1..], PieceKey, s[0].id);
  }

  /** Removals then upserts turn the old piece map into the new one. */
  lemma ReadPieces(v: View, old_: seq<Piece>, new_: seq<Piece>)
    requires Ascending(new_, PieceKey) && v.pieces == ToMap(old_, PieceKey)
    ensures ReadAll(v, RemovedPieces(old_, new_) + UpsertedPieces(old_, new_)) == v.(pieces := ToMap(new_, PieceKey))
  {
    var v1 := ReadAll(v, RemovedPieces(old_, new_));
    var v2 := ReadAll(v1, UpsertedPieces(old_, new_));
    ReadAppend(v, RemovedPieces(old_, new_), UpsertedPieces(old_, new_));
    ReadRemovals(v, old_, new_);
    ReadUpserts(v1, old_, new_);
    forall k: nat
      ensures k in v2.pieces <==> k in ToMap(new_, PieceKey)
      ensures k in v2.pieces ==> v2.pieces[k] == ToMap(new_, PieceKey)[k]
    {
      assert UpsertedAt(v1.pieces, v2.pieces, old_, new_, k);
      PieceAt(v1.pieces, v2.pieces, old_, new_, k);
    }
    assert v2.pieces == ToMap(new_, PieceKey);
  }

  lemma PieceAt(kept: map<nat, Piece>, after: map<nat, Piece>, old_: seq<Piece>, new_: seq<Piece>, k: nat)
    requires UpsertedAt(kept, after, old_, new_, k)
    requires k in kept <==> k in ToMap(old_, PieceKey) && !(k in Keys(old_, PieceKey) && Find(new_, PieceKey, k).None?)
    requires k in kept ==> kept[k] == ToMap(old_, PieceKey)[k]
    ensures k in after <==> k in ToMap(new_, PieceKey)
    ensures k in after ==> after[k] == ToMap(new_, PieceKey)[k]
  {
    MapLookup(new_, PieceKey, k);
    MapLookup(old_, PieceKey, k);
    FindHit(old_, PieceKey, k);
  }

  // ---- One operation ------------------------------------------------------------

  ghost predicate OpOk(op: Op) {
    op.ApplyRoomView? ==> Ascending(op.view.pieces, PieceKey)
  }

  lemma ReadFour(v: View, a: seq<AppEvent>, b: seq<AppEvent>, cd: seq<AppEvent>, e: seq<AppEvent>)
    ensures ReadAll(v, a + b + cd + e) == ReadAll(ReadAll(ReadAll(ReadAll(v, a), b), cd), e)
  {
    ReadAppend(v, a + b + cd, e);
    ReadAppend(v, a + b, cd);
    ReadAppend(v, a, b);
  }

  lemma ReadTuning(s: Snapshot, v: View, tuning: Tuning)
    requires TuningInv(s) && v.tuning == s.tuning && v.tuningId == s.tuningId
    ensures ReadAll(v, if s.tuning != Some(tuning) then [TuningChanged(tuning)] else [])
         == v.(tuning := Some(tuning), tuningId := Some(tuning.id))
  {
    ReadOptional(v, TuningChanged(tuning));
  }

  lemma ReadShared(v: View, shared: set<nat>)
    ensures ReadAll(v, if v.shared != shared then [PitchSetChanged(shared)] else []) == v.(shared := shared)
  {
    ReadOptional(v, PitchSetChanged(shared));
  }

  lemma ReadRules(v: View, rules: RoomRules)
    ensures ReadAll(v, if v.rules != rules then [RoomConfigChanged(rules)] else []) == v.(rules := rules)
  {
    ReadOptional(v, RoomConfigChanged(rules));
  }

  lemma ReadRoomView(s: Snapshot, view: RoomView)
    requires Ascending(view.pieces, PieceKey) && TuningInv(s)
    ensures ReadAll(ViewOf(s), ViewEvents(s, view)) == ViewOf(WithView(s, view))
  {
    var a := if s.tuning != Some(view.tuning) then [TuningChanged(view.tuning)] else [];
    var b := if s.shared != view.shared then [PitchSetChanged(view.shared)] else [];
    var c := RemovedPieces(s.pieces, view.pieces);
    var d := UpsertedPieces(s.pieces, view.pieces);
    var e := if s.rules != view.rules then [RoomConfigChanged(view.rules)] else [];
    Regroup(a + b, c, d, e);
    var v := ViewOf(s);
    ReadFour(v, a, b, c + d, e);
    ReadTuning(s, v, view.tuning);
    var v1 := v.(tuning := Some(view.tuning), tuningId := Some(view.tuning.id));
    ReadShared(v1, view.shared);
    var v2 := v1.(shared := view.shared);
    ReadPieces(v2, s.pieces, view.pieces);
    ReadRules(v2.(pieces := ToMap(view.pieces, PieceKey)), view.rules);
  }

  lemma Regroup(ab: seq<AppEvent>, c: seq<AppEvent>, d: seq<AppEvent>, e: seq<AppEvent>)
    ensures ab + c + d + e == ab + (c + d) + e
  {
    assert ab + c + d == ab + (c + d);
  }

  lemma ReadOptional(v: View, e: AppEvent)
    ensures ReadAll(v, []) == v && ReadAll(v, [e]) == Read(v, e)
  {
    ReadOne(v, e);
  }

  /** The tuning and its id travel together. */
  ghost predicate TuningInv(s: Snapshot) {
    s.tuning.Some? ==> s.tuningId == Some(s.tuning.value.id)
  }

  lemma ReadPutPeer(s: Snapshot, peer: Peer)
    ensures Read(ViewOf(s), PeerUpdated(peer)) == ViewOf(s.(peers := PutPeer(s.peers, peer)))
  {
    if Find(s.peers, PeerKey, peer.author).Some? {
      UpsertMap(s.peers, PeerKey, peer);
    } else {
      InsertMap(s.peers, PeerKey, peer);
    }
  }

  /** What an operation emits, read over the old snapshot, gives the new snapshot. */
  lemma OperationIsSummarised(c: Core, op: Op)
    requires OpOk(op) && TuningInv(c.snapshot)
    ensures ReadAll(ViewOf(c.snapshot), Apply(c, op).1) == ViewOf(Apply(c, op).0.snapshot)
    ensures TuningInv(Apply(c, op).0.snapshot)
  {
    var s := c.snapshot;
    match op {
      case Join(name, topic, ticket) =>
        ReadOne(ViewOf(s), Apply(c, op).1[0]);
        EmptyMaps();
      case Leave =>
        ReadOne(ViewOf(s), Apply(c, op).1[0]);
        EmptyMaps();
      case ApplyRoomView(view) => ReadRoomView(s, view);
      case ApplyPresence(voice) => ReadPresence(c, voice);
      case UpdatePeer(author, discovery, path, support) =>
        var peer := Apply(c, op).1[0].peer;
        ReadOne(ViewOf(s), PeerUpdated(peer));
        ReadPutPeer(s, peer);
      case RemovePeer(author) =>
        ReadOne(ViewOf(s), PeerRemoved(author));
        WithoutMap(s.peers, PeerKey, author);
      case MarkLane(author, lane, done) => ReadMarkLane(c, author, lane, done);
      case UpdatePorts(ports) => ReadOptional(ViewOf(s), MidiPortsChanged(ports));
      case Report => ReadOne(ViewOf(s), Diagnostic);
    }
  }

  lemma EmptyMaps()
    ensures ToMap([], PieceKey) == map[] && ToMap([], VoiceKey) == map[] && ToMap([], PeerKey) == map[]
  {
  }

  lemma ReadPresence(c: Core, voice: Voice)
    ensures ReadAll(ViewOf(c.snapshot), DoPresence(c, voice).1) == ViewOf(DoPresence(c, voice).0.snapshot)
  {
    ReadOptional(ViewOf(c.snapshot), VoiceUpdated(voice));
    UpsertMap(c.snapshot.voices, VoiceKey, voice);
  }

  lemma ReadMarkLane(c: Core, author: nat, lane: PS.Lane, done: bool)
    ensures ReadAll(ViewOf(c.snapshot), DoMarkLane(c, author, lane, done).1)
            == ViewOf(DoMarkLane(c, author, lane, done).0.snapshot)
  {
    var events := DoMarkLane(c, author, lane, done).1;
    if events != [] {
      var peer := events[0].peer;
      ReadOne(ViewOf(c.snapshot), PeerUpdated(peer));
      UpsertMap(c.snapshot.peers, PeerKey, peer);
      FindHit(c.snapshot.peers, PeerKey, author);
    }
  }

  // ---- Silence ------------------------------------------------------------------

  lemma {:induction false} NoRemovalsIff(old_: seq<Piece>, new_: seq<Piece>)
    ensures RemovedPieces(old_, new_) == [] <==> forall k :: k in Keys(old_, PieceKey) ==> Find(new_, PieceKey, k).Some?
  {
    if old_ != [] {
      KeysStep(old_);
      NoRemovalsIff(old_[1..], new_);
    }
  }

  lemma {:induction false} NoUpsertsIff(old_: seq<Piece>, new_: seq<Piece>)
    requires Ascending(new_, PieceKey)
    ensures UpsertedPieces(old_, new_) == []
            <==> forall k :: Find(new_, PieceKey, k).Some? ==> Find(old_, PieceKey, k) == Find(new_, PieceKey, k)
  {
    if new_ != [] {
      NoUpsertsIff(old_, new_[1..]);
      FirstIsOnly(new_);
      assert Find(new_, PieceKey, new_[0].id) == Some(new_[0]);
    }
  }

  lemma PiecesSilentIff(old_: seq<Piece>, new_: seq<Piece>)
    requires Ascending(new_, PieceKey)
    ensures RemovedPieces(old_, new_) + UpsertedPieces(old_, new_) == []
            <==> ToMap(old_, PieceKey) == ToMap(new_, PieceKey)
  {
    NoRemovalsIff(old_, new_);
    NoUpsertsIff(old_, new_);
    forall k
      ensures k in ToMap(old_, PieceKey) <==> Find(old_, PieceKey, k).Some?
      ensures k in ToMap(new_, PieceKey) <==> Find(new_, PieceKey, k).Some?
      ensures k in ToMap(old_, PieceKey) ==> ToMap(old_, PieceKey)[k] == Find(old_, PieceKey, k).value
      ensures k in ToMap(new_, PieceKey) ==> ToMap(new_, PieceKey)[k] == Find(new_, PieceKey, k).value
      ensures k in Keys(old_, PieceKey) <==> Find(old_, PieceKey, k).Some?
    {
      MapLookup(old_, PieceKey, k);
      MapLookup(new_, PieceKey, k);
      FindHit(old_, PieceKey, k);
    }
    if RemovedPieces(old_, new_) + UpsertedPieces(old_, new_) == [] {
      assert RemovedPieces(old_, new_) == [] && UpsertedPieces(old_, new_) == [];
      forall k ensures Find(old_, PieceKey, k) == Find(new_, PieceKey, k) {
        assert Find(old_, PieceKey, k).Some? ==> k in Keys(old_, PieceKey);
      }
      SameMap(old_, new_, PieceKey);
    }
  }

  /** A room view emits nothing exactly when a subscriber could not tell the difference. */
  lemma EqualViewsEmitNothing(s: Snapshot, view: RoomView)
    requires Ascending(view.pieces, PieceKey) && TuningInv(s)
    ensures ViewEvents(s, view) == [] <==> ViewOf(s) == ViewOf(WithView(s, view))
    ensures ViewEvents(WithView(s, view), view) == []
  {
    PiecesSilentIff(s.pieces, view.pieces);
    PiecesSilentIff(view.pieces, view.pieces);
    var cd := RemovedPieces(s.pieces, view.pieces) + UpsertedPieces(s.pieces, view.pieces);
    assert ViewEvents(s, view) == [] <==>
      s.tuning == Some(view.tuning) && s.shared == view.shared && cd == [] && s.rules == view.rules;
  }

  // ---- Peers --------------------------------------------------------------------

  ghost predicate FlagOk(c: Core, p: Peer) {
    p.author in c.sync && p.synchronized == PS.Synchronized(c.sync[p.author])
  }

  ghost predicate PeersInv(c: Core) {
    && Ascending(c.snapshot.peers, PeerKey)
    && (forall p :: p in c.snapshot.peers ==> FlagOk(c, p))
  }

  lemma {:induction false} UpsertElements(s: seq<Peer>, v: Peer, x: Peer)
    requires Ascending(s, PeerKey) && Find(s, PeerKey, v.author).Some?
    ensures x in Upsert(s, PeerKey, v) <==> x == v || (x in s && x.author != v.author)
    ensures |Upsert(s, PeerKey, v)| == |s|
    ensures forall i :: 0 <= i < |s| ==> Upsert(s, PeerKey, v)[i].author == s[i].author
  {
    if PeerKey(s[0]) != PeerKey(v) {
      UpsertElements(s[1..], v, x);
    } else {
      forall y | y in s[1..] ensures y.author != v.author {
        var i :| 0 <= i < |s[1..]| && s[1..][i] == y;
        assert PeerKey(s[0]) < PeerKey(s[i + 1]);
      }
    }
  }

  lemma {:induction false} WithoutElements(s: seq<Peer>, gone: nat, x: Peer)
    ensures x in Without(s, PeerKey, gone) <==> x in s && x.author != gone
  {
    if s != [] {
      WithoutElements(s[1..], gone, x);
    }
  }

  lemma {:induction false} WithoutAscends(s: seq<Peer>, gone: nat)
    requires Ascending(s, PeerKey)
    ensures Ascending(Without(s, PeerKey, gone), PeerKey)
  {
    if s != [] {
      WithoutAscends(s[1..], gone);
      var r, rest := Without(s, PeerKey, gone), Without(s[1..], PeerKey, gone);
      if PeerKey(s[0]) != gone {
        assert r == [s[0]] + rest;
        forall j | 0 <= j < |rest| ensures PeerKey(s[0]) < PeerKey(rest[j]) {
          WithoutElements(s[1..], gone, rest[j]);
          var i :| 0 <= i < |s[1..]| && s[1..][i] == rest[j];
          assert s[i + 1] == rest[j];
        }
      } else {
        assert r == rest;
      }
    }
  }

  lemma UpsertAscends(s: seq<Peer>, v: Peer)
    requires Ascending(s, PeerKey) && Find(s, PeerKey, v.author).Some?
    ensures Ascending(Upsert(s, PeerKey, v), PeerKey)
  {
    UpsertElements(s, v, v);
    var r := Upsert(s, PeerKey, v);
    forall i, j | 0 <= i < j < |r| ensures PeerKey(r[i]) < PeerKey(r[j]) {
      assert PeerKey(s[i]) < PeerKey(s[j]);
    }
  }

  lemma UpsertKeepsPeers(c: Core, peer: Peer, sync: PS.Sync)
    requires PeersInv(c) && Find(c.snapshot.peers, PeerKey, peer.author).Some?
    requires peer.synchronized == PS.Synchronized(sync)
    ensures PeersInv(Core(c.snapshot.(peers := Upsert(c.snapshot.peers, PeerKey, peer)), c.sync[peer.author := sync]))
  {
    var c' := Core(c.snapshot.(peers := Upsert(c.snapshot.peers, PeerKey, peer)), c.sync[peer.author := sync]);
    UpsertAscends(c.snapshot.peers, peer);
    forall p | p in c'.snapshot.peers ensures FlagOk(c', p) {
      UpsertElements(c.snapshot.peers, peer, p);
      assert p != peer ==> FlagOk(c, p);
    }
  }

  lemma InsertKeepsPeers(c: Core, peer: Peer, sync: PS.Sync)
    requires PeersInv(c) && Find(c.snapshot.peers, PeerKey, peer.author).None?
    requires peer.synchronized == PS.Synchronized(sync)
    ensures PeersInv(Core(c.snapshot.(peers := Insert(c.snapshot.peers, PeerKey, peer)), c.sync[peer.author := sync]))
  {
    var c' := Core(c.snapshot.(peers := Insert(c.snapshot.peers, PeerKey, peer)), c.sync[peer.author := sync]);
    InsertAscends(c.snapshot.peers, PeerKey, peer);
    forall p | p in c'.snapshot.peers ensures FlagOk(c', p) {
      InsertElements(c.snapshot.peers, PeerKey, peer, p);
      NotListed(c.snapshot.peers, peer.author, p);
      assert p != peer ==> FlagOk(c, p);
    }
  }

  lemma NotListed(s: seq<Peer>, author: nat, p: Peer)
    requires Find(s, PeerKey, author).None?
    ensures p in s ==> p.author != author
  {
    FindHit(s, PeerKey, author);
    if p in s {
      var i :| 0 <= i < |s| && s[i] == p;
      assert PeerKey(s[i]) in Keys(s, PeerKey);
    }
  }

  lemma MarkLaneKeepsPeers(c: Core, author: nat, lane: PS.Lane, done: bool)
    requires PeersInv(c)
    ensures PeersInv(DoMarkLane(c, author, lane, done).0)
  {
    var sync := PS.MarkLane(SyncOf(c, author, PS.Sync(PS.Tag(lane), 0)), lane, done);
    var existing := Find(c.snapshot.peers, PeerKey, author);
    FindHit(c.snapshot.peers, PeerKey, author);
    var c' := DoMarkLane(c, author, lane, done).0;
    if existing.Some? && existing.value.synchronized != PS.Synchronized(sync) {
      UpsertKeepsPeers(c, existing.value.(synchronized := PS.Synchronized(sync)), sync);
    } else {
      forall p | p in c'.snapshot.peers ensures FlagOk(c', p) {
        assert FlagOk(c, p);
        if p.author == author {
          if existing.None? {
            NotListed(c.snapshot.peers, author, p);
            assert false;
          }
          SamePeer(c.snapshot.peers, p, existing.value);
        }
      }
    }
  }

  lemma SamePeer(s: seq<Peer>, p: Peer, q: Peer)
    requires Ascending(s, PeerKey) && p in s && q in s && p.author == q.author
    ensures p == q
  {
    var i :| 0 <= i < |s| && s[i] == p;
    var j :| 0 <= j < |s| && s[j] == q;
    assert PeerKey(s[i]) == PeerKey(s[j]);
  }

  lemma RemoveKeepsPeers(c: Core, author: nat)
    requires PeersInv(c)
    ensures PeersInv(Apply(c, RemovePeer(author)).0)
  {
    var c' := Apply(c, RemovePeer(author)).0;
    WithoutAscends(c.snapshot.peers, author);
    forall p | p in c'.snapshot.peers ensures FlagOk(c', p) {
      WithoutElements(c.snapshot.peers, author, p);
      assert FlagOk(c, p);
    }
  }

  lemma SamePeersKept(c: Core, c': Core)
    requires PeersInv(c) && c'.snapshot.peers == c.snapshot.peers && c'.sync == c.sync
    ensures PeersInv(c')
  {
    forall p | p in c'.snapshot.peers ensures FlagOk(c', p) {
      assert FlagOk(c, p);
    }
  }

  lemma OperationKeepsPeers(c: Core, op: Op)
    requires PeersInv(c)
    ensures PeersInv(Apply(c, op).0)
  {
    match op {
      case Join(_, _, _) =>
      case Leave =>
      case UpdatePeer(author, discovery, path, support) =>
        var sync := PS.UpdateRequirements(SyncOf(c, author, PS.Sync(0, 0)), support, path);
        var peer := DoUpdatePeer(c, author, discovery, path, support).1[0].peer;
        if Find(c.snapshot.peers, PeerKey, author).Some? {
          UpsertKeepsPeers(c, peer, sync);
        } else {
          InsertKeepsPeers(c, peer, sync);
        }
      case RemovePeer(author) => RemoveKeepsPeers(c, author);
      case MarkLane(author, lane, done) => MarkLaneKeepsPeers(c, author, lane, done);
      case _ => SamePeersKept(c, Apply(c, op).0);
    }
  }

  // ---- Subscribers ----------------------------------------------------------------

  /** Everything delivered to a subscriber, read in order. Its first event is a whole snapshot. */
  ghost function LogView(log: seq<Envelope>): View {
    if log == [] then ViewOf(EmptySnapshot) else Read(LogView(log[..|log| - 1]), log[|log| - 1].event)
  }

  ghost predicate LogInv(log: seq<Envelope>, sequence: nat) {
    && log != [] && log[0].event.FullSnapshot?
    && (forall i :: 0 <= i < |log| ==> log[i].sequence <= sequence)
    && (forall i, j :: 0 <= i < j < |log| && log[j].sequence < MAX_SEQUENCE ==> log[i].sequence < log[j].sequence)
  }

  ghost predicate FollowsTo(sub: Subscriber, v: View, sequence: nat) {
    LogInv(sub.log, sequence) && LogView(sub.log) == v
  }

  ghost predicate AllFollow(subs: seq<Subscriber>, v: View, sequence: nat) {
    forall i :: 0 <= i < |subs| ==> FollowsTo(subs[i], v, sequence)
  }

  lemma DeliveredFollows(sub: Subscriber, v: View, sequence: nat, e: AppEvent)
    requires FollowsTo(sub, v, sequence) && sequence <= MAX_SEQUENCE
    ensures var n := NextSequence(sequence);
            FollowsTo(sub.(log := sub.log + [Envelope(n, e)]), Read(v, e), n)
  {
    var log := sub.log + [Envelope(NextSequence(sequence), e)];
    assert log[..|log| - 1] == sub.log;
  }

  lemma {:induction false} DeliverFollows(subs: seq<Subscriber>, v: View, sequence: nat, e: AppEvent,
                                          delivers: nat -> bool)
    requires AllFollow(subs, v, sequence) && sequence <= MAX_SEQUENCE
    ensures var n := NextSequence(sequence);
            AllFollow(Deliver(subs, Envelope(n, e), delivers), Read(v, e), n)
  {
    if subs != [] {
      DeliverFollows(subs[1..], v, sequence, e, delivers);
      DeliveredFollows(subs[0], v, sequence, e);
    }
  }

  lemma {:induction false} EmitAllFollows(r: Runtime, v: View, events: seq<AppEvent>, delivers: (nat, nat) -> bool,
                                          k: nat)
    requires AllFollow(r.subscribers, v, r.sequence) && r.sequence <= MAX_SEQUENCE
    ensures var r' := EmitAll(r, events, delivers, k);
            && AllFollow(r'.subscribers, ReadAll(v, events), r'.sequence)
            && r'.sequence <= MAX_SEQUENCE && r'.core == r.core
    decreases |events|
  {
    if events != [] {
      var d := (id: nat) => delivers(k, id);
      DeliverFollows(r.subscribers, v, r.sequence, events[0], d);
      EmitAllFollows(Emit(r, events[0], d), Read(v, events[0]), events[1..], delivers, k + 1);
    }
  }

  ghost predicate RuntimeInv(r: Runtime) {
    && r.sequence <= MAX_SEQUENCE
    && TuningInv(r.core.snapshot)
    && PeersInv(r.core)
    && AllFollow(r.subscribers, ViewOf(r.core.snapshot), r.sequence)
  }

  lemma OperateKeeps(r: Runtime, op: Op, delivers: (nat, nat) -> bool)
    requires RuntimeInv(r) && OpOk(op)
    ensures RuntimeInv(Step(r, Operate(op, delivers)))
  {
    var (core, events) := Apply(r.core, op);
    OperationIsSummarised(r.core, op);
    OperationKeepsPeers(r.core, op);
    EmitAllFollows(r.(core := core), ViewOf(r.core.snapshot), events, delivers, 0);
  }

  lemma SubscribeKeeps(r: Runtime, id: nat, ok: bool)
    requires RuntimeInv(r)
    ensures RuntimeInv(Register(r, id, ok))
  {
    var r' := Register(r, id, ok);
    var v := ViewOf(r.core.snapshot);
    forall i | 0 <= i < |r'.subscribers| ensures FollowsTo(r'.subscribers[i], v, r'.sequence) {
      if i < |r.subscribers| {
        assert FollowsTo(r.subscribers[i], v, r.sequence);
      }
    }
  }

  ghost predicate RunOk(actions: seq<Action>) {
    forall i :: 0 <= i < |actions| && actions[i].Operate? ==> OpOk(actions[i].op)
  }

  lemma {:induction false} RunKeeps(actions: seq<Action>)
    requires RunOk(actions)
    ensures RuntimeInv(Run(actions))
  {
    if actions != [] {
      var n := |actions| - 1;
      RunKeeps(actions[..n]);
      match actions[n] {
        case Operate(op, delivers) => OperateKeeps(Run(actions[..n]), op, delivers);
        case Subscribe(id, ok) => SubscribeKeeps(Run(actions[..n]), id, ok);
      }
    }
  }

  /**
   In every run, whoever subscribes when and whichever channels fail: each live
   subscriber's events, read over the snapshot it started from, give exactly the
   runtime's current snapshot; below saturation its sequence numbers strictly increase;
   and each listed peer's flag says whether its required lanes are synchronised.
   */
  lemma EventsReproduceTheSnapshot(actions: seq<Action>)
    requires RunOk(actions)
    ensures var r := Run(actions);
            && (forall i :: 0 <= i < |r.subscribers| ==>
                              && r.subscribers[i].log != []
                              && r.subscribers[i].log[0].event.FullSnapshot?
                              && LogView(r.subscribers[i].log) == ViewOf(r.core.snapshot))
            && (forall k, i, j :: 0 <= k < |r.subscribers| && 0 <= i < j < |r.subscribers[k].log|
                                  && r.subscribers[k].log[j].sequence < MAX_SEQUENCE ==>
                                    r.subscribers[k].log[i].sequence < r.subscribers[k].log[j].sequence)
            && (forall p :: p in r.core.snapshot.peers ==>
                              p.author in r.core.sync && p.synchronized == PS.Synchronized(r.core.sync[p.author]))
  {
    RunKeeps(actions);
    var r := Run(actions);
    forall k | 0 <= k < |r.subscribers| ensures FollowsTo(r.subscribers[k], ViewOf(r.core.snapshot), r.sequence) {
    }
    forall p | p in r.core.snapshot.peers ensures FlagOk(r.core, p) {
    }
  }

  // ---- What the flags and voices mean ---------------------------------------------

  /** A peer's lane history since its entry was created: the initial requirement and the changes. */
  datatype Lanes = Lanes(required: bv8, changes: seq<PS.Change>)

  function Noted(lanes: Option<Lanes>, otherwise: bv8, c: PS.Change): Option<Lanes> {
    var l := if lanes.Some? then lanes.value else Lanes(otherwise, []);
    Some(l.(changes := l.changes + [c]))
  }

  function LanesAfter(lanes: Option<Lanes>, op: Op, author: nat): Option<Lanes> {
    match op
    case Join(_, _, _) => None
    case Leave => None
    case RemovePeer(a) => if a == author then None else lanes
    case UpdatePeer(a, _, path, support) => if a == author then Noted(lanes, 0, PS.Require(support, path)) else lanes
    case MarkLane(a, lane, done) => if a == author then Noted(lanes, PS.Tag(lane), PS.Mark(lane, done)) else lanes
    case _ => lanes
  }

  /** Read off the run alone: what happened to one author's lanes since it was last forgotten. */
  function LaneHistory(actions: seq<Action>, author: nat): Option<Lanes> {
    if actions == [] then None
    else
      var before := LaneHistory(actions[..|actions| - 1], author);
      match actions[|actions| - 1]
      case Subscribe(_, _) => before
      case Operate(op, _) => LanesAfter(before, op, author)
  }

  ghost predicate Tracks(c: Core, author: nat, lanes: Option<Lanes>) {
    && (author in c.sync <==> lanes.Some?)
    && (lanes.Some? ==> c.sync[author] == PS.Replay(PS.Sync(lanes.value.required, 0), lanes.value.changes))
  }

  lemma ReplayOneMore(start: PS.Sync, changes: seq<PS.Change>, c: PS.Change)
    ensures PS.Replay(start, changes + [c]) == PS.Change1(PS.Replay(start, changes), c)
  {
    assert (changes + [c])[..|changes|] == changes;
  }

  lemma {:induction false} EmitKeepsCore(r: Runtime, events: seq<AppEvent>, delivers: (nat, nat) -> bool, k: nat)
    ensures EmitAll(r, events, delivers, k).core == r.core
    decreases |events|
  {
    if events != [] {
      EmitKeepsCore(Emit(r, events[0], (id: nat) => delivers(k, id)), events[1..], delivers, k + 1);
    }
  }

  lemma OperationTracks(c: Core, op: Op, author: nat, lanes: Option<Lanes>)
    requires Tracks(c, author, lanes)
    ensures Tracks(Apply(c, op).0, author, LanesAfter(lanes, op, author))
  {
    if op.UpdatePeer? && op.author == author {
      NotedTracks(c, author, lanes, 0, PS.Require(op.support, op.path));
    } else if op.MarkLane? && op.author == author {
      NotedTracks(c, author, lanes, PS.Tag(op.lane), PS.Mark(op.lane, op.done));
    }
  }

  lemma {:induction false} RunTracksLanes(actions: seq<Action>, author: nat)
    ensures Tracks(Run(actions).core, author, LaneHistory(actions, author))
  {
    if actions != [] {
      var n := |actions| - 1;
      var r := Run(actions[..n]);
      RunTracksLanes(actions[..n], author);
      match actions[n] {
        case Subscribe(_, _) =>
        case Operate(op, delivers) =>
          EmitKeepsCore(r.(core := Apply(r.core, op).0), Apply(r.core, op).1, delivers, 0);
          OperationTracks(r.core, op, author, LaneHistory(actions[..n], author));
      }
    }
  }

  lemma NotedTracks(c: Core, author: nat, lanes: Option<Lanes>, otherwise: bv8, change: PS.Change)
    requires Tracks(c, author, lanes)
    ensures var l := Noted(lanes, otherwise, change).value;
            PS.Change1(SyncOf(c, author, PS.Sync(otherwise, 0)), change) == PS.Replay(PS.Sync(l.required, 0), l.changes)
  {
    var l := if lanes.Some? then lanes.value else Lanes(otherwise, []);
    ReplayOneMore(PS.Sync(l.required, 0), l.changes, change);
  }

  ghost predicate SupportsOk(actions: seq<Action>) {
    forall i :: 0 <= i < |actions| && actions[i].Operate? && actions[i].op.UpdatePeer? ==>
        PS.IsSupport(actions[i].op.support)
  }

  lemma {:induction false} HistorySupports(actions: seq<Action>, author: nat)
    requires SupportsOk(actions)
    ensures var l := LaneHistory(actions, author);
            l.Some? ==> l.value.required & !PS.WALKIE == 0 && PS.SupportsAreValid(l.value.changes)
  {
    if actions != [] {
      HistorySupports(actions[..|actions| - 1], author);
    }
  }

  /**
   In every run a listed peer is shown synchronised exactly when some lane is required of
   it and, since it was last forgotten, the last event that settled each required lane was
   a success with no disconnect and no withdrawal of the lane after it.
   */
  lemma FlagMeansLanesDone(actions: seq<Action>, p: Peer)
    requires RunOk(actions) && SupportsOk(actions) && p in Run(actions).core.snapshot.peers
    ensures LaneHistory(actions, p.author).Some?
    ensures var l := LaneHistory(actions, p.author).value;
            var support := PS.LastSupport(l.required, l.changes);
            p.synchronized <==> support != 0 && forall lane :: PS.Has(support, lane) ==> PS.LaneDone(l.changes, lane)
  {
    RunKeeps(actions);
    RunTracksLanes(actions, p.author);
    HistorySupports(actions, p.author);
    assert FlagOk(Run(actions).core, p);
    var l := LaneHistory(actions, p.author).value;
    PS.SynchronizedMeansEveryLane(l.required, l.changes);
  }

  /** An update lists the peer with its new path and source and the round trip it had. */
  lemma UpdateKeepsRoundTrip(c: Core, author: nat, discovery: nat, path: PS.PeerPath, support: bv8, other: nat)
    ensures var peers := Apply(c, UpdatePeer(author, discovery, path, support)).0.snapshot.peers;
            var before := Find(c.snapshot.peers, PeerKey, author);
            var after := Find(peers, PeerKey, author);
            && after.Some? && after.value.path == path && after.value.discovery == discovery
            && after.value.roundTrip == (if before.Some? then before.value.roundTrip else None)
            && (other != author ==> Find(peers, PeerKey, other) == Find(c.snapshot.peers, PeerKey, other))
  {
    var peer := DoUpdatePeer(c, author, discovery, path, support).1[0].peer;
    if Find(c.snapshot.peers, PeerKey, author).Some? {
      UpsertFinds(c.snapshot.peers, PeerKey, peer, author);
      UpsertFinds(c.snapshot.peers, PeerKey, peer, other);
    } else {
      InsertFinds(c.snapshot.peers, PeerKey, peer, author);
      InsertFinds(c.snapshot.peers, PeerKey, peer, other);
    }
  }

  /** Within a room a session's voice never goes back to an older sequence, and presence moves it to the greater. */
  lemma VoicesNeverGoBack(c: Core, op: Op, k: (nat, nat))
    requires !op.Join? && !op.Leave? && Find(c.snapshot.voices, VoiceKey, k).Some?
    ensures var before := Find(c.snapshot.voices, VoiceKey, k).value;
            var after := Find(Apply(c, op).0.snapshot.voices, VoiceKey, k);
            && after.Some? && before.sequence <= after.value.sequence
            && (op.ApplyPresence? && VoiceKey(op.voice) == k ==>
                  after.value == if before.sequence < op.voice.sequence then op.voice else before)
  {
    if op.ApplyPresence? {
      UpsertFinds(c.snapshot.voices, VoiceKey, op.voice, k);
    }
  }
}
